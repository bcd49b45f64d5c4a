/**
  The time-windowed pose history of a held object: timestamped grip samples,
  oldest first, appended at the back and evicted from the front once they are
  older than the throw-history duration.
*/
module PoseHistory {
  import opened Vectors

  /** One grip sample, stamped with the clock reading at which it was taken. */
  datatype Pose = Pose(position: Vec3, rotation: Quat, time: real)

  /** Timestamps never decrease from front (oldest) to back (newest). */
  ghost predicate Chronological(h: seq<Pose>) {
    forall i, j :: 0 <= i < j < |h| ==> h[i].time <= h[j].time
  }

  /** No sample was taken after `now`. */
  ghost predicate NotAfter(h: seq<Pose>, now: real) {
    forall i :: 0 <= i < |h| ==> h[i].time <= now
  }

  /** A sample is stale when its age exceeds the window. */
  predicate Stale(p: Pose, now: real, duration: real) {
    now - p.time > duration
  }

  /** Every sample's age is within the window. */
  ghost predicate WithinWindow(h: seq<Pose>, now: real, duration: real) {
    forall i :: 0 <= i < |h| ==> !Stale(h[i], now, duration)
  }

  /** Evicts samples from the front while the oldest one is stale. */
  function Evict(h: seq<Pose>, now: real, duration: real): (r: seq<Pose>)
    ensures |r| <= |h| && r == h[|h| - |r|..]
    ensures r == [] || !Stale(r[0], now, duration)
    decreases |h|
  {
    if |h| > 0 && Stale(h[0], now, duration) then Evict(h[1..], now, duration) else h
  }

  /** Eviction removes only stale samples: everything it dropped was stale. */
  lemma {:induction false} EvictDropsOnlyStale(h: seq<Pose>, now: real, duration: real)
    ensures forall i :: 0 <= i < |h| - |Evict(h, now, duration)| ==> Stale(h[i], now, duration)
  {
    if |h| > 0 && Stale(h[0], now, duration) {
      EvictDropsOnlyStale(h[1..], now, duration);
      var r := Evict(h, now, duration);
      forall i | 0 <= i < |h| - |r| ensures Stale(h[i], now, duration) {
        if i > 0 { assert h[i] == h[1..][i - 1]; }
      }
    }
  }

  /** A non-stale newest sample survives eviction and stays last. */
  lemma EvictKeepsNewest(h: seq<Pose>, now: real, duration: real)
    requires h != [] && !Stale(h[|h| - 1], now, duration)
    ensures Evict(h, now, duration) != []
    ensures Evict(h, now, duration)[|Evict(h, now, duration)| - 1] == h[|h| - 1]
  {
    EvictDropsOnlyStale(h, now, duration);
  }

  /** Every suffix of a chronological history is chronological. */
  lemma SuffixChronological(h: seq<Pose>, k: nat)
    requires k <= |h| && Chronological(h)
    ensures Chronological(h[k..])
  {
    var r := h[k..];
    forall i, j | 0 <= i < j < |r| ensures r[i].time <= r[j].time {
      assert r[i] == h[k + i] && r[j] == h[k + j];
    }
  }

  /** A history taken no later than `now` is taken no later than any later time. */
  lemma NotAfterLater(h: seq<Pose>, now: real, later: real)
    requires NotAfter(h, now) && now <= later
    ensures NotAfter(h, later)
  {
  }

  /** Every prefix of a chronological history is chronological. */
  lemma PrefixChronological(h: seq<Pose>, k: nat)
    requires k <= |h| && Chronological(h)
    ensures Chronological(h[..k])
  {
    var r := h[..k];
    forall i, j | 0 <= i < j < |r| ensures r[i].time <= r[j].time {
      assert r[i] == h[i] && r[j] == h[j];
    }
  }

  /** Every suffix of a history taken no later than `now` is taken no later than `now`. */
  lemma SuffixNotAfter(h: seq<Pose>, k: nat, now: real)
    requires k <= |h| && NotAfter(h, now)
    ensures NotAfter(h[k..], now)
  {
    var r := h[k..];
    forall i | 0 <= i < |r| ensures r[i].time <= now {
      assert r[i] == h[k + i];
    }
  }

  /** Appending a sample no older than every sample keeps a history chronological. */
  lemma AppendChronological(h: seq<Pose>, s: Pose)
    requires Chronological(h) && NotAfter(h, s.time)
    ensures Chronological(h + [s]) && NotAfter(h + [s], s.time)
  {
    var h' := h + [s];
    forall i, j | 0 <= i < j < |h'| ensures h'[i].time <= h'[j].time {
      assert h'[i] == h[i];
      if j < |h| { assert h'[j] == h[j]; }
    }
    forall i | 0 <= i < |h'| ensures h'[i].time <= s.time {
      if i < |h| { assert h'[i] == h[i]; }
    }
  }

  /** A chronological suffix whose oldest sample is fresh lies wholly inside the window. */
  lemma FreshSuffixWithinWindow(h: seq<Pose>, k: nat, now: real, duration: real)
    requires k <= |h| && Chronological(h)
    requires k == |h| || !Stale(h[k], now, duration)
    ensures WithinWindow(h[k..], now, duration)
  {
    var r := h[k..];
    forall i | 0 <= i < |r| ensures !Stale(r[i], now, duration) {
      assert r[i] == h[k + i];
    }
  }

  /** On a chronological history eviction leaves only samples inside the window. */
  lemma EvictWindow(h: seq<Pose>, now: real, duration: real)
    requires Chronological(h)
    ensures Chronological(Evict(h, now, duration))
    ensures WithinWindow(Evict(h, now, duration), now, duration)
  {
    var k := |h| - |Evict(h, now, duration)|;
    SuffixChronological(h, k);
    FreshSuffixWithinWindow(h, k, now, duration);
  }

  /**
    One Dynamic-phase update: append the sample taken at `now`, then evict. The
    result is a suffix of the extended history, and with a non-negative window it
    ends with the new sample.
  */
  function Record(h: seq<Pose>, position: Vec3, rotation: Quat, now: real, duration: real): (r: seq<Pose>)
    ensures |r| <= |h| + 1 && r == (h + [Pose(position, rotation, now)])[|h| + 1 - |r|..]
    ensures 0.0 <= duration ==> r != [] && r[|r| - 1] == Pose(position, rotation, now)
  {
    var h' := h + [Pose(position, rotation, now)];
    if 0.0 <= duration then EvictKeepsNewest(h', now, duration); Evict(h', now, duration)
    else Evict(h', now, duration)
  }

  /**
    After a record step with a clock that has not gone backwards the history is a
    suffix of the old history with the new sample appended, the new sample is its
    last element, it is still chronological, and every sample is inside the window.
  */
  lemma RecordStep(h: seq<Pose>, position: Vec3, rotation: Quat, now: real, duration: real)
    requires 0.0 <= duration
    requires Chronological(h) && NotAfter(h, now)
    ensures var r := Record(h, position, rotation, now, duration);
      && 1 <= |r| <= |h| + 1 && r == (h + [Pose(position, rotation, now)])[|h| + 1 - |r|..]
      && r[|r| - 1] == Pose(position, rotation, now)
      && Chronological(r) && NotAfter(r, now) && WithinWindow(r, now, duration)
  {
    var s := Pose(position, rotation, now);
    var h' := h + [s];
    AppendChronological(h, s);
    EvictWindow(h', now, duration);
    SuffixNotAfter(h', |h'| - |Record(h, position, rotation, now, duration)|, now);
  }

  /**
    The history a grab builds: starting from `h`, every sample of `samples` is
    recorded in turn at its own timestamp.
  */
  function RecordAll(h: seq<Pose>, samples: seq<Pose>, duration: real): seq<Pose>
    decreases |samples|
  {
    if samples == [] then h
    else
      var s := samples[|samples| - 1];
      Record(RecordAll(h, samples[..|samples| - 1], duration), s.position, s.rotation, s.time, duration)
  }

  /** Samples stale at one clock reading are stale at every later one. */
  lemma StaleLater(src: seq<Pose>, k: nat, now: real, later: real, duration: real)
    requires k <= |src| && now <= later
    requires forall i :: 0 <= i < k ==> Stale(src[i], now, duration)
    ensures forall i :: 0 <= i < k ==> Stale(src[i], later, duration)
  {
  }

  /** Evicting after an append drops a stale prefix whether or not it was dropped before. */
  lemma {:induction false} EvictStalePrefix(h: seq<Pose>, k: nat, s: Pose, now: real, duration: real)
    requires k <= |h|
    requires forall i :: 0 <= i < k ==> Stale(h[i], now, duration)
    ensures Evict(h + [s], now, duration) == Evict(h[k..] + [s], now, duration)
    decreases k
  {
    if k == 0 {
      assert h[k..] == h;
    } else {
      assert (h + [s])[0] == h[0];
      assert (h + [s])[1..] == h[1..] + [s];
      forall i | 0 <= i < k - 1 ensures Stale(h[1..][i], now, duration) {
        assert h[1..][i] == h[i + 1];
      }
      EvictStalePrefix(h[1..], k - 1, s, now, duration);
      assert h[1..][k - 1..] == h[k..];
    }
  }

  /**
    Recording `s` on a history that is `init` evicted at an earlier clock gives
    `init + [s]` evicted at `s`'s clock: what the earlier eviction dropped is
    stale at the later clock too.
  */
  lemma RecordAfterEvict(init: seq<Pose>, earlier: real, s: Pose, duration: real)
    requires earlier <= s.time
    ensures Record(Evict(init, earlier, duration), s.position, s.rotation, s.time, duration)
         == Evict(init + [s], s.time, duration)
  {
    var prev := Evict(init, earlier, duration);
    var k := |init| - |prev|;
    EvictDropsOnlyStale(init, earlier, duration);
    StaleLater(init, k, earlier, s.time, duration);
    EvictStalePrefix(init, k, s, s.time, duration);
    assert Pose(s.position, s.rotation, s.time) == s;
  }

  /** A non-empty history is its samples before the newest, plus the newest. */
  lemma InitPlusLast(h: seq<Pose>)
    requires h != []
    ensures h[..|h| - 1] + [h[|h| - 1]] == h
  {
  }

  /** The base case of `RecordAllIsEvict`: a single sample is kept. */
  lemma RecordAllSingle(samples: seq<Pose>, duration: real)
    requires |samples| == 1
    ensures RecordAll([], samples, duration) == Evict(samples, samples[0].time, duration)
  {
    var s := samples[0];
    InitPlusLast(samples);
    assert samples[..0] == [];
    assert Pose(s.position, s.rotation, s.time) == s;
  }

  /**
    The inductive step of `RecordAllIsEvict`: if all but the last sample build
    the history their eviction at the previous clock leaves, and the clock has
    not gone backwards, all the samples build their eviction at the last clock.
  */
  lemma RecordAllIsEvictStep(samples: seq<Pose>, duration: real)
    requires |samples| >= 2 && samples[|samples| - 2].time <= samples[|samples| - 1].time
    requires RecordAll([], samples[..|samples| - 1], duration)
          == Evict(samples[..|samples| - 1], samples[|samples| - 2].time, duration)
    ensures RecordAll([], samples, duration) == Evict(samples, samples[|samples| - 1].time, duration)
  {
    var n := |samples|;
    var init := samples[..n - 1];
    InitPlusLast(samples);
    RecordAfterEvict(init, samples[n - 2].time, samples[n - 1], duration);
  }

  /**
    The history a grab builds, recording its samples one update at a time, is
    the whole sample list evicted once at the latest clock.
  */
  lemma {:induction false} RecordAllIsEvict(samples: seq<Pose>, duration: real)
    requires samples != [] && Chronological(samples)
    ensures RecordAll([], samples, duration) == Evict(samples, samples[|samples| - 1].time, duration)
    decreases |samples|
  {
    var n := |samples|;
    if n == 1 {
      RecordAllSingle(samples, duration);
    } else {
      var init := samples[..n - 1];
      assert RecordAll([], init, duration) == Evict(init, samples[n - 2].time, duration) by {
        PrefixChronological(samples, n - 1);
        RecordAllIsEvict(init, duration);
        assert init[n - 2] == samples[n - 2];
      }
      assert samples[n - 2].time <= samples[n - 1].time;
      RecordAllIsEvictStep(samples, duration);
    }
  }

  /** A chronological history was taken no later than its newest sample. */
  lemma ChronologicalNotAfterLast(h: seq<Pose>)
    requires h != [] && Chronological(h)
    ensures NotAfter(h, h[|h| - 1].time)
  {
    forall i | 0 <= i < |h| ensures h[i].time <= h[|h| - 1].time {
      if i < |h| - 1 { assert h[i].time <= h[|h| - 1].time; }
    }
  }

  /**
    Across a grab that starts from an empty history and records samples with
    non-decreasing timestamps, with a non-negative window: the history is the
    trailing run of the grab's samples left by evicting at the latest clock,
    every earlier sample is stale, and the history is non-empty, ends with the
    latest sample, stays chronological and lies inside the window.
  */
  lemma GrabHistoryWindowed(samples: seq<Pose>, duration: real)
    requires 0.0 <= duration && samples != [] && Chronological(samples)
    ensures var h := RecordAll([], samples, duration);
      var now := samples[|samples| - 1].time;
      && h == Evict(samples, now, duration)
      && |h| <= |samples| && h == samples[|samples| - |h|..]
      && (forall i :: 0 <= i < |samples| - |h| ==> Stale(samples[i], now, duration))
      && h != [] && h[|h| - 1] == samples[|samples| - 1]
      && Chronological(h) && NotAfter(h, now) && WithinWindow(h, now, duration)
  {
    var now := samples[|samples| - 1].time;
    var h := Evict(samples, now, duration);
    RecordAllIsEvict(samples, duration);
    EvictDropsOnlyStale(samples, now, duration);
    EvictKeepsNewest(samples, now, duration);
    EvictWindow(samples, now, duration);
    ChronologicalNotAfterLast(samples);
    SuffixNotAfter(samples, |samples| - |h|, now);
  }

  /** The first two samples of the scenario below are both kept. */
  lemma FirstTwoSamplesKept(p0: Vec3, p1: Vec3, q: Quat)
    ensures Record([], p0, q, 0.0, 0.2) == [Pose(p0, q, 0.0)]
    ensures Record([Pose(p0, q, 0.0)], p1, q, 0.05, 0.2) == [Pose(p0, q, 0.0), Pose(p1, q, 0.05)]
  {
    var a, b := Pose(p0, q, 0.0), Pose(p1, q, 0.05);
    var f := [] + [a];
    assert f[0] == a && f == [a];
    assert Evict(f, 0.0, 0.2) == f;
    var g := [a] + [b];
    assert g[0] == a && g == [a, b];
    assert Evict(g, 0.05, 0.2) == g;
  }

  /** A sample at 0.3 makes both samples at 0.0 and 0.05 stale in a 0.2 window. */
  lemma ThirdSampleEvictsBoth(p0: Vec3, p1: Vec3, p2: Vec3, q: Quat)
    ensures Record([Pose(p0, q, 0.0), Pose(p1, q, 0.05)], p2, q, 0.3, 0.2) == [Pose(p2, q, 0.3)]
  {
    var a, b, c := Pose(p0, q, 0.0), Pose(p1, q, 0.05), Pose(p2, q, 0.3);
    var h := [a, b] + [c];
    assert h[0] == a && h[1..] == [b, c];
    assert Evict(h, 0.3, 0.2) == Evict([b, c], 0.3, 0.2);
    assert [b, c][0] == b && [b, c][1..] == [c];
    assert Evict([b, c], 0.3, 0.2) == Evict([c], 0.3, 0.2);
    assert Evict([c], 0.3, 0.2) == [c];
  }

  /**
    Samples recorded at 0.0, 0.05 and 0.3 into an empty history with a 0.2 window:
    at the third step both older samples are stale (ages 0.3 and 0.25), so only
    the newest one remains.
  */
  lemma ThreeSampleScenario(p0: Vec3, p1: Vec3, p2: Vec3, q: Quat)
    ensures var h1 := Record([], p0, q, 0.0, 0.2);
      var h2 := Record(h1, p1, q, 0.05, 0.2);
      var h3 := Record(h2, p2, q, 0.3, 0.2);
      |h1| == 1 && |h2| == 2 && h3 == [Pose(p2, q, 0.3)]
  {
    FirstTwoSamplesKept(p0, p1, q);
    ThirdSampleEvictsBoth(p0, p1, p2, q);
  }
}
