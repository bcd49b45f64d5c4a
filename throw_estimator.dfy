/**
  The release-velocity estimator: finite differences over consecutive pose
  samples, averaged over the number of intervals, plus a tangential correction
  for a grip away from the centre of mass, blended in by the angular influence.
*/
module ThrowEstimator {
  import opened Vectors
  import opened PoseHistory

  /** The engine's degrees-to-radians factor (2π/360 in single precision). */
  const Deg2Rad: real := 0.0174532924

  function DeltaTime(a: Pose, b: Pose): real {
    b.time - a.time
  }

  /** The numerator of the linear finite difference between two samples. */
  function PositionChange(a: Pose, b: Pose): Vec3 {
    Sub(b.position, a.position)
  }

  /**
    The numerator of the angular finite difference: the relative rotation
    `b.rotation * Inverse(a.rotation)` as axis times angle in radians.
    `toAngleAxis` stands for the engine's `Quaternion.ToAngleAxis`.
  */
  function SpinOf(toAngleAxis: Quat -> AngleAxis): (Pose, Pose) -> Vec3 {
    (a: Pose, b: Pose) =>
      var aa := toAngleAxis(Mul(b.rotation, Inverse(a.rotation)));
      Scale(Scale(aa.axis, aa.angle), Deg2Rad)
  }

  /** The contribution of one pair: its rate of change, or nothing when its time step is not positive. */
  function Step(a: Pose, b: Pose, change: (Pose, Pose) -> Vec3): Vec3 {
    if DeltaTime(a, b) > 0.0 then Div(change(a, b), DeltaTime(a, b)) else Zero
  }

  /** The accumulator after visiting every consecutive pair of `p`, oldest pair first. */
  function PairSum(p: seq<Pose>, change: (Pose, Pose) -> Vec3): Vec3
    decreases |p|
  {
    if |p| < 2 then Zero
    else Add(PairSum(p[..|p| - 1], change), Step(p[|p| - 2], p[|p| - 1], change))
  }

  /** The accumulator after one more pair adds that pair's step. */
  lemma PairSumExtend(p: seq<Pose>, i: nat, change: (Pose, Pose) -> Vec3)
    requires i < |p| - 1
    ensures PairSum(p[..i + 2], change) == Add(PairSum(p[..i + 1], change), Step(p[i], p[i + 1], change))
  {
    var q := p[..i + 2];
    assert q[..|q| - 1] == p[..i + 1];
    assert q[|q| - 2] == p[i] && q[|q| - 1] == p[i + 1];
  }

  /** The rate a single pair contributes to the reference list: one entry, or none when its time step is not positive. */
  function PairRate(a: Pose, b: Pose, change: (Pose, Pose) -> Vec3): seq<Vec3> {
    if DeltaTime(a, b) > 0.0 then [Div(change(a, b), DeltaTime(a, b))] else []
  }

  /** Reference definition: the rates of exactly those pairs whose time step is positive, in order. */
  function MovingRates(p: seq<Pose>, change: (Pose, Pose) -> Vec3): seq<Vec3>
    decreases |p|
  {
    if |p| < 2 then []
    else PairRate(p[0], p[1], change) + MovingRates(p[1..], change)
  }

  function SumVecs(vs: seq<Vec3>): Vec3 {
    if vs == [] then Zero else Add(vs[0], SumVecs(vs[1..]))
  }

  /** The number of consecutive pairs of a history, as the divisor of the average. */
  function Intervals(p: seq<Pose>): (n: real)
    requires |p| >= 2
    ensures n >= 1.0
  {
    (|p| - 1) as real
  }

  /** The per-interval average: the accumulated rates divided by the number of intervals. */
  function AverageRate(p: seq<Pose>, change: (Pose, Pose) -> Vec3): Vec3
    requires |p| >= 2
  {
    Div(PairSum(p, change), Intervals(p))
  }

  /** From the current grip point to the offset centre of mass. */
  function LeverArm(centerOfMass: Vec3, offset: Vec3, grip: Vec3): Vec3 {
    Sub(Add(centerOfMass, offset), grip)
  }

  datatype Velocities = Velocities(linear: Vec3, angular: Vec3)

  /** The release velocities estimated from a pose history. */
  function ThrowVelocities(p: seq<Pose>, toAngleAxis: Quat -> AngleAxis, centerOfMass: Vec3,
                           offset: Vec3, grip: Vec3, influence: real): (r: Velocities)
    ensures |p| < 2 ==> r == Velocities(Zero, Zero)
  {
    if |p| < 2 then Velocities(Zero, Zero)
    else
      var linear := AverageRate(p, PositionChange);
      var angular := AverageRate(p, SpinOf(toAngleAxis));
      var tangential := Cross(angular, LeverArm(centerOfMass, offset, grip));
      Velocities(Lerp(linear, Add(linear, tangential), influence), angular)
  }

  lemma {:induction false} SumVecsAppend(a: seq<Vec3>, b: seq<Vec3>)
    ensures SumVecs(a + b) == Add(SumVecs(a), SumVecs(b))
    decreases |a|
  {
    if a == [] {
      assert a + b == b;
    } else {
      assert (a + b)[1..] == a[1..] + b;
      SumVecsAppend(a[1..], b);
    }
  }

  /** Extending a history by one sample extends its moving rates by that last pair's rate, if any. */
  lemma {:induction false} MovingRatesSnoc(p: seq<Pose>, change: (Pose, Pose) -> Vec3)
    requires |p| >= 2
    ensures MovingRates(p, change) == MovingRates(p[..|p| - 1], change) + PairRate(p[|p| - 2], p[|p| - 1], change)
    decreases |p|
  {
    var n := |p|;
    var last := PairRate(p[n - 2], p[n - 1], change);
    if n > 2 {
      var init, tail := p[..n - 1], p[1..];
      var first := PairRate(p[0], p[1], change);
      assert MovingRates(p, change) == first + MovingRates(tail, change);
      assert tail[..|tail| - 1] == init[1..];
      assert tail[|tail| - 2] == p[n - 2] && tail[|tail| - 1] == p[n - 1];
      MovingRatesSnoc(tail, change);
      assert MovingRates(tail, change) == MovingRates(init[1..], change) + last;
      assert init[0] == p[0] && init[1] == p[1];
      assert MovingRates(init, change) == first + MovingRates(init[1..], change);
      assert first + (MovingRates(init[1..], change) + last) == (first + MovingRates(init[1..], change)) + last;
    } else {
      assert p[1..] == [p[1]];
      assert p[..1] == [p[0]];
    }
  }

  /**
    The accumulator adds the rate of every pair with a positive time step and
    nothing for the others.
  */
  lemma {:induction false} PairSumIsMovingSum(p: seq<Pose>, change: (Pose, Pose) -> Vec3)
    ensures PairSum(p, change) == SumVecs(MovingRates(p, change))
    decreases |p|
  {
    if |p| >= 2 {
      var a, b := p[|p| - 2], p[|p| - 1];
      var last := PairRate(a, b, change);
      PairSumIsMovingSum(p[..|p| - 1], change);
      MovingRatesSnoc(p, change);
      SumVecsAppend(MovingRates(p[..|p| - 1], change), last);
      if last != [] {
        assert last[1..] == [];
      }
    }
  }

  /** A history of two samples has exactly one interval. */
  lemma PairSumOfTwo(a: Pose, b: Pose, change: (Pose, Pose) -> Vec3)
    ensures PairSum([a, b], change) == Step(a, b, change)
  {
    assert [a, b][..1] == [a];
  }

  /** With two samples the average is the single interval's rate. */
  lemma SingleIntervalAverage(a: Pose, b: Pose, change: (Pose, Pose) -> Vec3)
    requires DeltaTime(a, b) > 0.0
    ensures AverageRate([a, b], change) == Div(change(a, b), DeltaTime(a, b))
  {
    PairSumOfTwo(a, b, change);
    DivOne(Div(change(a, b), DeltaTime(a, b)));
  }

  lemma DivZero(n: real)
    requires n != 0.0
    ensures Div(Zero, n) == Zero
  {
  }

  lemma QuarterTurnAboutZ()
    ensures Scale(Scale(Vec3(0.0, 0.0, 1.0), 90.0), Deg2Rad) == Vec3(0.0, 0.0, 90.0 * Deg2Rad)
  {
    calc {
      Scale(Scale(Vec3(0.0, 0.0, 1.0), 90.0), Deg2Rad);
      Scale(Vec3(0.0, 0.0, 90.0), Deg2Rad);
      Vec3(0.0 * Deg2Rad, 0.0 * Deg2Rad, 90.0 * Deg2Rad);
    }
  }

  lemma DivOne(v: Vec3)
    ensures Div(v, 1.0) == v
  {
  }

  lemma DivTenth(v: Vec3)
    ensures Div(v, 0.1) == Scale(v, 10.0)
  {
  }

  lemma ScaleZero(k: real)
    ensures Scale(Zero, k) == Zero
  {
  }

  lemma CrossZero(v: Vec3)
    ensures Cross(Zero, v) == Zero
  {
  }

  lemma ScaleDistributes(a: Vec3, b: Vec3, k: real)
    ensures Add(Scale(a, k), Scale(b, k)) == Scale(Add(a, b), k)
  {
    assert a.x * k + b.x * k == (a.x + b.x) * k;
    assert a.y * k + b.y * k == (a.y + b.y) * k;
    assert a.z * k + b.z * k == (a.z + b.z) * k;
  }

  /** The estimate in terms of the two averaged rates. */
  lemma ThrowFromAverages(p: seq<Pose>, toAngleAxis: Quat -> AngleAxis, centerOfMass: Vec3, offset: Vec3,
                          grip: Vec3, influence: real, linear: Vec3, angular: Vec3)
    requires |p| >= 2
    requires AverageRate(p, PositionChange) == linear && AverageRate(p, SpinOf(toAngleAxis)) == angular
    ensures ThrowVelocities(p, toAngleAxis, centerOfMass, offset, grip, influence)
      == Velocities(Add(linear, Scale(Cross(angular, LeverArm(centerOfMass, offset, grip)), Clamp01(influence))), angular)
  {
    LerpTowardsOffset(linear, Cross(angular, LeverArm(centerOfMass, offset, grip)), influence);
  }

  /**
    With at least two samples: the angular velocity is the sum of the rates of the
    pairs with a positive time step divided by the number of ALL intervals
    (skipped pairs still count), and the linear velocity is the averaged linear
    rate plus the clamped influence times `angular × leverArm`.
  */
  lemma ThrowVelocitiesAverage(p: seq<Pose>, toAngleAxis: Quat -> AngleAxis, centerOfMass: Vec3,
                               offset: Vec3, grip: Vec3, influence: real)
    requires |p| >= 2
    ensures var r := ThrowVelocities(p, toAngleAxis, centerOfMass, offset, grip, influence);
      var n := (|p| - 1) as real;
      var linear := Div(SumVecs(MovingRates(p, PositionChange)), n);
      && r.angular == Div(SumVecs(MovingRates(p, SpinOf(toAngleAxis))), n)
      && r.linear == Add(linear, Scale(Cross(r.angular, LeverArm(centerOfMass, offset, grip)), Clamp01(influence)))
  {
    PairSumIsMovingSum(p, PositionChange);
    PairSumIsMovingSum(p, SpinOf(toAngleAxis));
    var linear := AverageRate(p, PositionChange);
    var angular := AverageRate(p, SpinOf(toAngleAxis));
    LerpTowardsOffset(linear, Cross(angular, LeverArm(centerOfMass, offset, grip)), influence);
  }

  /**
    The influence blends the tangential term in linearly: none at 0, all of it
    at 1, and the angular velocity is never affected.
  */
  lemma InfluenceBlend(p: seq<Pose>, toAngleAxis: Quat -> AngleAxis, centerOfMass: Vec3,
                       offset: Vec3, grip: Vec3, influence: real)
    requires |p| >= 2
    requires 0.0 <= influence <= 1.0
    ensures var r := ThrowVelocities(p, toAngleAxis, centerOfMass, offset, grip, influence);
      var linear := AverageRate(p, PositionChange);
      var tangential := Cross(AverageRate(p, SpinOf(toAngleAxis)), LeverArm(centerOfMass, offset, grip));
      && r.angular == AverageRate(p, SpinOf(toAngleAxis))
      && r.linear == Add(linear, Scale(tangential, influence))
      && (influence == 0.0 ==> r.linear == linear)
      && (influence == 1.0 ==> r.linear == Add(linear, tangential))
  {
    var linear := AverageRate(p, PositionChange);
    var tangential := Cross(AverageRate(p, SpinOf(toAngleAxis)), LeverArm(centerOfMass, offset, grip));
    LerpTowardsOffset(linear, tangential, influence);
  }

  lemma {:induction false} NoMovingPairs(p: seq<Pose>, change: (Pose, Pose) -> Vec3)
    requires forall i :: 0 <= i < |p| - 1 ==> p[i + 1].time <= p[i].time
    ensures MovingRates(p, change) == []
    decreases |p|
  {
    if |p| >= 2 {
      NoMovingPairs(p[1..], change);
    }
  }

  lemma NoMotionAverage(p: seq<Pose>, change: (Pose, Pose) -> Vec3)
    requires |p| >= 2
    requires forall i :: 0 <= i < |p| - 1 ==> p[i + 1].time <= p[i].time
    ensures AverageRate(p, change) == Zero
  {
    NoMovingPairs(p, change);
    PairSumIsMovingSum(p, change);
    DivZero(Intervals(p));
  }

  /** When no interval has a positive time step the estimate is zero, whatever the influence and lever arm. */
  lemma StationaryClockGivesZero(p: seq<Pose>, toAngleAxis: Quat -> AngleAxis, centerOfMass: Vec3,
                                 offset: Vec3, grip: Vec3, influence: real)
    requires forall i :: 0 <= i < |p| - 1 ==> p[i + 1].time <= p[i].time
    ensures ThrowVelocities(p, toAngleAxis, centerOfMass, offset, grip, influence) == Velocities(Zero, Zero)
  {
    if |p| >= 2 {
      NoMotionAverage(p, PositionChange);
      NoMotionAverage(p, SpinOf(toAngleAxis));
      ThrowFromAverages(p, toAngleAxis, centerOfMass, offset, grip, influence, Zero, Zero);
      CrossZero(LeverArm(centerOfMass, offset, grip));
      ScaleZero(Clamp01(influence));
    }
  }

  /**
    A trailing sample with the same timestamp as the last one contributes nothing
    but still counts as an interval: the average shrinks by (n-1)/n.
  */
  lemma DuplicateTimestampDilutes(p: seq<Pose>, s: Pose, change: (Pose, Pose) -> Vec3)
    requires |p| >= 2 && s.time == p[|p| - 1].time
    ensures AverageRate(p + [s], change) == Scale(AverageRate(p, change), (|p| - 1) as real / |p| as real)
  {
    var q := p + [s];
    assert q[..|q| - 1] == p;
    var sum := PairSum(p, change);
    assert PairSum(q, change) == sum;
    DivThenRescale(sum, (|p| - 1) as real, |p| as real);
  }

  /** Every position scaled by `k`, times and rotations unchanged. */
  function ScalePositions(p: seq<Pose>, k: real): (r: seq<Pose>)
    ensures |r| == |p|
    ensures forall i :: 0 <= i < |p| ==> r[i] == p[i].(position := Scale(p[i].position, k))
  {
    if p == [] then [] else [p[0].(position := Scale(p[0].position, k))] + ScalePositions(p[1..], k)
  }

  lemma ScaledChange(u: Vec3, v: Vec3, k: real)
    ensures Sub(Scale(v, k), Scale(u, k)) == Scale(Sub(v, u), k)
  {
    assert v.x * k - u.x * k == (v.x - u.x) * k;
    assert v.y * k - u.y * k == (v.y - u.y) * k;
    assert v.z * k - u.z * k == (v.z - u.z) * k;
  }

  lemma ScaledStep(a: Pose, b: Pose, k: real)
    ensures Step(a.(position := Scale(a.position, k)), b.(position := Scale(b.position, k)), PositionChange)
      == Scale(Step(a, b, PositionChange), k)
  {
    var a', b' := a.(position := Scale(a.position, k)), b.(position := Scale(b.position, k));
    var dt := DeltaTime(a, b);
    if dt > 0.0 {
      calc {
        Step(a', b', PositionChange);
        Div(PositionChange(a', b'), dt);
        { ScaledChange(a.position, b.position, k); }
        Div(Scale(PositionChange(a, b), k), dt);
        { ScaleThenDivide(PositionChange(a, b), k, dt); }
        Scale(Div(PositionChange(a, b), dt), k);
      }
    } else {
      ScaleZero(k);
    }
  }

  /** Scaling every position by `k` scales the accumulated linear rate by `k`. */
  lemma {:induction false} ScaledPairSum(p: seq<Pose>, k: real)
    ensures PairSum(ScalePositions(p, k), PositionChange) == Scale(PairSum(p, PositionChange), k)
    decreases |p|
  {
    if |p| >= 2 {
      var n := |p|;
      var sp := ScalePositions(p, k);
      assert sp[..n - 1] == ScalePositions(p[..n - 1], k);
      assert sp[n - 2] == p[n - 2].(position := Scale(p[n - 2].position, k));
      assert sp[n - 1] == p[n - 1].(position := Scale(p[n - 1].position, k));
      ScaledPairSum(p[..n - 1], k);
      ScaledStep(p[n - 2], p[n - 1], k);
      ScaleDistributes(PairSum(p[..n - 1], PositionChange), Step(p[n - 2], p[n - 1], PositionChange), k);
    }
  }

  /** Scaling every position by `k` with timestamps fixed scales the average linear velocity by `k`. */
  lemma LinearScaleInvariance(p: seq<Pose>, k: real)
    requires |p| >= 2
    ensures AverageRate(ScalePositions(p, k), PositionChange) == Scale(AverageRate(p, PositionChange), k)
  {
    var n := Intervals(p);
    assert Intervals(ScalePositions(p, k)) == n;
    calc {
      AverageRate(ScalePositions(p, k), PositionChange);
      Div(PairSum(ScalePositions(p, k), PositionChange), n);
      { ScaledPairSum(p, k); }
      Div(Scale(PairSum(p, PositionChange), k), n);
      { ScaleThenDivide(PairSum(p, PositionChange), k, n); }
      Scale(Div(PairSum(p, PositionChange), n), k);
    }
  }

  /** With no influence the estimate is exactly the averaged rates. */
  lemma ZeroInfluence(p: seq<Pose>, toAngleAxis: Quat -> AngleAxis, centerOfMass: Vec3, offset: Vec3,
                      grip: Vec3, linear: Vec3, angular: Vec3)
    requires |p| >= 2
    requires AverageRate(p, PositionChange) == linear && AverageRate(p, SpinOf(toAngleAxis)) == angular
    ensures ThrowVelocities(p, toAngleAxis, centerOfMass, offset, grip, 0.0) == Velocities(linear, angular)
  {
    LerpTowardsOffset(linear, Cross(angular, LeverArm(centerOfMass, offset, grip)), 0.0);
  }

  /** A unit rotation that did not change contributes no spin, given that the identity has angle zero. */
  lemma UnchangedRotationNoSpin(a: Pose, b: Pose, toAngleAxis: Quat -> AngleAxis)
    requires a.rotation == b.rotation && NormSquared(a.rotation) == 1.0
    requires toAngleAxis(Identity).angle == 0.0
    ensures SpinOf(toAngleAxis)(a, b) == Zero
  {
    MulInverseSelf(a.rotation);
  }

  /** With two samples and no influence the estimate is the one interval's rates. */
  lemma SingleIntervalThrow(a: Pose, b: Pose, toAngleAxis: Quat -> AngleAxis, centerOfMass: Vec3,
                            offset: Vec3, grip: Vec3)
    requires DeltaTime(a, b) > 0.0
    ensures ThrowVelocities([a, b], toAngleAxis, centerOfMass, offset, grip, 0.0)
      == Velocities(Div(PositionChange(a, b), DeltaTime(a, b)), Div(SpinOf(toAngleAxis)(a, b), DeltaTime(a, b)))
  {
    SingleIntervalAverage(a, b, PositionChange);
    SingleIntervalAverage(a, b, SpinOf(toAngleAxis));
    ZeroInfluence([a, b], toAngleAxis, centerOfMass, offset, grip,
                  Div(PositionChange(a, b), DeltaTime(a, b)), Div(SpinOf(toAngleAxis)(a, b), DeltaTime(a, b)));
  }

  /**
    Two samples 0.1 apart, one unit along x, same unit rotation, no influence:
    the throw is (10, 0, 0) with no spin, given that the identity rotation has
    angle zero.
  */
  lemma TwoSampleScenario(q: Quat, toAngleAxis: Quat -> AngleAxis, centerOfMass: Vec3, offset: Vec3, grip: Vec3)
    requires NormSquared(q) == 1.0
    requires toAngleAxis(Identity).angle == 0.0
    ensures ThrowVelocities([Pose(Zero, q, 0.0), Pose(Vec3(1.0, 0.0, 0.0), q, 0.1)], toAngleAxis,
                            centerOfMass, offset, grip, 0.0)
      == Velocities(Vec3(10.0, 0.0, 0.0), Zero)
  {
    var a, b := Pose(Zero, q, 0.0), Pose(Vec3(1.0, 0.0, 0.0), q, 0.1);
    UnchangedRotationNoSpin(a, b, toAngleAxis);
    SingleIntervalThrow(a, b, toAngleAxis, centerOfMass, offset, grip);
    DivTenth(Vec3(1.0, 0.0, 0.0));
    DivZero(0.1);
  }

  /** Turning away from the identity, the spin is the angle-axis of the new rotation, in radians. */
  lemma SpinFromIdentity(a: Pose, b: Pose, toAngleAxis: Quat -> AngleAxis, aa: AngleAxis)
    requires a.rotation == Identity && toAngleAxis(b.rotation) == aa
    ensures SpinOf(toAngleAxis)(a, b) == Scale(Scale(aa.axis, aa.angle), Deg2Rad)
  {
    assert Mul(b.rotation, Inverse(a.rotation)) == b.rotation;
  }

  /**
    A pure rotation from the identity to `(0, 0, s, s)` (with s = √½, a turn of
    90 degrees about z), 0.1 seconds apart, no influence: no linear velocity and
    an angular velocity of 900 degrees per second about z, in radians.
  */
  lemma PureRotationScenario(s: real, toAngleAxis: Quat -> AngleAxis, centerOfMass: Vec3,
                             offset: Vec3, grip: Vec3, position: Vec3)
    requires s > 0.0 && 2.0 * s * s == 1.0
    requires toAngleAxis(Quat(0.0, 0.0, s, s)) == AngleAxis(90.0, Vec3(0.0, 0.0, 1.0))
    ensures ThrowVelocities([Pose(position, Identity, 0.0), Pose(position, Quat(0.0, 0.0, s, s), 0.1)], toAngleAxis,
                            centerOfMass, offset, grip, 0.0)
      == Velocities(Zero, Vec3(0.0, 0.0, 900.0 * Deg2Rad))
  {
    var a, b := Pose(position, Identity, 0.0), Pose(position, Quat(0.0, 0.0, s, s), 0.1);
    SingleIntervalThrow(a, b, toAngleAxis, centerOfMass, offset, grip);
    SpinFromIdentity(a, b, toAngleAxis, AngleAxis(90.0, Vec3(0.0, 0.0, 1.0)));
    QuarterTurnAboutZ();
    DivTenth(Vec3(0.0, 0.0, 90.0 * Deg2Rad));
    DivZero(0.1);
  }
}
