# EnhancedThrowable release-velocity model

This project models `EnhancedThrowable`, a grab interactable for a VR interaction toolkit. While the
object is held, the component records the selecting interactor's pose once per Dynamic update. It
keeps those samples in a queue that holds only the last `throwHistoryDuration` seconds. When the
object is released with "throw on detach" set, it estimates the release velocity from the recorded
samples:

- it takes finite differences over consecutive samples, skipping pairs whose time step is not
  positive;
- it divides both sums by the number of intervals;
- it adds a tangential term `angular × (centre of mass + offset − grip)`, blended in by
  `angularVelocityInfluence` through a clamped `Lerp`;
- it hands the body the result times the two multipliers.

A kinematic body is not thrown. It gets a warning and the base class's plain detach.

The model has four modules, each in its own file:

- `Vectors` (`vectors.dfy`) holds the engine vector and quaternion operations the component uses, on
  exact reals.
- `PoseHistory` (`pose_history.dfy`) holds the timestamped pose sample and the sliding window:
  - `Evict` is the front-dequeue loop as a function;
  - `Record` is one enqueue followed by eviction;
  - the lemmas prove the window invariants.
- `ThrowEstimator` (`throw_estimator.dfy`) holds the estimator as functions over a pose sequence:
  - `PairSum` is the accumulator the loop builds;
  - `MovingRates` is an independent reference list of the rates of the pairs that move;
  - `ThrowVelocities` is the whole estimate.

  Its lemmas cover the averaging rule, the influence blend, the degenerate clocks, a scaling law and
  two concrete scenarios.
- `Throwable` (`enhanced_throwable.dfy`) holds the component itself and the release decision:
  - a `Rigidbody` class;
  - an `EnhancedThrowable` class whose fields are the inspector settings, the queue (a `seq`) and
    the selecting interactor;
  - methods `OnSelectEntering`, `OnSelectExiting`, `ProcessInteractable` (with its `while` eviction
    loop), `CalculateThrowVelocities` (with its accumulation loop) and `Detach`.

  Each method is proved against the functions above.

Three things come from outside the component and enter the model as parameters:

- The frame clock (`Time.time`) becomes the `now` parameter.
- The selecting interactor's transform becomes `gripPosition`/`gripRotation`.
- `Quaternion.ToAngleAxis` becomes a function parameter `toAngleAxis`.

A note on the three-sample sequence, with samples at 0.0, 0.05 and 0.3 and a 0.2 s window. The code
evicts from the front while `now - time > throwHistoryDuration`. At the third update both older
samples are stale: their ages are 0.3 and 0.25. So only the newest sample remains. The model
follows the code (`ThreeSampleScenario`).

## Model

| member | source | states |
|---|---|---|
| PoseHistory.Stale | Assets/Scripts/Testing/EnhancedThrowable.cs:63 | a sample is evicted when its age `now - time` strictly exceeds the window; a sample exactly at the window's age stays |
| PoseHistory.Evict | Assets/Scripts/Testing/EnhancedThrowable.cs:63-66 | the dequeue loop leaves a suffix of the queue whose front sample, if any, is not older than the window |
| PoseHistory.EvictDropsOnlyStale | Assets/Scripts/Testing/EnhancedThrowable.cs:63-66 | every sample eviction removed was older than the window |
| PoseHistory.EvictKeepsNewest | Assets/Scripts/Testing/EnhancedThrowable.cs:61-66 | a fresh newest sample survives eviction and stays the last element |
| PoseHistory.EvictWindow | Assets/Scripts/Testing/EnhancedThrowable.cs:63-66 | on a chronological queue, eviction keeps it chronological and leaves only samples inside the window |
| PoseHistory.Record | Assets/Scripts/Testing/EnhancedThrowable.cs:61-66 | one Dynamic update as a value: enqueue the sample stamped `now`, then dequeue stale samples from the front; the result is a suffix of old queue ++ [new sample], and with a non-negative window the new sample is its last element |
| PoseHistory.RecordStep | Assets/Scripts/Testing/EnhancedThrowable.cs:59-67 | after enqueue-and-evict at a clock not behind the samples, with a non-negative window: the queue is a suffix of old queue ++ [new sample], the new sample is last, timestamps stay non-decreasing and every sample is within the window |
| PoseHistory.RecordAll | Assets/Scripts/Testing/EnhancedThrowable.cs:59-67 | the queue a grab builds: one `Record` per Dynamic update, in order, each at its own timestamp |
| PoseHistory.RecordAllIsEvict | Assets/Scripts/Testing/EnhancedThrowable.cs:59-67 | with non-decreasing timestamps, recording a grab's samples one update at a time leaves exactly what one eviction of the whole sample list at the latest clock leaves |
| PoseHistory.GrabHistoryWindowed | Assets/Scripts/Testing/EnhancedThrowable.cs:59-67 | across a whole grab, from the queue the grab emptied, with non-decreasing timestamps and a non-negative window: the queue is the trailing run of the grab's own samples that eviction at the latest clock leaves, every earlier sample is stale, and the queue is non-empty, ends with the latest sample, stays chronological and lies inside the window |
| PoseHistory.ThreeSampleScenario | Assets/Scripts/Testing/EnhancedThrowable.cs:61-66 | samples at 0.0, 0.05 and 0.3 with a 0.2 window: one, then two, then only the newest sample remain |
| ThrowEstimator.DeltaTime | Assets/Scripts/Testing/EnhancedThrowable.cs:107 | the time step of a pair: the next sample's time minus the current one's |
| ThrowEstimator.PositionChange | Assets/Scripts/Testing/EnhancedThrowable.cs:111 | the numerator of the linear rate: the next position minus the current one |
| ThrowEstimator.SpinOf | Assets/Scripts/Testing/EnhancedThrowable.cs:113-115 | the angular numerator of a pair: the relative rotation `next * Inverse(current)` decomposed by `ToAngleAxis`, as axis · angle · Deg2Rad |
| ThrowEstimator.Step | Assets/Scripts/Testing/EnhancedThrowable.cs:109-117 | one loop iteration's addend: the change divided by the time step when that step is positive, otherwise zero |
| ThrowEstimator.PairSum | Assets/Scripts/Testing/EnhancedThrowable.cs:103-118 | the accumulator after the loop has visited every consecutive pair, oldest first, adding each pair's `Step` |
| ThrowEstimator.Intervals | Assets/Scripts/Testing/EnhancedThrowable.cs:120-121 | the divisor `poses.Count - 1` as a real; with at least two samples it is at least 1 |
| ThrowEstimator.AverageRate | Assets/Scripts/Testing/EnhancedThrowable.cs:120-121 | the accumulator divided by the number of intervals, `Count - 1`, whether or not every pair moved |
| ThrowEstimator.LeverArm | Assets/Scripts/Testing/EnhancedThrowable.cs:123 | the vector from the grip point to the centre of mass plus the offset, the second operand of the cross product |
| ThrowEstimator.ThrowVelocities | Assets/Scripts/Testing/EnhancedThrowable.cs:94-97 | fewer than two samples give zero linear and zero angular velocity |
| ThrowEstimator.PairSumIsMovingSum | Assets/Scripts/Testing/EnhancedThrowable.cs:103-118 | the loop's accumulator equals the sum of the rates of exactly the pairs with a positive time step |
| ThrowEstimator.MovingRatesSnoc | Assets/Scripts/Testing/EnhancedThrowable.cs:103-118 | one more sample adds the last pair's rate to the reference list, or nothing when its time step is not positive |
| ThrowEstimator.ThrowVelocitiesAverage | Assets/Scripts/Testing/EnhancedThrowable.cs:103-125 | with n ≥ 2 samples both velocities are the sum over moving pairs divided by n − 1 (skipped pairs still count), and the linear one adds the clamped influence times angular × lever arm |
| ThrowEstimator.InfluenceBlend | Assets/Scripts/Testing/EnhancedThrowable.cs:123-127 | for an influence s in [0, 1] the linear velocity is average + s · tangential: exactly the average at 0 and average + tangential at 1; the angular velocity is unaffected |
| ThrowEstimator.ZeroInfluence | Assets/Scripts/Testing/EnhancedThrowable.cs:125 | with influence 0 the estimate is exactly the two averaged rates |
| ThrowEstimator.StationaryClockGivesZero | Assets/Scripts/Testing/EnhancedThrowable.cs:107-121 | when no pair has a positive time step the estimate is zero, for every influence and lever arm |
| ThrowEstimator.DuplicateTimestampDilutes | Assets/Scripts/Testing/EnhancedThrowable.cs:107-121 | a trailing sample with a repeated timestamp adds nothing but counts as an interval: the average scales by (n − 1)/n |
| ThrowEstimator.LinearScaleInvariance | Assets/Scripts/Testing/EnhancedThrowable.cs:111-120 | scaling every position by k with timestamps fixed scales the average linear velocity by k |
| ThrowEstimator.SingleIntervalThrow | Assets/Scripts/Testing/EnhancedThrowable.cs:103-127 | two samples with a positive time step and no influence give that one interval's linear and angular rates |
| ThrowEstimator.UnchangedRotationNoSpin | Assets/Scripts/Testing/EnhancedThrowable.cs:113-115 | an unchanged unit rotation contributes no spin, given that the identity decomposes to angle 0 |
| ThrowEstimator.SpinFromIdentity | Assets/Scripts/Testing/EnhancedThrowable.cs:113-115 | turning from the identity, the pair's spin is axis · angle · Deg2Rad of the new rotation |
| ThrowEstimator.TwoSampleScenario | Assets/Scripts/Testing/EnhancedThrowable.cs:92-128 | samples 0.1 s apart, one unit along x, same rotation, influence 0: linear (10, 0, 0), angular zero |
| ThrowEstimator.PureRotationScenario | Assets/Scripts/Testing/EnhancedThrowable.cs:92-128 | a 90° turn about z in 0.1 s with no translation and influence 0: linear zero, angular (0, 0, 900 · Deg2Rad) |
| Vectors.Cross | Assets/Scripts/Testing/EnhancedThrowable.cs:123 | `Vector3.Cross`, the right-handed cross product |
| Vectors.Lerp | Assets/Scripts/Testing/EnhancedThrowable.cs:125 | `Vector3.Lerp`, which clamps `t` to [0, 1] before interpolating |
| Vectors.Mul | Assets/Scripts/Testing/EnhancedThrowable.cs:113 | the quaternion product `nextPose.rotation * …` |
| Vectors.Inverse | Assets/Scripts/Testing/EnhancedThrowable.cs:113 | `Quaternion.Inverse`, taken as the conjugate |
| Vectors.LerpTowardsOffset | Assets/Scripts/Testing/EnhancedThrowable.cs:125 | `Lerp(a, a + d, t)` adds the clamped fraction of d: a at t ≤ 0, a + d at t ≥ 1 |
| Vectors.MulInverseSelf | Assets/Scripts/Testing/EnhancedThrowable.cs:113 | a unit rotation times its inverse is the identity |
| Throwable.RecordsSample | Assets/Scripts/Testing/EnhancedThrowable.cs:59 | an update records a sample exactly when the object is selected, an interactor is set and the phase is Dynamic |
| Throwable.CallsBaseDetach | Assets/Scripts/Testing/EnhancedThrowable.cs:72-89 | every outcome but a throw calls `base.Detach()` (lines 77 and 88); the throw path skips it |
| Throwable.ValidRecordStep | Assets/Scripts/Testing/EnhancedThrowable.cs:59-67 | for an object whose settings are in range, a recorded update with a clock not behind the queue keeps it non-empty, newest last, chronological and inside the object's own window |
| Throwable.ValidInfluenceBlend | Assets/Scripts/Testing/EnhancedThrowable.cs:123-127 | for an object whose settings are in range, the linear throw is the average plus exactly `angularVelocityInfluence` times the tangential term, and the angular throw is the average |
| Throwable.ReleaseDecision | Assets/Scripts/Testing/EnhancedThrowable.cs:70-90 | throw exactly when throw-on-detach is set, an interactor is present and the body is not kinematic; warning exactly when the body is kinematic in that case; plain detach exactly when throw-on-detach is off or no interactor is present |
| Throwable.KinematicNeverThrown | Assets/Scripts/Testing/EnhancedThrowable.cs:74-79 | a kinematic body is never thrown and always ends in the base detach |
| Throwable.NoInteractorPlainDetach | Assets/Scripts/Testing/EnhancedThrowable.cs:72-89 | with the interactor cleared, a release is a plain detach whatever the other settings |
| Throwable.EnhancedThrowable.constructor | Assets/Scripts/Testing/EnhancedThrowable.cs:14-31 | the settings take their declared defaults (0.2, 1.5, 1.0, 0.75, zero offset); the queue is empty, no interactor is set, and `Valid()` holds: the window lies in [0.05, 0.5] and the influence in [0, 1] |
| Throwable.EnhancedThrowable.OnSelectEntering | Assets/Scripts/Testing/EnhancedThrowable.cs:39-44 | beginning a grab records the new interactor and empties the queue, whatever it held |
| Throwable.EnhancedThrowable.OnSelectExiting | Assets/Scripts/Testing/EnhancedThrowable.cs:46-53 | the interactor is cleared when it is the exiting one and otherwise left as it was |
| Throwable.EnhancedThrowable.ProcessInteractable | Assets/Scripts/Testing/EnhancedThrowable.cs:55-68 | when selected, with an interactor, in the Dynamic phase, the queue becomes `Record` of the old queue (enqueue at `now`, then evict); otherwise it is unchanged |
| Throwable.EnhancedThrowable.CalculateThrowVelocities | Assets/Scripts/Testing/EnhancedThrowable.cs:92-128 | the pair-by-pair loop, the division by the interval count, the cross product and the Lerp compute exactly `ThrowVelocities` of the queue |
| Throwable.EnhancedThrowable.Detach | Assets/Scripts/Testing/EnhancedThrowable.cs:70-90 | the outcome is `ReleaseDecision`; a throw sets the body's velocities to the estimate times `velocityMultiplier` and `angularVelocityMultiplier`; every other outcome leaves them unchanged |

## Left out

- Assets/Scripts/Testing/ObjectRespawner.cs, ScoreManager.cs and Target.cs are not part of this model. They are engine glue: input binding, prefab instantiation, UI text and collision callbacks.
- The base interactable lifecycle is not modelled. That covers `base.OnSelectEntering`, `base.OnSelectExiting`, `base.ProcessInteractable` and what `base.Detach()` does to the body. `Detach` reports which branch ran as a `Release` value, and `Debug.LogWarning` is the `KinematicWarning` outcome.
- `Awake`/`GetComponent` are not modelled. The body is a constructor argument and is never null.
- Edits to the settings at run time are not modelled. The settings are constants of the object, fixed to their declared defaults, and the constructor proves they lie in the inspector's `Range` limits (`Valid()`).
- Single-precision floating point, rounding, NaN and infinities are not modelled. All arithmetic is on exact reals. `Deg2Rad` is the engine's single-precision constant rounded to nine significant digits (0.0174532924) and taken as an exact real.
- `Quaternion.ToAngleAxis` is a parameter, so its trigonometry is not modelled. The scenario lemmas state, as a precondition, the decomposition they rely on.
- `Quaternion.Inverse` is the conjugate, which is the inverse of a unit rotation. Non-unit quaternions are not modelled.
- `ProcessInteractable`: the clock, `isSelected` and the interactor's transform are parameters. An engine clock that never runs backwards is a precondition of `RecordStep`, not an assumption of the method. So the method states its new queue as `Record` of the old one, and the window invariants live in `RecordStep` (one update) and `GrabHistoryWindowed` (a whole grab).
- `CalculateThrowVelocities`: the selecting interactor's position is passed in as `gripPosition`. The dereference of `selectingInteractor` becomes the precondition that an interactor is set when there are at least two samples.
- The copy of the queue into a list (line 99) is a value copy of the `seq`. Queue and list object identity is not modelled.
