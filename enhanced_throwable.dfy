/**
  The grab interactable that throws with an estimated release velocity: it
  keeps the pose history while held, and on release either hands the body the
  scaled throw velocities or falls back to a plain detach.
*/
module Throwable {
  import opened Vectors
  import opened PoseHistory
  import opened ThrowEstimator

  datatype Option<T> = None | Some(value: T)

  /** An interactor (a controller or hand), compared by identity. */
  datatype Interactor = Interactor(id: nat)

  /** The interaction manager's update phases. */
  datatype UpdatePhase = Fixed | Dynamic | Late | OnBeforeRender

  /**
    What a release does: throw the body without the base detach, refuse to throw
    a kinematic body (warning and base detach), or a plain base detach.
  */
  datatype Release = Thrown | KinematicWarning | PlainDetach

  /** The branch `Detach` takes. */
  function ReleaseDecision(throwOnDetach: bool, hasInteractor: bool, isKinematic: bool): (r: Release)
    ensures r == Thrown <==> throwOnDetach && hasInteractor && !isKinematic
    ensures r == KinematicWarning <==> throwOnDetach && hasInteractor && isKinematic
    ensures r == PlainDetach <==> !throwOnDetach || !hasInteractor
  {
    if throwOnDetach && hasInteractor then
      if isKinematic then KinematicWarning else Thrown
    else PlainDetach
  }

  /** Every outcome except a throw ends in the base class's detach. */
  predicate CallsBaseDetach(r: Release) {
    r != Thrown
  }

  /** A kinematic body is never thrown: it always ends in the base detach. */
  lemma KinematicNeverThrown(throwOnDetach: bool, hasInteractor: bool)
    ensures ReleaseDecision(throwOnDetach, hasInteractor, true) != Thrown
    ensures CallsBaseDetach(ReleaseDecision(throwOnDetach, hasInteractor, true))
  {
  }

  /** Once the selecting interactor has been cleared, a release is a plain detach whatever the settings. */
  lemma NoInteractorPlainDetach(throwOnDetach: bool, isKinematic: bool)
    ensures ReleaseDecision(throwOnDetach, false, isKinematic) == PlainDetach
  {
  }

  /** Whether the update records a sample: selected, with an interactor, in the Dynamic phase. */
  predicate RecordsSample(isSelected: bool, hasInteractor: bool, phase: UpdatePhase) {
    isSelected && hasInteractor && phase == Dynamic
  }

  /**
    With its settings in their declared ranges, one update that records a
    sample keeps the object's history ordered, newest last and inside its own
    window, given a clock that has not gone backwards.
  */
  lemma ValidRecordStep(t: EnhancedThrowable, h: seq<Pose>, position: Vec3, rotation: Quat, now: real)
    requires t.Valid() && Chronological(h) && NotAfter(h, now)
    ensures var r := Record(h, position, rotation, now, t.throwHistoryDuration);
      && r != [] && r[|r| - 1] == Pose(position, rotation, now)
      && Chronological(r) && NotAfter(r, now) && WithinWindow(r, now, t.throwHistoryDuration)
  {
    RecordStep(h, position, rotation, now, t.throwHistoryDuration);
  }

  /**
    With its settings in their declared ranges, the object's throw adds exactly
    `angularVelocityInfluence` times the tangential term to the average linear
    velocity, and leaves the angular one as the average.
  */
  lemma ValidInfluenceBlend(t: EnhancedThrowable, p: seq<Pose>, toAngleAxis: Quat -> AngleAxis,
                            centerOfMass: Vec3, grip: Vec3)
    requires t.Valid() && |p| >= 2
    ensures var r := ThrowVelocities(p, toAngleAxis, centerOfMass, t.centerOfMassOffset, grip,
                                     t.angularVelocityInfluence);
      var tangential := Cross(AverageRate(p, SpinOf(toAngleAxis)), LeverArm(centerOfMass, t.centerOfMassOffset, grip));
      && r.linear == Add(AverageRate(p, PositionChange), Scale(tangential, t.angularVelocityInfluence))
      && r.angular == AverageRate(p, SpinOf(toAngleAxis))
  {
    InfluenceBlend(p, toAngleAxis, centerOfMass, t.centerOfMassOffset, grip, t.angularVelocityInfluence);
  }

  /** The physics body the interactable moves. */
  class Rigidbody {
    var isKinematic: bool
    var worldCenterOfMass: Vec3
    var linearVelocity: Vec3
    var angularVelocity: Vec3

    constructor (isKinematic: bool, worldCenterOfMass: Vec3)
      ensures this.isKinematic == isKinematic && this.worldCenterOfMass == worldCenterOfMass
      ensures linearVelocity == Zero && angularVelocity == Zero
    {
      this.isKinematic := isKinematic;
      this.worldCenterOfMass := worldCenterOfMass;
      linearVelocity := Zero;
      angularVelocity := Zero;
    }
  }

  class EnhancedThrowable {
    const throwHistoryDuration: real
    const velocityMultiplier: real
    const angularVelocityMultiplier: real
    const angularVelocityInfluence: real
    const centerOfMassOffset: Vec3
    /** The base class's "throw on detach" setting. */
    const throwOnDetach: bool
    const rb: Rigidbody

    /** Oldest sample first; the queue's front is index 0. */
    var poseHistory: seq<Pose>
    var selectingInteractor: Option<Interactor>

    /** The settings lie in their declared inspector ranges. */
    ghost predicate Valid() {
      && 0.05 <= throwHistoryDuration <= 0.5
      && 0.0 <= angularVelocityInfluence <= 1.0
    }

    /** The component with its default settings, attached to `rb`, not held. */
    constructor (rb: Rigidbody, throwOnDetach: bool)
      ensures this.rb == rb && this.throwOnDetach == throwOnDetach
      ensures throwHistoryDuration == 0.2 && velocityMultiplier == 1.5 && angularVelocityMultiplier == 1.0
      ensures angularVelocityInfluence == 0.75 && centerOfMassOffset == Zero
      ensures poseHistory == [] && selectingInteractor == None
      ensures Valid()
    {
      this.rb := rb;
      this.throwOnDetach := throwOnDetach;
      throwHistoryDuration := 0.2;
      velocityMultiplier := 1.5;
      angularVelocityMultiplier := 1.0;
      angularVelocityInfluence := 0.75;
      centerOfMassOffset := Zero;
      poseHistory := [];
      selectingInteractor := None;
    }

    /** Beginning a grab records the new interactor and empties the history, whatever it held. */
    method OnSelectEntering(interactor: Interactor)
      modifies this`selectingInteractor, this`poseHistory
      ensures selectingInteractor == Some(interactor)
      ensures poseHistory == []
    {
      selectingInteractor := Some(interactor);
      poseHistory := [];
    }

    /** Ending a grab forgets the interactor only when it is the one that is exiting. */
    method OnSelectExiting(interactor: Interactor)
      modifies this`selectingInteractor
      ensures old(selectingInteractor) == Some(interactor) ==> selectingInteractor == None
      ensures old(selectingInteractor) != Some(interactor) ==> selectingInteractor == old(selectingInteractor)
    {
      if Some(interactor) == selectingInteractor {
        selectingInteractor := None;
      }
    }

    /**
      The per-phase update. `isSelected` is the base class's selection state,
      `gripPosition` and `gripRotation` the selecting interactor's transform,
      and `now` the frame's clock reading.
    */
    method ProcessInteractable(updatePhase: UpdatePhase, isSelected: bool, gripPosition: Vec3,
                               gripRotation: Quat, now: real)
      modifies this`poseHistory
      ensures RecordsSample(isSelected, selectingInteractor.Some?, updatePhase) ==>
        poseHistory == Record(old(poseHistory), gripPosition, gripRotation, now, throwHistoryDuration)
      ensures !RecordsSample(isSelected, selectingInteractor.Some?, updatePhase) ==> poseHistory == old(poseHistory)
    {
      if isSelected && selectingInteractor.Some? && updatePhase == Dynamic {
        ghost var before := poseHistory;
        poseHistory := poseHistory + [Pose(gripPosition, gripRotation, now)];
        while |poseHistory| > 0 && now - poseHistory[0].time > throwHistoryDuration
          invariant Evict(poseHistory, now, throwHistoryDuration)
            == Record(before, gripPosition, gripRotation, now, throwHistoryDuration)
          decreases |poseHistory|
        {
          poseHistory := poseHistory[1..];
        }
        // The loop changes only the queue; the interactor is still set.
        assert selectingInteractor == old(selectingInteractor);
      }
    }

    /**
      The release velocities, accumulated pair by pair over the history and then
      averaged; `gripPosition` is the selecting interactor's position and
      `toAngleAxis` the engine's angle-axis decomposition.
    */
    method CalculateThrowVelocities(gripPosition: Vec3, toAngleAxis: Quat -> AngleAxis)
      returns (linear: Vec3, angular: Vec3)
      requires |poseHistory| >= 2 ==> selectingInteractor.Some?
      ensures Velocities(linear, angular) == ThrowVelocities(poseHistory, toAngleAxis, rb.worldCenterOfMass,
                                                              centerOfMassOffset, gripPosition, angularVelocityInfluence)
    {
      if |poseHistory| < 2 {
        return Zero, Zero;
      }
      var poses := poseHistory;
      var averageLinearVelocity := Zero;
      var averageAngularVelocity := Zero;
      var i := 0;
      while i < |poses| - 1
        invariant 0 <= i <= |poses| - 1
        invariant averageLinearVelocity == PairSum(poses[..i + 1], PositionChange)
        invariant averageAngularVelocity == PairSum(poses[..i + 1], SpinOf(toAngleAxis))
      {
        var currentPose, nextPose := poses[i], poses[i + 1];
        var deltaTime := nextPose.time - currentPose.time;
        PairSumExtend(poses, i, PositionChange);
        PairSumExtend(poses, i, SpinOf(toAngleAxis));
        if deltaTime > 0.0 {
          averageLinearVelocity := Add(averageLinearVelocity, Div(Sub(nextPose.position, currentPose.position), deltaTime));
          var deltaRotation := Mul(nextPose.rotation, Inverse(currentPose.rotation));
          var aa := toAngleAxis(deltaRotation);
          var angularVelocity := Div(Scale(Scale(aa.axis, aa.angle), Deg2Rad), deltaTime);
          averageAngularVelocity := Add(averageAngularVelocity, angularVelocity);
        } else {
          AddZero(averageLinearVelocity);
          AddZero(averageAngularVelocity);
        }
        i := i + 1;
      }
      assert poses[..|poses|] == poses;
      averageLinearVelocity := Div(averageLinearVelocity, Intervals(poses));
      averageAngularVelocity := Div(averageAngularVelocity, Intervals(poses));
      var tangentialVelocity := Cross(averageAngularVelocity,
                                      Sub(Add(rb.worldCenterOfMass, centerOfMassOffset), gripPosition));
      linear := Lerp(averageLinearVelocity, Add(averageLinearVelocity, tangentialVelocity), angularVelocityInfluence);
      angular := averageAngularVelocity;
    }

    /**
      Releasing the object: a throw gives the body the estimated velocities
      times the multipliers and skips the base detach; every other outcome
      leaves the body's velocities alone.
    */
    method Detach(gripPosition: Vec3, toAngleAxis: Quat -> AngleAxis) returns (outcome: Release)
      modifies rb`linearVelocity, rb`angularVelocity
      ensures outcome == ReleaseDecision(throwOnDetach, selectingInteractor.Some?, rb.isKinematic)
      ensures outcome == Thrown ==>
        var v := ThrowVelocities(poseHistory, toAngleAxis, rb.worldCenterOfMass, centerOfMassOffset,
                                 gripPosition, angularVelocityInfluence);
        rb.linearVelocity == Scale(v.linear, velocityMultiplier) && rb.angularVelocity == Scale(v.angular, angularVelocityMultiplier)
      ensures outcome != Thrown ==>
        rb.linearVelocity == old(rb.linearVelocity) && rb.angularVelocity == old(rb.angularVelocity)
    {
      if throwOnDetach && selectingInteractor.Some? {
        if rb.isKinematic {
          return KinematicWarning;
        }
        var linearVelocity, angularVelocity := CalculateThrowVelocities(gripPosition, toAngleAxis);
        rb.linearVelocity := Scale(linearVelocity, velocityMultiplier);
        rb.angularVelocity := Scale(angularVelocity, angularVelocityMultiplier);
        outcome := Thrown;
      } else {
        outcome := PlainDetach;
      }
    }
  }
}
