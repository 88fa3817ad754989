/**
 * What the Python and the C++ wiggle-joint skills share: the constants, the
 * joint-number check and the three joint vectors built from the sensed part
 * status before any ICON session is started.
 */
module Wiggle {
  import opened Icon

  /** Five degrees in radians: how far the chosen joint is moved out. */
  const FiveDegrees: real := 0.0872665
  const FirstActionId: nat := 1
  const SecondActionId: nat := 2
  /** How long a settled setpoint may last before the move counts as timed out. */
  const TimeoutSeconds: real := 2.0

  /**
   * Each move lists first the reaction to reaching its goal (`is_settled`, or
   * `IsDone` for the first C++ move) and its timeout reaction second.
   */
  const GoalReaction: nat := 0
  const TimeoutReaction: nat := 1

  /** The joint check both skills make: neither `joint_number < 0` nor `joint_number >= #joints`. */
  predicate JointExists(jointNumber: int, jointCount: nat)
  {
    !(jointNumber < 0) && !(jointNumber >= jointCount)
  }

  /** The sensed position of every joint, in joint order. */
  function OriginalPositions(states: seq<JointState>): seq<real>
  {
    seq(|states|, i requires 0 <= i < |states| => states[i].positionSensed)
  }

  /** The sensed positions with the chosen joint moved out by five degrees. */
  function FirstGoalPositions(states: seq<JointState>, jointNumber: int): seq<real>
    requires JointExists(jointNumber, |states|)
  {
    seq(|states|, i requires 0 <= i < |states| =>
      if i == jointNumber then states[jointNumber].positionSensed + FiveDegrees else states[i].positionSensed)
  }

  function ZeroVelocity(n: nat): seq<real>
  {
    seq(n, _ => 0.0)
  }

  /**
   * The loop that fills `original_positions`, `first_goal_positions` and
   * `zero_velocity` joint by joint. Both skills compute the target pose from
   * `joint_states[joint_number]` before the loop, so the joint number has been
   * checked by then.
   */
  method BuildGoalVectors(states: seq<JointState>, jointNumber: int)
    returns (original: seq<real>, firstGoal: seq<real>, zeroVelocity: seq<real>)
    requires JointExists(jointNumber, |states|)
    ensures |original| == |firstGoal| == |zeroVelocity| == |states|
    ensures forall i :: 0 <= i < |states| ==> original[i] == states[i].positionSensed
    ensures forall i :: 0 <= i < |states| && i != jointNumber ==> firstGoal[i] == original[i]
    ensures firstGoal[jointNumber] == original[jointNumber] + FiveDegrees
    ensures forall i :: 0 <= i < |states| ==> zeroVelocity[i] == 0.0
    ensures original == OriginalPositions(states)
    ensures firstGoal == FirstGoalPositions(states, jointNumber)
    ensures zeroVelocity == ZeroVelocity(|states|)
  {
    var jointTargetPose := states[jointNumber].positionSensed + FiveDegrees;
    original, firstGoal, zeroVelocity := [], [], [];
    var i := 0;
    while i < |states|
      invariant 0 <= i <= |states|
      invariant |original| == |firstGoal| == |zeroVelocity| == i
      invariant forall k :: 0 <= k < i ==> original[k] == states[k].positionSensed
      invariant forall k :: 0 <= k < i ==>
        firstGoal[k] == if k == jointNumber then jointTargetPose else states[k].positionSensed
      invariant forall k :: 0 <= k < i ==> zeroVelocity[k] == 0.0
    {
      var curPos := states[i].positionSensed;
      if i == jointNumber {
        firstGoal := firstGoal + [jointTargetPose];
      } else {
        firstGoal := firstGoal + [curPos];
      }
      original := original + [curPos];
      zeroVelocity := zeroVelocity + [0.0];
      i := i + 1;
    }
  }
}
