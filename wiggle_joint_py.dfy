/**
 * The Python wiggle-joint skill: check the joint number, build two chained
 * point-to-point moves (out by five degrees, then back), wait for the
 * completion signal and raise if the `on_timeout` callback has run.
 */
module WiggleJointPy {
  import opened Outcomes
  import opened Icon
  import opened Wiggle

  /** The exceptions `execute` raises. */
  datatype WiggleError =
    /** ValueError: the status response holds no entry for the part. */
    | CouldNotGetStatus(partName: string)
    /** ValueError: the joint number is outside the part's joints. */
    | JointDoesNotExist(jointNumber: int)
    /** RuntimeError: `success` was false once the wait returned. */
    | FailedToWiggle

  /** `get_single_part_status`: the part's entry of the status response, if it has one. */
  function GetSinglePartStatus(partStatus: map<string, PartStatus>, partName: string): (r: Option<PartStatus>)
    ensures r.Some? <==> partName in partStatus
    ensures r.Some? ==> r.value == partStatus[partName]
  {
    if partName in partStatus then Some(partStatus[partName]) else None
  }

  /** The timeout reaction both moves carry: report the timeout, then signal completion. */
  const TimeoutGuard: Reaction :=
    Reaction(IsGreaterThanOrEqual(SetpointDoneForSeconds, TimeoutSeconds), [TriggerCallback(OnTimeout), Signal])

  /** `first_move` and `second_move`, in the order they are added to the session. */
  function Actions(partName: string, firstGoal: seq<real>, original: seq<real>, zeroVelocity: seq<real>)
    : (r: seq<Action>)
    ensures |r| == 2 && r[0].id == FirstActionId && r[1].id == SecondActionId
    ensures r[0].goalPosition == firstGoal && r[1].goalPosition == original
    ensures forall a :: a in r ==>
      a.actionType == PointToPointMove && a.part == partName && a.goalVelocity == zeroVelocity
  {
    [ Action(FirstActionId, PointToPointMove, partName, firstGoal, zeroVelocity,
        [Reaction(IsTrue(IsSettled), [StartActionInRealTime(SecondActionId)]), TimeoutGuard]),
      Action(SecondActionId, PointToPointMove, partName, original, zeroVelocity,
        [Reaction(IsTrue(IsSettled), [Signal]), TimeoutGuard]) ]
  }

  /** The calls `execute` makes once the joint number has been accepted. */
  function SessionCalls(partName: string, actions: seq<Action>): seq<SessionCall>
  {
    [StartSession([partName]), AddActions(actions), StartActions([FirstActionId]), WaitForSignal]
  }

  /** Where `sig_actions_done.wait()` stands after some responses, and the value of `success`. */
  datatype WaitState = StillWaiting(success: bool) | Woken(success: bool)

  /**
   * Applies responses in order, starting from the given `success`: the
   * `on_timeout` callback clears `success`, and the wait returns at the first
   * `Signal`; later responses no longer reach `execute`.
   */
  function AfterResponses(success: bool, rs: seq<Response>): (r: WaitState)
    ensures r.success ==> success
    ensures r.StillWaiting? ==> r.success == (success && TriggerCallback(OnTimeout) !in rs)
  {
    if rs == [] then StillWaiting(success)
    else if rs[0] == Signal then Woken(success)
    else
      assert rs == [rs[0]] + rs[1..];
      AfterResponses(if rs[0] == TriggerCallback(OnTimeout) then false else success, rs[1..])
  }

  /** The responses applied before the first `Signal` (all of them if there is none). */
  function BeforeFirstSignal(rs: seq<Response>): (r: seq<Response>)
    ensures |r| <= |rs|
  {
    if rs == [] || rs[0] == Signal then [] else [rs[0]] + BeforeFirstSignal(rs[1..])
  }

  /**
   * How `execute` ends once the runtime has applied the given responses: it
   * waits forever without a signal, and raises exactly when `on_timeout` ran
   * before the first one.
   */
  function Outcome(rs: seq<Response>): (r: RunOutcome<WiggleError>)
    ensures r == WaitsForever <==> Signal !in rs
    ensures r.Failed? <==> Signal in rs && TriggerCallback(OnTimeout) in BeforeFirstSignal(rs)
    ensures r.Failed? ==> r.error == FailedToWiggle
  {
    WaitEndsAtFirstSignal(true, rs);
    match AfterResponses(true, rs)
    case StillWaiting(_) => WaitsForever
    case Woken(success) => if success then Completed else Failed(FailedToWiggle)
  }

  /**
   * `WiggleJoint.execute`. The status response, the joint number and the
   * firings the ICON runtime delivers are inputs; `calls` lists what is asked
   * of the ICON session (the client's `get_config` and `get_status` queries
   * are not listed).
   */
  method Execute(partStatus: map<string, PartStatus>, partName: string, jointNumber: int, firings: seq<Firing>)
    returns (outcome: RunOutcome<WiggleError>, calls: seq<SessionCall>)
    ensures partName !in partStatus ==> outcome == Failed(CouldNotGetStatus(partName)) && calls == []
    ensures partName in partStatus && !JointExists(jointNumber, |partStatus[partName].jointStates|) ==>
      outcome == Failed(JointDoesNotExist(jointNumber)) && calls == []
    ensures partName in partStatus && JointExists(jointNumber, |partStatus[partName].jointStates|) ==>
      var states := partStatus[partName].jointStates;
      var actions := Actions(partName, FirstGoalPositions(states, jointNumber), OriginalPositions(states),
                             ZeroVelocity(|states|));
      calls == SessionCalls(partName, actions) && outcome == Outcome(Responses(actions, firings))
  {
    var status := GetSinglePartStatus(partStatus, partName);
    if status.None? {
      return Failed(CouldNotGetStatus(partName)), [];
    }
    var states := status.value.jointStates;
    var indexTooSmall := jointNumber < 0;
    var indexTooBig := jointNumber >= |states|;
    if indexTooSmall || indexTooBig {
      return Failed(JointDoesNotExist(jointNumber)), [];
    }
    var original, firstGoal, zeroVelocity := BuildGoalVectors(states, jointNumber);
    var success := true;
    var actions := Actions(partName, firstGoal, original, zeroVelocity);
    calls := SessionCalls(partName, actions);
    // The runtime applies the fired reactions' responses; `on_timeout`
    // clears `success` and the wait returns at the first signal.
    var rs := Responses(actions, firings);
    var i := 0;
    var signaled := false;
    while i < |rs| && !signaled
      invariant 0 <= i <= |rs|
      invariant AfterResponses(true, rs) == if signaled then Woken(success) else AfterResponses(success, rs[i..])
    {
      if rs[i] == Signal {
        signaled := true;
      } else if rs[i] == TriggerCallback(OnTimeout) {
        success := false;
      }
      assert rs[i..][1..] == rs[i + 1..];
      i := i + 1;
    }
    if !signaled {
      outcome := WaitsForever;
    } else if !success {
      outcome := Failed(FailedToWiggle);
    } else {
      outcome := Completed;
    }
  }

  /**
   * The wait returns exactly when a `Signal` is applied, and `success` is then
   * false exactly when `on_timeout` ran before that signal: nothing else
   * clears it.
   */
  lemma {:induction false} WaitEndsAtFirstSignal(success: bool, rs: seq<Response>)
    ensures AfterResponses(success, rs).Woken? <==> Signal in rs
    ensures AfterResponses(success, rs).success == (success && TriggerCallback(OnTimeout) !in BeforeFirstSignal(rs))
  {
    if rs != [] && rs[0] != Signal {
      var next := if rs[0] == TriggerCallback(OnTimeout) then false else success;
      WaitEndsAtFirstSignal(next, rs[1..]);
      assert rs == [rs[0]] + rs[1..];
    }
  }

  /** Responses with no `Signal` leave the wait pending and only `on_timeout` can change `success`. */
  lemma {:induction false} AfterSignalFreePrefix(success: bool, pre: seq<Response>, rest: seq<Response>)
    requires Signal !in pre
    ensures AfterResponses(success, pre + rest) ==
      AfterResponses(success && TriggerCallback(OnTimeout) !in pre, rest)
  {
    if pre == [] {
      assert pre + rest == rest;
    } else {
      assert (pre + rest)[0] == pre[0];
      assert (pre + rest)[1..] == pre[1..] + rest;
      AfterSignalFreePrefix(if pre[0] == TriggerCallback(OnTimeout) then false else success, pre[1..], rest);
      assert pre == [pre[0]] + pre[1..];
    }
  }

  /**
   * After responses with no `Signal`, responses that signal, possibly after
   * `on_timeout`, end `execute`: normally only if `on_timeout` ran nowhere
   * before the signal.
   */
  lemma OutcomeAtFirstSignal(pre: seq<Response>, rf: seq<Response>, post: seq<Response>)
    requires Signal !in pre
    requires rf == [Signal] || rf == [TriggerCallback(OnTimeout), Signal]
    ensures Outcome(pre + (rf + post)) ==
      if rf == [Signal] && TriggerCallback(OnTimeout) !in pre then Completed else Failed(FailedToWiggle)
  {
    var rest := rf + post;
    AfterSignalFreePrefix(true, pre, rest);
    var success := TriggerCallback(OnTimeout) !in pre;
    if rf == [Signal] {
      assert rest[0] == Signal;
    } else {
      assert rest[0] == TriggerCallback(OnTimeout);
      assert rest[1..] == [Signal] + post;
      assert AfterResponses(success, rest) == AfterResponses(false, rest[1..]);
    }
  }

  /** The responses of each reaction of the skill's graph, by firing. */
  lemma GraphResponses(partName: string, firstGoal: seq<real>, original: seq<real>, zeroVelocity: seq<real>, f: Firing)
    ensures var actions := Actions(partName, firstGoal, original, zeroVelocity);
      ResponsesOf(actions, f) ==
        if f == Firing(FirstActionId, GoalReaction) then [StartActionInRealTime(SecondActionId)]
        else if f == Firing(SecondActionId, GoalReaction) then [Signal]
        else if f.actionId in {FirstActionId, SecondActionId} && f.reactionIndex == TimeoutReaction then
          [TriggerCallback(OnTimeout), Signal]
        else []
  {
    var actions := Actions(partName, firstGoal, original, zeroVelocity);
    assert actions[1..] == [actions[1]];
    assert actions[1..][1..] == [];
  }

  /**
   * Each move reaches its goal when `is_settled` holds, and gives up once its
   * setpoint has been done for 2 seconds: `on_timeout` runs, then the signal.
   * Only the second move's settling signals; the first one's starts the second
   * move in real time.
   */
  lemma ReactionConditions(partName: string, firstGoal: seq<real>, original: seq<real>, zeroVelocity: seq<real>)
    ensures forall a :: a in Actions(partName, firstGoal, original, zeroVelocity) ==>
      && |a.reactions| == 2
      && a.reactions[GoalReaction].condition == IsTrue(IsSettled)
      && a.reactions[TimeoutReaction].condition == IsGreaterThanOrEqual(SetpointDoneForSeconds, 2.0)
      && a.reactions[TimeoutReaction].responses == [TriggerCallback(OnTimeout), Signal]
    ensures Actions(partName, firstGoal, original, zeroVelocity)[0].reactions[GoalReaction].responses ==
      [StartActionInRealTime(SecondActionId)]
    ensures Actions(partName, firstGoal, original, zeroVelocity)[1].reactions[GoalReaction].responses == [Signal]
  {
  }

  /** Firings none of which signals leave the wait pending. */
  lemma NoSignalAmong(actions: seq<Action>, pre: seq<Firing>)
    requires forall f :: f in pre ==> Signal !in ResponsesOf(actions, f)
    ensures Signal !in Responses(actions, pre)
  {
    InResponses(actions, pre, Signal);
  }

  /**
   * A timeout reaction of either move firing before anything else has
   * signalled makes `execute` raise: the callback runs before the signal it
   * sends.
   */
  lemma TimeoutBeforeSignalRaises(
    partName: string, firstGoal: seq<real>, original: seq<real>, zeroVelocity: seq<real>,
    pre: seq<Firing>, id: nat, post: seq<Firing>)
    requires id == FirstActionId || id == SecondActionId
    requires forall f :: f in pre ==> Signal !in ResponsesOf(Actions(partName, firstGoal, original, zeroVelocity), f)
    ensures var actions := Actions(partName, firstGoal, original, zeroVelocity);
      Outcome(Responses(actions, pre + [Firing(id, TimeoutReaction)] + post)) == Failed(FailedToWiggle)
  {
    var actions := Actions(partName, firstGoal, original, zeroVelocity);
    var timeout := Firing(id, TimeoutReaction);
    GraphResponses(partName, firstGoal, original, zeroVelocity, timeout);
    NoSignalAmong(actions, pre);
    assert Responses(actions, pre + [timeout] + post) ==
      Responses(actions, pre) + (ResponsesOf(actions, timeout) + Responses(actions, post)) by {
      ResponsesAround(actions, pre, timeout, post);
    }
    OutcomeAtFirstSignal(Responses(actions, pre), ResponsesOf(actions, timeout), Responses(actions, post));
  }

  /** The first move reaching its goal, however often, neither signals nor runs `on_timeout`. */
  lemma FirstMoveReachingGoalOnlyChains(
    partName: string, firstGoal: seq<real>, original: seq<real>, zeroVelocity: seq<real>, pre: seq<Firing>)
    requires forall f :: f in pre ==> f == Firing(FirstActionId, GoalReaction)
    ensures var rs := Responses(Actions(partName, firstGoal, original, zeroVelocity), pre);
      Signal !in rs && TriggerCallback(OnTimeout) !in rs
  {
    var actions := Actions(partName, firstGoal, original, zeroVelocity);
    GraphResponses(partName, firstGoal, original, zeroVelocity, Firing(FirstActionId, GoalReaction));
    InResponses(actions, pre, Signal);
    InResponses(actions, pre, TriggerCallback(OnTimeout));
  }

  /**
   * The second move settling ends `execute` normally when no earlier firing
   * signalled or timed out: the outcome of a move that settles in time.
   */
  lemma SettledWithoutTimeoutCompletes(
    partName: string, firstGoal: seq<real>, original: seq<real>, zeroVelocity: seq<real>,
    pre: seq<Firing>, post: seq<Firing>)
    requires forall f :: f in pre ==> f == Firing(FirstActionId, GoalReaction)
    ensures var actions := Actions(partName, firstGoal, original, zeroVelocity);
      Outcome(Responses(actions, pre + [Firing(SecondActionId, GoalReaction)] + post)) == Completed
  {
    var actions := Actions(partName, firstGoal, original, zeroVelocity);
    var settled := Firing(SecondActionId, GoalReaction);
    GraphResponses(partName, firstGoal, original, zeroVelocity, settled);
    FirstMoveReachingGoalOnlyChains(partName, firstGoal, original, zeroVelocity, pre);
    assert Responses(actions, pre + [settled] + post) ==
      Responses(actions, pre) + (ResponsesOf(actions, settled) + Responses(actions, post)) by {
      ResponsesAround(actions, pre, settled, post);
    }
    OutcomeAtFirstSignal(Responses(actions, pre), ResponsesOf(actions, settled), Responses(actions, post));
  }

  /**
   * Both moves carry a timeout reaction that signals, so any trace in which
   * one of them fires wakes `execute`: it never waits forever.
   */
  lemma TimeoutFiringEndsWait(
    partName: string, firstGoal: seq<real>, original: seq<real>, zeroVelocity: seq<real>,
    firings: seq<Firing>, id: nat)
    requires id == FirstActionId || id == SecondActionId
    requires Firing(id, TimeoutReaction) in firings
    ensures Outcome(Responses(Actions(partName, firstGoal, original, zeroVelocity), firings)) != WaitsForever
  {
    var actions := Actions(partName, firstGoal, original, zeroVelocity);
    GraphResponses(partName, firstGoal, original, zeroVelocity, Firing(id, TimeoutReaction));
    InResponses(actions, firings, Signal);
    WaitEndsAtFirstSignal(true, Responses(actions, firings));
  }

  /**
   * The graph is closed and registered before use: both ids are distinct,
   * the only real-time start targets the second move, and the session adds
   * both moves before starting only the first.
   */
  lemma SessionStartsOnlyRegistered(partName: string, firstGoal: seq<real>, original: seq<real>, zeroVelocity: seq<real>)
    ensures var actions := Actions(partName, firstGoal, original, zeroVelocity);
      && UniqueIds(actions)
      && StartsOnlyRegistered(SessionCalls(partName, actions))
      && (forall k :: 0 <= k < 4 && SessionCalls(partName, actions)[k].StartActions? ==>
            SessionCalls(partName, actions)[k].ids == [FirstActionId])
  {
    var actions := Actions(partName, firstGoal, original, zeroVelocity);
    var calls := SessionCalls(partName, actions);
    assert calls[..1] == [StartSession([partName])];
    assert calls[..2] == calls[..1] + [AddActions(actions)];
    assert calls[..3] == calls[..2] + [StartActions([FirstActionId])];
    assert calls[..1][..0] == [];
    assert calls[..2][..1] == calls[..1];
    assert calls[..3][..2] == calls[..2];
    assert (set a | a in actions :: a.id) == {FirstActionId, SecondActionId} by {
      assert actions[0] in actions && actions[1] in actions;
    }
    assert RegisteredBy(calls[..1][..0]) == {};
    assert RegisteredBy(calls[..1]) == {};
    assert calls[..2][1] == AddActions(actions);
    assert RegisteredBy(calls[..2]) == {FirstActionId, SecondActionId};
    assert RegisteredBy(calls[..3]) == {FirstActionId, SecondActionId};
  }

  /**
   * The second move returns every joint to its sensed position and the first
   * differs from it only at the chosen joint, by five degrees; both stop with
   * zero velocity.
   */
  lemma MovesOutAndBack(states: seq<JointState>, jointNumber: int, partName: string)
    requires JointExists(jointNumber, |states|)
    ensures var actions := Actions(partName, FirstGoalPositions(states, jointNumber), OriginalPositions(states),
                                   ZeroVelocity(|states|));
      && (forall i :: 0 <= i < |states| ==> actions[1].goalPosition[i] == states[i].positionSensed)
      && (forall i :: 0 <= i < |states| ==>
            actions[0].goalPosition[i] == actions[1].goalPosition[i] + (if i == jointNumber then FiveDegrees else 0.0))
      && (forall a :: a in actions ==>
            && |a.goalPosition| == |a.goalVelocity| == |states|
            && forall i :: 0 <= i < |states| ==> a.goalVelocity[i] == 0.0)
  {
  }
}
