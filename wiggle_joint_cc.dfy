/**
 * The C++ wiggle-joint skill. It builds the same two moves as the Python
 * skill, but the first move chains on `IsDone`, every terminal reaction is a
 * non-real-time watcher that quits the session's watcher loop, and `Execute`
 * returns success once that loop returns, whichever watcher ended it.
 */
module WiggleJointCc {
  import opened Outcomes
  import opened Icon
  import opened Wiggle

  /** The error statuses `Execute` returns. */
  datatype WiggleError =
    /** The status error of `GetSinglePartStatus`, passed on unchanged. */
    | PartStatusUnavailable
    /** FailedPreconditionError: the joint number is outside the part's joints. */
    | JointDoesNotExist(jointNumber: int)

  /** The watcher both moves carry: log "Failed to reach Goal" and quit the watcher loop. */
  const TimeoutWatcher: Reaction :=
    Reaction(IsGreaterThanOrEqual(SetpointDoneForSeconds, TimeoutSeconds), [QuitWatcherLoop(Error)])

  /** `first_move` and `second_move`, in the order they are added to the session. */
  function Actions(partName: string, firstGoal: seq<real>, original: seq<real>, zeroVelocity: seq<real>)
    : (r: seq<Action>)
    ensures |r| == 2 && r[0].id == FirstActionId && r[1].id == SecondActionId
    ensures r[0].goalPosition == firstGoal && r[1].goalPosition == original
    ensures forall a :: a in r ==>
      a.actionType == PointToPointMove && a.part == partName && a.goalVelocity == zeroVelocity
  {
    [ Action(FirstActionId, PointToPointMove, partName, firstGoal, zeroVelocity,
        [Reaction(IsDone, [StartActionInRealTime(SecondActionId)]), TimeoutWatcher]),
      Action(SecondActionId, PointToPointMove, partName, original, zeroVelocity,
        [Reaction(IsTrue(IsSettled), [QuitWatcherLoop(Info)]), TimeoutWatcher]) ]
  }

  /** The calls `Execute` makes once the joint number has been accepted. */
  function SessionCalls(partName: string, actions: seq<Action>): seq<SessionCall>
  {
    [StartSession([partName]), AddActions(actions), StartActions([FirstActionId]), RunWatcherLoop]
  }

  predicate QuitsWatcherLoop(rs: seq<Response>)
  {
    exists x :: x in rs && x.QuitWatcherLoop?
  }

  /** How `Execute` ends for a trace of firings: the watcher loop returns once a watcher quits it. */
  function Outcome(actions: seq<Action>, firings: seq<Firing>): (r: RunOutcome<WiggleError>)
    ensures !r.Failed?
    ensures r == Completed <==>
      QuitWatcherLoop(Info) in Responses(actions, firings) || QuitWatcherLoop(Error) in Responses(actions, firings)
  {
    var rs := Responses(actions, firings);
    if QuitsWatcherLoop(rs) then
      var x :| x in rs && x.QuitWatcherLoop?;
      assert x == QuitWatcherLoop(x.logged);
      assert x.logged.Info? || x.logged.Error?;
      Completed
    else WaitsForever
  }

  /**
   * `WiggleJoint::Execute`. The result of `GetSinglePartStatus`, the joint
   * number and the firings the ICON runtime delivers are inputs; `calls` lists
   * what is asked of the ICON session.
   */
  method Execute(partStatus: Option<PartStatus>, partName: string, jointNumber: int, firings: seq<Firing>)
    returns (outcome: RunOutcome<WiggleError>, calls: seq<SessionCall>)
    ensures partStatus.None? ==> outcome == Failed(PartStatusUnavailable) && calls == []
    ensures partStatus.Some? && !JointExists(jointNumber, |partStatus.value.jointStates|) ==>
      outcome == Failed(JointDoesNotExist(jointNumber)) && calls == []
    ensures partStatus.Some? && JointExists(jointNumber, |partStatus.value.jointStates|) ==>
      var states := partStatus.value.jointStates;
      var actions := Actions(partName, FirstGoalPositions(states, jointNumber), OriginalPositions(states),
                             ZeroVelocity(|states|));
      calls == SessionCalls(partName, actions) && outcome == Outcome(actions, firings)
  {
    if partStatus.None? {
      return Failed(PartStatusUnavailable), [];
    }
    var states := partStatus.value.jointStates;
    if jointNumber < 0 || jointNumber >= |states| {
      return Failed(JointDoesNotExist(jointNumber)), [];
    }
    var original, firstGoal, zeroVelocity := BuildGoalVectors(states, jointNumber);
    var actions := Actions(partName, firstGoal, original, zeroVelocity);
    calls := SessionCalls(partName, actions);
    // `RunWatcherLoop` runs the watchers of the fired reactions until one of
    // them quits the loop.
    var rs := Responses(actions, firings);
    var i := 0;
    var quit := false;
    while i < |rs| && !quit
      invariant 0 <= i <= |rs|
      invariant quit ==> QuitsWatcherLoop(rs)
      invariant !quit ==> forall k :: 0 <= k < i ==> !rs[k].QuitWatcherLoop?
    {
      quit := rs[i].QuitWatcherLoop?;
      i := i + 1;
    }
    outcome := if quit then Completed else WaitsForever;
  }

  /** The firings that end the watcher loop: either timeout, or the second move settling. */
  predicate EndsWatcherLoop(f: Firing)
  {
    || f == Firing(FirstActionId, TimeoutReaction)
    || f == Firing(SecondActionId, GoalReaction)
    || f == Firing(SecondActionId, TimeoutReaction)
  }

  /** The responses of each reaction of the skill's graph, by firing. */
  lemma GraphResponses(partName: string, firstGoal: seq<real>, original: seq<real>, zeroVelocity: seq<real>, f: Firing)
    ensures var actions := Actions(partName, firstGoal, original, zeroVelocity);
      ResponsesOf(actions, f) ==
        if f == Firing(FirstActionId, GoalReaction) then [StartActionInRealTime(SecondActionId)]
        else if f == Firing(SecondActionId, GoalReaction) then [QuitWatcherLoop(Info)]
        else if f.actionId in {FirstActionId, SecondActionId} && f.reactionIndex == TimeoutReaction then
          [QuitWatcherLoop(Error)]
        else []
  {
    var actions := Actions(partName, firstGoal, original, zeroVelocity);
    assert actions[1..] == [actions[1]];
    assert actions[1..][1..] == [];
  }

  /**
   * The first move reaches its goal when it is done, the second when
   * `IsSettled` holds; each gives up once its setpoint has been done for 2
   * seconds, with a watcher that logs an error and quits the loop. Only the
   * second move's settling quits the loop with an info log; the first one's
   * starts the second move in real time.
   */
  lemma ReactionConditions(partName: string, firstGoal: seq<real>, original: seq<real>, zeroVelocity: seq<real>)
    ensures forall a :: a in Actions(partName, firstGoal, original, zeroVelocity) ==>
      && |a.reactions| == 2
      && a.reactions[TimeoutReaction].condition == IsGreaterThanOrEqual(SetpointDoneForSeconds, 2.0)
      && a.reactions[TimeoutReaction].responses == [QuitWatcherLoop(Error)]
    ensures Actions(partName, firstGoal, original, zeroVelocity)[0].reactions[GoalReaction] ==
      Reaction(IsDone, [StartActionInRealTime(SecondActionId)])
    ensures Actions(partName, firstGoal, original, zeroVelocity)[1].reactions[GoalReaction] ==
      Reaction(IsTrue(IsSettled), [QuitWatcherLoop(Info)])
  {
  }

  /**
   * `Execute` returns success exactly when a timeout or the second move's
   * settling fired; the first move finishing alone only starts the second.
   * A timeout therefore also yields success.
   */
  lemma CompletesIffLoopEnded(partName: string, firstGoal: seq<real>, original: seq<real>, zeroVelocity: seq<real>,
                              firings: seq<Firing>)
    ensures Outcome(Actions(partName, firstGoal, original, zeroVelocity), firings) == Completed <==>
      exists f :: f in firings && EndsWatcherLoop(f)
    ensures Outcome(Actions(partName, firstGoal, original, zeroVelocity), firings) != Completed ==>
      Outcome(Actions(partName, firstGoal, original, zeroVelocity), firings) == WaitsForever
  {
    var actions := Actions(partName, firstGoal, original, zeroVelocity);
    InResponses(actions, firings, QuitWatcherLoop(Info));
    InResponses(actions, firings, QuitWatcherLoop(Error));
    forall f | f in firings
      ensures QuitWatcherLoop(Info) in ResponsesOf(actions, f) || QuitWatcherLoop(Error) in ResponsesOf(actions, f)
        <==> EndsWatcherLoop(f)
    {
      GraphResponses(partName, firstGoal, original, zeroVelocity, f);
    }
  }

  /**
   * As in the Python skill, both ids are distinct, the only real-time start
   * targets the second move, and the session adds both moves before starting
   * only the first.
   */
  lemma SessionStartsOnlyRegistered(partName: string, firstGoal: seq<real>, original: seq<real>, zeroVelocity: seq<real>)
    ensures var actions := Actions(partName, firstGoal, original, zeroVelocity);
      && UniqueIds(actions)
      && StartsOnlyRegistered(SessionCalls(partName, actions))
      && (forall k :: 0 <= k < 4 && SessionCalls(partName, actions)[k].StartActions? ==>
            SessionCalls(partName, actions)[k].ids == [FirstActionId])
  {
    var actions := Actions(partName, firstGoal, original, zeroVelocity);
    var calls := SessionCalls(partName, actions);
    assert calls[..1] == [StartSession([partName])];
    assert calls[..2] == calls[..1] + [AddActions(actions)];
    assert calls[..3] == calls[..2] + [StartActions([FirstActionId])];
    assert calls[..1][..0] == [];
    assert calls[..2][..1] == calls[..1];
    assert calls[..3][..2] == calls[..2];
    assert (set a | a in actions :: a.id) == {FirstActionId, SecondActionId} by {
      assert actions[0] in actions && actions[1] in actions;
    }
    assert RegisteredBy(calls[..1][..0]) == {};
    assert RegisteredBy(calls[..1]) == {};
    assert calls[..2][1] == AddActions(actions);
    assert RegisteredBy(calls[..2]) == {FirstActionId, SecondActionId};
    assert RegisteredBy(calls[..3]) == {FirstActionId, SecondActionId};
  }
}
