/**
 * The action/reaction graph that a skill hands to an ICON session, as plain
 * data. The session itself and the real-time loop that decides when a
 * reaction fires belong to the ICON library and are not modelled: which
 * reactions fired, and in which order, is given to the model as a trace of
 * firings. Each firing contributes the responses of its reaction, in list
 * order.
 */
module Icon {
  import opened Outcomes

  /** One entry of `PartStatus.joint_states`. */
  datatype JointState = JointState(positionSensed: real)

  /** The status of one part, as returned by the ICON server. */
  datatype PartStatus = PartStatus(jointStates: seq<JointState>)

  /** The real-time state variables the skills' conditions read. */
  datatype StateVariable = IsSettled | SetpointDoneForSeconds

  datatype Condition =
    | IsTrue(variable: StateVariable)
    | IsGreaterThanOrEqual(variable: StateVariable, value: real)
    | IsDone

  /** The only non-real-time callback a skill registers: the wiggle skill's `on_timeout`. */
  datatype Callback = OnTimeout

  datatype LogLevel = Info | Error

  datatype Response =
    | StartActionInRealTime(startActionId: nat)
    | TriggerCallback(callback: Callback)
    | Signal
    /** A watcher that logs at the given level and then quits the session's watcher loop. */
    | QuitWatcherLoop(logged: LogLevel)

  datatype Reaction = Reaction(condition: Condition, responses: seq<Response>)

  datatype Action = Action(
    id: nat,
    actionType: string,
    part: string,
    goalPosition: seq<real>,
    goalVelocity: seq<real>,
    reactions: seq<Reaction>)

  /** The calls a skill makes on its ICON client and session, in order. */
  datatype SessionCall =
    | StartSession(parts: seq<string>)
    | AddActions(actions: seq<Action>)
    | StartActions(ids: seq<nat>)
    | WaitForSignal
    | RunWatcherLoop

  /** The reaction at `reactionIndex` of the action with id `actionId` fired once. */
  datatype Firing = Firing(actionId: nat, reactionIndex: nat)

  /** How a skill's `execute` ends, given a trace of firings. */
  datatype RunOutcome<+E> = Completed | Failed(error: E) | WaitsForever

  const PointToPointMove: string := "xfa.point_to_point_move"

  /** The first registered action with the given id. */
  function FindAction(actions: seq<Action>, id: nat): (r: Option<Action>)
    ensures r.Some? ==> r.value in actions && r.value.id == id
    ensures r.None? <==> forall a :: a in actions ==> a.id != id
  {
    if actions == [] then None
    else if actions[0].id == id then Some(actions[0])
    else FindAction(actions[1..], id)
  }

  /** The responses a firing applies; a firing that names no registered reaction applies none. */
  function ResponsesOf(actions: seq<Action>, f: Firing): seq<Response>
  {
    match FindAction(actions, f.actionId)
    case None => []
    case Some(a) => if f.reactionIndex < |a.reactions| then a.reactions[f.reactionIndex].responses else []
  }

  /** All responses of a trace of firings, in firing order and, within a firing, in list order. */
  function Responses(actions: seq<Action>, firings: seq<Firing>): seq<Response>
  {
    if firings == [] then [] else ResponsesOf(actions, firings[0]) + Responses(actions, firings[1..])
  }

  lemma {:induction false} ResponsesAppend(actions: seq<Action>, xs: seq<Firing>, ys: seq<Firing>)
    ensures Responses(actions, xs + ys) == Responses(actions, xs) + Responses(actions, ys)
  {
    if xs == [] {
      assert xs + ys == ys;
    } else {
      assert (xs + ys)[1..] == xs[1..] + ys;
      ResponsesAppend(actions, xs[1..], ys);
    }
  }

  /** The responses of a trace around one firing: those before it, its own, then those after it. */
  lemma ResponsesAround(actions: seq<Action>, pre: seq<Firing>, f: Firing, post: seq<Firing>)
    ensures Responses(actions, pre + [f] + post) ==
      Responses(actions, pre) + ResponsesOf(actions, f) + Responses(actions, post)
  {
    ResponsesAppend(actions, pre + [f], post);
    ResponsesAppend(actions, pre, [f]);
    assert Responses(actions, [f]) == ResponsesOf(actions, f) by {
      assert [f][1..] == [];
    }
  }

  /** A response is applied by a trace exactly when some firing of the trace applies it. */
  lemma {:induction false} InResponses(actions: seq<Action>, firings: seq<Firing>, x: Response)
    ensures x in Responses(actions, firings) <==> exists f :: f in firings && x in ResponsesOf(actions, f)
  {
    if firings != [] {
      InResponses(actions, firings[1..], x);
      forall f | f in firings
        ensures f == firings[0] || f in firings[1..]
      {
      }
    }
  }

  /** Ids of the actions registered by a list of session calls. */
  function RegisteredBy(calls: seq<SessionCall>): set<nat>
  {
    if calls == [] then {}
    else
      var added := match calls[|calls| - 1]
        case AddActions(actions) => set a | a in actions :: a.id
        case _ => {};
      RegisteredBy(calls[..|calls| - 1]) + added
  }

  /** Every action a reaction may start in real time is one of the listed actions. */
  predicate RealTimeTargetsAmong(actions: seq<Action>, ids: set<nat>)
  {
    forall a, r, x :: a in actions && r in a.reactions && x in r.responses && x.StartActionInRealTime? ==>
      x.startActionId in ids
  }

  /**
   * Every action id a session call starts, explicitly or through a real-time
   * reaction of an added action, has been registered by then.
   */
  predicate StartsOnlyRegistered(calls: seq<SessionCall>)
  {
    forall k :: 0 <= k < |calls| ==>
      match calls[k]
      case StartActions(ids) => forall id :: id in ids ==> id in RegisteredBy(calls[..k])
      case AddActions(actions) => RealTimeTargetsAmong(actions, RegisteredBy(calls[..k + 1]))
      case _ => true
  }

  /** Action ids are unique within one AddActions call. */
  predicate UniqueIds(actions: seq<Action>)
  {
    forall i, j :: 0 <= i < j < |actions| ==> actions[i].id != actions[j].id
  }
}
