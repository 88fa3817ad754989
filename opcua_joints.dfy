/**
 * The two OPC UA joint-position skills. The OPC UA equipment holds one signal
 * per axis of a six-axis arm, named `lrAxis1` .. `lrAxis6`. The write skill
 * sends the arm's sensed joint positions under those names in a "Write"
 * control request. The read skill asks for them with a "Get" status request
 * and returns them as a six-entry joint vector in axis order.
 *
 * Python protobuf maps of messages answer a missing key with a default
 * message: a part missing from the ICON status has no joint states, and a
 * signal missing from the equipment's status reads as 0.0.
 */
module OpcuaJointPositions {
  import opened Outcomes
  import opened Icon

  /** The number of axes the equipment's signals describe. */
  const NumAxes: nat := 6

  const WriteCommand: string := "Write"
  const GetCommand: string := "Get"

  /** A `SignalValue` message: `double_value` reads 0.0 unless the value set is a double. */
  datatype SignalValue = DoubleSignal(value: real) | OtherSignal

  function DoubleValue(v: SignalValue): real
  {
    if v.DoubleSignal? then v.value else 0.0
  }

  /** `ControlRequest(command, user_input)`. */
  datatype ControlRequest = ControlRequest(command: string, userInput: map<string, SignalValue>)

  /** `GetStatusRequest(command)`. */
  datatype GetStatusRequest = GetStatusRequest(command: string)

  /** The exceptions the write skill raises. */
  datatype WriteError =
    /** Fewer than six joint positions: the map construction indexes past their end. */
    | IndexError
    /** RuntimeError("Failed to write joint positions."): the equipment refused the request. */
    | RuntimeError

  /** `f"lrAxis{ax}"` for an axis number 1 .. 6. */
  function AxisKey(ax: nat): (key: string)
    requires 1 <= ax <= NumAxes
    ensures |key| == 7 && key[..6] == "lrAxis"
    ensures key == ["lrAxis1", "lrAxis2", "lrAxis3", "lrAxis4", "lrAxis5", "lrAxis6"][ax - 1]
  {
    "lrAxis" + [('0' as int + ax) as char]
  }

  /** The six signal names. */
  const AxisKeys: set<string> := {AxisKey(1), AxisKey(2), AxisKey(3), AxisKey(4), AxisKey(5), AxisKey(6)}

  /** Different axes have different signal names. */
  lemma AxisKeyInjective(a: nat, b: nat)
    requires 1 <= a <= NumAxes && 1 <= b <= NumAxes
    ensures AxisKey(a) == AxisKey(b) <==> a == b
  {
    if AxisKey(a) == AxisKey(b) {
      assert AxisKey(a)[6] == AxisKey(b)[6];
    }
  }

  /** `icon_client.get_status().part_status[part_name]`: a missing part reads as an empty status. */
  function PartStatusOf(partStatus: map<string, PartStatus>, partName: string): (ps: PartStatus)
    ensures partName !in partStatus ==> ps.jointStates == []
    ensures partName in partStatus ==> ps == partStatus[partName]
  {
    if partName in partStatus then partStatus[partName] else PartStatus([])
  }

  /** `current_joint_positions`: the sensed position of every joint, in joint order. */
  function CurrentJointPositions(ps: PartStatus): (positions: seq<real>)
    ensures |positions| == |ps.jointStates|
    ensures forall i :: 0 <= i < |positions| ==> positions[i] == ps.jointStates[i].positionSensed
  {
    seq(|ps.jointStates|, i requires 0 <= i < |ps.jointStates| => ps.jointStates[i].positionSensed)
  }

  /** The map holding the first `n` axes: `lrAxis{ax}` holds `positions[ax - 1]`. */
  function AxisMap(positions: seq<real>, n: nat): map<string, SignalValue>
    requires n <= NumAxes && n <= |positions|
  {
    if n == 0 then map[] else AxisMap(positions, n - 1)[AxisKey(n) := DoubleSignal(positions[n - 1])]
  }

  /** `joint_position_map` for the given joint positions. */
  function JointPositionMap(positions: seq<real>): map<string, SignalValue>
    requires |positions| >= NumAxes
  {
    AxisMap(positions, NumAxes)
  }

  /** The map of the first `n` axes names exactly those axes, each holding its joint's position. */
  lemma {:induction false} AxisMapContents(positions: seq<real>, n: nat)
    requires n <= NumAxes && n <= |positions|
    ensures forall key :: key in AxisMap(positions, n) <==> exists ax :: 1 <= ax <= n && key == AxisKey(ax)
    ensures forall ax :: 1 <= ax <= n ==> AxisMap(positions, n)[AxisKey(ax)] == DoubleSignal(positions[ax - 1])
  {
    if n > 0 {
      AxisMapContents(positions, n - 1);
      forall ax | 1 <= ax < n
        ensures AxisKey(ax) != AxisKey(n)
      {
        AxisKeyInjective(ax, n);
      }
    }
  }

  /**
   * `joint_position_map` has exactly the six axis names as keys, and
   * `lrAxis{ax}` holds the sensed position of joint `ax - 1`; joints after the
   * sixth are not sent.
   */
  lemma JointPositionMapContents(positions: seq<real>)
    requires |positions| >= NumAxes
    ensures JointPositionMap(positions).Keys == AxisKeys
    ensures forall ax :: 1 <= ax <= NumAxes ==> JointPositionMap(positions)[AxisKey(ax)] == DoubleSignal(positions[ax - 1])
    ensures JointPositionMap(positions) == JointPositionMap(positions[..NumAxes])
  {
    AxisMapContents(positions, NumAxes);
    var m := JointPositionMap(positions);
    assert m.Keys == AxisKeys by {
      forall key | key in m
        ensures key in AxisKeys
      {
        var ax :| 1 <= ax <= NumAxes && key == AxisKey(ax);
        assert ax == 1 || ax == 2 || ax == 3 || ax == 4 || ax == 5 || ax == 6;
      }
      assert AxisKey(1) in m && AxisKey(2) in m && AxisKey(3) in m;
      assert AxisKey(4) in m && AxisKey(5) in m && AxisKey(6) in m;
    }
    assert m == JointPositionMap(positions[..NumAxes]) by {
      AxisMapContents(positions[..NumAxes], NumAxes);
    }
  }

  /** The loop building `joint_position_map`, which raises `IndexError` at the first axis without a joint. */
  method BuildJointPositionMap(positions: seq<real>) returns (r: Result<map<string, SignalValue>, WriteError>)
    ensures r.Failure? <==> |positions| < NumAxes
    ensures r.Failure? ==> r.error == IndexError
    ensures r.Success? ==> |positions| >= NumAxes && r.value == JointPositionMap(positions)
  {
    var jointPositionMap: map<string, SignalValue> := map[];
    var ax := 1;
    while ax <= NumAxes
      invariant 1 <= ax <= NumAxes + 1
      invariant ax - 1 <= |positions|
      invariant jointPositionMap == AxisMap(positions, ax - 1)
    {
      if ax - 1 >= |positions| {
        return Failure(IndexError);
      }
      jointPositionMap := jointPositionMap[AxisKey(ax) := DoubleSignal(positions[ax - 1])];
      ax := ax + 1;
    }
    return Success(jointPositionMap);
  }

  /**
   * `WriteJointPositionsToOpcuaEquipment.execute`. The ICON status, the
   * robot's part name and the equipment's `success` answer are inputs;
   * `request` is the control request sent, if any.
   */
  method ExecuteWrite(partStatus: map<string, PartStatus>, partName: string, controlSuccess: bool)
    returns (request: Option<ControlRequest>, r: Result<(), WriteError>)
    ensures var positions := CurrentJointPositions(PartStatusOf(partStatus, partName));
      && (|positions| < NumAxes ==> request == None && r == Failure(IndexError))
      && (|positions| >= NumAxes ==>
            && request == Some(ControlRequest(WriteCommand, JointPositionMap(positions)))
            && (r.Success? <==> controlSuccess)
            && (r.Failure? ==> r.error == RuntimeError))
  {
    var status := PartStatusOf(partStatus, partName);
    var currentJointPositions := CurrentJointPositions(status);
    var built := BuildJointPositionMap(currentJointPositions);
    if built.Failure? {
      return None, Failure(built.error);
    }
    request := Some(ControlRequest(WriteCommand, built.value));
    if !controlSuccess {
      return request, Failure(RuntimeError);
    }
    r := Success(());
  }

  /** `res.status[key]`: a missing signal reads as a default `SignalValue`. */
  function StatusValue(status: map<string, SignalValue>, key: string): real
  {
    if key in status then DoubleValue(status[key]) else 0.0
  }

  /** The joint vector read from a status: entry `i` is the double under `lrAxis{i + 1}`. */
  function ReadJointVec(status: map<string, SignalValue>): (joints: seq<real>)
  {
    seq(NumAxes, i requires 0 <= i < NumAxes => StatusValue(status, AxisKey(i + 1)))
  }

  /**
   * `ReadJointPositionsFromOpcuaEquipment.execute`. The equipment's answer
   * to the status request is the input `status`.
   */
  method ExecuteRead(status: map<string, SignalValue>) returns (request: GetStatusRequest, joints: seq<real>)
    ensures request.command == GetCommand
    ensures |joints| == NumAxes
    ensures joints == ReadJointVec(status)
  {
    request := GetStatusRequest(GetCommand);
    var outputJp: seq<real> := [];
    var ax := 1;
    while ax <= NumAxes
      invariant 1 <= ax <= NumAxes + 1
      invariant |outputJp| == ax - 1
      invariant forall i :: 0 <= i < ax - 1 ==> outputJp[i] == StatusValue(status, AxisKey(i + 1))
    {
      outputJp := outputJp + [StatusValue(status, AxisKey(ax))];
      ax := ax + 1;
    }
    joints := outputJp;
  }

  /** Reading back what the write skill sends gives the first six sensed joint positions. */
  lemma WriteThenRead(positions: seq<real>)
    requires |positions| >= NumAxes
    ensures ReadJointVec(JointPositionMap(positions)) == positions[..NumAxes]
  {
    JointPositionMapContents(positions);
  }

  /** Signals other than the six axis names do not change what is read. */
  lemma ReadIgnoresOtherKeys(status: map<string, SignalValue>, key: string, v: SignalValue)
    requires key !in AxisKeys
    ensures ReadJointVec(status[key := v]) == ReadJointVec(status)
  {
    forall ax | 1 <= ax <= NumAxes
      ensures StatusValue(status[key := v], AxisKey(ax)) == StatusValue(status, AxisKey(ax))
    {
      assert AxisKey(ax) in AxisKeys by {
        assert ax == 1 || ax == 2 || ax == 3 || ax == 4 || ax == 5 || ax == 6;
      }
    }
  }

  /** A status without the axis signals reads as six zeros. */
  lemma MissingSignalsReadZero()
    ensures ReadJointVec(map[]) == [0.0, 0.0, 0.0, 0.0, 0.0, 0.0]
  {
  }

  /** The read skill's scenario: `lrAxis{k}` holding `k` gives the joints 1 .. 6 in axis order. */
  lemma ReadAxisScenario()
    ensures ReadJointVec(map["lrAxis1" := DoubleSignal(1.0), "lrAxis2" := DoubleSignal(2.0),
                             "lrAxis3" := DoubleSignal(3.0), "lrAxis4" := DoubleSignal(4.0),
                             "lrAxis5" := DoubleSignal(5.0), "lrAxis6" := DoubleSignal(6.0)])
            == [1.0, 2.0, 3.0, 4.0, 5.0, 6.0]
  {
    var positions := [1.0, 2.0, 3.0, 4.0, 5.0, 6.0];
    SixAxisMap(positions);
    WriteThenRead(positions);
    assert positions[..NumAxes] == positions;
  }

  /** The map of six positions, spelled out with the signal names. */
  lemma SixAxisMap(positions: seq<real>)
    requires |positions| == NumAxes
    ensures JointPositionMap(positions) ==
      map["lrAxis1" := DoubleSignal(positions[0]), "lrAxis2" := DoubleSignal(positions[1]),
          "lrAxis3" := DoubleSignal(positions[2]), "lrAxis4" := DoubleSignal(positions[3]),
          "lrAxis5" := DoubleSignal(positions[4]), "lrAxis6" := DoubleSignal(positions[5])]
  {
    var m3 := map["lrAxis1" := DoubleSignal(positions[0]), "lrAxis2" := DoubleSignal(positions[1]),
                  "lrAxis3" := DoubleSignal(positions[2])];
    assert AxisMap(positions, 1) == map["lrAxis1" := DoubleSignal(positions[0])] by {
      assert AxisKey(1) == "lrAxis1";
    }
    assert AxisMap(positions, 3) == m3 by {
      assert AxisKey(2) == "lrAxis2" && AxisKey(3) == "lrAxis3";
    }
    var m5 := m3["lrAxis4" := DoubleSignal(positions[3])]["lrAxis5" := DoubleSignal(positions[4])];
    assert AxisMap(positions, 5) == m5 by {
      assert AxisKey(4) == "lrAxis4" && AxisKey(5) == "lrAxis5";
    }
    assert AxisMap(positions, 6) == m5["lrAxis6" := DoubleSignal(positions[5])] by {
      assert AxisKey(6) == "lrAxis6";
    }
  }

  /**
   * The write skill's scenario: an arm sensed at 1 .. 6 makes the equipment
   * receive 1 .. 6 under `lrAxis1` .. `lrAxis6`, and reading those back gives
   * the same joints.
   */
  lemma WriteAxisScenario()
    ensures var ps := PartStatus([JointState(1.0), JointState(2.0), JointState(3.0),
                                  JointState(4.0), JointState(5.0), JointState(6.0)]);
      var positions := CurrentJointPositions(PartStatusOf(map["arm" := ps], "arm"));
      && |positions| >= NumAxes
      && JointPositionMap(positions) ==
           map["lrAxis1" := DoubleSignal(1.0), "lrAxis2" := DoubleSignal(2.0), "lrAxis3" := DoubleSignal(3.0),
               "lrAxis4" := DoubleSignal(4.0), "lrAxis5" := DoubleSignal(5.0), "lrAxis6" := DoubleSignal(6.0)]
      && ReadJointVec(JointPositionMap(positions)) == [1.0, 2.0, 3.0, 4.0, 5.0, 6.0]
  {
    var ps := PartStatus([JointState(1.0), JointState(2.0), JointState(3.0),
                          JointState(4.0), JointState(5.0), JointState(6.0)]);
    var positions := CurrentJointPositions(PartStatusOf(map["arm" := ps], "arm"));
    assert positions == [1.0, 2.0, 3.0, 4.0, 5.0, 6.0];
    SixAxisMap(positions);
    WriteThenRead(positions);
  }
}
