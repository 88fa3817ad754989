# Intrinsic example skills and services: a Dafny model

This project models the decision logic of the Intrinsic SDK example skills and
services. Each piece is stated in Dafny with its promises proved.

- **Wiggle joint, Python and C++.** The skill checks a joint number and builds
  two point-to-point moves, out by five degrees and back. It chains them
  through ICON reactions and waits for the end of the session.
  - The ICON runtime is not modelled. Which reactions fire, and in what order,
    is an input: a trace of `Firing(actionId, reactionIndex)`.
  - The responses of the fired reactions are applied in list order.
  - The Python skill's wait returns at the first `Signal`. The `on_timeout`
    callback alone clears `success`.
  - The C++ skill's watcher loop returns at the first `QuitWatcherLoop`.
    `Execute` then returns success, whichever watcher quit the loop.
- **Stopwatch service.** A servicer object holds an optional start time.
  `Start` and `Stop` are guarded by it. The monotonic clock is a parameter.
- **Barcode scanning, Python and C++.** These convert the OpenCV detector's
  parallel lists into the result message.
  - The Python version skips `NONE` entries.
  - The C++ version checks the list sizes first.
  - The C++ version has two defects, modelled as written and as intended
    (see Findings).
- **OPC UA joint positions.** The write skill sends the six sensed joint
  positions as signals `lrAxis1` .. `lrAxis6`. The read skill reads those
  signals back into a six-entry joint vector.
- **Validate pose, Python and C++.** Each compares the translation and
  rotation errors with optional tolerances. They differ when a tolerance is
  unset: Python compares with 0, and C++ skips that check.

Modules:

- `Outcomes`: `Option` and `Result`.
- `Icon`: the action graph and how a firing trace turns into responses.
- `Wiggle`: the constants and goal vectors the two wiggle skills share.
- `WiggleJointPy` and `WiggleJointCc`.
- `Stopwatch`.
- `ScanBarcodesProto`, `ScanBarcodesPy` and `ScanBarcodesCc`.
- `OpcuaJointPositions`.
- `ValidatePose`.

Floating-point values are modelled as `real`.

Two behaviours of the wiggle skills are worth noting:

- The C++ timeout watchers log "Failed to reach Goal" and quit the watcher
  loop (skills/wiggle_joint/wiggle_joint.cc:199-204 and 225-230). `Execute`
  then returns `ExecuteResult()` (skills/wiggle_joint/wiggle_joint.cc:247),
  so a timed-out wiggle reports success
  (`WiggleJointCc.CompletesIffLoopEnded`). The Python skill raises instead
  (`WiggleJointPy.TimeoutBeforeSignalRaises`).
- Both skills wait without a timeout of their own
  (skills/wiggle_joint/wiggle_joint.py:174 and
  skills/wiggle_joint/wiggle_joint.cc:243). The wait ends when a timeout
  reaction fires or when move 2 settles
  (`WiggleJointPy.WaitEndsAtFirstSignal`, `WiggleJointCc.CompletesIffLoopEnded`).
  A trace with neither waits forever.

## Model

| member | source | states |
|---|---|---|
| Icon.FindAction | skills/wiggle_joint/wiggle_joint.py:170-171 | The action a started id refers to is a registered action with that id; there is none exactly when no registered action has it |
| Icon.InResponses | skills/wiggle_joint/wiggle_joint.py:124-168 | A response is applied by a firing trace exactly when some fired reaction lists it |
| Wiggle.BuildGoalVectors | skills/wiggle_joint/wiggle_joint.py:85-100 | The joint loop (also skills/wiggle_joint/wiggle_joint.cc:147-164) gives three vectors as long as the joint list. The original positions are the sensed ones. The first goal equals them except at the chosen joint, which is five degrees further. The velocity is zero everywhere |
| WiggleJointPy.GetSinglePartStatus | skills/wiggle_joint/wiggle_joint.py:23-25 | Returns the part's status exactly when the response has an entry for the part |
| WiggleJointPy.Actions | skills/wiggle_joint/wiggle_joint.py:116-169 | Two point-to-point moves on the part, ids 1 and 2: move 1 to the first goal, move 2 back to the original positions, both with zero goal velocity |
| WiggleJointPy.ReactionConditions | skills/wiggle_joint/wiggle_joint.py:124-168 | Each move reaches its goal when `xfa.is_settled` holds and times out once `xfa.setpoint_done_for_seconds` >= 2.0, which runs `on_timeout` and then signals. Move 1's settling starts move 2 in real time; move 2's signals |
| WiggleJointPy.AfterResponses | skills/wiggle_joint/wiggle_joint.py:107-113 | Nothing sets `success` back to true. While the wait is pending, `success` is false exactly when `on_timeout` has run |
| WiggleJointPy.Outcome | skills/wiggle_joint/wiggle_joint.py:174-178 | `execute` waits forever exactly when no signal is applied. It raises "Failed to wiggle joint", and only that, exactly when `on_timeout` ran before the first signal |
| WiggleJointPy.OutcomeAtFirstSignal | skills/wiggle_joint/wiggle_joint.py:107-178 | After responses without a signal, a settling signal completes `execute` unless `on_timeout` ran before it. A timeout's callback and signal make it raise |
| WiggleJointPy.Execute | skills/wiggle_joint/wiggle_joint.py:72-181 | A missing status raises "Could not get status" and an out-of-range joint raises "does not exist", both before any session call. Otherwise the calls are start session, add both moves, start move 1, wait. The outcome is that of the wait over the trace's responses |
| WiggleJointPy.WaitEndsAtFirstSignal | skills/wiggle_joint/wiggle_joint.py:107-178 | The wait returns exactly when a `Signal` is applied. `success` is then false exactly when `on_timeout` ran before the first signal |
| WiggleJointPy.AfterSignalFreePrefix | skills/wiggle_joint/wiggle_joint.py:110-112 | Responses without a signal leave the wait pending; only `on_timeout` changes `success` |
| WiggleJointPy.GraphResponses | skills/wiggle_joint/wiggle_joint.py:116-169 | Move 1 settling starts move 2 in real time. Move 2 settling signals. Either timeout runs `on_timeout` and then signals. No other firing does anything |
| WiggleJointPy.TimeoutBeforeSignalRaises | skills/wiggle_joint/wiggle_joint.py:133-178 | A timeout of either move before any signal makes `execute` raise "Failed to wiggle joint" |
| WiggleJointPy.SettledWithoutTimeoutCompletes | skills/wiggle_joint/wiggle_joint.py:124-181 | Move 1 settling, then move 2 settling, with no timeout before it, makes `execute` return normally |
| WiggleJointPy.TimeoutFiringEndsWait | skills/wiggle_joint/wiggle_joint.py:133-174 | Any trace in which a timeout reaction fires ends the wait; `execute` never hangs then |
| WiggleJointPy.SessionStartsOnlyRegistered | skills/wiggle_joint/wiggle_joint.py:115-171 | The two ids are distinct. Every started or real-time-started id is registered before its start, and only move 1 is started explicitly |
| WiggleJointPy.MovesOutAndBack | skills/wiggle_joint/wiggle_joint.py:85-169 | Move 2 returns every joint to its sensed position. Move 1 differs from move 2 only at the chosen joint, by five degrees. Both moves stop with zero velocity |
| WiggleJointCc.Actions | skills/wiggle_joint/wiggle_joint.cc:181-230 | Two point-to-point moves on the part, ids 1 and 2: move 1 to the first goal, move 2 back to the original positions, both with zero goal velocity |
| WiggleJointCc.ReactionConditions | skills/wiggle_joint/wiggle_joint.cc:189-230 | Move 1 reaches its goal when done and starts move 2 in real time. Move 2 reaches it when `IsSettled` holds and quits the loop with an info log. Each times out once `SetpointDoneForSeconds` >= 2.0, with a watcher that logs an error and quits the loop |
| WiggleJointCc.Outcome | skills/wiggle_joint/wiggle_joint.cc:243-247 | `Execute` never fails once the session runs. It completes exactly when a watcher quit the loop, with an info or an error log |
| WiggleJointCc.Execute | skills/wiggle_joint/wiggle_joint.cc:133-247 | A status error is passed on. An out-of-range joint returns FailedPrecondition before any session call. Otherwise the calls are start session, add both moves, start move 1, run the watcher loop. Success comes exactly when the loop is quit |
| WiggleJointCc.GraphResponses | skills/wiggle_joint/wiggle_joint.cc:181-230 | Move 1 being done starts move 2 in real time. Move 2 settling quits the loop with an info log. Either timeout quits it with an error log |
| WiggleJointCc.CompletesIffLoopEnded | skills/wiggle_joint/wiggle_joint.cc:189-247 | `Execute` succeeds exactly when a timeout or move 2's settling fired, so a timeout also yields success. Otherwise it waits forever |
| WiggleJointCc.SessionStartsOnlyRegistered | skills/wiggle_joint/wiggle_joint.cc:169-242 | Distinct ids; every start targets a registered id; only move 1 is started explicitly |
| Stopwatch.StopwatchServicer.constructor | services/stopwatch/stopwatch_service.py:20-21 | A new servicer is idle |
| Stopwatch.StopwatchServicer.Start | services/stopwatch/stopwatch_service.py:23-37 | Succeeds exactly when idle, recording `now`. Otherwise it reports "already started" and keeps the state |
| Stopwatch.StopwatchServicer.Stop | services/stopwatch/stopwatch_service.py:39-54 | Succeeds exactly when running, reporting `now - start` and becoming idle. Otherwise it reports "not started" and keeps the state |
| Stopwatch.StartThenStopElapsed | services/stopwatch/stopwatch_service.py:28-54 | Start at t0 then Stop at t1 both succeed, report t1 - t0 (not negative when t0 <= t1) and leave the service idle |
| Stopwatch.StartTwiceKeepsFirst | services/stopwatch/stopwatch_service.py:29-36 | A second Start is refused and keeps the first start time |
| Stopwatch.StopTwiceFails | services/stopwatch/stopwatch_service.py:45-53 | From any state, a second Stop in a row fails with "not started" and the service stays idle |
| Stopwatch.StartThenStop | services/stopwatch/stopwatch_service.py:28-54 | On a fresh servicer with a non-decreasing clock, Start then Stop succeed and the elapsed time is t1 - t0 >= 0 |
| Stopwatch.StopWithoutStart | services/stopwatch/stopwatch_service.py:44-53 | Stop on a fresh servicer fails, and so does a Stop right after a successful one |
| ScanBarcodesPy.ConvertBarcodeTypeToProto | skills/scan_barcodes/scan_barcodes.py:38-55 | The result is `BARCODE_UNSPECIFIED` exactly for codes outside the six OpenCV codes, and `BARCODE_NONE` exactly for `NONE` |
| ScanBarcodesPy.ConvertRoundTrip | skills/scan_barcodes/scan_barcodes.py:38-55 | The conversion is inverted by mapping proto types back to OpenCV codes, and every proto type but the unspecified one is reached |
| ScanBarcodesPy.NonNoneIndicesEnumerate | skills/scan_barcodes/scan_barcodes.py:124-126 | The entries kept are exactly the non-`NONE` ones, in increasing order. There are as many as the non-`NONE` entries |
| ScanBarcodesPy.ConvertToResultProto | skills/scan_barcodes/scan_barcodes.py:113-146 | Not `ok` gives an empty result. A kept entry without data or corners raises IndexError. Otherwise the result is the barcodes of the kept entries, and none has type `BARCODE_NONE` |
| ScanBarcodesPy.BarcodesFollowEntries | skills/scan_barcodes/scan_barcodes.py:124-144 | One barcode per non-`NONE` entry, in entry order. Each carries its entry's data and converted type, and one corner per detected point |
| ScanBarcodesPy.SingleEan8Detection | skills/scan_barcodes/scan_barcodes_test.py:83-85 | One EAN-8 detection gives one `BARCODE_EAN_8` barcode with data "01234565" |
| ScanBarcodesCc.ConvertBarcodeTypeToProtoAsWritten | skills/scan_barcodes/scan_barcodes.cc:35-55 | As written: `BARCODE_EAN_8` exactly for "EAN_8", `BARCODE_EAN_13` for every other name |
| ScanBarcodesCc.ConvertBarcodeTypeToProto | skills/scan_barcodes/scan_barcodes.cc:35-55 | As intended: `BARCODE_UNSPECIFIED` exactly for names outside the five OpenCV names, and never `BARCODE_NONE` |
| ScanBarcodesCc.ConvertRoundTrip | skills/scan_barcodes/scan_barcodes.cc:42-54 | The intended conversion is inverted by `TypeName` on the five names and reaches every named type |
| ScanBarcodesCc.ConvertAsWrittenAgreesOnlyOnEan | skills/scan_barcodes/scan_barcodes.cc:42-52 | The conversion as written and as intended agree exactly on "EAN_8" and "EAN_13" |
| ScanBarcodesCc.UpcAReportedAsEan13 | skills/scan_barcodes/scan_barcodes.cc:44-49 | "UPC_A" becomes `BARCODE_EAN_13` as written and `BARCODE_UPC_A` as intended |
| ScanBarcodesCc.ConvertToResultProtoAsWritten | skills/scan_barcodes/scan_barcodes.cc:185-220 | As written: InternalError exactly when the sizes are inconsistent. Otherwise one barcode per entry with a single corner |
| ScanBarcodesCc.ConvertToResultProto | skills/scan_barcodes/scan_barcodes.cc:185-220 | As intended: InternalError exactly when the sizes are inconsistent. Otherwise one barcode per entry with its four corners |
| ScanBarcodesCc.AllCornersOfGroups | skills/scan_barcodes/scan_barcodes.cc:204-216 | Barcodes holding four consecutive points each hold, together, all points in order |
| ScanBarcodesCc.BarcodesFollowEntries | skills/scan_barcodes/scan_barcodes.cc:201-217 | One barcode per entry, in order, with its data and converted type and four corners. The corners together are all detected points in order |
| ScanBarcodesCc.AsWrittenKeepsOnlyLastCorner | skills/scan_barcodes/scan_barcodes.cc:210-216 | As written, each barcode keeps its data but only the last of the four corners it should hold |
| ScanBarcodesCc.SingleUpcADetection | skills/scan_barcodes/scan_barcodes.cc:201-217 | One UPC-A code with four points: as written `BARCODE_EAN_13` with corner 4 only; as intended `BARCODE_UPC_A` with all four corners |
| OpcuaJointPositions.AxisKey | skills/write_joint_positions_to_opcua_equipment/write_joint_positions_to_opcua_equipment.py:89-90 | The signal of axis 1 .. 6 is named exactly `lrAxis1` .. `lrAxis6` |
| OpcuaJointPositions.AxisKeyInjective | skills/write_joint_positions_to_opcua_equipment/write_joint_positions_to_opcua_equipment.py:89-90 | Different axes have different signal names |
| OpcuaJointPositions.PartStatusOf | skills/write_joint_positions_to_opcua_equipment/write_joint_positions_to_opcua_equipment.py:60 | A part missing from the status reads as a part without joints |
| OpcuaJointPositions.CurrentJointPositions | skills/write_joint_positions_to_opcua_equipment/write_joint_positions_to_opcua_equipment.py:62-64 | One sensed position per joint state, in joint order |
| OpcuaJointPositions.AxisMapContents | skills/write_joint_positions_to_opcua_equipment/write_joint_positions_to_opcua_equipment.py:88-92 | After n axes the map's keys are exactly the first n signal names, and `lrAxis{ax}` holds joint ax - 1 |
| OpcuaJointPositions.JointPositionMapContents | skills/write_joint_positions_to_opcua_equipment/write_joint_positions_to_opcua_equipment.py:88-92 | The map's keys are exactly the six signal names, and `lrAxis{ax}` holds joint ax - 1. Joints after the sixth do not change it |
| OpcuaJointPositions.SixAxisMap | skills/write_joint_positions_to_opcua_equipment/write_joint_positions_to_opcua_equipment.py:88-92 | Six positions give exactly the map `lrAxis1` .. `lrAxis6`, each name holding the position of its joint in order |
| OpcuaJointPositions.BuildJointPositionMap | skills/write_joint_positions_to_opcua_equipment/write_joint_positions_to_opcua_equipment.py:88-92 | IndexError exactly when fewer than six positions are given; otherwise the six-signal map |
| OpcuaJointPositions.ExecuteWrite | skills/write_joint_positions_to_opcua_equipment/write_joint_positions_to_opcua_equipment.py:60-104 | Fewer than six joints raise IndexError before any request. Otherwise a "Write" request carrying the joint map is sent, and RuntimeError is raised exactly when it is refused |
| OpcuaJointPositions.ExecuteRead | skills/read_joint_positions_from_opcua_equipment/read_joint_positions_from_opcua_equipment.py:72-84 | Sends a "Get" request and returns six values, entry i being the double under `lrAxis{i+1}` |
| OpcuaJointPositions.WriteThenRead | skills/read_joint_positions_from_opcua_equipment/read_joint_positions_from_opcua_equipment.py:78-80 | Reading the write skill's map gives back the first six sensed joint positions |
| OpcuaJointPositions.ReadIgnoresOtherKeys | skills/read_joint_positions_from_opcua_equipment/read_joint_positions_from_opcua_equipment.py:79-80 | Signals other than the six axis names do not change what is read |
| OpcuaJointPositions.MissingSignalsReadZero | skills/read_joint_positions_from_opcua_equipment/read_joint_positions_from_opcua_equipment.py:80 | A status without the axis signals reads as six zeros |
| OpcuaJointPositions.ReadAxisScenario | skills/read_joint_positions_from_opcua_equipment/read_joint_positions_from_opcua_equipment_test.py:25-32 | The test's status, with literal keys `lrAxis1` .. `lrAxis6` holding 1 .. 6, reads as [1, 2, 3, 4, 5, 6] |
| OpcuaJointPositions.WriteAxisScenario | skills/write_joint_positions_to_opcua_equipment/write_joint_positions_to_opcua_equipment_test.py:137-141 | An arm sensed at 1 .. 6 makes the write skill send exactly the map `lrAxis1` := 1.0 .. `lrAxis6` := 6.0, which reads back as 1 .. 6 |
| ValidatePose.ValidatePosePy | skills/validate_pose/validate_pose.py:45-53 | Passes exactly when both errors are within their tolerances, an unset tolerance being 0. Rejects the translation exactly when it exceeds its tolerance, and the rotation only once the translation passed. Each error carries its difference and tolerance |
| ValidatePose.ValidatePoseCc | skills/validate_pose/validate_pose.cc:63-76 | Passes exactly when no set tolerance is exceeded. Rejects the translation exactly when its set tolerance is exceeded, and the rotation only once the translation passed |
| ValidatePose.VersionsAgreeWhenTolerancesSet | skills/validate_pose/validate_pose.cc:64-73 | With both tolerances set, both versions give the same result |
| ValidatePose.PyPassImpliesCcPass | skills/validate_pose/validate_pose.py:45-50 | Every pose the Python version accepts, the C++ version accepts |
| ValidatePose.UnsetPositionToleranceDiverges | skills/validate_pose/validate_pose.py:45-48 | With no position tolerance, Python rejects the translation exactly when its error is non-zero, while C++ never rejects it |
| ValidatePose.UnsetRotationToleranceDiverges | skills/validate_pose/validate_pose.py:46-50 | With no rotation tolerance, C++ never rejects the rotation, while Python accepts only a zero rotation error |
| ValidatePose.LooserTolerancesKeepPass | skills/validate_pose/validate_pose.cc:64-73 | Raising the tolerances, or unsetting them in C++, keeps an accepted pose accepted |
| ValidatePose.ToleranceScenarios | skills/validate_pose/validate_pose_test.py:23-64 | With tolerances 1.0 and 0.25: a zero error passes, a translation of norm sqrt(14) is rejected for translation, and a half turn is rejected for rotation |

## Left out

- The ICON runtime is not modelled: real-time condition evaluation, per-part
  reservation, `SignalFlag`, session teardown and the concurrency between the
  real-time and the orchestration side. The reactions that fire are an input
  trace.
- Responses of firings after the Python wait has returned are not modelled.
  Nor is a late `on_timeout` callback racing the final `success` check.
- I/O is not modelled: the ICON client, gRPC channels, camera capture and the
  world service. The answers they give are inputs, such as the part status,
  the detector's lists, the equipment's status map and its `success` flag.
  Logging is left out.
- WiggleJointCc.Execute: the part name is an input. The source reads it with
  `position_part_name.value()` (skills/wiggle_joint/wiggle_joint.cc:129),
  which throws `std::bad_optional_access` when the equipment has no position
  part; that exception is not modelled.
- Stopwatch.StopwatchServicer.Start: calls are modelled one at a time. The
  source checks and then sets `_start_time` without a lock, and a thread pool
  serves the requests (services/stopwatch/stopwatch_service.py:29-30 and
  63-64). Two concurrent Starts can therefore both succeed, the second
  overwriting the start time.
- Stopwatch.StopwatchServicer.Stop: calls are modelled one at a time. The
  source reads and then clears `_start_time` without a lock
  (services/stopwatch/stopwatch_service.py:45-47). Two concurrent Stops can
  therefore both succeed, or one can read `None` and raise a `TypeError`.
- The C++ skills' errors from `INTRINSIC_ASSIGN_OR_RETURN` and `INTR_*`
  macros other than those named in the model are left out. Examples are
  parameter unpacking, equipment lookup, session start, `AddActions`,
  `StartActions` and `RunWatcherLoop`.
- The pose difference is an input, so its computation is left out: the
  translation norm, the quaternion angle and the transform lookup.
- Floating-point numbers are modelled as `real`. Rounding and NaN are not
  modelled.
- OpenCV's detector and the `cv2.barcode` codes are left out. The codes are
  taken as OpenCV's enum values 0 .. 5, and only their distinctness matters.
- ScanBarcodesCc.ConvertToResultProtoAsWritten: integer widths are not
  modelled. The size check's `kNumCorners * decoded_types.size()` wraps in
  `size_t` only beyond 2^62 entries. The loop counter is an `int d`, and
  `d * kNumCorners` overflows from 2^29 entries
  (skills/scan_barcodes/scan_barcodes.cc:201 and 204).
- ScanBarcodesCc.ConvertToResultProtoAsWritten: the corner is added to the
  barcode before the points are written through a pointer into the message.
  The model adds the finished corner afterwards, which gives the same message.
- ScanBarcodesCc.ConvertBarcodeTypeToProto: the intended version maps "NONE"
  to `BARCODE_UNSPECIFIED`, because the source names no `NONE` case.
- The Python barcode model takes the per-entry corner lists as given. It does
  not model numpy arrays of another shape.
- The remaining example skills, services, servers and user interfaces of the
  repository are outside the modelled core. These include use_world,
  say_skill, start_stopwatch, stop_stopwatch and configurable_service.

## Findings

| source | as written | input that shows it | evidently intended | confidence | as-written member | corrected member |
|---|---|---|---|---|---|---|
| skills/scan_barcodes/scan_barcodes.cc:44-52 | Every condition after the first tests a string literal, which is always true, so any name other than "EAN_8" maps to `BARCODE_EAN_13` | type "UPC_A" gives `BARCODE_EAN_13` | compare each name with `type`, and `BARCODE_UNSPECIFIED` for others | high; not executed | ScanBarcodesCc.UpcAReportedAsEan13 | ScanBarcodesCc.ConvertRoundTrip |
| skills/scan_barcodes/scan_barcodes.cc:210-216 | One `Corner` is added per barcode, and the loop overwrites it with each of the four points | one code with points p0..p3 gives corners [p3] | one `Corner` per point, four per barcode | high; not executed | ScanBarcodesCc.AsWrittenKeepsOnlyLastCorner | ScanBarcodesCc.BarcodesFollowEntries |
