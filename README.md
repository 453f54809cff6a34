# Drone command pipeline: decision policy, telemetry fusion, heartbeat supervisor

A Dafny model of three pieces of a drone ground-control pipeline that talks
MAVLink to one vehicle:

- **Decision policy** (`command.dfy`, module `Command`). Each call to
  `Command.Run` first updates running sums of the x/y/z velocity components
  and a record count, and logs the average velocity. It then dispatches at
  most one corrective command, in strict priority order:
  1. a MAV_CMD_CONDITION_CHANGE_ALT (113) when the altitude is more than
     0.5 m off the target;
  2. otherwise, a relative MAV_CMD_CONDITION_YAW (115) when the heading
     error is more than 5 degrees. The heading error is the bearing to the
     target minus the yaw, normalised by two loops that add or subtract
     whole turns;
  3. otherwise nothing.

  Dispatched commands are appended to a ghost command log of `CommandLong`
  records (command id, confirmation and param1–param7). Logged averages go
  to a ghost average log.
- **Telemetry fusion** (`telemetry.dfy`, module `Telemetry`).
  `Telemetry.Run` polls the link, within a one-second budget, for the first
  LOCAL_POSITION_NED and the first ATTITUDE message. It fuses the two into a
  `TelemetryData` record whose time stamp is the position message's. It
  reports a timeout (`None`) when the budget runs out first.
- **Heartbeat supervisor** (`heartbeat.dfy`, module `Heartbeat`). A
  Connected/Disconnected state machine with a missed-heartbeat count and a
  disconnect threshold of 5, updated in place by `HeartbeatReceiver.Run` on
  each poll.

`wrappers.dfy` holds the `Option` type that stands for the source's
value-or-`None`.

Modelling choices:

- Reals stand for Python floats. `PI` is the real 3.141592653589793.
  `Degrees(a) = a*180/PI` and `Radians(d) = d*PI/180`.
- `atan2` is a function-valued constant of a `Command` object, given at
  construction and otherwise uninterpreted. No contract of `Decide`, `Correct`
  or `Run` depends on its values; `TwoCycleScenario` assumes atan2(0, 10) = 0.
- The telemetry clock becomes the sequence of poll results the loop sees: one
  `Poll` per loop iteration that starts inside the budget. Each `Poll` holds
  the replies to the two non-blocking receives. A reply is `None` or a tagged
  `Message`, so a reply of the wrong type can be represented.
- The heartbeat poll's outcome is a boolean: a HEARTBEAT message arrived
  within the poll's timeout, or it did not.
- Python's `(True, x)` / `(False, None)` results become `Some(x)` / `None`.
  `Command.Run` returns `(sent, action)`, with `action` an `Action` value
  (`ChangeAltitude(delta)` or `ChangeYaw(degrees)`) instead of a text line.
- The height and angle tolerances are module constants, because `run` never
  changes them. The target and `atan2` are `const` fields, so no method can
  change them.
- Where the code departs from the documented design, the model follows the
  code:
  - The code normalises the heading error into [-PI, PI]. A raw difference
    of exactly -PI stays -PI. The documented range is (-PI, PI].
  - The tolerances are fixed in `Command.__init__`
    (modules/command/command.py:62-63). They are not constructor arguments.
  - The constructor takes only the target (and, in the model, `atan2`).
  - The altitude action carries the signed change `target.z - z`, not its
    magnitude.

## Model

| member | source | states |
|---|---|---|
| `Heartbeat.Transition` | modules/heartbeat/heartbeat_receiver.py:59-73 | A received heartbeat gives (Connected, 0) whatever the prior state. A miss adds exactly one to the count and leaves the status alone while the count is below 5. A miss that brings the count to 5 or more gives Disconnected. The invariant "Disconnected exactly when missed ≥ 5, and missed ≥ 0" is preserved. |
| `Heartbeat.RunAllConsistent` | modules/heartbeat/heartbeat_receiver.py:41-75 | The invariant holds after any sequence of polls that starts from a state satisfying it. |
| `Heartbeat.RunAllFromInitial` | modules/heartbeat/heartbeat_receiver.py:41-73 | From the initial state, the missed count is the number of consecutive misses since the last success. The status is Disconnected exactly when that number is at least 5. |
| `Heartbeat.Hysteresis` | modules/heartbeat/heartbeat_receiver.py:41-70 | From the initial state, four misses give (Connected, 4) and a fifth gives (Disconnected, 5). One success then gives (Connected, 0). |
| `Heartbeat.HeartbeatReceiver.constructor` | modules/heartbeat/heartbeat_receiver.py:41-44 | A new supervisor is Connected with missed count 0, and satisfies the invariant. |
| `Heartbeat.HeartbeatReceiver.Run` | modules/heartbeat/heartbeat_receiver.py:56-75 | The fields are updated in place exactly as `Transition` says. The invariant is preserved. The returned status is the status after the update. |
| `Telemetry.Telemetry.constructor` | modules/telemetry/telemetry.py:94-97 | The reader's only state is its fixed budget of 1.0 s, recorded for reference; the budget takes effect as the length of the polls given to `Run`. It has no mutable fields, so no partial data survives a call. |
| `Telemetry.Telemetry.Run` | modules/telemetry/telemetry.py:108-157 | The polling loop returns exactly `Fuse(polls)`: the record combined from the first accepted position message and the first accepted attitude message, or `None` when either never arrives. |
| `Telemetry.Combine` | modules/telemetry/telemetry.py:133-147 | Every field of the fused record is present, and its time stamp is the position message's `time_boot_ms`. |
| `Telemetry.FuseTakesFirstArrivals` | modules/telemetry/telemetry.py:116-147 | On success, time, x/y/z and vx/vy/vz come from the first position message. Roll, pitch, yaw and the three rates come from the first attitude message. The attitude message's own time stamp is not used. |
| `Telemetry.FuseSucceedsIffBothArrive` | modules/telemetry/telemetry.py:114-130 | An attempt succeeds if and only if an acceptable position reply and an acceptable attitude reply both occur within the budget. Otherwise it times out. |
| `Telemetry.FuseInOneIteration` | modules/telemetry/telemetry.py:114-134 | Both messages can be captured in the same iteration, and the attempt then fuses at once. |
| `Telemetry.FuseIsStable` | modules/telemetry/telemetry.py:116-130 | Once an attempt has fused, further iterations cannot change the result. The first arrival of each kind is never overwritten. |
| `Telemetry.FuseIgnoresRejectedPoll` | modules/telemetry/telemetry.py:116-127 | An iteration whose replies are absent or of the wrong message type changes nothing: removing it leaves the result the same. |
| `Telemetry.TimeoutHasNoMemory` | modules/telemetry/telemetry.py:108-157 | An attempt that sees only attitude messages times out. So does a following attempt that sees only position messages: nothing carries over between calls. |
| `Telemetry.FirstSomeIsFirst` | modules/telemetry/telemetry.py:116-127 | The captured message is the one at the first iteration that delivers one, and each such message is the one captured (both directions). |
| `Telemetry.FirstSomeSnoc` | modules/telemetry/telemetry.py:116-127 | One more iteration changes the captured message only when none had been captured yet. |
| `Command.Normalize` | modules/command/command.py:131-137 | The two normalisation loops terminate and return `NormalizedAngle(raw)`. |
| `Command.NormalizedAngle` | modules/command/command.py:133-137 | The normalised angle lies in [-PI, PI] and equals the raw angle plus k·2·PI for some integer k. An angle already in range is unchanged. An angle above PI ends above -PI, and one below -PI ends below PI. |
| `Command.NormalizationIsUnique` | modules/command/command.py:133-137 | At most one value meets that description, so the loops' result is determined by the raw angle. |
| `Command.NormalizeJustAbovePi` | modules/command/command.py:131-137 | A raw difference of PI + 0.1 normalises to -PI + 0.1. |
| `Command.Decide` | modules/command/command.py:97-164 | Every command is addressed to system 1, component 0, with confirmation 0. The altitude action is chosen if and only if z is present and abs(z − target.z) > 0.5, even when the yaw error is also too large. Its delta is target.z − z. Its command is CONDITION_CHANGE_ALT with param1 = 1.0, param7 = target.z and the other params 0. The yaw action is chosen if and only if the altitude branch does not fire, yaw is present and the normalised error exceeds radians(5). Its degrees are degrees(error), with 5 < abs(degrees) ≤ 180. Its command is CONDITION_YAW with param1 = degrees, param2 = 5.0, param3 = −1 when degrees ≥ 0 and 1 otherwise, param4 = 1. Otherwise there is no action. x and y must be present whenever the yaw branch is reached. |
| `Command.TwoCycleScenario` | modules/command/command.py:97-164 | With target (10, 0, 5), a record at z = 3 yields an altitude change of +2. A record at z = 5 at the origin with yaw 0, whose bearing to the target is 0, yields no action. |
| `Command.Accumulate` | modules/command/command.py:80-87 | Each record raises the count by exactly one, whichever velocity components it carries. |
| `Command.AccumulateAllSums` | modules/command/command.py:80-87 | From zero, each velocity sum is the sum of that component over the records where it is present. The count is the number of records. |
| `Command.IntermittentSums` | modules/command/command.py:80-87 | After (1,_,_), (_,2,_), (3,_,_), the x sum is 4 and the count is 3: an absent component still counts towards the divisor. |
| `Command.IntermittentAverage` | modules/command/command.py:89-92 | With sums (4, 2, 0) over 3 records, the logged average is (4/3, 2/3, 0), not 4/2 in x. |
| `Command.Command.constructor` | modules/command/command.py:56-69 | A new decision maker holds its target, zero sums, a zero count and empty logs. |
| `Command.Command.Run` | modules/command/command.py:71-164 | One call updates the accumulators as `Accumulate` does and logs the average (the divisor is at least 1). It then returns and logs exactly what `Decide` chooses: one command appended to the log for an action, none otherwise. |
| `Command.Command.UpdateAverage` | modules/command/command.py:80-95 | Each present component is added to its sum, an absent one leaves its sum unchanged, and the count rises by one. The average is logged with each sum divided by the count. |
| `Command.Command.Correct` | modules/command/command.py:97-164 | The branch code, including the normalisation loops, dispatches and reports exactly the decision of `Decide`. |

## Left out

- Worker processes (`command_worker.py`, `telemetry_worker.py`, `heartbeat_sender_worker.py`): process lifecycle, pause/exit flags, queues and sleeps. They concern multi-process concurrency, which is not modelled.
- `telemetry_worker.py:55` passes a `period` argument that `Telemetry.create` does not accept. Worker code is not part of this model.
- `heartbeat_sender` is not part of this model.
- MAVLink I/O: `recv_match` becomes the poll inputs, and `command_long_send` becomes the ghost command log. Message encoding is not modelled.
- Floating point: rounding, `math.radians`/`math.degrees` on floats, and the exact value of π are replaced by real arithmetic. Reals have no infinity and no absorption, so the normalisation loops always terminate here; in the source a yaw of ±inf, or one so large that subtracting or adding 2π no longer changes it, makes the loops at modules/command/command.py:134-137 run forever.
- `math.atan2` is uninterpreted.
- Wall-clock time (`time.time`, `time.sleep(0.01)`): the budget is the length of the poll sequence.
- A message of a kind the loop no longer asks for: this call never reads it, and the model ignores it.
- Logger calls and their text formatting, including `TelemetryData.__str__` and the `:.2f` action strings. Actions are `Action` values, and the logged averages are a ghost log.
- The `create` factory with its private key always succeeds, so it is a plain constructor here.
- `Command.Command.Run`: when yaw is present, the altitude branch did not fire and x or y is absent, the source raises a TypeError. The model makes this case a precondition (`PositionReadable`) instead.
