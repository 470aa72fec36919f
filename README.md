# AIDriver robot control core, modelled in Dafny

This project models the decision logic of the AIDriver MicroPython robot library:

- **HM-10 BLE command handler** (`hm10_controller.dfy`, module `Hm10Controller`).
  - A receive buffer takes in the bytes read from the UART.
  - Every complete 4-byte packet `[flags, left, right, counter]` is consumed in arrival order.
  - A legacy 3-byte packet is decoded only when no 4-byte packet was available in that poll.
  - The last command is cached with its arrival time. The handler answers "brake requested?" and "stale?".
  - Ultrasonic telemetry goes out as a rate-limited 3-byte big-endian frame.
- **Motor driver** (`aidriver.dfy`, module `AiDriver`).
  - Each L298N channel keeps its duty value, moving flag and direction.
  - The robot drives two channels together. The right motor is wired reversed, so "forward" runs it BACKWARD.
  - The library picks classroom speed bands and event-log sentences for each manoeuvre.
  - It counts consecutive ultrasonic failures and throttles their warnings.
- **Gamepad controller** (`gamepad_driver_controller.dfy`, module `GamepadDriverController`).
  - Each update maps one gamepad snapshot to exactly one driver call.
  - Priority order: START, then the D-pad, then the analog stick, then brake.
- **Run-once event log** (`eventlog.dfy`, module `EventLog`).
  - Logging is switched off when the log file already has content.
  - Clearing the file switches it back on.
  - Separator and event lines are appended only while logging is on.

`text.dfy` (module `Text`) holds decimal rendering and prefix/suffix helpers for the log sentences.

How the environment is represented:

- Hardware and the environment become parameters.
  - The millisecond clock is a `now` argument.
  - The UART read is the `data` argument of `Poll`. UART writes accumulate in the `tx` field.
  - A sensor reading is an `Echo` value.
  - A filesystem open that may fail is a `writable` flag.
  - The gamepad poll is a `Pad` snapshot.
- The sentences the driver hands to the event logger are collected in `Driver.events`.

Notes on the code as modelled:

- Wheel speeds decode to plain int8 values (-128..127), neither rescaled to ±255 nor clamped. The header comment of `hm10_controller.py` says "-255..255", but the decoder reads one signed byte.
- The command handler has no receive-buffer cap, no overflow reset and no periodic compaction. Every poll consumes all complete packets, so fewer than four bytes remain buffered between polls (`HM10Controller.Valid`).
- A poll that consumes complete packets and leaves three bytes behind makes the next poll without new data decode those three as a legacy packet, even when they begin a 4-byte packet whose last byte is still on its way (`hm10_controller.py` lines 84-92). The model keeps this behaviour (`LeftoverDecodedAsLegacy`).
- `gamepad_pico.py` only raises an error: there is no gamepad frame decoder to model.
- The final `else` of the analog zone chain in `gamepad_driver_controller.py` (lines 104-105) cannot be reached. The sine and cosine of one angle are never both within ±0.5. `Stick` still admits that combination, and `AnalogBrakes` covers it, but `AnalogNeverBrakes` shows that a realisable stick past radius 0 always moves the robot.

## Model

| member | source | states |
|---|---|---|
| `Hm10Controller.ToSigned` | project/lib/hm10_controller.py:28-33 | the int8 reading of a byte is the unique value in -128..127 congruent to it modulo 256 |
| `Hm10Controller.FromSigned` | project/lib/hm10_controller.py:6-9 | the sender's byte for a speed in -128..127 reads back as that speed |
| `Hm10Controller.SignedRoundTrip` | project/lib/hm10_controller.py:28-33 | reading a byte as int8 and encoding the speed again gives the byte back |
| `Hm10Controller.ToSignedInjective` | project/lib/hm10_controller.py:28-33 | distinct bytes give distinct speeds |
| `Hm10Controller.BrakeRequested` | project/lib/hm10_controller.py:103-104 | brake is requested iff bit 0 of flags is set (flags is odd) |
| `Hm10Controller.StaleMonotone` | project/lib/hm10_controller.py:106-107 | stale iff strictly more than the timeout has elapsed; stale stays stale as time passes; a command stamped now is fresh under a non-negative timeout |
| `Hm10Controller.Stale` | project/lib/hm10_controller.py:106-107 | a stale command (non-negative timeout) was stamped strictly before now; within the timeout it is never stale |
| `Hm10Controller.DecodeEncode` | project/lib/hm10_controller.py:96-101 | decoding a 4-byte packet yields exactly its flags, speeds and counter stamped now; a 3-byte packet keeps the previous counter |
| `Hm10Controller.DecodeReplacesCommand` | project/lib/hm10_controller.py:96-101 | a 4-byte packet replaces the whole cached command, independent of what was cached, and its speeds are int8 |
| `Hm10Controller.Decode` | project/lib/hm10_controller.py:96-101 | the decoded speeds are int8 and stamped now; re-encoding the decoded command gives back the 4-byte packet, or the 3-byte packet with the previous counter kept |
| `Hm10Controller.Packets` | project/lib/hm10_controller.py:84-87 | there are length/4 complete packets, and packet i is bytes 4i..4i+3 of the stream |
| `Hm10Controller.PacketsReassemble` | project/lib/hm10_controller.py:84-87 | the consumed packets followed by the leftover bytes are exactly the buffered stream: nothing lost, duplicated or reordered |
| `Hm10Controller.LastPacketWins` | project/lib/hm10_controller.py:84-87 | decoding a run of packets in order leaves the command carried by the last packet |
| `Hm10Controller.PollSpec` | project/lib/hm10_controller.py:77-94 | fewer than 4 bytes remain and they are a suffix of the input; updated iff at least 3 bytes were pending; not updated leaves command and buffer unchanged; with 4 or more bytes, length mod 4 bytes remain, so 3 leftover bytes stay buffered; the 3-byte fallback fires only for exactly 3 pending bytes; every update stamps now |
| `Hm10Controller.PollTakesLastPacket` | project/lib/hm10_controller.py:78-94 | with 4 or more bytes pending, the consumed packets plus the remainder give back the input, and the cached command is the decoding of the last complete packet |
| `Hm10Controller.LeftoverDecodedAsLegacy` | project/lib/hm10_controller.py:84-92 | three bytes left by a poll are decoded as a legacy packet by the next poll without new data, and the buffer empties |
| `Hm10Controller.ClampTelemetry` | project/lib/hm10_controller.py:127 | the telemetry value is the distance clamped to 0..65535 |
| `Hm10Controller.TelemetryFrame` | project/lib/hm10_controller.py:127-131 | the frame is 3 bytes, kind 0x01 first, and hi·256 + lo equals the clamped distance |
| `Hm10Controller.TransmissionsSpaced` | project/lib/hm10_controller.py:119-126 | over any run of send attempts, successive transmissions (and the first after the last send) are at least one interval apart |
| `Hm10Controller.HM10Controller.constructor` | project/lib/hm10_controller.py:41-69 | empty buffer, zeroed flags/speeds/counter stamped now, last telemetry time 0, the given timeout and interval (500 ms and 200 ms by default) |
| `Hm10Controller.HM10Controller.DecodePacket` | project/lib/hm10_controller.py:96-101 | the cached fields become the decoding of the packet; nothing else changes |
| `Hm10Controller.HM10Controller.Poll` | project/lib/hm10_controller.py:71-94 | appends the read bytes, then the cached command, buffer and result are exactly PollSpec of the old command and old buffer plus data; the object invariant (fewer than 4 buffered bytes, int8 speeds) is kept |
| `Hm10Controller.HM10Controller.IsBrakeRequested` | project/lib/hm10_controller.py:103-104 | brake requested iff the cached flags are odd (bit 0 set) |
| `Hm10Controller.HM10Controller.IsStale` | project/lib/hm10_controller.py:106-107 | with a non-negative timeout a stale command predates now; within the timeout of its stamp it is fresh |
| `Hm10Controller.HM10Controller.Reset` | project/lib/hm10_controller.py:109-117 | empties the buffer and zeroes flags, speeds and counter, stamping now; no brake is requested afterwards |
| `Hm10Controller.HM10Controller.SendUltrasonic` | project/lib/hm10_controller.py:119-133 | sends iff at least the interval has passed since the last send; on send stamps now and writes exactly the telemetry frame; otherwise writes and changes nothing |
| `AiDriver.SpeedBand` | project/lib/aidriver.py:25-35 | the band's rank is the number of classroom limits (80, 120, 180, 220) the speed exceeds |
| `AiDriver.SpeedBandMonotone` | project/lib/aidriver.py:25-35 | a faster speed never falls in a lower band |
| `AiDriver.BandLabelsDistinct` | project/lib/aidriver.py:25-35 | the five band labels are pairwise different, so a sentence names its band unambiguously |
| `AiDriver.DescribeDrive` | project/lib/aidriver.py:38-55 | the drive sentence starts with the direction (its four endings are stated by DescribeDriveShape) |
| `AiDriver.DescribeDriveEnding` | project/lib/aidriver.py:38-55 | the drive sentence ends in "may not move", "toward the right", "toward the left" or ")" according to the case it falls in |
| `AiDriver.DescribeDriveShape` | project/lib/aidriver.py:38-55 | "may not move" iff the faster wheel is at most 80; an arc toward the right iff moving and R−L > 20; toward the left iff moving and L−R > 20; otherwise the plain sentence |
| `AiDriver.DescribeDriveNamesBand` | project/lib/aidriver.py:47-48 | once the faster wheel is above 80 the sentence starts with the direction and the band of the faster wheel |
| `AiDriver.DescribeRotation` | project/lib/aidriver.py:58-67 | the rotation sentence starts with "Rotate <direction>" (its two forms are stated by DescribeRotationShape) |
| `AiDriver.DescribeRotationShape` | project/lib/aidriver.py:58-67 | "may not turn" iff the turn speed is at most 80; otherwise "Rotate <dir> on the spot at <band>" |
| `AiDriver.PwmFor` | project/lib/aidriver.py:277-290 | 0..255 scales by 257 (255 gives full duty 65535, and the duty divided by 257 gives the speed back); above 255 the value is a raw duty capped at 65535 |
| `AiDriver.PwmForMonotone` | project/lib/aidriver.py:284-286 | within the Arduino range a faster speed never gets a smaller duty |
| `AiDriver.Motor.constructor` | project/lib/aidriver.py:269-275 | a new motor has full duty, direction STOP, is not moving and reports speed 0 |
| `AiDriver.Motor.SetSpeed` | project/lib/aidriver.py:277-290 | sets the duty to PwmFor(speed); direction and moving flag are untouched |
| `AiDriver.Motor.Forward` | project/lib/aidriver.py:301-308 | direction FORWARD, moving, reports its duty as speed |
| `AiDriver.Motor.Backward` | project/lib/aidriver.py:310-317 | direction BACKWARD, moving, reports its duty as speed |
| `AiDriver.Motor.Stop` | project/lib/aidriver.py:319-326 | direction STOP, not moving, reports speed 0 (get_speed, lines 292-299) |
| `AiDriver.Motor.Speed` | project/lib/aidriver.py:292-299 | a STOPped motor reports 0; a motor running either way reports its duty value |
| `AiDriver.WarningsThrottled` | project/lib/aidriver.py:447-456 | without a good reading in between, failed readings log at most three out-of-range warnings in all |
| `AiDriver.FailCountAfterSnoc` | project/lib/aidriver.py:447-458 | counting a run of readings and then one more is the same as applying one update of the counter to the run's count |
| `AiDriver.FailCountIsTrailingFailures` | project/lib/aidriver.py:447-458 | starting from zero, the failure counter equals the number of failed readings since the last good one; readings without a sensor leave it alone |
| `AiDriver.Driver.constructor` | project/lib/aidriver.py:388-390 | two distinct stopped motors at full duty, no failures counted, nothing logged |
| `AiDriver.Driver.ReadDistance` | project/lib/aidriver.py:423-467 | no sensor: -1, counter and log untouched; failed reading: -1, counter + 1, warning only while the count is at most 3; good reading: the distance, counter reset to 0, the reading logged |
| `AiDriver.Driver.Brake` | project/lib/aidriver.py:469-482 | both motors STOP with their duty kept, is_moving false, get_motor_speeds (0, 0), one brake sentence logged |
| `AiDriver.Driver.DriveForward` | project/lib/aidriver.py:501-526 | both duties set from the speeds; right BACKWARD, left FORWARD; moving; the drive sentence logged |
| `AiDriver.Driver.DriveBackward` | project/lib/aidriver.py:528-553 | both duties set; right FORWARD, left BACKWARD; moving; the drive sentence logged |
| `AiDriver.Driver.RotateRight` | project/lib/aidriver.py:555-575 | both duties from the turn speed; both motors FORWARD; the rotation sentence logged |
| `AiDriver.Driver.RotateLeft` | project/lib/aidriver.py:577-597 | both duties from the turn speed; both motors BACKWARD; the rotation sentence logged |
| `AiDriver.Driver.SetMotorSpeeds` | project/lib/aidriver.py:599-613 | changes only the two duty values; directions and moving flags stay |
| `AiDriver.Driver.MotorSpeeds` | project/lib/aidriver.py:615-624 | each component is that motor's reported speed: 0 for a STOPped motor, its duty value for a running one; (0, 0) when neither moves |
| `AiDriver.Driver.IsMoving` | project/lib/aidriver.py:626-635 | moving iff at least one motor's direction is not STOP |
| `GamepadDriverController.TruncDiv7` | project/lib/gamepad_driver_controller.py:41 | Python's int() of a quotient by 7 truncates toward zero: the remainder is in 0..6 for a non-negative numerator and in -6..0 for a negative one |
| `GamepadDriverController.AnalogToSpeed` | project/lib/gamepad_driver_controller.py:37-41 | radius 0 gives 0, radius 7 gives max_speed, radius 1..6 lies in min_speed..max_speed |
| `GamepadDriverController.AnalogToSpeedMonotone` | project/lib/gamepad_driver_controller.py:37-41 | a larger radius never gives a smaller speed |
| `GamepadDriverController.ScaledBetween` | project/lib/gamepad_driver_controller.py:41 | for radius 1..7 the scaled numerator lies between 7·min_speed and 7·max_speed |
| `GamepadDriverController.DefaultAnalogSpeeds` | project/lib/gamepad_driver_controller.py:37-41 | with the defaults (255, 60, 180) the stick speeds run from 87 at radius 1 to 255 at radius 7, never in the stopped band |
| `GamepadDriverController.AnalogCall` | project/lib/gamepad_driver_controller.py:96-105 | backward iff y is below -0.5, forward iff above 0.5; otherwise rotate left/right iff x is below -0.5/above 0.5 at turn_speed; brake iff the stick is in the centre of both zones; a drive carries the stick's right and left magnitudes in that order |
| `GamepadDriverController.Decide` | project/lib/gamepad_driver_controller.py:43-109 | START always brakes; every rotation runs at turn_speed; a D-pad drive runs both wheels at max_speed |
| `GamepadDriverController.StartOverrides` | project/lib/gamepad_driver_controller.py:50-53 | START brakes whatever else is pressed |
| `GamepadDriverController.DpadPriority` | project/lib/gamepad_driver_controller.py:55-67 | up > down > left > right: the first pressed button alone decides, regardless of later buttons and the stick; up/down drive at (max, max), left/right rotate at turn_speed |
| `GamepadDriverController.NoInputBrakes` | project/lib/gamepad_driver_controller.py:108-109 | no button and analog mode off gives brake |
| `GamepadDriverController.AnalogBrakes` | project/lib/gamepad_driver_controller.py:69-106 | in analog mode the robot brakes iff the stick is at rest (radius 0 with a positive min_speed) or lies in neither the forward/backward nor the sideways zone |
| `GamepadDriverController.AnalogNeverBrakes` | project/lib/gamepad_driver_controller.py:69-105 | in analog mode with no button, a realisable stick at radius 1..7 never brakes: the call is the zone chain's drive or rotation |
| `GamepadDriverController.Update` | project/lib/gamepad_driver_controller.py:43-109 | exactly one driver call per update: the motors show the call Decide picks and exactly one sentence, that call's, is logged; a brake keeps both duty values |
| `EventLog.ElapsedText` | project/lib/eventlog.py:44-47 | the elapsed-time text never contains a line break |
| `EventLog.EventLine` | project/lib/eventlog.py:84 | an event line starts with "t+" and ends with the message and a line break |
| `EventLog.EventLineIsOneLine` | project/lib/eventlog.py:81-84 | an event line for a one-line message holds exactly one line break, at its end, and ends with the message |
| `EventLog.Logger.constructor` | project/lib/eventlog.py:17-41 | the clock starts now; logging is on unless the probe found content in the file |
| `EventLog.Logger.InitializeState` | project/lib/eventlog.py:22-41 | a file with content switches logging off; a failed probe counts as empty; logging is never switched on here |
| `EventLog.Logger.ClearLog` | project/lib/eventlog.py:50-60 | on success the file is empty, logging on, clock restarted; on a failed open nothing changes |
| `EventLog.Logger.LogSeparator` | project/lib/eventlog.py:63-74 | while logging is off nothing changes; otherwise the clock restarts and the separator and start lines are appended |
| `EventLog.Logger.LogEvent` | project/lib/eventlog.py:77-86 | while logging is off (or the open fails) the file is unchanged; otherwise exactly one event line is appended |

## Left out

- UART construction, `configure_baudrate` and `any` are thin hardware wrappers. So is the error raised when the `machine` module is missing.
- Tick wrap-around is not modelled: `ticks_diff` is plain subtraction on unbounded integers.
- PWM and GPIO side effects are not modelled: pin on/off, `duty_u16`, the heartbeat LED, `heartbeat`, `hold_state`.
- `_explain_error` and `_d` are debug printing. The re-raise paths around motor calls are not modelled, because the modelled motor operations cannot fail.
- The event-logger calls inside the driver are modelled as the list of sentences handed over (`Driver.events`). The case where the `eventlog` module failed to import and nothing is logged is left out.
- `AiDriver.Driver.ReadDistance`: the failure counter is a module global in the library, shared by all robot objects. Here it is a field of one `Driver`.
- `GamepadDriverController.AnalogToSpeed`: computes min + (max − min)·radius/7 exactly and then truncates. Python evaluates it in binary floating point, which can land just below a whole number and truncate one lower.
- `GamepadDriverController.Update`: the sine/cosine tank-drive step is floating point and is not modelled. Its outcome is an input (`Stick`): the zone of each component relative to ±0.5 and the two wheel magnitudes. So the model does not state how those magnitudes follow from the angle.
- `EventLog.ElapsedText`: rounds to the nearest hundredth with ties going down. Python's `"{:.2f}"` of a binary float settles some ties upward.
- `EventLog.Logger.LogSeparator`: the two writes are treated as one. A failure between them, leaving only the first line, is not modelled.
- `EventLog.Logger.InitializeState`: the choice between `os.stat` and reading one character is reduced to "the probe succeeded and the file is non-empty".
- Hardware diagnostics, boot scripts and test stubs are not part of this model.
