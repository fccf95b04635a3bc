# Driver input reader: a Dafny model of the input and signal layer

The driver input reader is a small program for a racing-simulator rig. It reads
a steering wheel, a pedal cluster and an optional button box. It turns the raw
axis readings into percentages and publishes them as one message per cycle
of the form `<topic> <json>`. The payload also carries three derived platform
signals (seat tilt, seat pivot and vibration). The platform step that computes
them is disabled in the publish cycle, so `send_payload` leaves them at their
initial 0.0.

This project models the logic between the devices and the transport:

- `ControlWheels` (control_wheel.dfy): the debounced control wheel. A poll
  reports Idle, Up or Down. A fire sets `last_timestamp` to the time of the
  poll, and no new fire can happen until `timeout` seconds have passed.
  `Step` is the specification of one poll, and the class `ControlWheel`
  is proved against it. `Run`, `FinalTimestamp` and `FireTimes` extend
  `Step` to a sequence of polls, and the lemmas prove the debounce over
  any such sequence.
- `Inputs` (inputs.dfy): the fixed affine maps from raw axis values to
  percent, the dead-zoned and scaled variants, the button query on the
  optional box, the twelve wheels built at start-up, and the class `Inputs`
  holding the last axis reading.
- `ControlPlatform` (control_platform.dfy): the signed step read from a wheel,
  the derived signals, the message framing, the default configuration, and
  the class `DriverInputReader`, which updates its `platform_info` payload map
  in place and publishes it.
- `Wrappers` (wrappers.dfy): `Option` and `Result`.

Every value is a Dafny `real`. The clock, the button box and the axis readings
are parameters: `now` is the time of a poll. The box is `None` when no button
box is connected, and otherwise `Some(held)`, the set of buttons held down. The
serialiser `json.dumps` is a parameter `dumps`. The angle-and-rounding tail of
the seat tilt is a parameter `tiltOf`.

## Model

| member | source | states |
|---|---|---|
| ControlWheels.Step | driver_input_reader/inputs.py:28-38 | Inside the timeout window a poll is Idle and keeps the timestamp. Up fires exactly when the window has passed and the up button is bound and held. Down fires exactly when the window has passed, Up did not fire, and the down button is bound and held. A fire records `now`; Idle keeps the timestamp. |
| ControlWheels.UpBeforeDown | driver_input_reader/inputs.py:31-36 | When both buttons are bound and held after the window, the poll reports Up at `now`, never Down. |
| ControlWheels.FiresAreSpaced | driver_input_reader/inputs.py:25-35 | Over any sequence of polls, the first fire is more than `timeout` after the starting timestamp. Any two consecutive fires are more than `timeout` apart. The poll times need not be ordered. |
| ControlWheels.FinalTimestampIsLastFire | driver_input_reader/inputs.py:30-38 | After any sequence of polls, `last_timestamp` is the time of the last fire, or the starting value when nothing fired. |
| ControlWheels.FireTimesBounded | driver_input_reader/inputs.py:29-35 | No fire is later than the latest poll. |
| ControlWheels.FireCountBound | driver_input_reader/inputs.py:29-35 | If every poll is at or before `until`, then the number of fires times `timeout` is less than `until - last`, so there is at most one fire per window. |
| ControlWheels.UnboundWheelIsInert | driver_input_reader/inputs.py:31-38 | A wheel with neither button bound reports Idle on every poll and never changes its timestamp. |
| ControlWheels.UpOnlyWheelNeverGoesDown | driver_input_reader/inputs.py:34-36 | A wheel whose down button is `None` never reports Down. |
| ControlWheels.StepAsWritten | driver_input_reader/inputs.py:28-38 | The poll as the source writes it. With a connected box it equals `Step`. With no box it fails exactly when the window has passed and some button is bound; when it does not fail it is Idle and keeps the timestamp. |
| ControlWheels.AsWrittenFailsOnFirstPollWithoutBox | driver_input_reader/inputs.py:111 | The throttle wheel (buttons 5 and 4), polled for the first time with no button box, fails. |
| ControlWheels.MissingBoxNeverFires | driver_input_reader/inputs.py:104-110 | With no button box, every wheel reports Idle on every poll and keeps its timestamp. |
| ControlWheels.ControlWheel.constructor | driver_input_reader/inputs.py:13-26 | Stores the two buttons, the timeout (default 0.1) and the step (default 5.0). The timestamp starts at 0.0. |
| ControlWheels.ControlWheel.GetState | driver_input_reader/inputs.py:28-38 | The reported state and the new `lastTimestamp` are those of `Step` from the old timestamp. |
| ControlWheels.ControlWheel.GetChangeAmount | driver_input_reader/inputs.py:40-41 | Returns the constructor's step and changes nothing. |
| Inputs.Normalize | driver_input_reader/inputs.py:141-151 | Reference calibration: maps `low` to 0 and `high` to 100. |
| Inputs.NormalizeIncreasing | driver_input_reader/inputs.py:141-151 | A calibration with `low < high` is strictly increasing. |
| Inputs.SteeringPercent | driver_input_reader/inputs.py:134-139 | Maps -1 to 100, 0 to 0 and 1 to -100. The result is in [-100, 100] exactly when the axis is in [-1, 1]. |
| Inputs.ThrottlePercent | driver_input_reader/inputs.py:141-143 | Maps -1 to 0 and 0.32 to 100. The result is in [0, 100] exactly when the axis is in [-1, 0.32]. |
| Inputs.BrakePercent | driver_input_reader/inputs.py:145-147 | Maps -0.78 to 0 and -0.2 to 100. The result is in [0, 100] exactly when the axis is in [-0.78, -0.2]. |
| Inputs.ClutchPercent | driver_input_reader/inputs.py:149-151 | Maps -1 to 0 and 0.83233642578125 to 100. The result is in [0, 100] exactly when the axis is in that range. |
| Inputs.PercentMapsAreCalibrations | driver_input_reader/inputs.py:139-151 | Each pedal map is the reference calibration with its own ends. Steering is the calibration with ends 0 and -1. |
| Inputs.PercentMapsMonotone | driver_input_reader/inputs.py:139-151 | The steering map is strictly decreasing. The throttle, brake and clutch maps are strictly increasing. |
| Inputs.ScaleAboveMonotone | driver_input_reader/inputs.py:160-176 | The one-sided dead zone followed by scaling keeps order when `cut` and `max` are non-negative. |
| Inputs.ScaleAboveWithin | driver_input_reader/inputs.py:160-176 | The one-sided dead zone followed by scaling maps [0, 100] into [0, max]. |
| Inputs.ScaleOutsideWithin | driver_input_reader/inputs.py:153-158 | The symmetric dead zone followed by scaling maps [-100, 100] into [-max, max]. |
| Inputs.SteeringPercentScaled | driver_input_reader/inputs.py:153-158 | Steering strictly inside (-5, 5) gives 0. Any other value v gives v·max/100. |
| Inputs.SteeringScaledWithin | driver_input_reader/inputs.py:153-158 | An axis in [-1, 1] gives scaled steering in [-max, max]. |
| Inputs.ThrottlePercentScaled | driver_input_reader/inputs.py:160-164 | Throttle below 1 gives 0. Any other value v gives v·max/100. |
| Inputs.BrakePercentScaled | driver_input_reader/inputs.py:166-170 | Brake below 5 gives 0. Any other value v gives v·max/100. |
| Inputs.ClutchPercentScaled | driver_input_reader/inputs.py:172-176 | Clutch below 1 gives 0. Any other value v gives v·max/100. |
| Inputs.PedalsScaledMonotone | driver_input_reader/inputs.py:160-176 | When `max` is non-negative, each scaled pedal does not decrease as its axis rises. |
| Inputs.PedalsScaledWithin | driver_input_reader/inputs.py:160-176 | A pedal within its calibration gives a scaled value in [0, max]. |
| Inputs.IsButtonPressed | driver_input_reader/inputs.py:187-190 | False when no box is connected. Otherwise true exactly when the box reports the button held. |
| Inputs.HeldIsButtonPressed | driver_input_reader/inputs.py:187-190 | The button test of the corrected poll (`Held`) is the same query as `is_button_pressed`: false with no box, otherwise the box's reading. |
| Inputs.ShiftLeftPressed | driver_input_reader/inputs.py:181-182 | True exactly when a button box is connected and reports button 7 held. |
| Inputs.ShiftRightPressed | driver_input_reader/inputs.py:184-185 | True exactly when a button box is connected and reports button 23 held. |
| Inputs.SingleButtonsNeverGoDown | driver_input_reader/inputs.py:117-124 | The six wheels built with only an up button never report Down. |
| Inputs.Inputs.constructor | driver_input_reader/inputs.py:111-124 | Axes start at 0. Builds twelve fresh wheels, each with its own buttons, timeout and step, and each with its timestamp still at 0.0, so its first poll is past its window. |
| Inputs.Inputs.ReadInputs | driver_input_reader/inputs.py:126-132 | The four axis fields hold the new reading. |
| ControlPlatform.SignedChange | driver_input_reader/control_platform.py:13-18 | Up gives +amount, Down gives -amount, Idle gives 0. |
| ControlPlatform.ChangeAmountFromWheel | driver_input_reader/control_platform.py:10-18 | Polls the wheel once. Returns the signed step for the state `Step` gives, and the wheel's timestamp becomes the one `Step` gives. |
| ControlPlatform.NetChangeBounded | driver_input_reader/control_platform.py:10-18 | Over any sequence of polls, the summed signed steps lie within ±(number of fires)·`|amount|`. |
| ControlPlatform.TiltVelocity | driver_input_reader/control_platform.py:99-106 | The throttle when throttle ≥ brake, else -brake; the `velocity = 10` branch is never taken. For non-negative pedals the sign records which pedal won, and the magnitude is the larger pedal. |
| ControlPlatform.LateralAcceleration | driver_input_reader/control_platform.py:108 | Defined for steering ≠ 0. The result times the radius `steering / 10` equals velocity². Zero velocity gives 0. |
| ControlPlatform.LateralAccelerationMirrors | driver_input_reader/control_platform.py:108 | Negating the steering negates the lateral acceleration. |
| ControlPlatform.SeatPivot | driver_input_reader/control_platform.py:126-136 | Equals `-throttle` when throttle > brake, else `brake`; the (0, 0) case needs no branch of its own. For pedals in [0, 100] the result is in [-100, 100]. With a non-negative brake it is negative exactly when throttle > brake. |
| ControlPlatform.Rpm | driver_input_reader/control_platform.py:112-124 | Equals 680 + 63.2·throttle when throttle ≥ brake, else 680 + 47.4·brake; the `velocity = 0` branch is never taken. For pedals in [0, 100] the result is in [680, 7000]. |
| ControlPlatform.RpmMonotoneInThrottle | driver_input_reader/control_platform.py:112-124 | With a non-negative brake, more throttle never lowers the vibration. |
| ControlPlatform.SignalExamples | driver_input_reader/control_platform.py:108-136 | Pivot maps (0,0) to 0, (50,20) to -50 and (20,50) to 50. Rpm maps (0,0) to 680, (100,0) to 7000 and (0,100) to 5420. The lateral acceleration at (50,0,10) is 2500. |
| ControlPlatform.Message | driver_input_reader/control_platform.py:30-32 | The message is the topic, then one space, then the JSON text. |
| ControlPlatform.SplitTopic | driver_input_reader/control_platform.py:30-32 | A subscriber's split at the first space. It fails exactly when the message has no space. |
| ControlPlatform.SplitMessage | driver_input_reader/control_platform.py:30-32 | For a topic without spaces, splitting the message recovers the topic and the JSON text. |
| ControlPlatform.ConfigTopic | driver_input_reader/control_platform.py:175 | Returns the driver-input topic exactly when the configuration has a string at that key path. |
| ControlPlatform.TemplateProvidesPublisher | driver_input_reader/control_platform.py:50-63 | The default configuration holds the publisher address `ipc:///tmp/RAAI/driver_input_reader.ipc`, the topic `driver_input` and an empty subscribers object. |
| ControlPlatform.InitialPayload | driver_input_reader/control_platform.py:82-90 | The initial payload has exactly the seven keys, with all three platform signals at 0. |
| ControlPlatform.DriverUpdate | driver_input_reader/control_platform.py:142-145 | Sets the throttle, brake, clutch and steering keys to the four percents. Every other key keeps its value. |
| ControlPlatform.DriverUpdateOverwrites | driver_input_reader/control_platform.py:142-145 | A later driver reading completely replaces an earlier one. |
| ControlPlatform.SendsKeepSignalsAtRest | driver_input_reader/control_platform.py:170-176 | From the initial payload, any number of publish cycles keep the seven keys and keep tilt_x, tilt_y and vibration at 0. The payload then reflects only the latest reading. |
| ControlPlatform.PlatformUpdate | driver_input_reader/control_platform.py:147-159 | Sets tilt_x from the lateral acceleration, tilt_y to the pivot and vibration to the rpm, all from the stored percents. Every other key keeps its value. |
| ControlPlatform.DriverInputReader.constructor | driver_input_reader/control_platform.py:73-90 | Needs a configuration with a publisher address. Creates fresh inputs whose twelve wheels are fresh and at their start, and the initial seven-key payload. |
| ControlPlatform.DriverInputReader.HandleDriverInputs | driver_input_reader/control_platform.py:138-145 | Stores the reading in the inputs. The payload becomes `DriverUpdate` of the old payload, so tilt_x, tilt_y and vibration are unchanged. |
| ControlPlatform.DriverInputReader.HandlePlatformInputs | driver_input_reader/control_platform.py:147-159 | Succeeds exactly when the stored steering is not 0. On success the payload becomes `PlatformUpdate` of the old one. On failure it is unchanged. |
| ControlPlatform.DriverInputReader.SendPayload | driver_input_reader/control_platform.py:170-176 | Applies the driver update, never the platform step. If the configuration has a topic, returns `Message(topic, dumps(payload))`; otherwise returns None after the update. Signals at 0 stay at 0. |
| ControlPlatform.SendData | driver_input_reader/control_platform.py:21-35 | The sent message is `Message(topic, dumps(payload))`; the topic defaults to a single space. It starts with the topic followed by one space. |

## Findings

| source | as written | input that shows it | evidently intended | confidence | as-written member | corrected member |
|---|---|---|---|---|---|---|
| driver_input_reader/inputs.py:31-35 | The `is not None` tests check the button indices, not the joystick. Every wheel is built against `self.buttons`, which stays `None` when no button box is connected (inputs.py:104-124). In that case `self.joystick.get_button` is called on `None` once the window has passed. | No button box. The throttle wheel (buttons 5, 4) is polled at any time later than 0.1 s after its starting timestamp 0.0, which includes its first poll. | The box is optional (inputs.py:104-106), and `is_button_pressed` returns False without it (inputs.py:187-190). So with no box, every wheel should report Idle. | high; not executed | ControlWheels.StepAsWritten, ControlWheels.AsWrittenFailsOnFirstPollWithoutBox | ControlWheels.Step, ControlWheels.MissingBoxNeverFires |

`ControlWheel.GetState` and the rest of the model use the corrected `Step`.

## Left out

- Device enumeration and binding by product name, `pygame.init` and the exit on a missing steering wheel or pedal cluster (inputs.py:70-109) are foreign-library I/O. A reading is passed in as `RawAxes`, and the button box's state as a `ButtonBox` value per poll.
- The event pump `pygame.event.get()` in `read_inputs`, `time.time()`, `get_button` and `get_axis` are external calls. Their results are parameters.
- ControlWheels.ControlWheel: the model does not hold the joystick handle. The box's state is passed to every poll. An attribute the source never reassigns is a `const`.
- ControlPlatform.SeatPivot: states the value before Python's `round(..., 2)`. Rounding is floating-point formatting.
- ControlPlatform.Rpm: states the value before Python's `round(..., 2)`, for the same reason.
- ControlPlatform.PlatformUpdate: `math.atan`, `math.degrees` and the rounding of the seat tilt (control_platform.py:109-110) are floating-point numerics. They are the parameter `tiltOf`, applied to the lateral acceleration.
- ControlPlatform.LateralAcceleration: requires steering ≠ 0. In the source, steering 0 raises `ZeroDivisionError`; `HandlePlatformInputs` models that as a failed step that changes nothing.
- The pynng publisher, `listen`, `pub.send`, the encoding to bytes and the `print` log in `send_data` with its `p_print` switch are transport and logging. A published message is returned as a string.
- `json.dumps` is library code. The JSON text is the result of the parameter `dumps`.
- `read_config` and the file write in `create_config` (control_platform.py:38-69) are file I/O. The model keeps only the template's content (`Template`) and its key paths.
- ControlPlatform.DriverInputReader.constructor: requires the publisher address in the configuration. The source raises (KeyError or TypeError) before the publisher and payload exist; the publisher built from the address is not modelled.
- `DriverInputReader.run` is a single call to `send_payload` and has no member of its own.
- driver_input_reader/test_data_send.py is not part of this model. It is a stand-alone test publisher and its tilt formula differs from the one modelled.
- Python floats become exact reals, so overflow, NaN and infinity are not modelled.
