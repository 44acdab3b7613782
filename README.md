# senseModule light-sensor unit (FruityMesh vendor module), modelled in Dafny

This project models `senseModule`, a FruityMesh vendor module. It samples an ambient-light sensor through the ADC, reduces the raw sample to an 8-bit reading, and answers `GET_LIGHT_INTENSITY` requests over the mesh. It also keeps a periodic "TIME" send. A component write arms that send for one requester. While it is active, every timer tick advances a counter, and a `COMPONENT_SENSE` / `READ_RSP` message carrying the reading is sent whenever the counter passes 5 s. The send switches itself off lazily 10 minutes after arming.

The model has five modules:

- `SenseTypes` (`types.dfy`) holds the fixed-width integer types, the constants of `senseModule.h` and the `Platform` record. That record gathers what the module reads from outside: the board pins, the node id, the vendor module id, two action codes, the minimum component-message length, whether a mesh-access module exists, and the ADC feature flag. The file also defines decoded packets (`Packet`), outbound messages (`Outbound`) and effects (`Event`).
- `Sampler` (`sampler.dfy`) covers the reduction done by `AvgADCValue`. It also states the ADC init/sample gate over `isADCInitialized` as functions.
- `PeriodicSend` (`periodic.dfy`) covers the five periodic fields: activity, arm, disarm, and the tick's edge detection, accumulation and send.
- `Protocol` (`protocol.dfy`) covers `MeshMessageReceivedHandler` over a decoded packet, and runs of ticks and messages.
- `SenseUnit` (`sense_module.dfy`) holds the class `SenseModule`. Its fields are those of `senseModule.h`, and its methods update them step by step. Each method's postcondition ties the new fields and the ghost effect `log` to the functions above, and the properties are proved about those functions.

The node timer `GS->appTimerDs` is an explicit `now` argument, and so is the elapsed time `passedTimeDs`. `SHOULD_IV_TRIGGER(...)` for the measurement interval is the boolean argument `measurementDue`. The status returned by `AdcConfigureChannel` is the argument `configureSucceeded`. Hardware calls, the mesh-access broadcast update and outbound messages are recorded as `Event`s. `SEC_TO_DS(s)` is `10 * s`.

The arithmetic follows the C++:

- `start + PERIODIC_TIME_SEND_AUTOMATIC_DEACTIVATION` and `timeSince + passedTimeDs` wrap modulo 2^32 (`AddU32`).
- In `AvgADCValue`, each i16 sample is added to a u32 accumulator, which wraps. The quotient is stored in a u8 field, which truncates it modulo 256.
- The double expression `0.5 * a - 0.5` is modelled by the integer function `Calibrate`, which is `0` for `a == 0` and `(a - 1) / 2` otherwise. `Calibrate` is proved equal to the exact real-number value truncated toward zero, which is what the cast to `u8` does. Every value involved is a multiple of 0.5 between -0.5 and 127, so a double holds it exactly.

Facts about the code that the model keeps:

- `InitLightIntensityADC` sets `isADCInitialized` to true even when channel configuration fails (src/modules/senseModule.cpp:316-321).
- `LightIntensityADC` clears the flag after starting a sample (src/modules/senseModule.cpp:340). A second call therefore initialises again and samples again; nothing blocks a call while a sample is outstanding (`Sampler.SampleNeverBlocks`).
- The start-up fast path samples while the timer is below `SEC_TO_DS(40)`, which is 400 Ds (src/modules/senseModule.cpp:95-96).
- The reading is truncated toward zero by the cast to `u8`, not rounded (src/modules/senseModule.cpp:360-361).

## Model

| member | source | states |
|---|---|---|
| `SenseTypes.HeaderConstants` | src/modules/senseModule.h:43-123 | The window is 6000 Ds, the spacing 50 Ds and the measurement interval 60 Ds. Component TIME is 0xABCD and register TIME 0x1234. Both action codes are 0. The status message is 1 byte and the buffer holds 1 sample. |
| `Sampler.AccumulateU32` | src/modules/senseModule.cpp:347-352 | The u32 accumulator equals the unbounded integer sum of the samples, taken modulo 2^32. |
| `Sampler.Calibrate` | src/modules/senseModule.cpp:356-361 | The result is at most 127 and equals the exact value `0.5*a - 0.5` truncated toward zero. |
| `Sampler.Reading` | src/modules/senseModule.cpp:344-363 | The reading is at most 127. It equals the truncation toward zero of `0.5*a - 0.5`, where `a` is (sum mod 2^32) / buffer length, mod 256. |
| `Sampler.SingleSampleReading` | src/modules/senseModule.cpp:347-355 | With one sample `v`, the average is `v mod 256` and the reading is `Calibrate(v mod 256)`. |
| `Sampler.CalibrationPoints` | src/modules/senseModule.cpp:357-361 | Raw 2 gives 0 and raw 150 gives 74. Raw -1 wraps to 255 and gives 127. |
| `Sampler.ChannelProfile` | src/modules/senseModule.cpp:301-315 | The 10-bit profile is used exactly when ADC_INTERNAL_MEASUREMENT is available. |
| `Sampler.InitAdc` | src/modules/senseModule.cpp:288-322 | With pin -1, or when already initialised, nothing changes and no hardware is called. Otherwise the effects are AdcInit then ConfigureChannel, and the flag is set whatever configuration returned. |
| `Sampler.SampleAdc` | src/modules/senseModule.cpp:323-342 | With pin -1 nothing changes and nothing is called. Otherwise the effects are Init's, then the enable pin, then one AdcSample, and the flag ends false. |
| `Sampler.InitTwiceConfiguresOnce` | src/modules/senseModule.cpp:290-294 | A second Init right after a first changes nothing and calls no hardware, so the channel is configured at most once. |
| `Sampler.SampleNeverBlocks` | src/modules/senseModule.cpp:326-340 | With a pin, a second sample call starts again with AdcInit and ends with AdcSample; no outstanding sample blocks it. |
| `PeriodicSend.IsActive` | src/modules/senseModule.cpp:365-368 | A zero start is inactive. An active send has `now < start + 6000`. Without wrap, active iff `start != 0 && now < start + 6000`. |
| `PeriodicSend.Initial` | src/modules/senseModule.h:120-126 | The initial fields keep the counter bound, remember "inactive", and are inactive at every time. |
| `PeriodicSend.Arm` | src/modules/senseModule.cpp:261-267 | Arming sets the counter to 50 and stores the receiver and handle. Without wrap, active exactly on `[now, now + 6000)` when `now != 0`, so arming at 0 stays disarmed. With wrap, only below the wrapped end. |
| `PeriodicSend.Disarm` | src/modules/senseModule.cpp:268-271 | Afterwards the send is inactive at every time. Counter, receiver, handle and the remembered activity are unchanged. |
| `PeriodicSend.TimeReadResponse` | src/modules/senseModule.cpp:118-134 | The message is COMPONENT_SENSE from this node to the stored receiver, with the stored handle, READ_RSP, component and register TIME, and the reading as payload. |
| `PeriodicSend.Accumulate` | src/modules/senseModule.cpp:114-135 | The counter becomes 0 when the u32 sum exceeds 50 and the sum otherwise. It sends exactly one TIME message in the first case and none in the second. Other fields stay unchanged, and the counter bound holds afterwards. |
| `PeriodicSend.Tick` | src/modules/senseModule.cpp:101-136 | After a tick the remembered activity equals the activity at `now`. Start, receiver and handle never change. When inactive the counter is unchanged; when active it is reset or advanced. The counter bound is preserved. |
| `PeriodicSend.TickEffects` | src/modules/senseModule.cpp:101-135 | A tick sends one broadcast update exactly when the activity flipped and the mesh-access module exists. It sends one TIME message exactly when active and due; otherwise it sends nothing. |
| `PeriodicSend.SendDueWithoutWrap` | src/modules/senseModule.cpp:114-115 | Under the counter bound the addition never wraps, so "due" means counter + elapsed > 50. |
| `PeriodicSend.SecondTickSilent` | src/modules/senseModule.cpp:101-110 | A second tick at the same `now` reports no edge. |
| `PeriodicSend.ExpiresWithoutDisarm` | src/modules/senseModule.cpp:365-368 | Once `now >= start + 6000` the send is inactive with no disarm. The next tick sends nothing and reports the edge only if the send was active before. |
| `PeriodicSend.ArmThenTickSendsOnce` | src/modules/senseModule.cpp:112-135 | After arming, a tick inside the window with a non-zero elapsed time sends exactly one TIME message to the requester with its handle and resets the counter. |
| `PeriodicSend.ArmNearTimerWrapIsInactive` | src/modules/senseModule.cpp:365-368 | Arming within 6000 Ds of the u32 limit leaves the send inactive from the arming time on. |
| `PeriodicSend.DisarmSuppressesSend` | src/modules/senseModule.cpp:268-271 | A tick after a disarm sends nothing. |
| `Protocol.StatusMessage` | src/modules/senseModule.cpp:140-164 | The status message goes to `toNode` with the given type and handle and action LIGHT_INTENSITY. Its payload is exactly 1 byte, the reading. |
| `Protocol.Dispatch` | src/modules/senseModule.cpp:208-277 | A matching GET_LIGHT_INTENSITY gets exactly one response and anything else gets none. Only a matching TIME write changes state: arm on a non-zero byte, disarm on zero. The remembered activity and the counter bound are kept. |
| `Protocol.RequestGetsOneResponse` | src/modules/senseModule.cpp:213-227 | A request for this module with GET_LIGHT_INTENSITY yields one response to the sender, with the same handle and the reading, and no state change. |
| `Protocol.ResponseChangesNothing` | src/modules/senseModule.cpp:230-248 | An inbound action response changes no state and sends nothing. |
| `Protocol.MismatchedWriteIgnored` | src/modules/senseModule.cpp:250-259 | A component message that is too short, or whose module id, action, component or register does not match, changes nothing. |
| `Protocol.OnlyTimeRegisterArms` | src/modules/senseModule.cpp:253-259 | A change of state implies a COMPONENT_ACT for this module addressed to 0xABCD / 0x1234. |
| `Protocol.RunPreservesInv` | src/modules/senseModule.cpp:114-116 | Every run of ticks and messages from a state within the bound keeps `timeSince <= 50`. |
| `Protocol.RunEndingInTickRemembersActivity` | src/modules/senseModule.cpp:101-110 | After any run that ends with a tick at `now`, the remembered activity equals the activity at `now`. |
| `Protocol.WriteThenTick` | src/modules/senseModule.cpp:250-277 | A write with byte 0x01 followed by a tick inside the window sends exactly one message. A write with 0x00 in between suppresses it. |
| `SenseUnit.SenseModule.constructor` | src/modules/senseModule.cpp:43-60 | The object starts disarmed: reading 0, ADC not initialised, default configuration, measurements zeroed, no effects. |
| `SenseUnit.SenseModule.ResetToDefaultConfiguration` | src/modules/senseModule.cpp:62-73 | The configuration becomes {base-class module id, active, version 1, interval 0} and all 20 measurements become 0. |
| `SenseUnit.SenseModule.GetLightIntensityInfo` | src/modules/senseModule.cpp:370-375 | The reading returned is at most 127. |
| `SenseUnit.SenseModule.InitLightIntensityADC` | src/modules/senseModule.cpp:288-322 | The flag and the effects are those of `InitAdc`. |
| `SenseUnit.SenseModule.LightIntensityADC` | src/modules/senseModule.cpp:323-342 | The flag and the effects are those of `SampleAdc`. |
| `SenseUnit.SenseModule.AdcEventHandler` | src/modules/senseModule.cpp:279-286 | The buffer holds the delivered samples, the reading is `Reading(samples)`, and the ADC is released. |
| `SenseUnit.SenseModule.AvgADCValue` | src/modules/senseModule.cpp:344-363 | The accumulation loop leaves `Reading(buffer)` in `avgAdcValue`. |
| `SenseUnit.SenseModule.SendStatus` | src/modules/senseModule.cpp:140-164 | Exactly one status message with the current reading is sent. |
| `SenseUnit.SenseModule.TimerEventHandler` | src/modules/senseModule.cpp:81-137 | Sampling happens when `now < 400` with a pin assigned, or when the interval is due. The periodic fields and effects are then those of `Tick`, and the counter bound is kept. |
| `SenseUnit.SenseModule.ReportActivityEdge` | src/modules/senseModule.cpp:101-110 | The remembered activity becomes the activity at `now`, with the notification of `EdgeEffects`. |
| `SenseUnit.SenseModule.AdvancePeriodicTimeSend` | src/modules/senseModule.cpp:112-136 | The counter and effects are those of `Accumulate`. |
| `SenseUnit.SenseModule.MeshMessageReceivedHandler` | src/modules/senseModule.cpp:208-277 | The periodic fields and sent messages are those of `Dispatch`, and the counter bound is kept. |

## Left out

- Hardware and transport calls are recorded as events, not modelled. This covers `FruityHal` ADC and GPIO calls, `GS->cm.SendMeshMessage` and `SendModuleActionMessage`. The `FRUITYMESH_ERROR_CHECK` results of `AdcInit` and `AdcSample` are not modelled either.
- The asynchronous write of samples into `m_buffer` is folded into `AdcEventHandler`, which takes the delivered samples as an argument. The singleton lookup in that handler, which returns early when the module is missing, is replaced by a call on the object.
- The module base class is not part of this model: `Module::MeshMessageReceivedHandler`, `Module::TerminalCommandHandler` and the terminal command parser.
- Logging and JSON output are not modelled. An inbound LIGHT_INTENSITY response therefore has no effect at all.
- The search over incoming connections in `SendStatus` is left out because its result is unused.
- `SET_FEATURESET_CONFIGURATION` is treated as a no-op. `ConfigurationLoadedHandler` is empty. The commented-out periodic status send using `statusReportingIntervalDs` is dead code.
- The `SIM_ENABLED` build of `LightIntensityADC` is not modelled.
- Packet memory layout is not modelled: packets are decoded records. Reading `payload[0]` from an empty payload would read memory past the received data; the model reads it as 0.
- Several values come from headers that are not part of this model and are fields of `Platform`: `ActorMessageActionType::WRITE`, `SensorMessageActionType::READ_RSP`, `SIZEOF_CONN_PACKET_COMPONENT_MESSAGE`, `GET_VENDOR_MODULE_ID(0xABCD, 3)` and the `moduleId` member of the `Module` base class (`Platform.baseModuleId`), which `ResetToDefaultConfiguration` copies into the configuration and which is distinct from the vendor module id that packets are matched against. The width of the configuration's `moduleId` field comes from `ModuleConfiguration`, which is not part of this model, so the model leaves it unbounded. The model's properties hold for any values of these fields. `MessageType` is a datatype of its own whose constructors stand for message-type values assumed pairwise distinct; their numeric values are not modelled.
- The initial contents of `m_buffer` are left unset by the source; the model leaves them unspecified as well.
- `numberOfAdcChannels` is set to 0 by the constructor and never read.
- Floating point is not modelled as IEEE doubles. The double expression is replaced by an exact integer equivalent.
