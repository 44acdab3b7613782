/** The senseModule object: its fields as in senseModule.h and its handlers as
    methods that update them step by step. Each method is tied to the functions
    of Sampler, PeriodicSend and Protocol, where its properties are proved.
    Effects on hardware, on the mesh-access module and on the mesh go to the
    ghost `log`. */
module SenseUnit {
  import opened SenseTypes
  import opened Sampler
  import opened PeriodicSend
  import opened Protocol

  class SenseModule {
    /** Board configuration and the other values defined outside the module. */
    const platform: Platform

    /** m_buffer: raw samples written by the ADC. */
    const buffer: array<i16>
    /** nodeMeasurements: cleared by ResetToDefaultConfiguration, otherwise unused. */
    const nodeMeasurements: array<NodeId>

    var configuration: Configuration
    var avgAdcValue: u8
    var isADCInitialized: bool
    var numberOfAdcChannels: u8

    var periodicTimeSendWasActivePreviousTimerEventHandler: bool
    var periodicTimeSendStartTimestampDs: u32
    var timeSinceLastPeriodicTimeSendDs: u32
    var periodicTimeSendReceiver: NodeId
    var periodicTimeSendRequestHandle: u8

    /** Every effect outside the object, in order. */
    ghost var log: seq<Event>

    ghost predicate Valid()
      reads this
    {
      buffer.Length == LIGHT_INTENSITY_SAMPLES_IN_BUFFER &&
      nodeMeasurements.Length == NUM_NODE_MEASUREMENTS &&
      timeSinceLastPeriodicTimeSendDs <= TIME_BETWEEN_PERIODIC_TIME_SENDS_DS &&
      avgAdcValue <= 127
    }

    /** The five periodic-send fields as one value. */
    function Periodic(): PeriodicState
      reads this
    {
      PeriodicState(periodicTimeSendStartTimestampDs, timeSinceLastPeriodicTimeSendDs,
                    periodicTimeSendReceiver, periodicTimeSendRequestHandle,
                    periodicTimeSendWasActivePreviousTimerEventHandler)
    }

    constructor (plat: Platform)
      ensures Valid() && platform == plat
      ensures fresh(buffer) && fresh(nodeMeasurements)
      ensures Periodic() == Initial()
      ensures avgAdcValue == 0 && !isADCInitialized && numberOfAdcChannels == 0
      ensures configuration == Configuration(plat.baseModuleId, true, SENSE_MODULE_CONFIG_VERSION, 0)
      ensures forall i :: 0 <= i < nodeMeasurements.Length ==> nodeMeasurements[i] == 0
      ensures log == []
    {
      platform := plat;
      buffer := new i16[LIGHT_INTENSITY_SAMPLES_IN_BUFFER];
      nodeMeasurements := new NodeId[NUM_NODE_MEASUREMENTS];
      periodicTimeSendWasActivePreviousTimerEventHandler := false;
      periodicTimeSendStartTimestampDs := 0;
      timeSinceLastPeriodicTimeSendDs := 0;
      periodicTimeSendReceiver := 0;
      periodicTimeSendRequestHandle := 0;
      isADCInitialized := false;
      avgAdcValue := 0;
      numberOfAdcChannels := 0;
      configuration := Configuration(plat.baseModuleId, true, SENSE_MODULE_CONFIG_VERSION, 0);
      log := [];
      new;
      ResetToDefaultConfiguration();
    }

    /** Default configuration (active, version 1, no status reporting interval)
        and a zeroed measurement table. */
    method ResetToDefaultConfiguration()
      requires Valid()
      modifies this`configuration, nodeMeasurements
      ensures Valid()
      ensures configuration == Configuration(platform.baseModuleId, true, SENSE_MODULE_CONFIG_VERSION, 0)
      ensures forall i :: 0 <= i < nodeMeasurements.Length ==> nodeMeasurements[i] == 0
    {
      configuration := Configuration(platform.baseModuleId, true, SENSE_MODULE_CONFIG_VERSION, 0);
      forall i | 0 <= i < nodeMeasurements.Length {
        nodeMeasurements[i] := 0;
      }
    }

    /** The current reading; never above 127 because every stored value is calibrated. */
    function GetLightIntensityInfo(): (r: u8)
      reads this
      requires Valid()
      ensures r <= 127
    {
      avgAdcValue
    }

    method InitLightIntensityADC(configureSucceeded: bool)
      requires Valid()
      modifies this`isADCInitialized, this`log
      ensures Valid()
      ensures var g := InitAdc(old(isADCInitialized), platform, configureSucceeded);
              isADCInitialized == g.initialized && log == old(log) + g.events
    {
      if platform.lightIntensityAdcInputPin == PIN_NONE || isADCInitialized {
        return;
      }
      log := log + [AdcInit];
      var pin := platform.lightIntensityAdcInputPin;
      // The channel profile depends on the ADC_INTERNAL_MEASUREMENT feature; the
      // result is only logged by the source.
      log := log + [AdcConfigureChannel(pin, ChannelProfile(platform), configureSucceeded)];
      isADCInitialized := true;
    }

    method LightIntensityADC(configureSucceeded: bool)
      requires Valid()
      modifies this`isADCInitialized, this`log
      ensures Valid()
      ensures var g := SampleAdc(old(isADCInitialized), platform, configureSucceeded);
              isADCInitialized == g.initialized && log == old(log) + g.events
    {
      InitLightIntensityADC(configureSucceeded);
      if !isADCInitialized || platform.lightIntensityAdcInputPin == PIN_NONE {
        return;
      }
      if platform.lightIntensityAdcInputPin >= 0 {
        log := log + [GpioConfigureOutput(platform.lightIntensityMeasurementEnablePin)];
        log := log + [GpioPinSet(platform.lightIntensityMeasurementEnablePin)];
      }
      log := log + [AdcSample(1)];
      isADCInitialized := false;
    }

    /** Completion of a sample: the hardware has written `samples` into m_buffer;
        the handler reduces it and releases the ADC. */
    method AdcEventHandler(samples: seq<i16>)
      requires Valid() && |samples| == buffer.Length
      modifies buffer, this`avgAdcValue, this`log
      ensures Valid()
      ensures buffer[..] == samples
      ensures avgAdcValue == Reading(samples)
      ensures log == old(log) + [AdcUninit]
    {
      forall i | 0 <= i < buffer.Length {
        buffer[i] := samples[i];
      }
      AvgADCValue();
      log := log + [AdcUninit];
    }

    method AvgADCValue()
      requires Valid()
      modifies this`avgAdcValue
      ensures Valid()
      ensures avgAdcValue == Reading(buffer[..])
    {
      var sum: u32 := 0;
      var i := 0;
      while i < LIGHT_INTENSITY_SAMPLES_IN_BUFFER
        invariant 0 <= i <= buffer.Length
        invariant sum == AccumulateU32(buffer[..i])
      {
        assert buffer[..i + 1][..i] == buffer[..i];
        sum := (sum + buffer[i]) % U32_LIMIT;
        i := i + 1;
      }
      assert buffer[..i] == buffer[..];
      avgAdcValue := (sum / LIGHT_INTENSITY_SAMPLES_IN_BUFFER) % U8_LIMIT;
      avgAdcValue := Calibrate(avgAdcValue);
    }

    /** Sends the status message with the current reading. */
    method SendStatus(toNode: NodeId, requestHandle: u8, messageType: MessageType)
      requires Valid()
      modifies this`log
      ensures Valid()
      ensures log == old(log) + [Send(StatusMessage(toNode, requestHandle, messageType, avgAdcValue, platform))]
    {
      var data := [GetLightIntensityInfo()];
      log := log + [Send(ModuleActionMessage(messageType, toNode, platform.vendorModuleId, LIGHT_INTENSITY, requestHandle, data))];
    }

    /** One timer tick: `now` is the node's timer and `measurementDue` the value of
        SHOULD_IV_TRIGGER for the measurement interval at this tick. */
    method TimerEventHandler(passedTimeDs: u16, now: u32, measurementDue: bool, configureSucceeded: bool)
      requires Valid()
      modifies this`isADCInitialized, this`log, this`periodicTimeSendWasActivePreviousTimerEventHandler,
               this`timeSinceLastPeriodicTimeSendDs
      ensures Valid()
      ensures var sample := (now < STARTUP_MEASUREMENT_WINDOW_DS && platform.lightIntensityAdcInputPin != PIN_NONE) || measurementDue;
              var g := if sample then SampleAdc(old(isADCInitialized), platform, configureSucceeded)
                       else GateStep(old(isADCInitialized), []);
              var t := Tick(old(Periodic()), now, passedTimeDs, avgAdcValue, platform);
              isADCInitialized == g.initialized && Periodic() == t.state &&
              log == old(log) + g.events + t.events
    {
      if (now < STARTUP_MEASUREMENT_WINDOW_DS && platform.lightIntensityAdcInputPin != PIN_NONE) || measurementDue {
        LightIntensityADC(configureSucceeded);
      }
      ghost var afterSample := log;
      ghost var before := Periodic();
      ghost var active := IsActive(before.startTimestampDs, now);
      ghost var edge := EdgeEffects(active, before.wasActivePrevious, platform);
      ReportActivityEdge(now);
      if IsActive(periodicTimeSendStartTimestampDs, now) {
        ghost var acc := Accumulate(Periodic(), passedTimeDs, avgAdcValue, platform);
        AdvancePeriodicTimeSend(passedTimeDs);
        assert log == afterSample + (edge + acc.events);
      }
    }

    /** First periodic step of a tick: on a change of activity, ask the mesh-access
        module to rebuild its broadcast packet and remember the new activity. */
    method ReportActivityEdge(now: u32)
      requires Valid()
      modifies this`log, this`periodicTimeSendWasActivePreviousTimerEventHandler
      ensures Valid()
      ensures var active := IsActive(periodicTimeSendStartTimestampDs, now);
              Periodic() == old(Periodic()).(wasActivePrevious := active) &&
              log == old(log) + EdgeEffects(active, old(periodicTimeSendWasActivePreviousTimerEventHandler), platform)
    {
      if IsActive(periodicTimeSendStartTimestampDs, now) != periodicTimeSendWasActivePreviousTimerEventHandler {
        if platform.meshAccessModulePresent {
          log := log + [MeshAccessBroadcastUpdate];
        }
        periodicTimeSendWasActivePreviousTimerEventHandler := IsActive(periodicTimeSendStartTimestampDs, now);
      }
    }

    /** Second periodic step, on an active tick: advance the counter and send the
        TIME message once it exceeds the spacing. */
    method AdvancePeriodicTimeSend(passedTimeDs: u16)
      requires Valid()
      modifies this`log, this`timeSinceLastPeriodicTimeSendDs
      ensures Valid()
      ensures var acc := Accumulate(old(Periodic()), passedTimeDs, avgAdcValue, platform);
              Periodic() == acc.state && log == old(log) + acc.events
    {
      timeSinceLastPeriodicTimeSendDs := AddU32(timeSinceLastPeriodicTimeSendDs, passedTimeDs);
      if timeSinceLastPeriodicTimeSendDs > TIME_BETWEEN_PERIODIC_TIME_SENDS_DS {
        timeSinceLastPeriodicTimeSendDs := 0;
        var message := ComponentMessage(
          ComponentSense, platform.nodeId, periodicTimeSendReceiver, platform.vendorModuleId,
          periodicTimeSendRequestHandle, platform.sensorReadRspAction,
          COMPONENT_TIME, REGISTER_TIME, [GetLightIntensityInfo()]);
        log := log + [Send(message)];
      }
    }

    /** The mesh message handler over a decoded packet received at time `now`. */
    method MeshMessageReceivedHandler(p: Packet, now: u32)
      requires Valid()
      modifies this`log, this`periodicTimeSendStartTimestampDs, this`timeSinceLastPeriodicTimeSendDs,
               this`periodicTimeSendReceiver, this`periodicTimeSendRequestHandle
      ensures Valid()
      ensures var d := Dispatch(old(Periodic()), p, now, avgAdcValue, platform);
              Periodic() == d.state && log == old(log) + d.events
    {
      if p.messageType == ModuleTriggerAction {
        if p.moduleId == platform.vendorModuleId {
          if p.actionType == GET_LIGHT_INTENSITY {
            SendStatus(p.sender, p.requestHandle, ModuleActionResponse);
          }
        }
      }

      if p.messageType == ModuleActionResponse {
        // A LIGHT_INTENSITY response for this module is printed as JSON only.
      }

      if p.messageType == ComponentAct && p.dataLength >= platform.componentMessageMinLength {
        if p.moduleId == platform.vendorModuleId {
          if p.actionType == platform.actorWriteAction {
            if p.component == COMPONENT_TIME {
              if p.registerAddress == REGISTER_TIME {
                if FirstPayloadByte(p) != 0 {
                  periodicTimeSendStartTimestampDs := now;
                  timeSinceLastPeriodicTimeSendDs := TIME_BETWEEN_PERIODIC_TIME_SENDS_DS;
                  periodicTimeSendReceiver := p.sender;
                  periodicTimeSendRequestHandle := p.requestHandle;
                } else {
                  periodicTimeSendStartTimestampDs := 0;
                }
              }
            }
          }
        }
      }
    }
  }
}
