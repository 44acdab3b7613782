/** Fixed-width integer types, the constants of senseModule.h and the records
    that stand for packets, outbound messages and hardware effects. */
module SenseTypes {

  const U8_LIMIT: int := 0x100
  const U32_LIMIT: int := 0x1_0000_0000

  type u8 = x: int | 0 <= x < 0x100
  type u16 = x: int | 0 <= x < 0x1_0000
  type u32 = x: int | 0 <= x < 0x1_0000_0000
  type i16 = x: int | -0x8000 <= x < 0x8000

  /** Mesh node identifier (16 bit). */
  type NodeId = u16

  /** Unsigned 32-bit addition with wrap-around, as C++ evaluates `a + b` on two u32 values. */
  function AddU32(a: u32, b: u32): (r: u32)
    ensures a + b < U32_LIMIT ==> r == a + b
    ensures a + b >= U32_LIMIT ==> r == a + b - U32_LIMIT
  {
    (a + b) % U32_LIMIT
  }

  /** SEC_TO_DS: seconds to deciseconds. */
  function SecToDs(sec: nat): nat { sec * 10 }

  // Constants of senseModule.h
  const LIGHT_INTENSITY_SAMPLES_IN_BUFFER: nat := 1
  const COMPONENT_TIME: u16 := 0xABCD
  const REGISTER_TIME: u16 := 0x1234
  /** The periodic sampling interval; the tick receives whether it has elapsed as
      its `measurementDue` argument, so only `HeaderConstants` reads this value. */
  const LIGHT_INTENSITY_MEASUREMENT_INTERVAL_DS: nat := SecToDs(6)
  const GET_LIGHT_INTENSITY: u8 := 0
  const LIGHT_INTENSITY: u8 := 0
  const SIZEOF_SENSE_MODULE_STATUS_MESSAGE: nat := 1
  const NUM_NODE_MEASUREMENTS: nat := 20
  const SENSE_MODULE_CONFIG_VERSION: u8 := 1
  const PERIODIC_TIME_SEND_AUTOMATIC_DEACTIVATION: u32 := SecToDs(10 * 60)
  const TIME_BETWEEN_PERIODIC_TIME_SENDS_DS: u32 := SecToDs(5)
  /** The startup fast path of the tick samples while the node timer is below SEC_TO_DS(40). */
  const STARTUP_MEASUREMENT_WINDOW_DS: u32 := SecToDs(40)
  /** Board pin sentinel meaning "no pin assigned". */
  const PIN_NONE: int := -1

  /** The timing constants in deciseconds, the TIME addresses and the action codes. */
  lemma HeaderConstants()
    ensures PERIODIC_TIME_SEND_AUTOMATIC_DEACTIVATION == 6000
    ensures TIME_BETWEEN_PERIODIC_TIME_SENDS_DS == 50
    ensures LIGHT_INTENSITY_MEASUREMENT_INTERVAL_DS == 60
    ensures STARTUP_MEASUREMENT_WINDOW_DS == 400
    ensures COMPONENT_TIME == 43981 && REGISTER_TIME == 4660
    ensures GET_LIGHT_INTENSITY == LIGHT_INTENSITY == 0
    ensures SIZEOF_SENSE_MODULE_STATUS_MESSAGE == LIGHT_INTENSITY_SAMPLES_IN_BUFFER == 1
  {
  }

  /** Values that senseModule uses but that are defined outside senseModule.cpp/.h:
      the board configuration, the node's own id, the module id the Module base
      class holds (set from SENSE_MODULE_ID), the vendor module id produced by
      GET_VENDOR_MODULE_ID(0xABCD, 3) that packets are matched against, two action codes of the shared message
      headers, the minimum length of a component message, whether the node runs a
      mesh-access module and which ADC profile the feature set selects. */
  datatype Platform = Platform(
    lightIntensityAdcInputPin: int,
    lightIntensityMeasurementEnablePin: int,
    nodeId: NodeId,
    baseModuleId: int,
    vendorModuleId: u32,
    actorWriteAction: u8,
    sensorReadRspAction: u8,
    componentMessageMinLength: nat,
    meshAccessModulePresent: bool,
    adcInternalMeasurement: bool)

  datatype MessageType =
    | ModuleTriggerAction
    | ModuleActionResponse
    | ComponentAct
    | ComponentSense
    | OtherMessageType

  /** An inbound mesh packet after decoding; `dataLength` is the received length.
      The module and component header fields overlap in memory in the source and are
      read only for the message type that defines them. */
  datatype Packet = Packet(
    messageType: MessageType,
    sender: NodeId,
    moduleId: u32,
    actionType: u8,
    requestHandle: u8,
    component: u16,
    registerAddress: u16,
    payload: seq<u8>,
    dataLength: nat)

  /** First payload byte; an empty payload stands for memory the model does not have and reads as 0. */
  function FirstPayloadByte(p: Packet): u8 {
    if |p.payload| > 0 then p.payload[0] else 0
  }

  datatype Outbound =
    /** What SendModuleActionMessage sends: a module message of this node. */
    | ModuleActionMessage(
        messageType: MessageType, receiver: NodeId, moduleId: u32,
        actionType: u8, requestHandle: u8, data: seq<u8>)
    /** A vendor component message with header and payload. */
    | ComponentMessage(
        messageType: MessageType, sender: NodeId, receiver: NodeId, moduleId: u32,
        requestHandle: u8, actionType: u8, component: u16, registerAddress: u16,
        payload: seq<u8>)

  datatype AdcReference = AdcReference0_6V | AdcReference1_2V
  datatype AdcResolution = Adc8Bit | Adc10Bit
  datatype AdcGain = AdcGain1 | AdcGain1_6
  datatype AdcProfile = AdcProfile(reference: AdcReference, resolution: AdcResolution, gain: AdcGain)

  /** Effects on the world outside the module, in the order they happen. */
  datatype Event =
    | AdcInit
    | AdcConfigureChannel(pin: int, profile: AdcProfile, succeeded: bool)
    | GpioConfigureOutput(pin: int)
    | GpioPinSet(pin: int)
    | AdcSample(sampleCount: nat)
    | AdcUninit
    | MeshAccessBroadcastUpdate
    | Send(message: Outbound)

  /** The persisted module configuration; the width of `moduleId` is set by the
      ModuleConfiguration base struct, which is not part of this model. */
  datatype Configuration = Configuration(
    moduleId: int,
    moduleActive: bool,
    moduleVersion: u8,
    statusReportingIntervalDs: u16)

  /** The messages sent, in order, among a list of effects. */
  function Sent(es: seq<Event>): seq<Outbound> {
    if es == [] then []
    else Sent(es[..|es| - 1]) + (if es[|es| - 1].Send? then [es[|es| - 1].message] else [])
  }

  /** How many times the mesh-access broadcast packet was asked to be rebuilt. */
  function BroadcastUpdates(es: seq<Event>): nat {
    if es == [] then 0
    else BroadcastUpdates(es[..|es| - 1]) + (if es[|es| - 1] == MeshAccessBroadcastUpdate then 1 else 0)
  }

  lemma {:induction false} EffectsOfConcat(a: seq<Event>, b: seq<Event>)
    ensures Sent(a + b) == Sent(a) + Sent(b)
    ensures BroadcastUpdates(a + b) == BroadcastUpdates(a) + BroadcastUpdates(b)
    decreases |b|
  {
    if b == [] {
      assert a + b == a;
    } else {
      var b' := b[..|b| - 1];
      assert (a + b)[..|a + b| - 1] == a + b';
      EffectsOfConcat(a, b');
    }
  }
}
