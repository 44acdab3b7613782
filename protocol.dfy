/** MeshMessageReceivedHandler of senseModule over decoded packets: the
    GET_LIGHT_INTENSITY request, the LIGHT_INTENSITY response, and the
    component write that arms or disarms the periodic TIME send. */
module Protocol {
  import opened SenseTypes
  import opened PeriodicSend

  /** SendStatus: the 1-byte status message, as an action message to `toNode`. */
  function StatusMessage(toNode: NodeId, requestHandle: u8, messageType: MessageType, reading: u8, plat: Platform): (m: Outbound)
    ensures m.ModuleActionMessage? && m.messageType == messageType && m.receiver == toNode
    ensures m.moduleId == plat.vendorModuleId
    ensures m.actionType == LIGHT_INTENSITY && m.requestHandle == requestHandle
    ensures |m.data| == SIZEOF_SENSE_MODULE_STATUS_MESSAGE && m.data[0] == reading
  {
    ModuleActionMessage(messageType, toNode, plat.vendorModuleId, LIGHT_INTENSITY, requestHandle, [reading])
  }

  /** A MODULE_TRIGGER_ACTION for this module asking for the light intensity. */
  predicate IsLightIntensityRequest(p: Packet, plat: Platform) {
    p.messageType == ModuleTriggerAction && p.moduleId == plat.vendorModuleId && p.actionType == GET_LIGHT_INTENSITY
  }

  /** A COMPONENT_ACT long enough, for this module, a WRITE, to component and register TIME. */
  predicate IsTimeWrite(p: Packet, plat: Platform) {
    p.messageType == ComponentAct && p.dataLength >= plat.componentMessageMinLength &&
    p.moduleId == plat.vendorModuleId && p.actionType == plat.actorWriteAction &&
    p.component == COMPONENT_TIME && p.registerAddress == REGISTER_TIME
  }

  datatype DispatchOutcome = DispatchOutcome(state: PeriodicState, events: seq<Event>)

  /** The handler's effect on the periodic state and the messages it sends.
      A LIGHT_INTENSITY response addressed to this module is only logged. */
  function Dispatch(s: PeriodicState, p: Packet, now: u32, reading: u8, plat: Platform): (r: DispatchOutcome)
    ensures Sent(r.events) ==
      if IsLightIntensityRequest(p, plat)
      then [StatusMessage(p.sender, p.requestHandle, ModuleActionResponse, reading, plat)]
      else []
    ensures BroadcastUpdates(r.events) == 0
    ensures !IsTimeWrite(p, plat) ==> r.state == s
    ensures IsTimeWrite(p, plat) && FirstPayloadByte(p) != 0 ==>
      r.state == s.(startTimestampDs := now, timeSinceLastSendDs := TIME_BETWEEN_PERIODIC_TIME_SENDS_DS,
                    receiver := p.sender, requestHandle := p.requestHandle)
    ensures IsTimeWrite(p, plat) && FirstPayloadByte(p) == 0 ==> r.state == s.(startTimestampDs := 0)
    ensures r.state.wasActivePrevious == s.wasActivePrevious
    ensures Inv(s) ==> Inv(r.state)
  {
    var events :=
      if IsLightIntensityRequest(p, plat)
      then [Send(StatusMessage(p.sender, p.requestHandle, ModuleActionResponse, reading, plat))]
      else [];
    var state :=
      if !IsTimeWrite(p, plat) then s
      else if FirstPayloadByte(p) != 0 then Arm(s, now, p.sender, p.requestHandle)
      else Disarm(s);
    DispatchOutcome(state, events)
  }

  /** A GET_LIGHT_INTENSITY request for this module yields exactly one response,
      to the sender, echoing its handle and carrying the current reading, and
      changes no state. */
  lemma RequestGetsOneResponse(s: PeriodicState, p: Packet, now: u32, reading: u8, plat: Platform)
    requires p.messageType == ModuleTriggerAction && p.moduleId == plat.vendorModuleId
    requires p.actionType == GET_LIGHT_INTENSITY
    ensures var r := Dispatch(s, p, now, reading, plat);
            r.state == s && |Sent(r.events)| == 1 &&
            Sent(r.events)[0] == ModuleActionMessage(ModuleActionResponse, p.sender, plat.vendorModuleId,
                                                     LIGHT_INTENSITY, p.requestHandle, [reading])
  {
  }

  /** An inbound LIGHT_INTENSITY response changes nothing and sends nothing. */
  lemma ResponseChangesNothing(s: PeriodicState, p: Packet, now: u32, reading: u8, plat: Platform)
    requires p.messageType == ModuleActionResponse
    ensures Dispatch(s, p, now, reading, plat) == DispatchOutcome(s, [])
  {
  }

  /** A component message that is too short, or not for this module, not a
      WRITE, or not to the TIME component and register, changes no state. */
  lemma MismatchedWriteIgnored(s: PeriodicState, p: Packet, now: u32, reading: u8, plat: Platform)
    requires p.messageType == ComponentAct
    requires p.dataLength < plat.componentMessageMinLength || p.moduleId != plat.vendorModuleId ||
             p.actionType != plat.actorWriteAction || p.component != COMPONENT_TIME ||
             p.registerAddress != REGISTER_TIME
    ensures Dispatch(s, p, now, reading, plat) == DispatchOutcome(s, [])
  {
  }

  /** Only a write to component 0xABCD, register 0x1234 of this module changes
      the periodic state. */
  lemma OnlyTimeRegisterArms(s: PeriodicState, p: Packet, now: u32, reading: u8, plat: Platform)
    requires Dispatch(s, p, now, reading, plat).state != s
    ensures p.messageType == ComponentAct && p.moduleId == plat.vendorModuleId
    ensures p.component == 0xABCD && p.registerAddress == 0x1234
  {
  }

  /** The inputs the module reacts to, in the order the host delivers them. */
  datatype Stimulus =
    | TimerTick(now: u32, passedTimeDs: u16)
    | MeshMessage(packet: Packet, now: u32)

  /** The periodic state after a run of ticks and messages, with a fixed reading. */
  function Run(s: PeriodicState, stimuli: seq<Stimulus>, reading: u8, plat: Platform): PeriodicState
    decreases |stimuli|
  {
    if stimuli == [] then s
    else
      var s1 := match stimuli[0]
        case TimerTick(now, passed) => Tick(s, now, passed, reading, plat).state
        case MeshMessage(p, now) => Dispatch(s, p, now, reading, plat).state;
      Run(s1, stimuli[1..], reading, plat)
  }

  /** Every state reachable from the initial one keeps the counter within the spacing. */
  lemma {:induction false} RunPreservesInv(s: PeriodicState, stimuli: seq<Stimulus>, reading: u8, plat: Platform)
    requires Inv(s)
    ensures Inv(Run(s, stimuli, reading, plat))
    decreases |stimuli|
  {
    if stimuli != [] {
      var s1 := match stimuli[0]
        case TimerTick(now, passed) => Tick(s, now, passed, reading, plat).state
        case MeshMessage(p, now) => Dispatch(s, p, now, reading, plat).state;
      RunPreservesInv(s1, stimuli[1..], reading, plat);
    }
  }

  /** Whatever happened before, a run that ends with a tick at `now` leaves the
      remembered activity equal to the activity at `now`. */
  lemma {:induction false} RunEndingInTickRemembersActivity(
    s: PeriodicState, stimuli: seq<Stimulus>, now: u32, passedTimeDs: u16, reading: u8, plat: Platform)
    ensures var r := Run(s, stimuli + [TimerTick(now, passedTimeDs)], reading, plat);
            r.wasActivePrevious == IsActive(r.startTimestampDs, now)
    decreases |stimuli|
  {
    if stimuli == [] {
      assert [TimerTick(now, passedTimeDs)][1..] == [];
    } else {
      assert (stimuli + [TimerTick(now, passedTimeDs)])[1..] == stimuli[1..] + [TimerTick(now, passedTimeDs)];
      var s1 := match stimuli[0]
        case TimerTick(t, passed) => Tick(s, t, passed, reading, plat).state
        case MeshMessage(p, t) => Dispatch(s, p, t, reading, plat).state;
      RunEndingInTickRemembersActivity(s1, stimuli[1..], now, passedTimeDs, reading, plat);
    }
  }

  /** A write with flag 0x01 and then a tick inside the window sends exactly one
      TIME message; a write with flag 0x00 in between suppresses it. */
  lemma {:induction false} WriteThenTick(
    s: PeriodicState, arm: Packet, disarm: Packet, now: u32, later: u32, passedTimeDs: u16,
    reading: u8, plat: Platform)
    requires IsTimeWrite(arm, plat) && arm.payload == [1]
    requires IsTimeWrite(disarm, plat) && disarm.payload == [0]
    requires now != 0 && now <= later < now + PERIODIC_TIME_SEND_AUTOMATIC_DEACTIVATION < U32_LIMIT
    requires passedTimeDs > 0
    ensures var armed := Dispatch(s, arm, now, reading, plat).state;
            |Sent(Tick(armed, later, passedTimeDs, reading, plat).events)| == 1
    ensures var armed := Dispatch(s, arm, now, reading, plat).state;
            var disarmed := Dispatch(armed, disarm, later, reading, plat).state;
            Sent(Tick(disarmed, later, passedTimeDs, reading, plat).events) == []
  {
    var armed := Dispatch(s, arm, now, reading, plat).state;
    assert armed == Arm(s, now, arm.sender, arm.requestHandle);
    ArmThenTickSendsOnce(s, now, arm.sender, arm.requestHandle, later, passedTimeDs, reading, plat);
    var disarmed := Dispatch(armed, disarm, later, reading, plat).state;
    assert disarmed == Disarm(armed);
    DisarmSuppressesSend(armed, later, passedTimeDs, reading, plat);
  }
}
