/** The periodic "TIME" send: arming, disarming, lazy auto-expiry and the
    per-tick edge detection, accumulation and send of TimerEventHandler,
    stated as functions of the five periodic fields of senseModule. */
module PeriodicSend {
  import opened SenseTypes

  /** periodicTimeSendStartTimestampDs, timeSinceLastPeriodicTimeSendDs,
      periodicTimeSendReceiver, periodicTimeSendRequestHandle and
      periodicTimeSendWasActivePreviousTimerEventHandler. */
  datatype PeriodicState = PeriodicState(
    startTimestampDs: u32,
    timeSinceLastSendDs: u32,
    receiver: NodeId,
    requestHandle: u8,
    wasActivePrevious: bool)

  /** The counter never exceeds the send spacing. */
  predicate Inv(s: PeriodicState) {
    s.timeSinceLastSendDs <= TIME_BETWEEN_PERIODIC_TIME_SENDS_DS
  }

  /** IsPeriodicTimeSendActive: armed (non-zero start) and the u32 sum
      start + 6000 not yet reached. */
  predicate IsActive(startTimestampDs: u32, now: u32)
    ensures startTimestampDs == 0 ==> !IsActive(startTimestampDs, now)
    ensures IsActive(startTimestampDs, now) ==> now < startTimestampDs + PERIODIC_TIME_SEND_AUTOMATIC_DEACTIVATION
    ensures startTimestampDs + PERIODIC_TIME_SEND_AUTOMATIC_DEACTIVATION < U32_LIMIT ==>
      (IsActive(startTimestampDs, now) <==> startTimestampDs != 0 && now < startTimestampDs + PERIODIC_TIME_SEND_AUTOMATIC_DEACTIVATION)
  {
    startTimestampDs != 0 && now < AddU32(startTimestampDs, PERIODIC_TIME_SEND_AUTOMATIC_DEACTIVATION)
  }

  /** The member initialisers of senseModule.h. */
  function Initial(): (s: PeriodicState)
    ensures Inv(s)
    ensures !s.wasActivePrevious
    ensures forall now: u32 :: !IsActive(s.startTimestampDs, now)
  {
    PeriodicState(0, 0, 0, 0, false)
  }

  /** Component write with a non-zero flag: arm at `now` for `receiver`, with the
      counter primed so that the next active tick sends. */
  function Arm(s: PeriodicState, now: u32, receiver: NodeId, requestHandle: u8): (r: PeriodicState)
    ensures Inv(r) && r.timeSinceLastSendDs == TIME_BETWEEN_PERIODIC_TIME_SENDS_DS
    ensures r.receiver == receiver && r.requestHandle == requestHandle
    ensures r.wasActivePrevious == s.wasActivePrevious
    ensures now + PERIODIC_TIME_SEND_AUTOMATIC_DEACTIVATION < U32_LIMIT ==>
      forall t: u32 :: IsActive(r.startTimestampDs, t) <==> now != 0 && t < now + PERIODIC_TIME_SEND_AUTOMATIC_DEACTIVATION
    ensures now + PERIODIC_TIME_SEND_AUTOMATIC_DEACTIVATION >= U32_LIMIT ==>
      forall t: u32 :: IsActive(r.startTimestampDs, t) <==> t < now + PERIODIC_TIME_SEND_AUTOMATIC_DEACTIVATION - U32_LIMIT
  {
    s.(startTimestampDs := now, timeSinceLastSendDs := TIME_BETWEEN_PERIODIC_TIME_SENDS_DS,
       receiver := receiver, requestHandle := requestHandle)
  }

  /** Component write with a zero flag: only the start timestamp is cleared. */
  function Disarm(s: PeriodicState): (r: PeriodicState)
    ensures forall t: u32 :: !IsActive(r.startTimestampDs, t)
    ensures r.timeSinceLastSendDs == s.timeSinceLastSendDs && r.receiver == s.receiver
    ensures r.requestHandle == s.requestHandle && r.wasActivePrevious == s.wasActivePrevious
  {
    s.(startTimestampDs := 0)
  }

  /** The COMPONENT_SENSE / READ_RSP message of the periodic send. */
  function TimeReadResponse(s: PeriodicState, reading: u8, plat: Platform): (m: Outbound)
    ensures m.ComponentMessage? && m.messageType == ComponentSense
    ensures m.sender == plat.nodeId && m.receiver == s.receiver && m.requestHandle == s.requestHandle
    ensures m.moduleId == plat.vendorModuleId && m.actionType == plat.sensorReadRspAction
    ensures m.component == COMPONENT_TIME && m.registerAddress == REGISTER_TIME
    ensures m.payload == [reading]
  {
    ComponentMessage(ComponentSense, plat.nodeId, s.receiver, plat.vendorModuleId,
                     s.requestHandle, plat.sensorReadRspAction, COMPONENT_TIME, REGISTER_TIME, [reading])
  }

  datatype TickOutcome = TickOutcome(state: PeriodicState, events: seq<Event>)

  /** The mesh-access notification issued when the activity differs from the
      remembered one (and the node runs a mesh-access module). */
  function EdgeEffects(active: bool, wasActivePrevious: bool, plat: Platform): seq<Event> {
    if active != wasActivePrevious && plat.meshAccessModulePresent then [MeshAccessBroadcastUpdate] else []
  }

  /** Whether the active branch of a tick sends: the u32 sum exceeds the spacing. */
  predicate SendDue(s: PeriodicState, passedTimeDs: u16) {
    AddU32(s.timeSinceLastSendDs, passedTimeDs) > TIME_BETWEEN_PERIODIC_TIME_SENDS_DS
  }

  /** The active branch of the tick: add the elapsed time (u32) and send once the
      counter exceeds the spacing. */
  function Accumulate(s: PeriodicState, passedTimeDs: u16, reading: u8, plat: Platform): (r: TickOutcome)
    ensures r.state.(timeSinceLastSendDs := s.timeSinceLastSendDs) == s
    ensures r.state.timeSinceLastSendDs == if SendDue(s, passedTimeDs) then 0 else AddU32(s.timeSinceLastSendDs, passedTimeDs)
    ensures r.events == if SendDue(s, passedTimeDs) then [Send(TimeReadResponse(s, reading, plat))] else []
    ensures Inv(r.state)
  {
    var elapsed := AddU32(s.timeSinceLastSendDs, passedTimeDs);
    if elapsed > TIME_BETWEEN_PERIODIC_TIME_SENDS_DS
    then TickOutcome(s.(timeSinceLastSendDs := 0), [Send(TimeReadResponse(s, reading, plat))])
    else TickOutcome(s.(timeSinceLastSendDs := elapsed), [])
  }

  /** The part of TimerEventHandler after sampling: report an activity edge to the
      mesh-access module, remember the activity, and while active advance the
      counter and send once it exceeds the spacing. */
  function Tick(s: PeriodicState, now: u32, passedTimeDs: u16, reading: u8, plat: Platform): (r: TickOutcome)
    ensures r.state.wasActivePrevious == IsActive(s.startTimestampDs, now)
    ensures r.state.startTimestampDs == s.startTimestampDs
    ensures r.state.receiver == s.receiver && r.state.requestHandle == s.requestHandle
    ensures !IsActive(s.startTimestampDs, now) ==> r.state.timeSinceLastSendDs == s.timeSinceLastSendDs
    ensures IsActive(s.startTimestampDs, now) ==>
      r.state.timeSinceLastSendDs == if SendDue(s, passedTimeDs) then 0 else AddU32(s.timeSinceLastSendDs, passedTimeDs)
    ensures Inv(s) ==> Inv(r.state)
  {
    var active := IsActive(s.startTimestampDs, now);
    var edge := EdgeEffects(active, s.wasActivePrevious, plat);
    var s1 := s.(wasActivePrevious := active);
    if !active then TickOutcome(s1, edge)
    else
      var acc := Accumulate(s1, passedTimeDs, reading, plat);
      TickOutcome(acc.state, edge + acc.events)
  }

  /** The effects of a tick: at most one mesh-access notification, exactly when
      the activity changed; at most one TIME message, only while active, exactly
      when the counter plus the elapsed time exceeds the spacing. */
  lemma TickEffects(s: PeriodicState, now: u32, passedTimeDs: u16, reading: u8, plat: Platform)
    ensures var r := Tick(s, now, passedTimeDs, reading, plat);
            BroadcastUpdates(r.events) ==
              (if IsActive(s.startTimestampDs, now) != s.wasActivePrevious && plat.meshAccessModulePresent then 1 else 0) &&
            Sent(r.events) ==
              (if IsActive(s.startTimestampDs, now) && SendDue(s, passedTimeDs) then [TimeReadResponse(s, reading, plat)] else [])
  {
    var active := IsActive(s.startTimestampDs, now);
    var edge := EdgeEffects(active, s.wasActivePrevious, plat);
    var r := Tick(s, now, passedTimeDs, reading, plat);
    if edge != [] {
      assert edge[..0] == [];
    }
    if active {
      var acc := Accumulate(s.(wasActivePrevious := active), passedTimeDs, reading, plat);
      EffectsOfConcat(edge, acc.events);
      if acc.events != [] {
        assert acc.events[..0] == [];
      }
    }
  }

  /** With the counter within the spacing the addition never wraps, so a tick
      sends exactly when counter + elapsed exceeds 50 Ds. */
  lemma SendDueWithoutWrap(s: PeriodicState, passedTimeDs: u16)
    requires Inv(s)
    ensures SendDue(s, passedTimeDs) <==> s.timeSinceLastSendDs + passedTimeDs > TIME_BETWEEN_PERIODIC_TIME_SENDS_DS
  {
  }

  /** A second tick at the same time reports no edge. */
  lemma SecondTickSilent(s: PeriodicState, now: u32, p1: u16, p2: u16, reading: u8, plat: Platform)
    ensures BroadcastUpdates(Tick(Tick(s, now, p1, reading, plat).state, now, p2, reading, plat).events) == 0
  {
    TickEffects(Tick(s, now, p1, reading, plat).state, now, p2, reading, plat);
  }

  /** Auto-expiry needs no disarm: once `now` reaches start + 6000 (without
      wrap) the send is inactive and the next tick sends nothing; it reports the
      edge only when the send was active before and a mesh-access module is present. */
  lemma ExpiresWithoutDisarm(s: PeriodicState, now: u32, passedTimeDs: u16, reading: u8, plat: Platform)
    requires s.startTimestampDs + PERIODIC_TIME_SEND_AUTOMATIC_DEACTIVATION <= now
    ensures !IsActive(s.startTimestampDs, now)
    ensures var r := Tick(s, now, passedTimeDs, reading, plat);
            Sent(r.events) == [] && !r.state.wasActivePrevious &&
            BroadcastUpdates(r.events) == (if s.wasActivePrevious && plat.meshAccessModulePresent then 1 else 0)
  {
    TickEffects(s, now, passedTimeDs, reading, plat);
  }

  /** Arming at time `now` and then ticking inside the window with any elapsed time
      sends exactly one TIME message to the requester, and resets the counter. */
  lemma {:induction false} ArmThenTickSendsOnce(
    s: PeriodicState, now: u32, receiver: NodeId, requestHandle: u8,
    later: u32, passedTimeDs: u16, reading: u8, plat: Platform)
    requires now != 0 && now + PERIODIC_TIME_SEND_AUTOMATIC_DEACTIVATION < U32_LIMIT
    requires now <= later < now + PERIODIC_TIME_SEND_AUTOMATIC_DEACTIVATION
    requires passedTimeDs > 0
    ensures var armed := Arm(s, now, receiver, requestHandle);
            var r := Tick(armed, later, passedTimeDs, reading, plat);
            r.state.timeSinceLastSendDs == 0 &&
            Sent(r.events) == [ComponentMessage(ComponentSense, plat.nodeId, receiver, plat.vendorModuleId,
                                                requestHandle, plat.sensorReadRspAction,
                                                COMPONENT_TIME, REGISTER_TIME, [reading])]
  {
    var armed := Arm(s, now, receiver, requestHandle);
    assert IsActive(armed.startTimestampDs, later);
    TickEffects(armed, later, passedTimeDs, reading, plat);
  }

  /** Arming so close to the top of the u32 timer that start + 6000 wraps leaves
      the send inactive from the arming instant on. */
  lemma ArmNearTimerWrapIsInactive(s: PeriodicState, now: u32, receiver: NodeId, requestHandle: u8, later: u32)
    requires now + PERIODIC_TIME_SEND_AUTOMATIC_DEACTIVATION >= U32_LIMIT
    requires now <= later
    ensures !IsActive(Arm(s, now, receiver, requestHandle).startTimestampDs, later)
  {
  }

  /** Disarming before the tick suppresses the send. */
  lemma DisarmSuppressesSend(s: PeriodicState, now: u32, passedTimeDs: u16, reading: u8, plat: Platform)
    ensures Sent(Tick(Disarm(s), now, passedTimeDs, reading, plat).events) == []
  {
    TickEffects(Disarm(s), now, passedTimeDs, reading, plat);
  }
}
