/** How long a packet occupies the wire: exactly the time in which the wire carries its bits. */
module PortSlots {
  import opened Types
  import opened Conversion
  import opened Scheduling
  import opened Ports
  import opened PortRollback
  import opened PortServing
  import opened Runs
  import opened Lifting
  import Shaper

  // ----- One event -----

  lemma DepartOccupies(env: Env, p: PortState, now: real)
    requires !Idle(p)
    ensures var d := Depart(env, p, now);
      && d.start == Max(now, p.available) && d.end == d.port.available
      && (d.end - d.start) * p.bandwidth == (8 * d.packet.sizeInBytes) as real
      && d.port.bandwidth == p.bandwidth && d.port.propagation == p.propagation
  {
    hide Shaper.Consume, Touch, InjectionDelay;
    var size := Depart(env, p, now).packet.sizeInBytes;
    var start := Max(now, p.available);
    assert start + InjectionDelay(size, p.bandwidth) - start == InjectionDelay(size, p.bandwidth);
  }

  /** What an event does to the wire, told from the state before it: if it serves a packet, the
      packet occupies the wire, from the first instant at which it is free, for exactly the time in
      which the wire carries its bits, and then needs the propagation delay. */
  ghost predicate Occupies(env: Env, portId: nat, p: PortState, e: PortEvent, o: Outcome)
    requires e.Incoming? ==> e.packet.tos < NUM_QOS_LEVEL
  {
    && o.port.bandwidth == p.bandwidth && o.port.propagation == p.propagation
    && (!Serves(env, portId, p, e) ==> o.departed.None? && o.port.available == p.available)
    && (Serves(env, portId, p, e) ==>
          && (e.Wakeup? ==> !Idle(p))
          && var packet := Candidate(p, e);
          && (o.port.available - Max(e.at, p.available)) * p.bandwidth == (8 * packet.sizeInBytes) as real
          && o.departed.Some? && o.departed.value.packet == packet
          && o.departed.value.start == Max(e.at, p.available) && o.departed.value.end == o.port.available
          && o.forward.Some? && e.at + o.forward.value.delay == o.port.available + p.propagation)
  }

  /** Every event does exactly this to the wire. */
  lemma {:induction false} SlotLength(env: Env, portId: nat, p: PortState, e: PortEvent)
    requires e.Incoming? ==> e.packet.tos < NUM_QOS_LEVEL
    ensures Occupies(env, portId, p, e, Act(env, portId, p, e))
  {
    hide Arrive, Send, Occupies;
    match e {
      case Incoming(at, packet, nextHop, msg) => ArriveSlot(env, portId, p, e);
      case Wakeup(at, msg) => SendSlot(env, portId, p, e);
    }
  }

  lemma {:induction false} ArriveSlot(env: Env, portId: nat, p: PortState, e: PortEvent)
    requires e.Incoming? && e.packet.tos < NUM_QOS_LEVEL
    ensures Occupies(env, portId, p, e, Act(env, portId, p, e))
  {
    hide Judge, Shaper.Poll, Shaper.Ready, WakeDelay, Depart, PollFault, Serves, Candidate, Enqueue, NextSize,
         FirstBusy,
         DepartureSnapshot;
    ServesIff(env, portId, p, e);
    JudgeFrame(env, p, e.packet, e.at, NUM_QOS_LEVEL * portId + e.packet.tos, e.msg.snapshot);
    OfferedWire(env, p, portId, e.packet, e.nextHop, e.at, e.msg);
    DepartOccupies(env, Offered(env, p, portId, e.packet, e.nextHop, e.at, e.msg), e.at);
  }

  lemma {:induction false} SendSlot(env: Env, portId: nat, p: PortState, e: PortEvent)
    requires e.Wakeup?
    ensures Occupies(env, portId, p, e, Act(env, portId, p, e))
  {
    hide Shaper.Poll, Shaper.Ready, WakeDelay, Depart, PollFault, EmptyHead, Serves, Candidate, NextSize, FirstBusy,
         DepartureSnapshot;
    ServesIff(env, portId, p, e);
    if !Idle(p) {
      DepartOccupies(env, Polled(p, e.at), e.at);
    }
  }

  lemma OfferedWire(env: Env, p: PortState, portId: nat, packet: Packet, nextHop: int, now: real, msg: Message)
    requires packet.tos < NUM_QOS_LEVEL
    ensures var v := Judge(env, p, packet, now, NUM_QOS_LEVEL * portId + packet.tos, msg.snapshot);
      var q := Offered(env, p, portId, packet, nextHop, now, msg);
      && q == Polled(Enqueue(v.port, packet, nextHop), now)
      && q.available == p.available && q.bandwidth == p.bandwidth && q.propagation == p.propagation
  {
    hide Judge, Shaper.Poll;
    JudgeFrame(env, p, packet, now, NUM_QOS_LEVEL * portId + packet.tos, msg.snapshot);
  }

  // ----- Runs -----

  /** The time for which the wire was in use. */
  function OnWire(slots: seq<Slot>): real
    decreases |slots|
  {
    if slots == [] then 0.0
    else OnWire(slots[..|slots| - 1]) + (slots[|slots| - 1].end - slots[|slots| - 1].start)
  }

  /** Every slot carries exactly the bits of its packet, and the time in use carried exactly the
      bits that departed. */
  predicate WireExact(t: Track) {
    && (forall i :: 0 <= i < |t.log.slots| ==>
          var slot := t.log.slots[i];
          && (slot.end - slot.start) * t.port.bandwidth == (8 * slot.packet.sizeInBytes) as real
          && slot.reaches == slot.end + t.port.propagation)
    && OnWire(t.log.slots) * t.port.bandwidth == t.log.departedBits as real
  }

  lemma OnWireAppend(slots: seq<Slot>, slot: Slot, bandwidth: real)
    ensures OnWire(slots + [slot]) * bandwidth == OnWire(slots) * bandwidth + (slot.end - slot.start) * bandwidth
  {
    assert (slots + [slot])[..|slots|] == slots;
    var a, b := OnWire(slots), slot.end - slot.start;
    assert (a + b) * bandwidth == a * bandwidth + b * bandwidth;
  }

  lemma {:induction false} StepKeepsExact(env: Env, portId: nat, t: Track, e: PortEvent)
    requires e.Incoming? ==> e.packet.tos < NUM_QOS_LEVEL
    requires WireExact(t)
    ensures WireExact(PortStep(env, portId, t, e))
  {
    hide Act, Serves, Candidate, OnWire;
    SlotLength(env, portId, t.port, e);
    var o := Act(env, portId, t.port, e);
    if o.departed.Some? && o.forward.Some? {
      var d := o.departed.value;
      OnWireAppend(t.log.slots, Slot(d.packet, d.start, d.end, e.at + o.forward.value.delay), t.port.bandwidth);
    }
  }

  /** Over every run each packet occupies the wire for exactly its own bits, and the wire was in
      use for exactly the bits that departed. */
  lemma {:induction false} RunKeepsExact(env: Env, portId: nat, t: Track, es: seq<PortEvent>)
    requires WireExact(t) && ValidPortRun(env, portId, t, es)
    ensures WireExact(PortRun(env, portId, t, es))
    decreases |es|
  {
    hide PortStep, WireExact;
    if es != [] {
      RunKeepsExact(env, portId, t, es[..|es| - 1]);
      StepKeepsExact(env, portId, PortRun(env, portId, t, es[..|es| - 1]), es[|es| - 1]);
    }
  }

  /** The same at every port of the switch, in every run from initialisation. */
  lemma {:induction false} SlotsInRuns(env: Env, cs: seq<PortConfig>, routing: seq<Route>, es: seq<Event>, i: nat)
    requires (forall k :: 0 <= k < |cs| ==> ValidConfig(cs[k])) && i < |cs|
    requires ValidRun(env, InitWorld(cs, routing), es)
    ensures var w := Run(env, InitWorld(cs, routing), es);
      && |w.sw.ports| == |w.logs| == |cs|
      && WireExact(TrackOf(w, i)) && w.sw.ports[i].bandwidth == cs[i].bandwidth
  {
    hide Run, ValidRun, AllBase, Project, PortRun, ValidPortRun, WireExact, InitPort;
    var w0 := InitWorld(cs, routing);
    InitBase(cs, routing);
    WorldOfBase(cs, w0);
    RunOnPort(env, w0, es, i);
    FreshExact(cs[i]);
    RunKeepsExact(env, i, TrackOf(w0, i), Project(env, w0.sw, es, i));
    RunKeepsAllBase(env, cs, w0, es);
    BaseBandwidth(cs, Run(env, w0, es), i);
  }

  lemma WorldOfBase(cs: seq<PortConfig>, w: World)
    requires AllBase(cs, w)
    ensures WorldShaped(w) && |w.sw.ports| == |cs|
  {
  }

  lemma BaseBandwidth(cs: seq<PortConfig>, w: World, i: nat)
    requires AllBase(cs, w) && i < |cs|
    ensures w.sw.ports[i].bandwidth == cs[i].bandwidth
  {
  }

  lemma FreshExact(c: PortConfig)
    requires ValidConfig(c)
    ensures WireExact(InitTrack(c))
  {
    hide MaxThreshold, CommittedRate;
  }
}
