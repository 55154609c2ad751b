/** The wire behind a port: how long it stays occupied, and in which order packets arrive. */
module PortWire {
  import opened Types
  import opened Tokens
  import opened Conversion
  import opened Scheduling
  import opened Ports
  import opened PortRollback
  import opened Runs
  import opened PortInvariants
  import opened PortTiming
  import opened PortTokens
  import opened UniformSize
  import Shaper

  /** The bits the wire still has to carry, together with the tokens, stay within one bit of
      the capacity of the bucket. `Potential` at a future time counts the time in bits. */
  predicate WireBounded(p: PortState) {
    Shaper.Potential(p.bucket, p.available) <= SHAPER_CAPACITY as real + 1.0
  }

  /** Every slot is used by one packet, slots are in order, and none ends after the time at
      which the port calls the wire free. */
  predicate SlotsInOrder(slots: seq<Slot>, available: real, propagation: real) {
    && (forall i :: 0 <= i < |slots| ==>
          && slots[i].start < slots[i].end <= available
          && slots[i].reaches == slots[i].end + propagation)
    && (forall i, j :: 0 <= i < j < |slots| ==> slots[i].end <= slots[j].start)
  }

  predicate WireSound(t: Track) {
    WireBounded(t.port) && SlotsInOrder(t.log.slots, t.port.available, t.port.propagation)
  }

  lemma InjectionEarns(bytes: int, gbps: real, start: real)
    requires gbps > 0.0
    ensures Earned(gbps, start, start + InjectionDelay(bytes, gbps)) == (8 * bytes) as real
  {
    var d := InjectionDelay(bytes, gbps);
    assert start + d - start == d;
    assert gbps * d == d * gbps;
  }

  /** Serving a packet moves its bits from the bucket to the wire. */
  lemma DepartKeepsWire(env: Env, c: PortConfig, p: PortState, now: real)
    requires ValidConfig(c) && Sane(c, p, now) && !Idle(p) && Shaper.NoOverflow(p.bucket, now)
    requires WireBounded(p)
    requires Shaper.Ready(Shaper.Poll(p.bucket, now), NextSize(p.queues))
    ensures WireBounded(Depart(env, Polled(p, now), now).port)
  {
    hide Sane, Earned, FirstBusy, NextSize, Shaper.Poll, Shaper.Consume, Shaper.Potential, InjectionDelay, Touch,
         PollFault;
    SaneBucket(c, p, now);
    var q := Polled(p, now);
    PolledKeepsSane(c, p, now);
    SaneBucket(c, q, now);
    SaneWire(c, p, now);
    DepartKeepsSane(env, c, q, now);
    var d := Depart(env, q, now);
    Shaper.PollLeavesLessThanOne(p.bucket, now);
    PollKeepsLaterPotential(p.bucket, now, p.available);
    assert Shaper.Potential(q.bucket, d.start) <= SHAPER_CAPACITY as real + 1.0;
    InjectionEarns(d.packet.sizeInBytes, p.bandwidth, d.start);
    Shaper.PotentialAdvances(q.bucket, d.start, d.end);
    SpendLowersPotential(q.bucket, 8 * d.packet.sizeInBytes, d.end);
  }

  lemma SaneWire(c: PortConfig, p: PortState, now: real)
    requires ValidConfig(c) && Sane(c, p, now)
    ensures p.bandwidth == c.bandwidth == p.bucket.rate && p.propagation == c.propagation
  {
    hide InitPort;
  }

  /** What an event does to the wire: it takes the first free slot for the departing packet,
      and the packet reaches its next hop when its last bit has propagated. */
  ghost predicate WireEffect(p: PortState, e: PortEvent, o: Outcome) {
    && o.port.propagation == p.propagation
    && (o.departed.Some? <==> o.forward.Some?)
    && (if o.departed.None? then
          && o.port.available == p.available
          && (o.port.bucket == p.bucket || o.port.bucket == Shaper.Poll(p.bucket, e.at))
        else
          var d := o.departed.value;
          && d.start == Max(e.at, p.available)
          && d.start < d.end == o.port.available
          && e.at + o.forward.value.delay == d.end + p.propagation
          && WireBounded(o.port))
  }

  lemma {:induction false} ArriveWire(env: Env, c: PortConfig, portId: nat, p: PortState, e: PortEvent)
    requires ValidConfig(c) && Sane(c, p, e.at) && WireBounded(p) && Shaper.NoOverflow(p.bucket, e.at)
    requires e.Incoming? && e.packet.tos < NUM_QOS_LEVEL && e.packet.sizeInBytes > 0
    ensures WireEffect(p, e, Act(env, portId, p, e))
  {
    hide Sane, Earned, FirstBusy, NextSize, Shaper.Poll, WakeDelay, Judge, Shaper.Potential, Depart, Enqueue, PollFault;
    var index := NUM_QOS_LEVEL * portId + e.packet.tos;
    var v := Judge(env, p, e.packet, e.at, index, e.msg.snapshot);
    JudgeFrame(env, p, e.packet, e.at, index, e.msg.snapshot);
    if !v.drop {
      JudgeKeepsSane(env, c, p, e.packet, e.at, index, e.msg.snapshot);
      EnqueueKeepsSane(c, v.port, e.packet, e.nextHop, e.at);
      EnqueueFrame(v.port, e.packet, e.nextHop);
      var q := Enqueue(v.port, e.packet, e.nextHop);
      if Shaper.Ready(Shaper.Poll(q.bucket, e.at), NextSize(q.queues)) {
        DepartKeepsWire(env, c, q, e.at);
        PolledKeepsSane(c, q, e.at);
        DepartSlot(env, c, Polled(q, e.at), e.at);
      }
    }
  }

  lemma EnqueueFrame(p: PortState, packet: Packet, nextHop: int)
    requires packet.tos < NUM_QOS_LEVEL
    ensures var q := Enqueue(p, packet, nextHop); q == p.(queues := q.queues) && !Idle(q)
  {
  }

  lemma {:induction false} SendWire(env: Env, c: PortConfig, portId: nat, p: PortState, e: PortEvent)
    requires ValidConfig(c) && Sane(c, p, e.at) && WireBounded(p) && Shaper.NoOverflow(p.bucket, e.at)
    requires e.Wakeup? && !Idle(p)
    ensures WireEffect(p, e, Act(env, portId, p, e))
  {
    hide Sane, Earned, FirstBusy, NextSize, Shaper.Poll, WakeDelay, Shaper.Potential, Depart, PollFault;
    if Shaper.Ready(Shaper.Poll(p.bucket, e.at), NextSize(p.queues)) {
      DepartKeepsWire(env, c, p, e.at);
      PolledKeepsSane(c, p, e.at);
      DepartSlot(env, c, Polled(p, e.at), e.at);
    }
  }

  lemma DepartSlot(env: Env, c: PortConfig, p: PortState, now: real)
    requires ValidConfig(c) && Sane(c, p, now) && !Idle(p)
    requires Shaper.Settled(p.bucket, now) && Shaper.Ready(p.bucket, NextSize(p.queues))
    ensures var d := Depart(env, p, now);
      && d.start == Max(now, p.available) < d.end == d.port.available
      && d.port.propagation == p.propagation
  {
    hide FirstBusy, Shaper.Consume, Touch, InjectionDelay, InitPort, NextSize;
    DepartKeepsSane(env, c, p, now);
  }

  lemma {:induction false} StepKeepsWire(env: Env, c: PortConfig, portId: nat, t: Track, e: PortEvent)
    requires ValidConfig(c) && Base(c, t) && WireSound(t)
    requires PortEnabled(t, e) && InHorizon(c, e.at)
    ensures WireSound(PortStep(env, portId, t, e))
    ensures WireEffect(t.port, e, Act(env, portId, t.port, e))
  {
    hide Act, Sane, Earned, Shaper.Potential, Shaper.Poll, InHorizon, PollFault;
    var p := t.port;
    SaneLater(c, p, t.log.clock, e.at);
    SaneBucket(c, p, e.at);
    HorizonMeansNoOverflow(c, p.bucket, e.at);
    if e.Incoming? {
      ArriveWire(env, c, portId, p, e);
    } else {
      SendKeepsBusy(env, portId, t, e);
      SendWire(env, c, portId, p, e);
    }
    PollKeepsLaterPotential(p.bucket, e.at, p.available);
  }

  /** Every forwarded packet reaches its next hop within the time it takes to send one bucket
      and one bit, plus the propagation delay. */
  lemma {:induction false} ForwardDelayBound(env: Env, c: PortConfig, portId: nat, t: Track, e: PortEvent)
    requires ValidConfig(c) && Base(c, t) && WireSound(t)
    requires PortEnabled(t, e) && InHorizon(c, e.at)
    requires Act(env, portId, t.port, e).forward.Some?
    ensures Act(env, portId, t.port, e).forward.value.delay
            <= (SHAPER_CAPACITY + 1) as real / c.bandwidth + c.propagation
  {
    hide Act, Earned, Shaper.Potential, InHorizon, Sane;
    StepKeepsWire(env, c, portId, t, e);
    StepKeepsBase(env, c, portId, t, e);
    BaseValue(c, PortStep(env, portId, t, e));
    SaneLater(c, t.port, t.log.clock, e.at);
    SaneWire(c, t.port, e.at);
    var o := Act(env, portId, t.port, e);
    Shaper.PotentialAdvances(o.port.bucket, e.at, o.port.available);
    assert Earned(c.bandwidth, e.at, o.port.available) <= SHAPER_CAPACITY as real + 1.0;
    TimeFromBits(c.bandwidth, e.at, o.port.available, SHAPER_CAPACITY + 1);
  }

  lemma TimeFromBits(rate: real, from: real, to: real, bits: int)
    requires rate > 0.0 && Earned(rate, from, to) <= bits as real
    ensures to - from <= bits as real / rate
  {
    var limit := bits as real / rate;
    assert rate * limit == bits as real;
    Sign(rate, limit - (to - from));
    assert rate * (limit - (to - from)) == rate * limit - rate * (to - from);
  }

  /** Over every run the transmission slots of a port never overlap and packets reach the next
      hop strictly in the order in which they departed. */
  lemma {:induction false} RunKeepsWire(env: Env, c: PortConfig, portId: nat, t: Track, es: seq<PortEvent>)
    requires ValidConfig(c) && Base(c, t) && WireSound(t)
    requires ValidPortRun(env, portId, t, es)
    requires forall i :: 0 <= i < |es| ==> InHorizon(c, es[i].at)
    ensures var t' := PortRun(env, portId, t, es);
      && Base(c, t') && WireSound(t')
      && (forall i, j :: 0 <= i < j < |t'.log.slots| ==>
            && t'.log.slots[i].end <= t'.log.slots[j].start
            && t'.log.slots[i].reaches < t'.log.slots[j].reaches)
    decreases |es|
  {
    hide PortStep, Base, PortEnabled, InHorizon, WireBounded;
    if es != [] {
      RunKeepsWire(env, c, portId, t, es[..|es| - 1]);
      var mid := PortRun(env, portId, t, es[..|es| - 1]);
      StepKeepsWire(env, c, portId, mid, es[|es| - 1]);
      StepKeepsBase(env, c, portId, mid, es[|es| - 1]);
    }
  }

  lemma InitWireSound(c: PortConfig)
    requires ValidConfig(c)
    ensures WireSound(InitTrack(c))
  {
    EarnedSplit(c.bandwidth, 0.0, 0.0, 0.0);
  }
}
