/** When a port sends: the delays of its SEND events and the failures of its assertions. */
module PortTiming {
  import opened Types
  import opened Tokens
  import opened Conversion
  import opened QueueFifo
  import opened Scheduling
  import opened Ports
  import opened PortRollback
  import opened Runs
  import opened PortInvariants
  import Shaper

  /** The tokens a port can earn from the start of the simulation until `at` fit the
      32-bit word. */
  predicate InHorizon(c: PortConfig, at: real) {
    NoWrap(c.bandwidth, 0.0, at)
  }

  lemma HorizonMeansNoOverflow(c: PortConfig, b: Shaper.Bucket, now: real)
    requires c.bandwidth > 0.0 && BucketSane(c, b, now) && InHorizon(c, now)
    ensures Shaper.NoOverflow(b, now)
  {
    NoWrapPart(b.rate, 0.0, b.lastUpdate, now, now);
  }

  // ----- Faults -----

  /** The size of the packet served after the next one, 0 if there is none. */
  function SecondSize(queues: seq<QueueFifo.Queue>): int
    requires FirstBusy(queues) < |queues|
  {
    var i := FirstBusy(queues);
    NextSize(queues[i := Take(queues[i])])
  }

  /** The bucket of the port, polled at `now`, pays for the next two packets at once. */
  predicate TwoAffordable(p: PortState, now: real)
    requires !Idle(p)
  {
    SecondSize(p.queues) > 0 &&
    8 * (NextSize(p.queues) + SecondSize(p.queues)) <= Shaper.Poll(p.bucket, now).tokens
  }

  lemma ForwardDelayPositive(env: Env, c: PortConfig, p: PortState, target: int, now: real)
    requires ValidConfig(c) && Sane(c, p, now) && !Idle(p)
    requires Shaper.Settled(p.bucket, now) && Shaper.Ready(p.bucket, NextSize(p.queues))
    ensures var d := Depart(env, p, now);
      && Forwarded(env, p, d, target, now).delay > 0.0
      && 0 <= d.port.bucket.tokens
  {
    hide QueuesSane, InitPort, MeterSane, DropperSane, NextSize, FirstBusy, Depart;
    DepartKeepsSane(env, c, p, now);
  }

  /** A busy port's next packet is a real one. */
  lemma NextSizePositive(c: PortConfig, p: PortState, now: real)
    requires ValidConfig(c) && Sane(c, p, now)
    ensures Idle(p) <==> NextSize(p.queues) == 0
    ensures !Idle(p) ==> NextSize(p.queues) > 0
  {
    hide InitPort, FirstBusy, MeterSane, BucketSane, DropperSane;
  }

  /** The assertions on the polled bucket and on the head packet hold within the bounds. */
  lemma NoPollFault(c: PortConfig, p: PortState, now: real)
    requires ValidConfig(c) && Sane(c, p, now)
    ensures !PollFault(p) && !EmptyHead(p)
  {
    hide InitPort, FirstBusy, MeterSane, DropperSane, NextSize, QueuesSane;
    NextSizePositive(c, p, now);
  }

  /** The packet that departs is the one whose size the handlers compared with the tokens. */
  lemma ServedIsNext(env: Env, p: PortState, now: real)
    requires !Idle(p)
    ensures Depart(env, p, now).packet.sizeInBytes == NextSize(p.queues)
  {
    hide FirstBusy, Shaper.Consume, Touch, InjectionDelay;
  }

  /** The delay until a packet becomes affordable is positive exactly when it is not
      affordable now. */
  lemma WakeDelaySign(c: PortConfig, b: Shaper.Bucket, size: int, now: real)
    requires BucketSane(c, b, now) && Shaper.Settled(b, now) && Shaper.NoOverflow(b, now)
    ensures WakeDelay(b, size, now) > 0.0 <==> !Shaper.Ready(b, size)
  {
    hide NewTokens, Earned;
    if !Shaper.Ready(b, size) {
      hide Shaper.NextAvailableTime;
      Shaper.WaitIsPositive(b, size, now);
    }
  }

  /** An ARRIVE event violates no assertion, whatever the packet sizes. */
  lemma {:induction false} ArriveNeverFaults(env: Env, c: PortConfig, portId: nat, t: Track, e: PortEvent)
    requires ValidConfig(c) && Base(c, t) && PortEnabled(t, e) && e.Incoming?
    requires Shaper.NoOverflow(t.port.bucket, e.at)
    ensures !Act(env, portId, t.port, e).fault
    ensures Act(env, portId, t.port, e).wake.Some? ==> Act(env, portId, t.port, e).wake.value > 0.0
  {
    hide Sane, FirstBusy, Judge, Depart, NextSize, Shaper.Poll, WakeDelay, Forwarded, PollFault;
    var p, now := t.port, e.at;
    var index := NUM_QOS_LEVEL * portId + e.packet.tos;
    var v := Judge(env, p, e.packet, now, index, e.msg.snapshot);
    JudgeFrame(env, p, e.packet, now, index, e.msg.snapshot);
    if !v.drop {
      SaneLater(c, p, t.log.clock, now);
      JudgeKeepsSane(env, c, p, e.packet, now, index, e.msg.snapshot);
      EnqueueKeepsSane(c, v.port, e.packet, e.nextHop, now);
      OfferedFacts(env, p, portId, e.packet, e.nextHop, now, e.msg);
      SettledFacts(c, Enqueue(v.port, e.packet, e.nextHop), now);
      var q := Offered(env, p, portId, e.packet, e.nextHop, now, e.msg);
      WakeDelaySign(c, q.bucket, NextSize(q.queues), now);
      NoPollFault(c, q, now);
      if Shaper.Ready(q.bucket, NextSize(q.queues)) {
        ForwardDelayPositive(env, c, q, e.nextHop, now);
      }
    }
  }

  lemma SettledFacts(c: PortConfig, p: PortState, now: real)
    requires ValidConfig(c) && Sane(c, p, now) && Shaper.NoOverflow(p.bucket, now)
    ensures var q := Polled(p, now);
      && Sane(c, q, now) && BucketSane(c, q.bucket, now)
      && Shaper.Settled(q.bucket, now) && Shaper.NoOverflow(q.bucket, now)
  {
    hide InitPort, QueuesSane, MeterSane, DropperSane, Shaper.Poll, NewTokens, Earned;
    PolledKeepsSane(c, p, now);
    Shaper.PollLeavesLessThanOne(p.bucket, now);
  }

  /** A SEND event of a busy port violates an assertion exactly when the bucket pays for the
      next two packets at once: the event then schedules its successor without delay. */
  lemma SendFaultsIff(env: Env, c: PortConfig, portId: nat, p: PortState, now: real, msg: Message)
    requires ValidConfig(c) && Sane(c, p, now) && !Idle(p)
    requires Shaper.NoOverflow(p.bucket, now)
    ensures Send(env, p, portId, now, msg).fault <==> TwoAffordable(p, now)
  {
    hide Sane, FirstBusy, NextSize, Shaper.Poll, Forwarded, Shaper.Consume, InjectionDelay, Touch, WakeDelay,
         PollFault, EmptyHead;
    var q := Polled(p, now);
    SettledFacts(c, p, now);
    WakeDelaySign(c, q.bucket, NextSize(q.queues), now);
    NextSizePositive(c, q, now);
    NoPollFault(c, q, now);
    if Shaper.Ready(q.bucket, NextSize(q.queues)) {
      ForwardDelayPositive(env, c, q, q.queues[FirstBusy(q.queues)].packets[0].nextHop, now);
      DepartKeepsSane(env, c, q, now);
      var d := Depart(env, q, now);
      SettledAfterDeparture(c, q.bucket, d.packet.sizeInBytes, now);
      NextSizePositive(c, d.port, now);
      NoPollFault(c, d.port, now);
      WakeDelaySign(c, d.port.bucket, NextSize(d.port.queues), now);
    }
  }

  lemma SettledAfterDeparture(c: PortConfig, b: Shaper.Bucket, bytes: int, now: real)
    requires BucketSane(c, b, now) && Shaper.Settled(b, now) && Shaper.NoOverflow(b, now)
    requires 0 < bytes && Shaper.Ready(b, bytes)
    ensures var b' := b.(tokens := b.tokens - 8 * bytes);
      BucketSane(c, b', now) && Shaper.Settled(b', now) && Shaper.NoOverflow(b', now)
  {
    hide NewTokens, Earned;
  }

  // ----- When the next SEND event comes -----

  /** A SEND event is scheduled for the next packet of the port as the event leaves it. */
  lemma {:induction false} WakeIsNextTime(env: Env, portId: nat, p: PortState, e: PortEvent)
    requires e.Incoming? ==> e.packet.tos < NUM_QOS_LEVEL
    ensures var o := Act(env, portId, p, e);
      o.wake.Some? ==>
        && !Idle(o.port)
        && e.at + o.wake.value == Shaper.NextAvailableTime(o.port.bucket, NextSize(o.port.queues))
  {
    hide FirstBusy, Judge, Depart, NextSize, Shaper.Poll, Shaper.NextAvailableTime, Forwarded, PollFault, EmptyHead,
         Enqueue;
    if e.Incoming? {
      JudgeFrame(env, p, e.packet, e.at, NUM_QOS_LEVEL * portId + e.packet.tos, e.msg.snapshot);
    }
  }

  /** Whatever the packet sizes, the SEND event comes at the instant at which the port holds exactly
      the tokens of its next packet, if it does not hold them already. */
  lemma {:induction false} WakeIsForTheNext(env: Env, portId: nat, p: PortState, e: PortEvent)
    requires e.Incoming? ==> e.packet.tos < NUM_QOS_LEVEL
    ensures var o := Act(env, portId, p, e);
      o.wake.Some? && !Shaper.Ready(o.port.bucket, NextSize(o.port.queues)) ==>
        Shaper.Potential(o.port.bucket, e.at + o.wake.value) == (8 * NextSize(o.port.queues)) as real
  {
    hide Act, NextSize, Shaper.NextAvailableTime, Shaper.Potential, Shaper.Ready;
    WakeIsNextTime(env, portId, p, e);
    var o := Act(env, portId, p, e);
    if o.wake.Some? && !Shaper.Ready(o.port.bucket, NextSize(o.port.queues)) {
      Shaper.MissingTokens(o.port.bucket, NextSize(o.port.queues));
    }
  }

  /** At most one poll per event. */
  lemma {:induction false} PollsAreEvents(env: Env, portId: nat, t: Track, es: seq<PortEvent>)
    requires WellTyped(es)
    ensures t.log.polls <= PortRun(env, portId, t, es).log.polls <= t.log.polls + |es|
    decreases |es|
  {
    hide Act;
    if es != [] {
      PollsAreEvents(env, portId, t, es[..|es| - 1]);
    }
  }

  // ----- Every assertion of the forward handlers -----

  /** An assertion of the event fails, whatever the state: a SEND event finds no packet; the polled
      tokens are negative or the packet at the head has no size; or, by what the event did, the tokens
      left are negative, the packet then at the head has no size, or a delay is not positive. */
  predicate AssertionFails(env: Env, portId: nat, p: PortState, e: PortEvent, o: Outcome)
    requires e.Incoming? ==> e.packet.tos < NUM_QOS_LEVEL
  {
    var queues := if e.Incoming? then Enqueue(p, e.packet, e.nextHop).queues else p.queues;
    || (e.Wakeup? && Idle(p))
    || ((e.Wakeup? || o.admitted) && (Shaper.Poll(p.bucket, e.at).tokens < 0 || NextSize(queues) <= 0))
    || (o.forward.Some? && (o.port.bucket.tokens < 0 || o.forward.value.delay <= 0.0))
    || (o.forward.Some? && e.Wakeup? && !Idle(o.port) && NextSize(o.port.queues) <= 0)
    || (o.wake.Some? && o.wake.value <= 0.0)
  }

  /** The recorded fault is exactly the failure of an assertion. */
  lemma {:induction false} FaultIff(env: Env, portId: nat, p: PortState, e: PortEvent)
    requires e.Incoming? ==> e.packet.tos < NUM_QOS_LEVEL
    ensures var o := Act(env, portId, p, e); o.fault <==> AssertionFails(env, portId, p, e, o)
  {
    hide FirstBusy, Judge, Depart, NextSize, Shaper.Poll, Shaper.NextAvailableTime, Forwarded, Shaper.Ready, Enqueue;
    if e.Incoming? {
      JudgeFrame(env, p, e.packet, e.at, NUM_QOS_LEVEL * portId + e.packet.tos, e.msg.snapshot);
      OfferedQueues(env, p, portId, e.packet, e.nextHop, e.at, e.msg);
    }
  }

  lemma OfferedQueues(env: Env, p: PortState, portId: nat, packet: Packet, nextHop: int, now: real, msg: Message)
    requires packet.tos < NUM_QOS_LEVEL
    ensures var v := Judge(env, p, packet, now, NUM_QOS_LEVEL * portId + packet.tos, msg.snapshot);
      var q := Offered(env, p, portId, packet, nextHop, now, msg);
      && q == Polled(Enqueue(v.port, packet, nextHop), now)
      && q.queues == Enqueue(p, packet, nextHop).queues && q.bucket == Shaper.Poll(p.bucket, now)
  {
    hide Judge, Shaper.Poll;
    JudgeFrame(env, p, packet, now, NUM_QOS_LEVEL * portId + packet.tos, msg.snapshot);
  }
}
