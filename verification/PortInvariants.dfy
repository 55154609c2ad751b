/** What every event of a port keeps: parameters, bounds, and the busy-port discipline. */
module PortInvariants {
  import opened Types
  import opened Tokens
  import opened Conversion
  import opened QueueFifo
  import opened Scheduling
  import opened Ports
  import opened PortRollback
  import opened Runs
  import Shaper
  import Metering
  import Dropping

  // ----- Bounds -----

  predicate QueuesSane(c: PortConfig, queues: seq<QueueFifo.Queue>)
    requires |c.capacities| == NUM_QOS_LEVEL
  {
    && |queues| == NUM_QOS_LEVEL
    && forall i :: 0 <= i < NUM_QOS_LEVEL ==>
         && AllPositive(queues[i].packets)
         && Bytes(queues[i].packets) <= queues[i].capacity == c.capacities[i]
  }

  predicate MeterSane(c: PortConfig, m: Metering.Meter, now: real) {
    && Metering.Sound(m, now)
    && m.cir == CommittedRate(c.bandwidth) && m.cbs == c.cbs && m.ebs == c.ebs
  }

  predicate BucketSane(c: PortConfig, b: Shaper.Bucket, now: real) {
    && Shaper.Sound(b, now)
    && b.capacity == SHAPER_CAPACITY && b.rate == b.portBandwidth == c.bandwidth
  }

  /** `d0` is the dropper after initialisation. */
  predicate DropperSane(d0: Dropping.Dropper, d: Dropping.Dropper, now: real) {
    d.maxth == d0.maxth && d.wq == d0.wq && d.qTime <= now
  }

  predicate Sane(c: PortConfig, p: PortState, now: real)
    requires ValidConfig(c)
  {
    && QueuesSane(c, p.queues)
    && (forall i :: 0 <= i < NUM_QOS_LEVEL ==> MeterSane(c, p.meters[i], now))
    && BucketSane(c, p.bucket, now)
    && (forall k :: 0 <= k < 2 * NUM_QOS_LEVEL ==>
          DropperSane(InitPort(c).droppers[k], p.droppers[k], now))
    && p.bandwidth == c.bandwidth && p.propagation == c.propagation
  }

  /** The parameters of a fresh port: full meters at a third of the bandwidth, a full bucket at the
      bandwidth, queues of the configured capacities, RED thresholds of 60% (yellow, even) and 90%
      (green, odd) of a queue of 1400-byte packets, rounded down, and nothing under way. */
  lemma InitPortFields(c: PortConfig)
    requires ValidConfig(c)
    ensures var p := InitPort(c);
      && (forall t :: 0 <= t < NUM_QOS_LEVEL ==>
            && p.queues[t].packets == [] && p.queues[t].capacity == c.capacities[t]
            && p.meters[t].tc == p.meters[t].cbs == c.cbs && p.meters[t].te == p.meters[t].ebs == c.ebs
            && p.meters[t].lastUpdate == 0.0 && 3.0 * p.meters[t].cir == 1000.0 * c.bandwidth
            && var yellow, green := p.droppers[2 * t].maxth, p.droppers[2 * t + 1].maxth;
            && yellow <= c.capacities[t] as real * 0.6 / 1400.0 < yellow + 1.0
            && green <= c.capacities[t] as real * 0.9 / 1400.0 < green + 1.0)
      && (forall k :: 0 <= k < 2 * NUM_QOS_LEVEL ==>
            && p.droppers[k].maxth.Floor as real == p.droppers[k].maxth
            && p.droppers[k].wq == 0.002 && p.droppers[k].avg == 0.0 && p.droppers[k].qTime == 0.0)
      && p.bucket.tokens == p.bucket.capacity == 22400 && p.bucket.lastUpdate == 0.0
      && p.bucket.rate == p.bucket.portBandwidth == p.bandwidth == c.bandwidth && p.propagation == c.propagation
      && p.lastPriority == -1 && !p.flag && p.available == 0.0
  {
    hide Metering.InitMeter, MaxThreshold;
    ThresholdOf(c.capacities[0]);
    ThresholdOf(c.capacities[1]);
    ThresholdOf(c.capacities[2]);
    FullMeter(CommittedRate(c.bandwidth), c.cbs, c.ebs);
  }

  lemma FullMeter(cir: real, cbs: int, ebs: int)
    ensures var m := Metering.InitMeter(cir, cbs, ebs);
      && m.tc == m.cbs == cbs && m.te == m.ebs == ebs && m.lastUpdate == 0.0 && m.cir == cir && Metering.Full(m)
  {
  }

  lemma ThresholdOf(capacity: int)
    ensures forall share :: share == 0.6 || share == 0.9 ==>
      var maxth := MaxThreshold(capacity, share);
      && maxth.Floor as real == maxth
      && maxth <= capacity as real * share / 1400.0 < maxth + 1.0
  {
  }

  lemma InitSane(c: PortConfig)
    requires ValidConfig(c)
    ensures Sane(c, InitPort(c), 0.0) && Idle(InitPort(c))
  {
    FirstBusyIsUnique(InitPort(c).queues, NUM_QOS_LEVEL);
  }

  lemma SaneLater(c: PortConfig, p: PortState, t: real, u: real)
    requires ValidConfig(c) && Sane(c, p, t) && t <= u
    ensures Sane(c, p, u)
  {
    hide InitPort;
  }

  lemma SaneBucket(c: PortConfig, p: PortState, now: real)
    requires ValidConfig(c) && Sane(c, p, now)
    ensures BucketSane(c, p.bucket, now)
  {
    hide InitPort;
  }

  lemma SaneCapacity(c: PortConfig, p: PortState, now: real)
    requires ValidConfig(c) && Sane(c, p, now)
    ensures WithinCapacity(p)
  {
    hide InitPort;
  }

  lemma JudgeKeepsSane(env: Env, c: PortConfig, p: PortState, packet: Packet, now: real, index: int, snap: Snapshot)
    requires ValidConfig(c) && Sane(c, p, now)
    requires packet.tos < NUM_QOS_LEVEL && packet.sizeInBytes > 0
    ensures Sane(c, Judge(env, p, packet, now, index, snap).port, now)
  {
    hide Metering.Update, InitPort, Bytes, Dropping.Drops, Tokens.Earned, CommittedRate;
    Metering.UpdatePays(p.meters[packet.tos], packet.sizeInBytes, now);
  }

  lemma EnqueueKeepsSane(c: PortConfig, p: PortState, packet: Packet, nextHop: int, now: real)
    requires ValidConfig(c) && Sane(c, p, now)
    requires packet.tos < NUM_QOS_LEVEL && packet.sizeInBytes > 0
    requires Bytes(p.queues[packet.tos].packets) + packet.sizeInBytes <= p.queues[packet.tos].capacity
    ensures Sane(c, Enqueue(p, packet, nextHop), now)
  {
    hide InitPort, Bytes, FirstBusy, MeterSane, BucketSane, DropperSane;
    BytesOfPut(p.queues[packet.tos].packets, packet.(nextHop := nextHop));
  }

  lemma PolledKeepsSane(c: PortConfig, p: PortState, now: real)
    requires ValidConfig(c) && Sane(c, p, now)
    ensures Sane(c, Polled(p, now), now)
    ensures Shaper.Settled(Polled(p, now).bucket, now)
  {
    hide InitPort, QueuesSane, MeterSane, DropperSane, Shaper.Poll, Tokens.NewTokens, PollFault;
    Shaper.PollBounds(p.bucket, now);
    Shaper.PollIsIdempotent(p.bucket, now);
  }

  /** A served packet was affordable, so the tokens stay non-negative. */
  lemma DepartKeepsSane(env: Env, c: PortConfig, p: PortState, now: real)
    requires ValidConfig(c) && Sane(c, p, now) && !Idle(p)
    requires Shaper.Settled(p.bucket, now) && Shaper.Ready(p.bucket, NextSize(p.queues))
    ensures var d := Depart(env, p, now);
      && Sane(c, d.port, now)
      && d.packet.sizeInBytes == NextSize(p.queues) > 0
      && d.port.bucket == p.bucket.(tokens := p.bucket.tokens - 8 * d.packet.sizeInBytes)
      && d.end > d.start >= now
  {
    hide InitPort, Bytes, FirstBusy, MeterSane, InjectionDelay, Shaper.Consume, Tokens.NewTokens;
    var prio := FirstBusy(p.queues);
    var size := p.queues[prio].packets[0].sizeInBytes;
    BytesOfEnds(p.queues[prio].packets);
    Shaper.SettledConsume(p.bucket, size, now);
  }

  // ----- The busy-port discipline -----

  function Waiting(p: PortState): nat {
    |p.queues[0].packets| + |p.queues[1].packets| + |p.queues[2].packets|
  }

  lemma IdleMeansNoneWaiting(p: PortState)
    ensures Idle(p) <==> Waiting(p) == 0
  {
    hide FirstBusy;
    if Waiting(p) == 0 {
      FirstBusyIsUnique(p.queues, NUM_QOS_LEVEL);
    } else {
      var i := if |p.queues[0].packets| > 0 then 0 else if |p.queues[1].packets| > 0 then 1 else 2;
      BusyQueueMeansBusy(p.queues, i);
    }
  }

  lemma DepartTakesOne(env: Env, p: PortState, now: real)
    requires !Idle(p)
    ensures Waiting(Depart(env, p, now).port) == Waiting(p) - 1
    ensures Depart(env, p, now).port.flag == p.flag
  {
    hide FirstBusy, InjectionDelay, Shaper.Consume, Touch;
  }

  lemma OfferedFacts(env: Env, p: PortState, portId: nat, packet: Packet, nextHop: int, now: real, msg: Message)
    requires packet.tos < NUM_QOS_LEVEL
    ensures var q := Offered(env, p, portId, packet, nextHop, now, msg);
      && Waiting(q) == Waiting(p) + 1
      && q.flag == p.flag && q.bucket == Shaper.Poll(p.bucket, now)
      && q.available == p.available && q.lastPriority == p.lastPriority
      && q.queues == p.queues[packet.tos := Put(p.queues[packet.tos], packet.(nextHop := nextHop))]
  {
    hide FirstBusy, Judge, Shaper.Poll, PollFault;
    JudgeFrame(env, p, packet, now, NUM_QOS_LEVEL * portId + packet.tos, msg.snapshot);
  }

  /** The flag is set, a packet waits, and exactly one SEND event is pending: all or none. */
  ghost predicate Busy(t: Track) {
    && (t.port.flag <==> !Idle(t.port))
    && |t.log.pending| == if t.port.flag then 1 else 0
  }

  ghost predicate Base(c: PortConfig, t: Track)
    requires ValidConfig(c)
  {
    Sane(c, t.port, t.log.clock) && Busy(t)
  }

  lemma {:induction false} ArriveKeepsSane(env: Env, c: PortConfig, portId: nat, p: PortState, e: PortEvent)
    requires ValidConfig(c) && Sane(c, p, e.at)
    requires e.Incoming? && e.packet.tos < NUM_QOS_LEVEL && e.packet.sizeInBytes > 0
    ensures Sane(c, Act(env, portId, p, e).port, e.at)
  {
    hide Sane, FirstBusy, Judge, Enqueue, Depart, NextSize, Shaper.Poll, PollFault, WakeDelay, Forwarded;
    var index := NUM_QOS_LEVEL * portId + e.packet.tos;
    var v := Judge(env, p, e.packet, e.at, index, e.msg.snapshot);
    JudgeFrame(env, p, e.packet, e.at, index, e.msg.snapshot);
    JudgeKeepsSane(env, c, p, e.packet, e.at, index, e.msg.snapshot);
    if !v.drop {
      EnqueueKeepsSane(c, v.port, e.packet, e.nextHop, e.at);
      OfferKeepsSane(env, c, Enqueue(v.port, e.packet, e.nextHop), e.at);
    }
  }

  lemma {:induction false} SendKeepsSane(env: Env, c: PortConfig, portId: nat, p: PortState, e: PortEvent)
    requires ValidConfig(c) && Sane(c, p, e.at) && e.Wakeup? && !Idle(p)
    ensures Sane(c, Act(env, portId, p, e).port, e.at)
  {
    hide Sane, FirstBusy, Depart, NextSize, Shaper.Poll, PollFault, EmptyHead, WakeDelay, Forwarded;
    OfferKeepsSane(env, c, p, e.at);
  }

  /** Every event keeps the bounds. */
  lemma {:induction false} StepKeepsSane(env: Env, c: PortConfig, portId: nat, t: Track, e: PortEvent)
    requires ValidConfig(c) && Base(c, t) && PortEnabled(t, e)
    ensures Sane(c, PortStep(env, portId, t, e).port, e.at)
  {
    hide Sane, Act, Idle;
    SaneLater(c, t.port, t.log.clock, e.at);
    if e.Incoming? {
      ArriveKeepsSane(env, c, portId, t.port, e);
    } else {
      SendKeepsBusy(env, portId, t, e);
      SendKeepsSane(env, c, portId, t.port, e);
    }
  }

  /** Polling, serving and setting the flag keep the bounds. */
  lemma {:induction false} OfferKeepsSane(env: Env, c: PortConfig, p: PortState, now: real)
    requires ValidConfig(c) && Sane(c, p, now) && !Idle(p)
    ensures var q := Polled(p, now);
      && !Idle(q)
      && Sane(c, q, now) && Sane(c, q.(flag := true), now)
      && (Shaper.Ready(q.bucket, NextSize(q.queues)) ==>
            && Sane(c, Depart(env, q, now).port, now)
            && Sane(c, Depart(env, q, now).port.(flag := false), now))
  {
    hide FirstBusy, InitPort, Depart, NextSize, PollFault;
    PolledKeepsSane(c, p, now);
    var q := Polled(p, now);
    if Shaper.Ready(q.bucket, NextSize(q.queues)) {
      DepartKeepsSane(env, c, q, now);
    }
  }

  lemma ArriveKeepsBusy(env: Env, portId: nat, t: Track, e: PortEvent)
    requires Busy(t) && e.Incoming? && PortEnabled(t, e)
    ensures Busy(PortStep(env, portId, t, e))
  {
    hide FirstBusy, Judge, Depart, NextSize, Shaper.NextAvailableTime, Idle, Polled, Enqueue, PollFault;
    var p := t.port;
    var index := NUM_QOS_LEVEL * portId + e.packet.tos;
    var v := Judge(env, p, e.packet, e.at, index, e.msg.snapshot);
    JudgeFrame(env, p, e.packet, e.at, index, e.msg.snapshot);
    OfferedFacts(env, p, portId, e.packet, e.nextHop, e.at, e.msg);
    var q := Offered(env, p, portId, e.packet, e.nextHop, e.at, e.msg);
    var p' := PortStep(env, portId, t, e).port;
    IdleMeansNoneWaiting(p);
    IdleMeansNoneWaiting(q);
    IdleMeansNoneWaiting(p');
    DepartTakesOne(env, q, e.at);
  }

  lemma SendKeepsBusy(env: Env, portId: nat, t: Track, e: PortEvent)
    requires Busy(t) && e.Wakeup? && PortEnabled(t, e)
    ensures t.port.flag && !Idle(t.port)
    ensures Busy(PortStep(env, portId, t, e))
  {
    hide FirstBusy, Depart, NextSize, Shaper.NextAvailableTime, Idle, Shaper.Poll, PollFault;
    var p := t.port;
    assert t.log.pending[e.at] >= 1;
    assert |t.log.pending - multiset{e.at}| == |t.log.pending| - 1;
    var q := Polled(p, e.at);
    IdleMeansNoneWaiting(p);
    IdleMeansNoneWaiting(q);
    DepartTakesOne(env, q, e.at);
    IdleMeansNoneWaiting(Depart(env, q, e.at).port);
    IdleMeansNoneWaiting(PortStep(env, portId, t, e).port);
  }

  /** Bounds and discipline survive every enabled event. */
  lemma {:induction false} StepKeepsBase(env: Env, c: PortConfig, portId: nat, t: Track, e: PortEvent)
    requires ValidConfig(c) && Base(c, t) && PortEnabled(t, e)
    ensures Base(c, PortStep(env, portId, t, e))
  {
    hide Sane, Act, Busy;
    StepKeepsSane(env, c, portId, t, e);
    if e.Incoming? {
      ArriveKeepsBusy(env, portId, t, e);
    } else {
      SendKeepsBusy(env, portId, t, e);
    }
  }

  lemma {:induction false} RunKeepsBase(env: Env, c: PortConfig, portId: nat, t: Track, es: seq<PortEvent>)
    requires ValidConfig(c) && Base(c, t) && ValidPortRun(env, portId, t, es)
    ensures Base(c, PortRun(env, portId, t, es))
    decreases |es|
  {
    hide Base, PortStep, PortEnabled;
    if es != [] {
      RunKeepsBase(env, c, portId, t, es[..|es| - 1]);
      StepKeepsBase(env, c, portId, PortRun(env, portId, t, es[..|es| - 1]), es[|es| - 1]);
    }
  }
}
