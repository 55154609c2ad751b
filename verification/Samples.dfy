/** A port with the default parameters, and its first events one at a time. */
module Samples {
  import opened Types
  import opened Tokens
  import opened Conversion
  import opened QueueFifo
  import opened Scheduling
  import opened Ports
  import opened PortRollback
  import opened Runs
  import Shaper
  import Metering
  import Dropping

  const SAMPLE_CONFIG := PortConfig(10.0, 10000.0, [5000000, 20000000, 20000000], 224000, 11200000)

  /** A destination and the next hop towards it. */
  datatype Target = Target(dest: nat, hop: int)

  const NEAR := Target(0, 1)

  function Sized(size: int, tos: nat, to: Target): Packet {
    Packet(0, 0.0, 0, to.dest, -1, -1, size, tos)
  }

  /** The packet as it waits in its queue. */
  function Queued(size: int, tos: nat, to: Target): Packet {
    Sized(size, tos, to).(nextHop := to.hop)
  }

  function Offer(size: int, tos: nat, to: Target, at: real, msg: Message): PortEvent {
    Incoming(at, Sized(size, tos, to), to.hop, msg)
  }

  /** The parts of a port's state that decide what happens at time 0. */
  predicate Holds(t: Track, high: seq<Packet>, low: seq<Packet>, tokens: int, tc0: int, tc2: int, avg: real) {
    var p := t.port;
    && p.queues == [QueueFifo.Queue(high, 5000000), QueueFifo.Queue([], 20000000), QueueFifo.Queue(low, 20000000)]
    && p.bucket == Shaper.Bucket(SHAPER_CAPACITY, tokens, 10.0, 10.0, 0.0)
    && p.meters[0] == Metering.InitMeter(CommittedRate(10.0), 224000, 11200000).(tc := tc0)
    && p.meters[2] == Metering.InitMeter(CommittedRate(10.0), 224000, 11200000).(tc := tc2)
    && p.droppers[1].maxth > 1.0 && p.droppers[1].avg == avg && p.droppers[1].wq == RED_WEIGHT
    && p.droppers[5].maxth > 1.0 && p.droppers[5].avg == 0.0 && p.droppers[5].wq == RED_WEIGHT
    && (forall k :: 0 <= k < 2 * NUM_QOS_LEVEL ==> p.droppers[k].qTime == 0.0)
    && t.log.clock == 0.0
  }

  // ----- Components -----

  lemma MeterAtZero(m: Metering.Meter, bytes: int)
    requires m.lastUpdate == 0.0 && 0 <= 8 * bytes <= m.tc <= m.cbs < UINT32_RANGE
    requires 0 <= m.te <= m.ebs < UINT32_RANGE
    ensures Metering.Update(m, bytes, 0.0) == (m.(tc := m.tc - 8 * bytes), Metering.Green)
  {
    hide NewTokens, Metering.Refill;
    NothingNew(Metering.Rate(m), 0.0);
    Metering.RefillBounds(m, 0);
  }

  lemma BucketAtZero(b: Shaper.Bucket)
    requires b.lastUpdate == 0.0 && b.tokens <= b.capacity
    ensures Shaper.Poll(b, 0.0) == b
  {
    hide NewTokens;
    NothingNew(b.rate, 0.0);
  }

  /** A packet within the committed tokens is green, now or later. */
  lemma MeterLater(m: Metering.Meter, bytes: int, now: real)
    requires 0 <= 8 * bytes <= m.tc <= m.cbs < 0x1000_0000
    requires 0.0 <= Earned(Metering.Rate(m), m.lastUpdate, now) < 100000.0
    ensures Metering.Update(m, bytes, now).1 == Metering.Green
  {
    hide Earned, NewTokens;
    var n := NewTokens(Metering.Rate(m), m.lastUpdate, now);
    assert n < 100000;
  }

  /** A packet within its meter's tokens and its queue's room is admitted if its dropper admits it. */
  lemma AdmittedLater(env: Env, p: PortState, packet: Packet, now: real, index: int, msg: Message)
    requires packet.tos < NUM_QOS_LEVEL
    requires Metering.Update(p.meters[packet.tos], packet.sizeInBytes, now).1 == Metering.Green
    requires Bytes(p.queues[packet.tos].packets) + packet.sizeInBytes <= p.queues[packet.tos].capacity
    requires !Dropping.Drops(Dropping.Sampled(p.droppers[2 * packet.tos + 1], |p.queues[packet.tos].packets|, now,
                                              env.power))
    ensures var v := Judge(env, p, packet, now, index, msg.snapshot);
      var k := 2 * packet.tos + 1;
      && !v.drop
      && v.port == p.(meters := v.port.meters,
                      droppers := p.droppers[k := Dropping.Sampled(p.droppers[k], |p.queues[packet.tos].packets|, now,
                                                                   env.power)])
  {
    hide Metering.Update, Dropping.Sampled, Dropping.Drops, Bytes;
  }

  lemma AdmittedAtZero(env: Env, p: PortState, packet: Packet, index: int, msg: Message)
    requires packet.tos < NUM_QOS_LEVEL
    requires var m := p.meters[packet.tos];
      && m.lastUpdate == 0.0 && 0 <= 8 * packet.sizeInBytes <= m.tc <= m.cbs < UINT32_RANGE
      && 0 <= m.te <= m.ebs < UINT32_RANGE
    requires Bytes(p.queues[packet.tos].packets) + packet.sizeInBytes <= p.queues[packet.tos].capacity
    requires !Dropping.Drops(Dropping.Sampled(p.droppers[2 * packet.tos + 1], |p.queues[packet.tos].packets|, 0.0,
                                              env.power))
    ensures var v := Judge(env, p, packet, 0.0, index, msg.snapshot);
      var m := p.meters[packet.tos];
      var k := 2 * packet.tos + 1;
      && !v.drop
      && v.port == p.(meters := p.meters[packet.tos := m.(tc := m.tc - 8 * packet.sizeInBytes)],
                      droppers := p.droppers[k := Dropping.Sampled(p.droppers[k], |p.queues[packet.tos].packets|, 0.0,
                                                                   env.power)])
  {
    hide Metering.Update, Dropping.Sampled, Dropping.Drops, Bytes;
    MeterAtZero(p.meters[packet.tos], packet.sizeInBytes);
  }

  // ----- Events -----

  /** An admitted packet that is not sent at once: it waits, and a SEND event is under way. */
  lemma {:induction false} Waits(env: Env, portId: nat, t: Track, e: PortEvent)
    requires e.Incoming? && e.packet.tos < NUM_QOS_LEVEL
    requires var index := NUM_QOS_LEVEL * portId + e.packet.tos;
      var v := Judge(env, t.port, e.packet, e.at, index, e.msg.snapshot);
      !v.drop && !Shaper.Ready(Shaper.Poll(t.port.bucket, e.at), NextSize(Enqueue(v.port, e.packet, e.nextHop).queues))
    ensures var index := NUM_QOS_LEVEL * portId + e.packet.tos;
      var v := Judge(env, t.port, e.packet, e.at, index, e.msg.snapshot);
      var q := Polled(Enqueue(v.port, e.packet, e.nextHop), e.at);
      var t' := PortStep(env, portId, t, e);
      && t'.port == q.(flag := true) && q.bucket == Shaper.Poll(t.port.bucket, e.at)
      && t'.log.clock == e.at
      && t'.log.pending == (if t.port.flag then t.log.pending
                            else t.log.pending + multiset{e.at + WakeDelay(q.bucket, NextSize(q.queues), e.at)})
  {
    hide Judge, FirstBusy, Shaper.NextAvailableTime, Depart, Shaper.Poll, Shaper.Ready, PollFault, NextSize, Enqueue;
    var index := NUM_QOS_LEVEL * portId + e.packet.tos;
    JudgeFrame(env, t.port, e.packet, e.at, index, e.msg.snapshot);
    var v := Judge(env, t.port, e.packet, e.at, index, e.msg.snapshot);
    EnqueueFrame(v.port, e.packet, e.nextHop);
  }

  lemma EnqueueFrame(p: PortState, packet: Packet, nextHop: int)
    requires packet.tos < NUM_QOS_LEVEL
    ensures var q := Enqueue(p, packet, nextHop);
      q == p.(queues := p.queues[packet.tos := Put(p.queues[packet.tos], packet.(nextHop := nextHop))])
  {
  }

  lemma Thresholds()
    ensures ValidConfig(SAMPLE_CONFIG)
    ensures var p := InitPort(SAMPLE_CONFIG);
      && p.droppers[1].maxth > 1.0 && p.droppers[3].maxth > 1.0 && p.droppers[5].maxth > 1.0
  {
  }

  /** The first packet takes the whole bucket. */
  lemma {:induction false} First(env: Env, portId: nat, to: Target, msg: Message)
    ensures ValidConfig(SAMPLE_CONFIG)
    ensures var t := InitTrack(SAMPLE_CONFIG);
      var e := Offer(2800, 2, to, 0.0, msg);
      var t1 := PortStep(env, portId, t, e);
      && PortEnabled(t, e)
      && Holds(t1, [], [], 0, 224000, 201600, 0.0)
      && !t1.port.flag && t1.log.pending == multiset{}
  {
    hide Judge, FirstBusy, InjectionDelay, Shaper.Consume, Forwarded, PollFault;
    Thresholds();
    var t := InitTrack(SAMPLE_CONFIG);
    var packet := Sized(2800, 2, to);
    var index := NUM_QOS_LEVEL * portId + 2;
    AdmittedAtZero(env, t.port, packet, index, msg);
    JudgeFrame(env, t.port, packet, 0.0, index, msg.snapshot);
    var v := Judge(env, t.port, packet, 0.0, index, msg.snapshot);
    var q := Enqueue(v.port, packet, to.hop);
    FirstBusyIsUnique(q.queues, 2);
    BucketAtZero(t.port.bucket);
    assert Polled(q, 0.0) == q;
    NothingNew(10.0, 0.0);
    Shaper.SettledConsume(t.port.bucket, 2800, 0.0);
  }

  /** The second packet has to wait until its tokens have come: 1120 nanoseconds for 1400 bytes. */
  lemma {:induction false} Second(env: Env, portId: nat, t: Track, size: nat, to: Target, msg: Message)
    requires Holds(t, [], [], 0, 224000, 201600, 0.0) && !t.port.flag && t.log.pending == multiset{}
    requires 0 < size <= 2800
    ensures var e := Offer(size, 2, to, 0.0, msg);
      var t' := PortStep(env, portId, t, e);
      && PortEnabled(t, e)
      && Holds(t', [], [Queued(size, 2, to)], 0, 224000, 201600 - 8 * size, 0.0)
      && t'.port.flag && t'.log.pending == multiset{(8 * size) as real / 10.0}
  {
    hide Judge, FirstBusy, PortStep, CommittedRate;
    var e := Offer(size, 2, to, 0.0, msg);
    var index := NUM_QOS_LEVEL * portId + 2;
    assert Bytes([]) == 0;
    AdmittedAtZero(env, t.port, e.packet, index, msg);
    var q := Enqueue(Judge(env, t.port, e.packet, 0.0, index, msg.snapshot).port, e.packet, to.hop);
    FirstBusyIsUnique(q.queues, 2);
    BucketAtZero(t.port.bucket);
    Waits(env, portId, t, e);
    var t' := PortStep(env, portId, t, e);
    assert t'.port.queues[2].packets == [Queued(size, 2, to)];
  }

  /** A packet of high priority has to wait as well, behind `high`. */
  lemma {:induction false} HighPriority(env: Env, portId: nat, t: Track, high: seq<Packet>, low: seq<Packet>,
      size: nat, tc0: int, tc2: int, to: Target, msg: Message)
    requires Holds(t, high, low, 0, tc0, tc2, 0.0) && t.port.flag
    requires 0 < 8 * size <= tc0 <= 224000 && size <= 2800
    requires |high| <= 1 && (forall i :: 0 <= i < |high| ==> 0 < high[i].sizeInBytes <= 2800)
    requires forall x :: x in t.log.pending ==> 0.0 <= x
    ensures var e := Offer(size, 0, to, 0.0, msg);
      var t' := PortStep(env, portId, t, e);
      && PortEnabled(t, e)
      && Holds(t', high + [Queued(size, 0, to)], low, 0, tc0 - 8 * size, tc2, RED_WEIGHT * |high| as real)
      && t'.port.flag && t'.log.pending == t.log.pending
  {
    hide Judge, FirstBusy, PortStep, CommittedRate;
    var e := Offer(size, 0, to, 0.0, msg);
    var index := NUM_QOS_LEVEL * portId + 0;
    assert Bytes(high) <= 2800;
    AdmittedAtZero(env, t.port, e.packet, index, msg);
    var q := Enqueue(Judge(env, t.port, e.packet, 0.0, index, msg.snapshot).port, e.packet, to.hop);
    FirstBusyIsUnique(q.queues, 0);
    BucketAtZero(t.port.bucket);
    Waits(env, portId, t, e);
  }

  lemma OnePendingIsEnabled(t: Track, e: PortEvent)
    requires e.Wakeup? && t.log.pending == multiset{e.at} && t.log.clock <= e.at
    ensures PortEnabled(t, e)
  {
  }

  // ----- Runs, step by step -----

  lemma {:induction false} OneStep(env: Env, portId: nat, t: Track, es: seq<PortEvent>, e: PortEvent)
    requires ValidPortRun(env, portId, t, es) && PortEnabled(PortRun(env, portId, t, es), e)
    ensures ValidPortRun(env, portId, t, es + [e])
    ensures PortRun(env, portId, t, es + [e]) == PortStep(env, portId, PortRun(env, portId, t, es), e)
  {
    hide PortStep;
    assert (es + [e])[..|es + [e]| - 1] == es;
  }
}
