/** Runs from initialisation that show where the handlers fall short, and one that starts a busy
    period. */
module SampleRuns {
  import opened Types
  import opened Tokens
  import opened Conversion
  import opened QueueFifo
  import opened Scheduling
  import opened Ports
  import opened PortRollback
  import opened PortServing
  import opened PortInvariants
  import opened PortTiming
  import opened UniformSize
  import opened PortService
  import opened PortQTimes
  import opened PortOrder
  import opened Runs
  import opened Samples
  import Shaper
  import Metering
  import Dropping

  // ----- A SEND event without delay -----

  /** A full bucket's worth, one more large packet of low priority, and two tiny packets of
      high priority, all at time 0. */
  function Arrivals(msg: Message): seq<PortEvent> {
    [Offer(2800, 2, NEAR, 0.0, msg), Offer(1400, 2, NEAR, 0.0, msg), Offer(1, 0, NEAR, 0.0, msg),
     Offer(1, 0, NEAR, 0.0, msg)]
  }

  /** Two tiny packets wait when the tokens for the large one have come. */
  lemma BothAffordable(t: Track, low: seq<Packet>, tc0: int, tc2: int, avg: real)
    requires var tiny := Queued(1, 0, NEAR); Holds(t, [tiny, tiny], low, 0, tc0, tc2, avg)
    ensures !Idle(t.port) && TwoAffordable(t.port, 1120.0) && Shaper.NoOverflow(t.port.bucket, 1120.0)
  {
    hide FirstBusy, NewTokens;
    var queues := t.port.queues;
    FirstBusyIsUnique(queues, 0);
    FirstBusyIsUnique(queues[0 := Take(queues[0])], 0);
    assert Earned(10.0, 0.0, 1120.0) == 11200.0;
  }

  lemma {:induction false} ArrivalsRun(env: Env, msg: Message)
    ensures ValidConfig(SAMPLE_CONFIG)
    ensures var t := InitTrack(SAMPLE_CONFIG);
      var es := Arrivals(msg);
      var tiny, large := Queued(1, 0, NEAR), Queued(1400, 2, NEAR);
      && ValidPortRun(env, 0, t, es)
      && Holds(PortRun(env, 0, t, es), [tiny, tiny], [large], 0, 223984, 190400, RED_WEIGHT)
      && PortRun(env, 0, t, es).log.pending == multiset{1120.0}
  {
    hide PortStep, PortEnabled, CommittedRate, Holds, ValidPortRun, PortRun, InitTrack, ValidConfig;
    var es := Arrivals(msg);
    var tiny, large := Queued(1, 0, NEAR), Queued(1400, 2, NEAR);
    First(env, 0, NEAR, msg);
    var t := InitTrack(SAMPLE_CONFIG);
    EmptyRun(env, 0, t);
    OneStep(env, 0, t, [], es[0]);
    var t1 := PortStep(env, 0, t, es[0]);
    Second(env, 0, t1, 1400, NEAR, msg);
    assert (8 * 1400) as real / 10.0 == 1120.0;
    assert [] + [es[0]] == es[..1];
    OneStep(env, 0, t, es[..1], es[1]);
    var t2 := PortStep(env, 0, t1, es[1]);
    assert es[..1] + [es[1]] == es[..2];
    HighPriority(env, 0, t2, [], [large], 1, 224000, 190400, NEAR, msg);
    OneStep(env, 0, t, es[..2], es[2]);
    var t3 := PortStep(env, 0, t2, es[2]);
    assert es[..2] + [es[2]] == es[..3] && [] + [tiny] == [tiny];
    HighPriority(env, 0, t3, [tiny], [large], 1, 223992, 190400, NEAR, msg);
    OneStep(env, 0, t, es[..3], es[3]);
    assert es[..3] + [es[3]] == es && [tiny] + [tiny] == [tiny, tiny];
  }

  lemma EmptyRun(env: Env, portId: nat, t: Track)
    ensures ValidPortRun(env, portId, t, []) && PortRun(env, portId, t, []) == t
  {
  }

  /** The run: four arrivals at time 0, then the pending SEND event at time 1120 serves one
      tiny packet, finds the other one affordable, and schedules its successor at no delay. */
  lemma {:induction false} ZeroDelayIsReachable(env: Env, msg: Message)
    ensures ValidConfig(SAMPLE_CONFIG)
    ensures var t := InitTrack(SAMPLE_CONFIG);
      var es := Arrivals(msg);
      && ValidPortRun(env, 0, t, es)
      && PortEnabled(PortRun(env, 0, t, es), Wakeup(1120.0, msg))
      && Act(env, 0, PortRun(env, 0, t, es).port, Wakeup(1120.0, msg)).fault
  {
    hide PortStep, PortEnabled, CommittedRate, TwoAffordable, Sane, Idle, PortRun, ValidPortRun;
    ArrivalsRun(env, msg);
    var c, t := SAMPLE_CONFIG, InitTrack(SAMPLE_CONFIG);
    var es := Arrivals(msg);
    var t4 := PortRun(env, 0, t, es);
    FreshIsRegular(c, 1);
    RunKeepsBase(env, c, 0, t, es);
    BothAffordable(t4, [Queued(1400, 2, NEAR)], 223984, 190400, RED_WEIGHT);
    SaneLater(c, t4.port, 0.0, 1120.0);
    SendFaultsIff(env, c, 0, t4.port, 1120.0, msg);
    OnePendingIsEnabled(t4, Wakeup(1120.0, msg));
  }

  // ----- A busy period with one packet size -----

  /** Two packets of 2800 bytes at time 0: the second one waits, and with it starts a busy
      period of the kind that the results on service and backlog are about. */
  lemma {:induction false} BusyPeriodIsReachable(env: Env, msg: Message)
    ensures ValidConfig(SAMPLE_CONFIG) && GoodSize(2800)
    ensures var t := InitTrack(SAMPLE_CONFIG);
      var e := Offer(2800, 2, NEAR, 0.0, msg);
      var t1 := PortStep(env, 0, t, e);
      var t2 := PortStep(env, 0, t1, e);
      && Regular(SAMPLE_CONFIG, 2800, t1) && !t1.port.flag
      && PortEnabled(t1, e) && RegularEvent(SAMPLE_CONFIG, 2800, e)
      && Regular(SAMPLE_CONFIG, 2800, t2) && StaysBusy(env, 0, t2, [])
      && PortEnabled(t2, Wakeup(2240.0, msg))
  {
    hide PortStep, Regular, Holds, CommittedRate, Act, Sane, Idle;
    Thresholds();
    var c, t := SAMPLE_CONFIG, InitTrack(SAMPLE_CONFIG);
    var e := Offer(2800, 2, NEAR, 0.0, msg);
    FreshIsRegular(c, 2800);
    SampleHorizon(c, e);
    First(env, 0, NEAR, msg);
    StepKeepsRegular(env, c, 0, 2800, t, e);
    var t1 := PortStep(env, 0, t, e);
    Second(env, 0, t1, 2800, NEAR, msg);
    StepKeepsRegular(env, c, 0, 2800, t1, e);
    assert (8 * 2800) as real / 10.0 == 2240.0;
    StepClock(env, 0, t1, e);
    OnePendingIsEnabled(PortStep(env, 0, t1, e), Wakeup(2240.0, msg));
  }

  lemma SampleHorizon(c: PortConfig, e: PortEvent)
    requires c.bandwidth > 0.0 && e.at == 0.0
    ensures InHorizon(c, e.at)
  {
  }

  // ----- Events whose undo fails -----

  /** With the default parameters, a 1400-byte packet of priority 1 that arrives at time 1000
      at a fresh port is sent at once, and undoing the event leaves the green dropper of
      priority 0 with q_time 1000 instead of 0. */
  lemma UndoFailsForPriorityOne(env: Env, packet: Packet, nextHop: int, msg: Message)
    requires env.variant == Written && packet.tos == 1 && packet.sizeInBytes == 1400
    ensures ValidConfig(SAMPLE_CONFIG)
    ensures var p := InitPort(SAMPLE_CONFIG);
      var o := Arrive(env, p, 0, packet, nextHop, 1000.0, msg);
      && o.departed.Some?
      && CanUndoArrive(o.port, 1, o.bits, o.snapshot)
      && !Restored(UndoArrive(o.port, 1, o.bits, o.snapshot), p)
  {
    hide Arrive, UndoArrive, CanUndoArrive, Judge, Shaper.Poll;
    var p := InitPort(SAMPLE_CONFIG);
    InitSane(SAMPLE_CONFIG);
    SaneCapacity(SAMPLE_CONFIG, p, 0.0);
    FreshPortServes(env, packet, nextHop, msg);
    IdleQueues(p, packet, nextHop);
    ArriveServesIff(env, p, 0, packet, nextHop, 1000.0, msg);
    var o := Arrive(env, p, 0, packet, nextHop, 1000.0, msg);
    IdleArriveUndoExact(env, p, 0, packet, nextHop, 1000.0, msg, o.port.lastPriority);
    assert o.port.(lastPriority := o.port.lastPriority) == o.port;
  }

  lemma FreshPortServes(env: Env, packet: Packet, nextHop: int, msg: Message)
    requires packet.tos == 1 && packet.sizeInBytes == 1400
    ensures var p := InitPort(SAMPLE_CONFIG);
      && !Judge(env, p, packet, 1000.0, 1, msg.snapshot).drop
      && Shaper.Ready(Shaper.Poll(p.bucket, 1000.0), 1400)
  {
    hide Metering.Update, Shaper.Poll, Dropping.Sampled;
    FreshMeterIsGreen();
    FreshBucketIsFull();
    FreshDropperAdmits(env);
  }

  lemma FreshMeterIsGreen()
    ensures Metering.Update(InitPort(SAMPLE_CONFIG).meters[1], 1400, 1000.0).1 == Metering.Green
  {
    hide NewTokens;
    var m := InitPort(SAMPLE_CONFIG).meters[1];
    var n := NewTokens(Metering.Rate(m), 0.0, 1000.0);
    assert Earned(Metering.Rate(m), 0.0, 1000.0) == 10000.0 / 3.0;
    assert n <= 3334;
  }

  lemma FreshBucketIsFull()
    ensures Shaper.Poll(InitPort(SAMPLE_CONFIG).bucket, 1000.0).tokens == SHAPER_CAPACITY
  {
    hide NewTokens, Earned;
  }

  lemma FreshDropperAdmits(env: Env)
    ensures var d := InitPort(SAMPLE_CONFIG).droppers[3];
      !Dropping.Drops(Dropping.Sampled(d, 0, 1000.0, env.power))
  {
  }

  /** One packet of priority 2 at time 0, which empties the bucket, and one of priority 0 at
      time 1000, which then waits alone. */
  function TwoArrivals(msg: Message): seq<PortEvent> {
    [Offer(2800, 2, NEAR, 0.0, msg), Offer(2800, 0, NEAR, 1000.0, msg)]
  }

  lemma {:induction false} TwoArrivalsRun(env: Env, msg: Message)
    ensures ValidConfig(SAMPLE_CONFIG)
    ensures var t := InitTrack(SAMPLE_CONFIG);
      var es := TwoArrivals(msg);
      var p := PortRun(env, 0, t, es).port;
      && ValidPortRun(env, 0, t, es)
      && PortRun(env, 0, t, es).log.pending == multiset{2240.0} && PortRun(env, 0, t, es).log.clock == 1000.0
      && p.flag && p.queues[0].packets == [Queued(2800, 0, NEAR)]
      && p.bucket == Shaper.Bucket(SHAPER_CAPACITY, 10000, 10.0, 10.0, 1000.0)
      && p.droppers[0].qTime == 0.0 && p.droppers[1].qTime == 1000.0
  {
    hide PortStep, CommittedRate, ValidPortRun, PortRun, InitTrack, ValidConfig, Judge;
    var es := TwoArrivals(msg);
    First(env, 0, NEAR, msg);
    var t := InitTrack(SAMPLE_CONFIG);
    EmptyRun(env, 0, t);
    OneStep(env, 0, t, [], es[0]);
    assert [] + [es[0]] == es[..1] && es[..1] + [es[1]] == es;
    var t1 := PortStep(env, 0, t, es[0]);
    WaitsAt1000(env, t1, msg);
    OneStep(env, 0, t, es[..1], es[1]);
  }

  lemma {:induction false} WaitsAt1000(env: Env, t: Track, msg: Message)
    requires Holds(t, [], [], 0, 224000, 201600, 0.0) && !t.port.flag && t.log.pending == multiset{}
    ensures var e := Offer(2800, 0, NEAR, 1000.0, msg);
      var t' := PortStep(env, 0, t, e);
      var p := t'.port;
      && PortEnabled(t, e) && t'.log.pending == multiset{2240.0} && t'.log.clock == 1000.0
      && p.flag && p.queues[0].packets == [Queued(2800, 0, NEAR)]
      && p.bucket == Shaper.Bucket(SHAPER_CAPACITY, 10000, 10.0, 10.0, 1000.0)
      && p.droppers[0].qTime == 0.0 && p.droppers[1].qTime == 1000.0
  {
    hide Judge, FirstBusy, PortStep, CommittedRate, Metering.Update;
    var e := Offer(2800, 0, NEAR, 1000.0, msg);
    SampleRate();
    assert Bytes([]) == 0;
    MeterLater(t.port.meters[0], 2800, 1000.0);
    AdmittedLater(env, t.port, e.packet, 1000.0, 0, msg);
    var q := Enqueue(Judge(env, t.port, e.packet, 1000.0, 0, msg.snapshot).port, e.packet, NEAR.hop);
    FirstBusyIsUnique(q.queues, 0);
    SampleEarned(0.0, 1000.0);
    Waits(env, 0, t, e);
  }

  lemma SampleRate()
    ensures 0.0 <= Earned(CommittedRate(10.0) / 1000.0, 0.0, 1000.0) < 100000.0
    ensures 0.0 <= Earned(CommittedRate(10.0) / 1000.0, 0.0, 2240.0) < 100000.0
  {
  }

  /** Whole nanoseconds earn ten tokens each. */
  lemma SampleEarned(last: real, now: real)
    requires last <= now <= last + 10000.0 && (10.0 * (now - last)).Floor as real == 10.0 * (now - last)
    ensures NewTokens(10.0, last, now) as real == 10.0 * (now - last)
  {
  }

  /** As written, the SEND event that serves this packet is not undone: the green dropper of
      priority 0 is left with q_time 0 instead of 1000. */
  lemma {:induction false} SendUndoFails(env: Env, msg: Message)
    requires env.variant == Written
    ensures ValidConfig(SAMPLE_CONFIG)
    ensures var t := PortRun(env, 0, InitTrack(SAMPLE_CONFIG), TwoArrivals(msg));
      var o := Send(env, t.port, 0, 2240.0, msg);
      && ValidPortRun(env, 0, InitTrack(SAMPLE_CONFIG), TwoArrivals(msg))
      && PortEnabled(t, Wakeup(2240.0, msg))
      && CanUndoSend(env, o.port, o.bits, o.snapshot)
      && !Restored(UndoSend(env, o.port, o.bits, o.snapshot), t.port)
  {
    hide PortStep, CommittedRate, ValidPortRun, PortRun, Send, UndoSend, CanUndoSend, Sane, FirstBusy;
    TwoArrivalsRun(env, msg);
    var c := SAMPLE_CONFIG;
    var t := PortRun(env, 0, InitTrack(c), TwoArrivals(msg));
    FreshIsRegular(c, 2800);
    RunKeepsBase(env, c, 0, InitTrack(c), TwoArrivals(msg));
    SaneCapacity(c, t.port, 1000.0);
    OnePendingIsEnabled(t, Wakeup(2240.0, msg));
    FirstBusyIsUnique(t.port.queues, 0);
    SampleEarned(1000.0, 2240.0);
    SendServesIff(env, t.port, 0, 2240.0, msg);
    SendLeavesPriority(env, t.port, 2240.0, msg);
    SendUndoneAtOnce(t.port, 2240.0);
    var o := Send(env, t.port, 0, 2240.0, msg);
    SendUndoExact(env, t.port, 0, 2240.0, msg, 0);
    assert o.port.(lastPriority := 0) == o.port;
  }

  lemma SendLeavesPriority(env: Env, p: PortState, now: real, msg: Message)
    requires SendServes(p, now)
    ensures Send(env, p, 0, now, msg).port.lastPriority == FirstBusy(p.queues)
  {
    hide FirstBusy, Shaper.Poll, Shaper.Consume, Shaper.NextAvailableTime, Shaper.Ready, NextSize, Forwarded, Touch,
         PollFault, EmptyHead;
  }

  // ----- A stack of events whose rollback fails -----

  /** A full bucket's worth of priority 2, then one packet each of priorities 2 and 0. */
  function ThreeArrivals(msg: Message): seq<PortEvent> {
    [Offer(2800, 2, NEAR, 0.0, msg), Offer(2800, 2, NEAR, 0.0, msg), Offer(2800, 0, NEAR, 0.0, msg)]
  }

  lemma {:induction false} ThreeArrivalsRun(env: Env, msg: Message)
    ensures ValidConfig(SAMPLE_CONFIG)
    ensures var t := InitTrack(SAMPLE_CONFIG);
      var es := ThreeArrivals(msg);
      && ValidPortRun(env, 0, t, es)
      && Holds(PortRun(env, 0, t, es), [Queued(2800, 0, NEAR)], [Queued(2800, 2, NEAR)], 0, 201600, 179200, 0.0)
      && PortRun(env, 0, t, es).log.pending == multiset{2240.0} && PortRun(env, 0, t, es).port.flag
  {
    hide PortStep, PortEnabled, CommittedRate, Holds, ValidPortRun, PortRun, InitTrack, ValidConfig;
    var es := ThreeArrivals(msg);
    First(env, 0, NEAR, msg);
    var t := InitTrack(SAMPLE_CONFIG);
    EmptyRun(env, 0, t);
    OneStep(env, 0, t, [], es[0]);
    var t1 := PortStep(env, 0, t, es[0]);
    Second(env, 0, t1, 2800, NEAR, msg);
    assert (8 * 2800) as real / 10.0 == 2240.0;
    assert [] + [es[0]] == es[..1] && es[..1] + [es[1]] == es[..2] && es[..2] + [es[2]] == es;
    OneStep(env, 0, t, es[..1], es[1]);
    var t2 := PortStep(env, 0, t1, es[1]);
    HighPriority(env, 0, t2, [], [Queued(2800, 2, NEAR)], 2800, 224000, 179200, NEAR, msg);
    OneStep(env, 0, t, es[..2], es[2]);
    assert [] + [Queued(2800, 0, NEAR)] == [Queued(2800, 0, NEAR)];
  }

  /** The first SEND event serves the packet of priority 0 and schedules the second one. */
  lemma {:induction false} StackFirst(env: Env, t: Track, msg: Message)
    requires Holds(t, [Queued(2800, 0, NEAR)], [Queued(2800, 2, NEAR)], 0, 201600, 179200, 0.0)
    requires t.log.pending == multiset{2240.0} && t.port.flag
    ensures SendEmpties(t.port, 2240.0) && FirstBusy(t.port.queues) == 0
    ensures PortEnabled(t, Wakeup(2240.0, msg))
    ensures var t' := PortStep(env, 0, t, Wakeup(2240.0, msg));
      && t'.port.flag && t'.log.pending == multiset{4480.0} && t'.log.clock == 2240.0
      && t'.port.queues == t.port.queues[0 := QueueFifo.Queue([], 5000000)]
      && t'.port.bucket == Shaper.Bucket(SHAPER_CAPACITY, 0, 10.0, 10.0, 2240.0)
      && (env.variant == Written ==> forall k :: 2 <= k < 6 ==> t'.port.droppers[k] == t.port.droppers[k])
  {
    hide FirstBusy, NewTokens, Forwarded, InjectionDelay, CommittedRate, PollFault, EmptyHead;
    var p := t.port;
    FirstBusyIsUnique(p.queues, 0);
    SampleEarned(0.0, 2240.0);
    var b := Shaper.Poll(p.bucket, 2240.0);
    assert b == Shaper.Bucket(SHAPER_CAPACITY, 22400, 10.0, 10.0, 2240.0);
    NothingNew(10.0, 2240.0);
    var d := Depart(env, Polled(p, 2240.0), 2240.0);
    assert d.port.queues == p.queues[0 := QueueFifo.Queue([], 5000000)];
    FirstBusyIsUnique(d.port.queues, 2);
    assert WakeDelay(d.port.bucket, 2800, 2240.0) == 2240.0;
    assert multiset{2240.0} - multiset{2240.0} == multiset{};
  }

  /** As written, two SEND events of one port, each undone correctly when undone at once, are not
      undone correctly as a stack: undoing the second leaves its own last priority, 2, behind,
      so undoing the first writes the droppers 2 and 3 instead of 0 and 1. */
  lemma {:induction false} StackUndoFails(env: Env, msg: Message)
    requires env.variant == Written
    ensures ValidConfig(SAMPLE_CONFIG)
    ensures var t := PortRun(env, 0, InitTrack(SAMPLE_CONFIG), ThreeArrivals(msg));
      var t1 := PortStep(env, 0, t, Wakeup(2240.0, msg));
      var o1, o2 := Send(env, t.port, 0, 2240.0, msg), Send(env, t1.port, 0, 4480.0, msg);
      && ValidPortRun(env, 0, InitTrack(SAMPLE_CONFIG), ThreeArrivals(msg))
      && PortEnabled(t, Wakeup(2240.0, msg)) && PortEnabled(t1, Wakeup(4480.0, msg))
      && t1.port == o1.port
      && CanUndoSend(env, o1.port, o1.bits, o1.snapshot)
      && Restored(UndoSend(env, o1.port, o1.bits, o1.snapshot), t.port)
      && CanUndoSend(env, o2.port, o2.bits, o2.snapshot)
      && var u := UndoSend(env, o2.port, o2.bits, o2.snapshot);
      && Restored(u, t1.port)
      && CanUndoSend(env, u, o1.bits, o1.snapshot)
      && !Restored(UndoSend(env, u, o1.bits, o1.snapshot), t.port)
  {
    hide CommittedRate, ValidPortRun, PortRun, Send, UndoSend, CanUndoSend, Sane, FirstBusy, SendEmpties, Base;
    ThreeArrivalsRun(env, msg);
    var c, t0 := SAMPLE_CONFIG, InitTrack(SAMPLE_CONFIG);
    var t := PortRun(env, 0, t0, ThreeArrivals(msg));
    StackFirst(env, t, msg);
    var t1 := PortStep(env, 0, t, Wakeup(2240.0, msg));
    SampleCapacity(env, t, msg);
    OnePendingIsEnabled(t1, Wakeup(4480.0, msg));
    var o1, o2 := Send(env, t.port, 0, 2240.0, msg), Send(env, t1.port, 0, 4480.0, msg);
    StackSecond(t1.port);
    SendEmptiesServes(t.port, 2240.0);
    SendEmptiesServes(t1.port, 4480.0);
    SendLeavesPriority(env, t.port, 2240.0, msg);
    SendLeavesPriority(env, t1.port, 4480.0, msg);
    SendUndoExact(env, t.port, 0, 2240.0, msg, 0);
    SendUndoExact(env, t1.port, 0, 4480.0, msg, 2);
    SendUndoExact(env, t.port, 0, 2240.0, msg, 2);
    assert o1.port.(lastPriority := 0) == o1.port && o2.port.(lastPriority := 2) == o2.port;
    var u := UndoSend(env, o2.port, o2.bits, o2.snapshot);
    SendUndoneDroppers(env, t1.port, 0, 4480.0, msg, 2);
    assert u == o1.port.(lastPriority := 2);
    assert !SendCovered(t.port, 2240.0, 2) by {
      assert t.port.droppers[0].qTime == 0.0;
    }
  }

  /** Queues stay within their capacities over the run. */
  lemma {:induction false} SampleCapacity(env: Env, t: Track, msg: Message)
    requires ValidConfig(SAMPLE_CONFIG)
    requires t == PortRun(env, 0, InitTrack(SAMPLE_CONFIG), ThreeArrivals(msg))
    requires ValidPortRun(env, 0, InitTrack(SAMPLE_CONFIG), ThreeArrivals(msg))
    requires PortEnabled(t, Wakeup(2240.0, msg)) && t.log.clock == 0.0
    ensures WithinCapacity(t.port) && WithinCapacity(PortStep(env, 0, t, Wakeup(2240.0, msg)).port)
    ensures PortStep(env, 0, t, Wakeup(2240.0, msg)).log.clock == 2240.0
  {
    hide PortRun, ValidPortRun, Sane, WithinCapacity, Act, Busy, Idle;
    var c := SAMPLE_CONFIG;
    FreshIsRegular(c, 2800);
    RunKeepsBase(env, c, 0, InitTrack(c), ThreeArrivals(msg));
    SaneCapacity(c, t.port, t.log.clock);
    StepKeepsBase(env, c, 0, t, Wakeup(2240.0, msg));
    SaneCapacity(c, PortStep(env, 0, t, Wakeup(2240.0, msg)).port, 2240.0);
  }

  lemma StackSecond(p: PortState)
    requires p.bucket == Shaper.Bucket(SHAPER_CAPACITY, 0, 10.0, 10.0, 2240.0)
    requires p.queues[0].packets == [] && p.queues[1].packets == [] && p.queues[2].packets == [Queued(2800, 2, NEAR)]
    ensures SendEmpties(p, 4480.0) && FirstBusy(p.queues) == 2
  {
    hide FirstBusy, NewTokens;
    FirstBusyIsUnique(p.queues, 2);
    SampleEarned(2240.0, 4480.0);
  }

  // ----- A packet forwarded to the wrong neighbour -----

  /** A packet for `near` takes the whole bucket, another one waits, and when its tokens have
      come a packet for `far` arrives. */
  function NearArrivals(near: Target, msg: Message): seq<PortEvent> {
    [Offer(2800, 2, near, 0.0, msg), Offer(2800, 2, near, 0.0, msg)]
  }

  lemma {:induction false} NearArrivalsRun(env: Env, portId: nat, near: Target, msg: Message)
    ensures ValidConfig(SAMPLE_CONFIG)
    ensures var t := InitTrack(SAMPLE_CONFIG);
      var es := NearArrivals(near, msg);
      && ValidPortRun(env, portId, t, es)
      && Holds(PortRun(env, portId, t, es), [], [Queued(2800, 2, near)], 0, 224000, 179200, 0.0)
      && PortRun(env, portId, t, es).log.pending == multiset{2240.0}
  {
    hide PortStep, PortEnabled, CommittedRate, Holds, ValidPortRun, PortRun, InitTrack, ValidConfig;
    var es := NearArrivals(near, msg);
    First(env, portId, near, msg);
    var t := InitTrack(SAMPLE_CONFIG);
    EmptyRun(env, portId, t);
    OneStep(env, portId, t, [], es[0]);
    var t1 := PortStep(env, portId, t, es[0]);
    Second(env, portId, t1, 2800, near, msg);
    assert (8 * 2800) as real / 10.0 == 2240.0;
    assert [] + [es[0]] == es[..1] && es[..1] + [es[1]] == es;
    OneStep(env, portId, t, es[..1], es[1]);
  }

  /** The waiting packet is served by the arrival of the other one. */
  lemma {:induction false} ServesTheWaiting(env: Env, portId: nat, t: Track, near: Target, far: Target, msg: Message)
    requires Holds(t, [], [Queued(2800, 2, near)], 0, 224000, 179200, 0.0)
    ensures var e := Offer(2800, 2, far, 2240.0, msg);
      Serves(env, portId, t.port, e) && Candidate(t.port, e) == Queued(2800, 2, near)
  {
    hide Judge, FirstBusy, CommittedRate, Metering.Update, NewTokens;
    var e := Offer(2800, 2, far, 2240.0, msg);
    SampleRate();
    assert Bytes([Queued(2800, 2, near)]) == 2800 + Bytes([]);
    MeterLater(t.port.meters[2], 2800, 2240.0);
    AdmittedLater(env, t.port, e.packet, 2240.0, NUM_QOS_LEVEL * portId + 2, msg);
    var q := Enqueue(t.port, e.packet, far.hop);
    FirstBusyIsUnique(q.queues, 2);
    SampleEarned(0.0, 2240.0);
  }

  /** If a routing table sends two destinations through one port to different neighbours, a packet
      for the one can be forwarded to the neighbour of the other. */
  lemma {:induction false} MisforwardIsReachable(env: Env, portId: nat, routing: seq<Route>, a: nat, b: nat,
      msg: Message)
    requires a < |routing| && b < |routing| && routing[a].port == portId && routing[b].port == portId
    requires routing[a].nextHop != routing[b].nextHop
    ensures ValidConfig(SAMPLE_CONFIG)
    ensures var t := InitTrack(SAMPLE_CONFIG);
      var es := NearArrivals(Target(a, routing[a].nextHop), msg);
      var e := Offer(2800, 2, Target(b, routing[b].nextHop), 2240.0, msg);
      && ValidPortRun(env, portId, t, es) && PortEnabled(PortRun(env, portId, t, es), e)
      && (forall i :: 0 <= i < |es| ==> WellRouted(routing, portId, es[i])) && WellRouted(routing, portId, e)
      && var f := Act(env, portId, PortRun(env, portId, t, es).port, e).forward;
         f.Some? && f.value.packet.dest == a && f.value.target == routing[b].nextHop
  {
    hide ValidPortRun, PortRun, Act, InitTrack, Serves, Candidate, CommittedRate;
    var near, far := Target(a, routing[a].nextHop), Target(b, routing[b].nextHop);
    NearArrivalsRun(env, portId, near, msg);
    var t := PortRun(env, portId, InitTrack(SAMPLE_CONFIG), NearArrivals(near, msg));
    var e := Offer(2800, 2, far, 2240.0, msg);
    ServesTheWaiting(env, portId, t, near, far, msg);
    ServesIff(env, portId, t.port, e);
    ForwardTarget(env, portId, t.port, e);
  }

  /** Whatever a port of this configuration forwards goes where its own routing entry points. */
  ghost predicate AlwaysForwardsRight(env: Env, portId: nat, routing: seq<Route>) {
    ValidConfig(SAMPLE_CONFIG) &&
    forall es, e :: RoutedRun(env, portId, routing, es, e) ==>
      var f := Act(env, portId, PortRun(env, portId, InitTrack(SAMPLE_CONFIG), es).port, e).forward;
      f.Some? ==> ForwardedRight(routing, f.value)
  }

  /** A run from initialisation and its next event, with every packet routed by the table. */
  ghost predicate RoutedRun(env: Env, portId: nat, routing: seq<Route>, es: seq<PortEvent>, e: PortEvent)
    requires ValidConfig(SAMPLE_CONFIG)
  {
    && ValidPortRun(env, portId, InitTrack(SAMPLE_CONFIG), es)
    && PortEnabled(PortRun(env, portId, InitTrack(SAMPLE_CONFIG), es), e)
    && (forall i :: 0 <= i < |es| ==> WellRouted(routing, portId, es[i])) && WellRouted(routing, portId, e)
  }

  /** One neighbour per port is exactly what right forwarding needs. */
  lemma {:induction false} SingleNeighbourIsExact(env: Env, portId: nat, routing: seq<Route>, msg: Message)
    ensures AlwaysForwardsRight(env, portId, routing) <==> SingleNeighbour(routing, portId)
  {
    hide PortRun, Act, InitTrack;
    Thresholds();
    var t := InitTrack(SAMPLE_CONFIG);
    if SingleNeighbour(routing, portId) {
      FreshRouted(SAMPLE_CONFIG, routing, portId);
      forall es, e | RoutedRun(env, portId, routing, es, e)
        ensures var f := Act(env, portId, PortRun(env, portId, t, es).port, e).forward;
          f.Some? ==> ForwardedRight(routing, f.value)
      {
        OneStep(env, portId, t, es, e);
        RunForwards(env, portId, routing, t, es + [e]);
        assert (es + [e])[..|es|] == es;
      }
    } else {
      var a: nat, b: nat :| a < |routing| && b < |routing| && routing[a].port == portId && routing[b].port == portId
        && routing[a].nextHop != routing[b].nextHop;
      MisforwardIsReachable(env, portId, routing, a, b, msg);
      var es := NearArrivals(Target(a, routing[a].nextHop), msg);
      var e := Offer(2800, 2, Target(b, routing[b].nextHop), 2240.0, msg);
      assert RoutedRun(env, portId, routing, es, e);
    }
  }
}
