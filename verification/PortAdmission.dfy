/** Which packets a port admits, and what an event does to its meters and droppers, told from the
    state before the event. */
module PortAdmission {
  import opened Types
  import opened QueueFifo
  import opened Scheduling
  import opened Ports
  import opened PortRollback
  import opened PortServing
  import opened Runs
  import Shaper
  import Metering
  import Dropping

  // ----- Admission -----

  /** The average after the dropper saw a queue of this length. */
  function NewAverage(d: Dropping.Dropper, length: nat, now: real, power: (real, real) -> real): (avg: real)
    ensures length > 0 ==> length as real - avg == (1.0 - d.wq) * (length as real - d.avg)
    ensures length == 0 ==> avg == power(1.0 - d.wq, (now - d.qTime) * 0.00000015) * d.avg
  {
    Dropping.AverageMoves(d, length, now, power);
    Dropping.Sampled(d, length, now, power).avg
  }

  /** The committed tokens of the packet's meter, with those earned by now, pay for it. */
  predicate IsGreen(p: PortState, packet: Packet, now: real)
    requires packet.tos < NUM_QOS_LEVEL
  {
    8 * packet.sizeInBytes <= Metering.Refreshed(p.meters[packet.tos], now).tc
  }

  /** They do not, but the excess tokens do. */
  predicate IsYellow(p: PortState, packet: Packet, now: real)
    requires packet.tos < NUM_QOS_LEVEL
  {
    !IsGreen(p, packet, now) && 8 * packet.sizeInBytes <= Metering.Refreshed(p.meters[packet.tos], now).te
  }

  predicate FitsQueue(p: PortState, packet: Packet)
    requires packet.tos < NUM_QOS_LEVEL
  {
    Bytes(p.queues[packet.tos].packets) + packet.sizeInBytes <= p.queues[packet.tos].capacity
  }

  /** A dropper is asked about every packet that is green or yellow and fits its queue. */
  predicate Consults(p: PortState, packet: Packet, now: real)
    requires packet.tos < NUM_QOS_LEVEL
  {
    (IsGreen(p, packet, now) || IsYellow(p, packet, now)) && FitsQueue(p, packet)
  }

  /** The dropper of the packet's priority and color: yellow even, green odd. */
  function Consulted(p: PortState, packet: Packet, now: real): nat
    requires packet.tos < NUM_QOS_LEVEL
  {
    if IsGreen(p, packet, now) then 2 * packet.tos + 1 else 2 * packet.tos
  }

  /** A packet is admitted if it is green or yellow, fits its queue, and leaves the average of the
      dropper of its color below the threshold. */
  predicate Admits(env: Env, p: PortState, packet: Packet, now: real)
    requires packet.tos < NUM_QOS_LEVEL
  {
    Consults(p, packet, now) &&
    var d := p.droppers[Consulted(p, packet, now)];
    NewAverage(d, |p.queues[packet.tos].packets|, now, env.power) < d.maxth
  }

  /** The verdict on a packet, its bits, and exactly what it changes: the tokens of the packet's
      meter, and the average (and, for an empty queue, the q_time) of the one dropper consulted. */
  lemma JudgeIff(env: Env, p: PortState, packet: Packet, now: real, index: int, snap: Snapshot)
    requires packet.tos < NUM_QOS_LEVEL
    ensures var v := Judge(env, p, packet, now, index, snap);
      var t, k, bits := packet.tos, Consulted(p, packet, now), 8 * packet.sizeInBytes;
      var m := Metering.Refreshed(p.meters[t], now);
      && v.drop == !Admits(env, p, packet, now)
      && v.bits.c5 == (IsYellow(p, packet, now) && FitsQueue(p, packet))
      && v.bits.c6 == (IsGreen(p, packet, now) && FitsQueue(p, packet))
      && v.port.meters == p.meters[t := m.(tc := if IsGreen(p, packet, now) then m.tc - bits else m.tc,
                                           te := if IsYellow(p, packet, now) then m.te - bits else m.te)]
      && v.port == p.(meters := v.port.meters, droppers := v.port.droppers)
      && forall j :: 0 <= j < 2 * NUM_QOS_LEVEL ==>
           var d, length := p.droppers[j], |p.queues[t].packets|;
           v.port.droppers[j] ==
             if Consults(p, packet, now) && j == k
             then d.(avg := NewAverage(d, length, now, env.power), qTime := if length == 0 then now else d.qTime)
             else d
  {
    hide Metering.Refreshed, Bytes;
  }

  /** The drop decision on a packet of a given color. */
  lemma DecideIff(env: Env, p: PortState, packet: Packet, color: Metering.Color, now: real, snap: Snapshot)
    requires packet.tos < NUM_QOS_LEVEL
    ensures var d := p.droppers[if color == Metering.Green then 2 * packet.tos + 1 else 2 * packet.tos];
      Decide(env, p, packet, color, now, snap).drop <==>
        || color == Metering.Red || !FitsQueue(p, packet)
        || NewAverage(d, |p.queues[packet.tos].packets|, now, env.power) >= d.maxth
  {
    hide Bytes;
  }

  /** The color, when no word overflows: section 3 of RFC 2697 with one increment per whole token
      earned. */
  lemma ColorsAreRfc(p: PortState, packet: Packet, now: real)
    requires packet.tos < NUM_QOS_LEVEL && packet.sizeInBytes >= 0
    requires Metering.Sound(p.meters[packet.tos], now) && Metering.UpdateFits(p.meters[packet.tos], now)
    ensures var color := Metering.RfcUpdate(p.meters[packet.tos], packet.sizeInBytes, now).1;
      && (IsGreen(p, packet, now) <==> color == Metering.Green)
      && (IsYellow(p, packet, now) <==> color == Metering.Yellow)
  {
    hide Metering.Refreshed, Metering.RfcUpdate;
    Metering.UpdateIsRfc(p.meters[packet.tos], packet.sizeInBytes, now);
  }

  // ----- Whole events -----

  /** The event consults dropper `k`. */
  predicate Samples(p: PortState, e: PortEvent, k: nat)
    requires e.Incoming? ==> e.packet.tos < NUM_QOS_LEVEL
  {
    e.Incoming? && Consults(p, e.packet, e.at) && k == Consulted(p, e.packet, e.at)
  }

  /** The event serves the last packet of a queue. */
  predicate Empties(env: Env, portId: nat, p: PortState, e: PortEvent)
    requires e.Incoming? ==> e.packet.tos < NUM_QOS_LEVEL
  {
    match e
    case Incoming(at, packet, nextHop, msg) => ArriveEmpties(env, p, portId, packet, nextHop, at, msg)
    case Wakeup(at, msg) => SendEmpties(p, at)
  }

  /** When the event runs the first busy queue empty, it sets the q_time of these two droppers: the
      pair of that queue in the repaired variant, those at `priority` and `priority + 1` as written. */
  predicate Touches(env: Env, portId: nat, p: PortState, e: PortEvent, k: nat)
    requires e.Incoming? ==> e.packet.tos < NUM_QOS_LEVEL
  {
    Empties(env, portId, p, e) &&
    var q := if e.Incoming? then Enqueue(p, e.packet, e.nextHop) else p;
    var prio := FirstBusy(q.queues);
    if env.variant == Repaired then k / 2 == prio else prio <= k <= prio + 1
  }

  lemma DepartTouchesPair(env: Env, p: PortState, now: real)
    requires !Idle(p)
    ensures var d := Depart(env, p, now);
      && d.prio == FirstBusy(p.queues) < NUM_QOS_LEVEL && d.port.meters == p.meters
      && forall k :: 0 <= k < 2 * NUM_QOS_LEVEL ==>
           d.port.droppers[k] ==
             if d.emptied && (if env.variant == Repaired then k / 2 == d.prio else d.prio <= k <= d.prio + 1)
             then p.droppers[k].(qTime := now) else p.droppers[k]
  {
    hide FirstBusy, Shaper.Consume;
  }

  /** An ARRIVE event admits exactly the packets that the state before it admits. */
  lemma {:induction false} ArriveAdmitsIff(env: Env, portId: nat, p: PortState, e: PortEvent)
    requires e.Incoming? && e.packet.tos < NUM_QOS_LEVEL
    ensures var o := Act(env, portId, p, e);
      && o.admitted == Admits(env, p, e.packet, e.at)
      && o.bits.c1 == !Admits(env, p, e.packet, e.at)
      && o.portId == (if Admits(env, p, e.packet, e.at) then portId else e.msg.port)
      && o.bits.c5 == (IsYellow(p, e.packet, e.at) && FitsQueue(p, e.packet))
      && o.bits.c6 == (IsGreen(p, e.packet, e.at) && FitsQueue(p, e.packet))
  {
    hide Judge, Depart, Shaper.Poll, Shaper.Ready, FirstBusy, WakeDelay, PollFault, Forwarded, Admits, IsGreen,
         IsYellow,
         FitsQueue, Enqueue;
    var index := NUM_QOS_LEVEL * portId + e.packet.tos;
    JudgeFrame(env, p, e.packet, e.at, index, e.msg.snapshot);
    JudgeIff(env, p, e.packet, e.at, index, e.msg.snapshot);
  }

  /** What an event does to the meters and droppers of its port. */
  ghost predicate Effect(env: Env, portId: nat, p: PortState, e: PortEvent, p': PortState)
    requires e.Incoming? ==> e.packet.tos < NUM_QOS_LEVEL
  {
    && (forall t :: 0 <= t < NUM_QOS_LEVEL ==>
          p'.meters[t] ==
            if e.Incoming? && t == e.packet.tos then Metered(p, e.packet, e.at) else p.meters[t])
    && (forall k :: 0 <= k < 2 * NUM_QOS_LEVEL ==> p'.droppers[k] == DropperAfter(env, portId, p, e, k))
  }

  function Metered(p: PortState, packet: Packet, now: real): Metering.Meter
    requires packet.tos < NUM_QOS_LEVEL
  {
    var m := Metering.Refreshed(p.meters[packet.tos], now);
    m.(tc := if IsGreen(p, packet, now) then m.tc - 8 * packet.sizeInBytes else m.tc,
       te := if IsYellow(p, packet, now) then m.te - 8 * packet.sizeInBytes else m.te)
  }

  function DropperAfter(env: Env, portId: nat, p: PortState, e: PortEvent, k: nat): Dropping.Dropper
    requires e.Incoming? ==> e.packet.tos < NUM_QOS_LEVEL
    requires k < 2 * NUM_QOS_LEVEL
  {
    var d := p.droppers[k];
    d.(avg := if Samples(p, e, k) then NewAverage(d, |p.queues[e.packet.tos].packets|, e.at, env.power) else d.avg,
       qTime := if Touches(env, portId, p, e, k) || (Samples(p, e, k) && p.queues[e.packet.tos].packets == [])
                then e.at else d.qTime)
  }

  /** The meter of an arriving packet is refreshed and pays for its color; the one dropper consulted
      gets the new average; q_times are set when a queue is found or runs empty. Nothing else
      changes in any meter or dropper. */
  lemma {:induction false} EventEffect(env: Env, portId: nat, p: PortState, e: PortEvent)
    requires e.Incoming? ==> e.packet.tos < NUM_QOS_LEVEL
    ensures Effect(env, portId, p, e, Act(env, portId, p, e).port)
  {
    hide Arrive, Send;
    match e {
      case Incoming(at, packet, nextHop, msg) => ArriveEffect(env, portId, p, e);
      case Wakeup(at, msg) => SendEffect(env, portId, p, e);
    }
  }

  lemma {:induction false} ArriveEffect(env: Env, portId: nat, p: PortState, e: PortEvent)
    requires e.Incoming? && e.packet.tos < NUM_QOS_LEVEL
    ensures Effect(env, portId, p, e, Act(env, portId, p, e).port)
  {
    hide Judge, Depart, Shaper.Poll, Shaper.Ready, NextSize, FirstBusy, WakeDelay, PollFault, Forwarded, Admits,
         IsGreen,
         IsYellow, FitsQueue, Enqueue, NewAverage, ArriveEmpties, ArriveServes, Metering.Refreshed, DepartureSnapshot;
    var index := NUM_QOS_LEVEL * portId + e.packet.tos;
    JudgeIff(env, p, e.packet, e.at, index, e.msg.snapshot);
    ArriveServesIff(env, p, portId, e.packet, e.nextHop, e.at, e.msg);
    ArriveEmptiesServes(env, p, portId, e.packet, e.nextHop, e.at, e.msg);
    OfferedDroppers(env, p, portId, e.packet, e.nextHop, e.at, e.msg);
    DepartTouchesPair(env, Offered(env, p, portId, e.packet, e.nextHop, e.at, e.msg), e.at);
  }

  lemma ArriveEmptiesServes(env: Env, p: PortState, portId: nat, packet: Packet, nextHop: int, now: real, msg: Message)
    requires packet.tos < NUM_QOS_LEVEL
    ensures ArriveEmpties(env, p, portId, packet, nextHop, now, msg) ==>
      ArriveServes(env, p, portId, packet, nextHop, now, msg)
  {
  }

  lemma OfferedDroppers(env: Env, p: PortState, portId: nat, packet: Packet, nextHop: int, now: real, msg: Message)
    requires packet.tos < NUM_QOS_LEVEL
    ensures var v := Judge(env, p, packet, now, NUM_QOS_LEVEL * portId + packet.tos, msg.snapshot);
      var q := Offered(env, p, portId, packet, nextHop, now, msg);
      && q == Polled(Enqueue(v.port, packet, nextHop), now)
      && q.droppers == v.port.droppers && q.meters == v.port.meters
      && q.queues == Enqueue(p, packet, nextHop).queues
  {
    hide Judge, Shaper.Poll;
    JudgeFrame(env, p, packet, now, NUM_QOS_LEVEL * portId + packet.tos, msg.snapshot);
  }

  lemma {:induction false} SendEffect(env: Env, portId: nat, p: PortState, e: PortEvent)
    requires e.Wakeup?
    ensures Effect(env, portId, p, e, Act(env, portId, p, e).port)
  {
    hide Depart, Shaper.Poll, Shaper.Ready, NextSize, FirstBusy, WakeDelay, PollFault, EmptyHead, Forwarded,
         SendEmpties,
         SendServes, DepartureSnapshot;
    SendServesIff(env, p, portId, e.at, e.msg);
    SendEmptiesServing(p, e.at);
    if !Idle(p) {
      DepartTouchesPair(env, Polled(p, e.at), e.at);
    }
  }

  lemma SendEmptiesServing(p: PortState, now: real)
    ensures SendEmpties(p, now) ==> SendServes(p, now)
    ensures SendServes(p, now) ==> !Idle(p)
  {
  }

  /** The log of a port records, for each dropper, the length of the queue at every event that
      consulted it, and nothing else. */
  lemma {:induction false} SamplesAreLengths(env: Env, portId: nat, t: Track, e: PortEvent)
    requires e.Incoming? ==> e.packet.tos < NUM_QOS_LEVEL
    ensures var t' := PortStep(env, portId, t, e);
      forall k :: 0 <= k < 2 * NUM_QOS_LEVEL ==>
        t'.log.samples[k] == if Samples(t.port, e, k) then t.log.samples[k] + [|t.port.queues[e.packet.tos].packets|]
                             else t.log.samples[k]
  {
    hide Act, IsGreen, IsYellow, FitsQueue, Admits;
    if e.Incoming? {
      ArriveAdmitsIff(env, portId, t.port, e);
      ColorsExclude(t.port, e.packet, e.at);
    }
  }

  lemma ColorsExclude(p: PortState, packet: Packet, now: real)
    requires packet.tos < NUM_QOS_LEVEL
    ensures !(IsGreen(p, packet, now) && IsYellow(p, packet, now))
  {
  }

  // ----- Long queues get RED drops -----

  /** From `avg0`, after the samples since `n0`, the average is above `low` less the shortfall. */
  ghost predicate Raised(d: Dropping.Dropper, samples: seq<nat>, n0: nat, low: real, avg0: real) {
    |samples| >= n0 && low - d.avg <= Dropping.Shortfall(d.wq, |samples| - n0, low, avg0)
  }

  lemma {:induction false} StepRaises(env: Env, portId: nat, t: Track, e: PortEvent, k: nat, n0: nat, low: real,
      avg0: real)
    requires e.Incoming? ==> e.packet.tos < NUM_QOS_LEVEL
    requires k < 2 * NUM_QOS_LEVEL && low > 0.0 && 0.0 <= t.port.droppers[k].wq <= 1.0
    requires Raised(t.port.droppers[k], t.log.samples[k], n0, low, avg0)
    requires Samples(t.port, e, k) ==> |t.port.queues[e.packet.tos].packets| as real >= low
    ensures var t' := PortStep(env, portId, t, e);
      && Raised(t'.port.droppers[k], t'.log.samples[k], n0, low, avg0)
      && t'.port.droppers[k].wq == t.port.droppers[k].wq && t'.port.droppers[k].maxth == t.port.droppers[k].maxth
  {
    hide Act, Samples, Touches, Dropping.Sampled, Dropping.Shortfall;
    EventEffect(env, portId, t.port, e);
    SamplesAreLengths(env, portId, t, e);
    if Samples(t.port, e, k) {
      ConsultedNeedsIncoming(t.port, e, k);
      Dropping.SampleRaises(t.port.droppers[k], |t.port.queues[e.packet.tos].packets|, e.at, env.power,
                            |t.log.samples[k]| - n0, low, avg0);
    }
  }

  lemma ConsultedNeedsIncoming(p: PortState, e: PortEvent, k: nat)
    requires (e.Incoming? ==> e.packet.tos < NUM_QOS_LEVEL) && Samples(p, e, k)
    ensures e.Incoming?
  {
  }

  /** Every time the run consults dropper `k` the queue is at least `low` long. */
  ghost predicate SampledLong(env: Env, portId: nat, t: Track, es: seq<PortEvent>, k: nat, low: real)
    requires WellTyped(es)
    decreases |es|
  {
    es == [] ||
    (var mid, e := PortRun(env, portId, t, es[..|es| - 1]), es[|es| - 1];
     SampledLong(env, portId, t, es[..|es| - 1], k, low)
     && (Samples(mid.port, e, k) ==> |mid.port.queues[e.packet.tos].packets| as real >= low))
  }

  lemma {:induction false} RunRaises(env: Env, portId: nat, t: Track, es: seq<PortEvent>, k: nat, low: real)
    requires WellTyped(es) && k < 2 * NUM_QOS_LEVEL && low > 0.0 && 0.0 <= t.port.droppers[k].wq <= 1.0
    requires SampledLong(env, portId, t, es, k, low)
    ensures var t' := PortRun(env, portId, t, es);
      && Raised(t'.port.droppers[k], t'.log.samples[k], |t.log.samples[k]|, low, t.port.droppers[k].avg)
      && t'.port.droppers[k].wq == t.port.droppers[k].wq && t'.port.droppers[k].maxth == t.port.droppers[k].maxth
    decreases |es|
  {
    hide PortStep, Samples;
    if es == [] {
      assert Dropping.Pow(1.0 - t.port.droppers[k].wq, 0) == 1.0;
    } else {
      RunRaises(env, portId, t, es[..|es| - 1], k, low);
      StepRaises(env, portId, PortRun(env, portId, t, es[..|es| - 1]), es[|es| - 1], k, |t.log.samples[k]|, low,
                 t.port.droppers[k].avg);
    }
  }

  /** RED drops: if a dropper has only seen queues of at least `low`, more than its threshold, and
      often enough for its weight, it drops the next packet about which it is asked. */
  lemma {:induction false} LongQueueIsDropped(env: Env, portId: nat, t: Track, es: seq<PortEvent>, e: PortEvent, k: nat,
      low: real)
    requires WellTyped(es + [e]) && k < 2 * NUM_QOS_LEVEL && low > 0.0
    requires SampledLong(env, portId, t, es + [e], k, low)
    requires var d := t.port.droppers[k];
      var n := |PortRun(env, portId, t, es + [e]).log.samples[k]| - |t.log.samples[k]|;
      && 0.0 <= d.wq <= 1.0 && d.maxth < low && d.avg <= low
      && low - d.avg <= (low - d.maxth) * (1.0 + n as real * d.wq)
    requires WellTyped(es) && Samples(PortRun(env, portId, t, es).port, e, k)
    ensures !Act(env, portId, PortRun(env, portId, t, es).port, e).admitted
  {
    hide Act, IsGreen, IsYellow, FitsQueue, Dropping.Shortfall, Dropping.Sampled, SampledLong, PortRun, Touches;
    RunRaises(env, portId, t, es + [e], k, low);
    var mid, t' := PortRun(env, portId, t, es), PortRun(env, portId, t, es + [e]);
    LastStep(env, portId, t, es, e);
    EventEffect(env, portId, mid.port, e);
    ArriveAdmitsIff(env, portId, mid.port, e);
    var d := t.port.droppers[k];
    Dropping.EnoughSamples(d.wq, |t'.log.samples[k]| - |t.log.samples[k]|, low, d.avg, d.maxth);
    SamePart(env, portId, t, es, e, k);
  }

  lemma LastStep(env: Env, portId: nat, t: Track, es: seq<PortEvent>, e: PortEvent)
    requires WellTyped(es + [e]) && WellTyped(es)
    ensures PortRun(env, portId, t, es + [e]).port == Act(env, portId, PortRun(env, portId, t, es).port, e).port
  {
    hide Act;
    assert (es + [e])[..|es|] == es;
  }

  lemma SamePart(env: Env, portId: nat, t: Track, es: seq<PortEvent>, e: PortEvent, k: nat)
    requires WellTyped(es + [e]) && WellTyped(es) && k < 2 * NUM_QOS_LEVEL
    ensures PortRun(env, portId, t, es + [e]).port.droppers[k].maxth == PortRun(env, portId, t,
        es).port.droppers[k].maxth
  {
    hide Act, PortRun;
    assert (es + [e])[|es|] == e;
    LastStep(env, portId, t, es, e);
    EventEffect(env, portId, PortRun(env, portId, t, es).port, e);
  }
}
