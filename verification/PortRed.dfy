/** The average queue length of the RED droppers over runs of a port. */
module PortRed {
  import opened Types
  import opened Conversion
  import opened QueueFifo
  import opened Scheduling
  import opened Ports
  import opened PortRollback
  import opened Runs
  import Shaper
  import Metering
  import Dropping

  /** The longest queue a dropper has sampled, 0 if it sampled none. */
  function Longest(samples: seq<nat>): nat {
    if samples == [] then 0
    else
      var rest := Longest(samples[..|samples| - 1]);
      var last := samples[|samples| - 1];
      if last > rest then last else rest
  }

  lemma {:induction false} LongestIsSampled(samples: seq<nat>)
    requires Longest(samples) > 0
    ensures exists i :: 0 <= i < |samples| && samples[i] == Longest(samples)
    decreases |samples|
  {
    var rest := samples[..|samples| - 1];
    if Longest(samples) == Longest(rest) {
      LongestIsSampled(rest);
      var i :| 0 <= i < |rest| && rest[i] == Longest(rest);
      assert samples[i] == Longest(samples);
    } else {
      assert samples[|samples| - 1] == Longest(samples);
    }
  }

  lemma LongestOfAppend(samples: seq<nat>, x: nat)
    ensures Longest(samples + [x]) >= Longest(samples) && Longest(samples + [x]) >= x
  {
    assert (samples + [x])[..|samples|] == samples;
  }

  ghost predicate AverageSound(d: Dropping.Dropper, samples: seq<nat>, now: real) {
    Dropping.Sound(d, Longest(samples) as real, now)
  }

  ghost predicate AveragesSound(t: Track) {
    forall k :: 0 <= k < 2 * NUM_QOS_LEVEL ==>
      AverageSound(t.port.droppers[k], t.log.samples[k], t.log.clock)
  }

  /** The droppers after an event, up to the q_times set when a queue runs empty. */
  lemma {:induction false} StepDroppers(env: Env, portId: nat, p: PortState, e: PortEvent)
    requires e.Incoming? ==> e.packet.tos < NUM_QOS_LEVEL
    ensures var o := Act(env, portId, p, e);
      forall k :: 0 <= k < 2 * NUM_QOS_LEVEL ==>
        var sampled := e.Incoming? && (o.bits.c5 || o.bits.c6)
                       && k == DropperIndex(e.packet.tos, o.bits.c6);
        var d := if sampled
          then Dropping.Sampled(p.droppers[k], |p.queues[e.packet.tos].packets|, e.at, env.power)
          else p.droppers[k];
        && (o.port.droppers[k] == d || o.port.droppers[k] == Dropping.TimeUpdate(d, e.at))
        && (sampled ==> (o.bits.c1 <==> Dropping.Drops(d)))
  {
    hide FirstBusy, Shaper.Poll, WakeDelay, Forwarded, Judge, Depart, Dropping.Sampled, Shaper.Ready, Dropping.Drops,
         NextSize, Dropping.TimeUpdate, PollFault;
    if e.Incoming? {
      var index := NUM_QOS_LEVEL * portId + e.packet.tos;
      JudgeFrame(env, p, e.packet, e.at, index, e.msg.snapshot);
      JudgeDroppers(env, p, e.packet, e.at, index, e.msg.snapshot);
      DepartDroppers(env, Offered(env, p, portId, e.packet, e.nextHop, e.at, e.msg), e.at);
    } else if !Idle(p) {
      DepartDroppers(env, Polled(p, e.at), e.at);
    }
  }

  lemma JudgeDroppers(env: Env, p: PortState, packet: Packet, now: real, index: int, snap: Snapshot)
    requires packet.tos < NUM_QOS_LEVEL
    ensures var v := Judge(env, p, packet, now, index, snap);
      forall k :: 0 <= k < 2 * NUM_QOS_LEVEL ==>
        var sampled := (v.bits.c5 || v.bits.c6) && k == DropperIndex(packet.tos, v.bits.c6);
        && v.port.droppers[k] == (if sampled
             then Dropping.Sampled(p.droppers[k], |p.queues[packet.tos].packets|, now, env.power)
             else p.droppers[k])
        && (sampled ==> (v.drop <==> Dropping.Drops(v.port.droppers[k])))
  {
    hide Metering.Update, Dropping.Sampled, Bytes, Dropping.Drops;
  }

  lemma DepartDroppers(env: Env, p: PortState, now: real)
    requires !Idle(p)
    ensures var d := Depart(env, p, now).port;
      forall k :: 0 <= k < 2 * NUM_QOS_LEVEL ==>
        d.droppers[k] == p.droppers[k] || d.droppers[k] == Dropping.TimeUpdate(p.droppers[k], now)
  {
    hide FirstBusy, Shaper.Consume, InjectionDelay, Dropping.TimeUpdate;
  }

  /** An event keeps every average between 0 and the longest queue its dropper sampled. */
  lemma {:induction false} StepKeepsAverages(env: Env, portId: nat, t: Track, e: PortEvent)
    requires Dropping.IsPower(env.power) && AveragesSound(t) && PortEnabled(t, e)
    ensures AveragesSound(PortStep(env, portId, t, e))
  {
    hide Act, Dropping.Sampled, Longest, Dropping.IsPower;
    StepDroppers(env, portId, t.port, e);
    var t' := PortStep(env, portId, t, e);
    var o := Act(env, portId, t.port, e);
    forall k | 0 <= k < 2 * NUM_QOS_LEVEL
      ensures AverageSound(t'.port.droppers[k], t'.log.samples[k], t'.log.clock)
    {
      if e.Incoming? && (o.bits.c5 || o.bits.c6) && k == DropperIndex(e.packet.tos, o.bits.c6) {
        var length := |t.port.queues[e.packet.tos].packets|;
        LongestOfAppend(t.log.samples[k], length);
        Dropping.SampledStaysBelow(t.port.droppers[k], length, e.at, env.power,
                                   Longest(t'.log.samples[k]) as real);
      }
    }
  }

  lemma {:induction false} RunKeepsAverages(env: Env, portId: nat, t: Track, es: seq<PortEvent>)
    requires Dropping.IsPower(env.power) && AveragesSound(t) && ValidPortRun(env, portId, t, es)
    ensures AveragesSound(PortRun(env, portId, t, es))
    decreases |es|
  {
    hide PortStep, AveragesSound, PortEnabled, Dropping.IsPower;
    if es != [] {
      RunKeepsAverages(env, portId, t, es[..|es| - 1]);
      StepKeepsAverages(env, portId, PortRun(env, portId, t, es[..|es| - 1]), es[|es| - 1]);
    }
  }

  /** A RED drop with a positive threshold means that the dropper once sampled a queue at
      least as long as its threshold. */
  lemma RedDropNeedsLongQueue(env: Env, portId: nat, t: Track, e: PortEvent)
    requires Dropping.IsPower(env.power) && AveragesSound(t) && PortEnabled(t, e) && e.Incoming?
    requires var o := Act(env, portId, t.port, e); o.bits.c1 && (o.bits.c5 || o.bits.c6)
    requires var o := Act(env, portId, t.port, e);
      t.port.droppers[DropperIndex(e.packet.tos, o.bits.c6)].maxth > 0.0
    ensures var o := Act(env, portId, t.port, e);
      var k := DropperIndex(e.packet.tos, o.bits.c6);
      var samples := PortStep(env, portId, t, e).log.samples[k];
      exists i :: 0 <= i < |samples| && samples[i] as real >= t.port.droppers[k].maxth
  {
    hide Act, Longest, Dropping.IsPower;
    StepDroppers(env, portId, t.port, e);
    StepKeepsAverages(env, portId, t, e);
    var o := Act(env, portId, t.port, e);
    var k := DropperIndex(e.packet.tos, o.bits.c6);
    var t' := PortStep(env, portId, t, e);
    assert AverageSound(t'.port.droppers[k], t'.log.samples[k], t'.log.clock);
    LongestIsSampled(t'.log.samples[k]);
  }

  lemma FreshAverages(c: PortConfig)
    requires ValidConfig(c)
    ensures AveragesSound(InitTrack(c))
  {
    hide MaxThreshold, CommittedRate;
  }
}
