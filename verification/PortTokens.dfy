/** Token conservation at a port: what events do to the shaper and the meters together. */
module PortTokens {
  import opened Types
  import opened Tokens
  import opened Scheduling
  import opened Ports
  import opened PortRollback
  import opened Runs
  import opened PortInvariants
  import opened PortTiming
  import Shaper

  /** An event that uses the shaper: every SEND event and every admitted ARRIVE event. */
  predicate Polls(e: PortEvent, o: Outcome) {
    e.Wakeup? || o.admitted
  }

  /** The whole effect of an event on the bucket: one poll and the bits that departed, or
      nothing at all. */
  lemma {:induction false} BucketStep(env: Env, c: PortConfig, portId: nat, t: Track, e: PortEvent)
    requires ValidConfig(c) && Base(c, t) && PortEnabled(t, e)
    ensures var o := Act(env, portId, t.port, e);
      var b := t.port.bucket;
      && Shaper.Sound(b, e.at) && BucketSane(c, b, e.at) && BucketSane(c, o.port.bucket, e.at)
      && BucketEffect(b, e, o)
      && DepartedBits(o) >= 0
  {
    hide Sane, Earned, FirstBusy, Arrive, Send, Shaper.Poll, BucketEffect, PollFault;
    var p, now := t.port, e.at;
    SaneLater(c, p, t.log.clock, now);
    SaneBucket(c, p, now);
    StepKeepsSane(env, c, portId, t, e);
    SaneBucket(c, Act(env, portId, p, e).port, now);
    if e.Incoming? {
      ArriveBucket(env, c, portId, p, e);
    } else {
      SendKeepsBusy(env, portId, t, e);
      SendBucket(env, c, portId, p, e);
    }
  }

  predicate BucketEffect(b: Shaper.Bucket, e: PortEvent, o: Outcome) {
    if Polls(e, o)
    then o.port.bucket == Shaper.Poll(b, e.at).(tokens := Shaper.Poll(b, e.at).tokens - DepartedBits(o))
    else o.port.bucket == b && o.departed.None?
  }

  lemma ArriveBucket(env: Env, c: PortConfig, portId: nat, p: PortState, e: PortEvent)
    requires ValidConfig(c) && Sane(c, p, e.at)
    requires e.Incoming? && e.packet.tos < NUM_QOS_LEVEL && e.packet.sizeInBytes > 0
    ensures BucketEffect(p.bucket, e, Act(env, portId, p, e))
    ensures DepartedBits(Act(env, portId, p, e)) >= 0
  {
    hide Sane, Earned, FirstBusy, Depart, NextSize, Shaper.Poll, WakeDelay, Judge, Forwarded, PollFault;
    var index := NUM_QOS_LEVEL * portId + e.packet.tos;
    var v := Judge(env, p, e.packet, e.at, index, e.msg.snapshot);
    JudgeFrame(env, p, e.packet, e.at, index, e.msg.snapshot);
    if !v.drop {
      JudgeKeepsSane(env, c, p, e.packet, e.at, index, e.msg.snapshot);
      EnqueueKeepsSane(c, v.port, e.packet, e.nextHop, e.at);
      DepartureBucket(env, c, Enqueue(v.port, e.packet, e.nextHop), e.at);
    }
  }

  lemma SendBucket(env: Env, c: PortConfig, portId: nat, p: PortState, e: PortEvent)
    requires ValidConfig(c) && Sane(c, p, e.at) && !Idle(p) && e.Wakeup?
    ensures BucketEffect(p.bucket, e, Act(env, portId, p, e))
    ensures DepartedBits(Act(env, portId, p, e)) >= 0
  {
    hide Sane, Earned, FirstBusy, Depart, NextSize, Shaper.Poll, WakeDelay, Forwarded, PollFault;
    DepartureBucket(env, c, p, e.at);
  }

  lemma DepartureBucket(env: Env, c: PortConfig, p: PortState, now: real)
    requires ValidConfig(c) && Sane(c, p, now) && !Idle(p)
    ensures var q := Polled(p, now);
      Shaper.Ready(q.bucket, NextSize(q.queues)) ==>
        var d := Depart(env, q, now);
        && d.packet.sizeInBytes > 0
        && d.port.bucket == q.bucket.(tokens := q.bucket.tokens - 8 * d.packet.sizeInBytes)
  {
    hide Sane, FirstBusy, Depart, NextSize, Shaper.Poll, PollFault;
    PolledKeepsSane(c, p, now);
    if Shaper.Ready(Polled(p, now).bucket, NextSize(p.queues)) {
      DepartKeepsSane(env, c, Polled(p, now), now);
    }
  }

  // ----- The shaper limits the port -----

  /** The value of the bucket plus the bits that departed never exceeds what was earned. */
  lemma {:induction false} StepNeverOverspends(env: Env, c: PortConfig, portId: nat, t: Track, e: PortEvent)
    requires ValidConfig(c) && Base(c, t) && PortEnabled(t, e)
    ensures var t' := PortStep(env, portId, t, e);
      Shaper.Potential(t'.port.bucket, e.at) + t'.log.departedBits as real
      <= Shaper.Potential(t.port.bucket, t.log.clock) + t.log.departedBits as real
         + Earned(c.bandwidth, t.log.clock, e.at)
  {
    hide Act, Earned, Base, Shaper.Poll, PollFault;
    BucketStep(env, c, portId, t, e);
    Shaper.PollBounds(t.port.bucket, e.at);
    Shaper.PotentialAdvances(t.port.bucket, t.log.clock, e.at);
  }

  /** Right after a poll the value of the bucket and the bits that departed at this instant
      are below capacity + 1. */
  lemma {:induction false} PollingStepBound(env: Env, c: PortConfig, portId: nat, t: Track, e: PortEvent)
    requires ValidConfig(c) && Base(c, t) && PortEnabled(t, e) && InHorizon(c, e.at)
    requires Polls(e, Act(env, portId, t.port, e))
    ensures var t' := PortStep(env, portId, t, e);
      Shaper.Potential(t'.port.bucket, e.at) + (t'.log.departedBits - t.log.departedBits) as real
      < SHAPER_CAPACITY as real + 1.0
  {
    hide Act, Earned, Base, Shaper.Poll, InHorizon, PollFault;
    BucketStep(env, c, portId, t, e);
    HorizonMeansNoOverflow(c, t.port.bucket, e.at);
    Shaper.PollBounds(t.port.bucket, e.at);
    Shaper.PollLeavesLessThanOne(t.port.bucket, e.at);
  }

  /** Whatever was sent since `t`, plus what is left, is covered by the capacity, one bit and
      the rate; before the first poll nothing is sent and nothing changes. */
  lemma {:induction false} WindowInvariant(env: Env, c: PortConfig, portId: nat, t: Track, es: seq<PortEvent>,
      from: real)
    requires ValidConfig(c) && Base(c, t) && ValidPortRun(env, portId, t, es)
    requires forall i :: 0 <= i < |es| ==> from <= es[i].at && InHorizon(c, es[i].at)
    ensures var t' := PortRun(env, portId, t, es);
      && Base(c, t')
      && (t'.log.polls == t.log.polls ==> t'.log.departedBits == t.log.departedBits)
      && t'.log.polls >= t.log.polls
      && (t'.log.polls > t.log.polls ==>
            && from <= t'.log.clock
            && Shaper.Potential(t'.port.bucket, t'.log.clock) + (t'.log.departedBits - t.log.departedBits) as real
               <= SHAPER_CAPACITY as real + 1.0 + Earned(c.bandwidth, from, t'.log.clock))
    decreases |es|
  {
    hide Act, Earned, Base, Shaper.Potential, InHorizon;
    if es != [] {
      var before, e := es[..|es| - 1], es[|es| - 1];
      WindowInvariant(env, c, portId, t, before, from);
      var mid := PortRun(env, portId, t, before);
      StepKeepsBase(env, c, portId, mid, e);
      BucketStep(env, c, portId, mid, e);
      StepNeverOverspends(env, c, portId, mid, e);
      EarnedSplit(c.bandwidth, from, mid.log.clock, e.at);
      EarnedOrder(c.bandwidth, from, e.at, e.at);
      if Polls(e, Act(env, portId, mid.port, e)) && mid.log.polls == t.log.polls {
        PollingStepBound(env, c, portId, mid, e);
      }
    }
  }

  /** Shaping: over any window the bits that leave a port are at most the capacity of its
      bucket, one bit, and the rate times the length of the window. */
  lemma {:induction false} ShapedWindow(env: Env, c: PortConfig, portId: nat, t: Track, es: seq<PortEvent>,
      from: real, to: real)
    requires ValidConfig(c) && Base(c, t) && ValidPortRun(env, portId, t, es)
    requires from <= to
    requires forall i :: 0 <= i < |es| ==> from <= es[i].at <= to && InHorizon(c, es[i].at)
    ensures (PortRun(env, portId, t, es).log.departedBits - t.log.departedBits) as real
            <= SHAPER_CAPACITY as real + Earned(c.bandwidth, from, to) + 1.0
  {
    hide Act, PortStep, Base, InHorizon, Earned, PortRun;
    WindowInvariant(env, c, portId, t, es, from);
    var t' := PortRun(env, portId, t, es);
    EarnedOrder(c.bandwidth, from, t'.log.clock, to);
    EarnedOrder(c.bandwidth, from, from, to);
    BaseValue(c, t');
    RunClock(env, portId, t, es);
  }

  lemma RunClock(env: Env, portId: nat, t: Track, es: seq<PortEvent>)
    requires ValidPortRun(env, portId, t, es)
    ensures PortRun(env, portId, t, es).log.clock == if es == [] then t.log.clock else es[|es| - 1].at
    ensures es == [] ==> PortRun(env, portId, t, es) == t
  {
    hide Act;
  }

  lemma BaseValue(c: PortConfig, t: Track)
    requires ValidConfig(c) && Base(c, t)
    ensures Shaper.Potential(t.port.bucket, t.log.clock) >= t.port.bucket.tokens as real >= 0.0
    ensures BucketSane(c, t.port.bucket, t.log.clock)
  {
    hide Earned, InitPort;
    EarnedOrder(c.bandwidth, t.port.bucket.lastUpdate, t.log.clock, t.log.clock);
  }
}
