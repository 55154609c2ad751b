/** Ports on which all packets have one size, as the workload generator produces them: the
    SEND events that a port schedules for itself. */
module UniformSize {
  import opened Types
  import opened Tokens
  import opened Scheduling
  import opened Ports
  import opened PortRollback
  import opened Runs
  import opened PortInvariants
  import opened PortTiming
  import Shaper

  /** The bits of a packet fit the 32-bit word. */
  predicate WordSize(size: int) {
    0 < 8 * size < UINT32_RANGE
  }

  /** The bucket can pay for a packet. */
  predicate GoodSize(size: int) {
    0 < 8 * size <= SHAPER_CAPACITY
  }

  predicate Uniform(size: int, p: PortState) {
    forall i, j :: 0 <= i < NUM_QOS_LEVEL && 0 <= j < |p.queues[i].packets| ==>
      p.queues[i].packets[j].sizeInBytes == size
  }

  /** The tokens that will be on hand when the pending SEND event comes are no more than one
      packet needs. */
  ghost predicate Timed(size: int, t: Track) {
    forall x :: x in t.log.pending ==>
      t.log.clock <= x && Shaper.Potential(t.port.bucket, x) <= (8 * size) as real
  }

  /** They are exactly what one packet needs. */
  ghost predicate Exact(size: int, t: Track) {
    forall x :: x in t.log.pending ==>
      t.log.clock <= x && Shaper.Potential(t.port.bucket, x) == (8 * size) as real
  }

  ghost predicate Regular(c: PortConfig, size: int, t: Track)
    requires ValidConfig(c)
  {
    Base(c, t) && Uniform(size, t.port) && Timed(size, t)
  }

  /** What the results below assume of an event: packets of the one size, at times whose
      token counts fit the 32-bit word. */
  predicate RegularEvent(c: PortConfig, size: int, e: PortEvent) {
    e.Incoming? ==> e.packet.sizeInBytes == size && InHorizon(c, e.at)
  }

  // ----- Sizes -----

  lemma UniformNextSize(size: int, p: PortState)
    requires Uniform(size, p) && !Idle(p)
    ensures NextSize(p.queues) == size
  {
    hide FirstBusy;
  }

  lemma UniformAfterDeparture(env: Env, size: int, p: PortState, now: real)
    requires Uniform(size, p) && !Idle(p)
    ensures Uniform(size, Depart(env, p, now).port)
    ensures Depart(env, p, now).packet.sizeInBytes == size
  {
    hide FirstBusy, Shaper.Consume, Touch;
  }

  lemma {:induction false} StepKeepsUniform(env: Env, c: PortConfig, portId: nat, size: int, t: Track, e: PortEvent)
    requires Uniform(size, t.port) && PortEnabled(t, e) && RegularEvent(c, size, e)
    ensures Uniform(size, PortStep(env, portId, t, e).port)
  {
    hide FirstBusy, Judge, Depart, NextSize, Shaper.Poll, Shaper.NextAvailableTime, PollFault;
    var p, now := t.port, e.at;
    match e {
      case Incoming(at, packet, nextHop, msg) =>
        JudgeFrame(env, p, packet, now, NUM_QOS_LEVEL * portId + packet.tos, msg.snapshot);
        OfferedFacts(env, p, portId, packet, nextHop, now, msg);
        var q := Offered(env, p, portId, packet, nextHop, now, msg);
        assert Uniform(size, q);
        UniformAfterDeparture(env, size, q, now);
      case Wakeup(at, msg) =>
        var q := Polled(p, now);
        assert Uniform(size, q);
        if !Idle(q) {
          UniformAfterDeparture(env, size, q, now);
        }
    }
  }

  // ----- Tokens -----

  /** Polling does not raise the value at any later time. */
  lemma PollKeepsLaterPotential(b: Shaper.Bucket, now: real, x: real)
    requires Shaper.Sound(b, now)
    ensures Shaper.Potential(Shaper.Poll(b, now), x) <= Shaper.Potential(b, x)
  {
    hide Earned, Shaper.Poll, PollFault;
    Shaper.PollBounds(b, now);
    Shaper.PotentialAdvances(b, now, x);
    Shaper.PotentialAdvances(Shaper.Poll(b, now), now, x);
  }

  /** A bounded value at a later time means that the word does not overflow before. */
  lemma TimedMeansNoOverflow(b: Shaper.Bucket, size: int, now: real, x: real)
    requires Shaper.Sound(b, now) && now <= x && WordSize(size)
    requires Shaper.Potential(b, x) <= (8 * size) as real
    ensures Shaper.NoOverflow(b, now)
    ensures Shaper.Potential(b, now) <= (8 * size) as real
    ensures Shaper.Potential(b, now) + Earned(b.rate, now, x) <= (8 * size) as real
    ensures 0.0 <= Earned(b.rate, now, x)
  {
    hide Earned;
    EarnedOrder(b.rate, b.lastUpdate, now, now);
    EarnedOrder(b.rate, b.lastUpdate, now, x);
    EarnedOrder(b.rate, now, now, x);
    Shaper.PotentialAdvances(b, now, x);
  }

  /** Scheduling a SEND event for a packet that is not affordable is exact and in the future. */
  lemma WakeIsExact(c: PortConfig, b: Shaper.Bucket, size: int, now: real)
    requires BucketSane(c, b, now) && Shaper.Settled(b, now) && Shaper.NoOverflow(b, now)
    requires !Shaper.Ready(b, size)
    ensures var wake := WakeDelay(b, size, now);
      && wake > 0.0
      && Shaper.Potential(b, now + wake) == (8 * size) as real
  {
    hide NewTokens, Earned, Shaper.NextAvailableTime;
    Shaper.WaitIsPositive(b, size, now);
    Shaper.MissingTokens(b, size);
    assert now + (Shaper.NextAvailableTime(b, size) - now) == Shaper.NextAvailableTime(b, size);
  }

  lemma SpendLowersPotential(b: Shaper.Bucket, bits: int, x: real)
    ensures Shaper.Potential(b.(tokens := b.tokens - bits), x) == Shaper.Potential(b, x) - bits as real
  {
    hide Earned;
  }

  // ----- One event -----

  lemma OnlyPending(pending: multiset<real>, x: real)
    requires |pending| == 1 && x in pending
    ensures pending == multiset{x}
  {
    assert |pending - multiset{x}| == 0;
  }

  lemma ThePending(pending: multiset<real>) returns (x: real)
    requires |pending| == 1
    ensures x in pending && pending == multiset{x}
  {
    assert (forall y :: y !in pending) ==> pending == multiset{};
    x :| x in pending;
    OnlyPending(pending, x);
  }

  lemma DroppedKeepsTimed(env: Env, portId: nat, size: int, t: Track, e: PortEvent)
    requires Timed(size, t) && PortEnabled(t, e) && e.Incoming?
    requires !Act(env, portId, t.port, e).admitted
    ensures var t' := PortStep(env, portId, t, e);
      && Timed(size, t')
      && (Exact(size, t) ==> Exact(size, t'))
      && t'.port.bucket == t.port.bucket && t'.log.pending == t.log.pending
  {
    hide Judge, Earned, FirstBusy, Depart, NextSize, Shaper.Poll, Shaper.NextAvailableTime, PollFault;
    JudgeFrame(env, t.port, e.packet, e.at, NUM_QOS_LEVEL * portId + e.packet.tos, e.msg.snapshot);
  }

  /** An admitted packet leaves the pending SEND event timed right: it takes the tokens of one
      packet or none, or it schedules the event itself. */
  lemma {:induction false} AdmittedKeepsTimed(env: Env, c: PortConfig, portId: nat, size: int, t: Track, e: PortEvent)
    requires ValidConfig(c) && WordSize(size) && Regular(c, size, t)
    requires PortEnabled(t, e) && RegularEvent(c, size, e)
    requires e.Incoming? && Act(env, portId, t.port, e).admitted
    ensures Timed(size, PortStep(env, portId, t, e))
  {
    hide Sane, Judge, Earned, FirstBusy, Depart, NextSize, Shaper.Poll, WakeDelay, Uniform, InHorizon, BucketSane,
         Shaper.Potential, PollFault;
    var p, now := t.port, e.at;
    var index := NUM_QOS_LEVEL * portId + e.packet.tos;
    JudgeFrame(env, p, e.packet, now, index, e.msg.snapshot);
    OfferedFacts(env, p, portId, e.packet, e.nextHop, now, e.msg);
    AdmittedFacts(env, c, portId, size, t, e);
    var q := Offered(env, p, portId, e.packet, e.nextHop, now, e.msg);
    if Shaper.Ready(q.bucket, size) {
      forall x | x in t.log.pending
        ensures Shaper.Potential(Depart(env, q, now).port.bucket, x) <= (8 * size) as real
      {
        PollKeepsLaterPotential(p.bucket, now, x);
        SpendLowersPotential(q.bucket, 8 * size, x);
      }
    } else if q.flag {
      forall x | x in t.log.pending
        ensures Shaper.Potential(q.bucket, x) <= (8 * size) as real
      {
        PollKeepsLaterPotential(p.bucket, now, x);
      }
    } else {
      WakeIsExact(c, q.bucket, size, now);
      assert t.log.pending == multiset{};
    }
  }

  /** Everything the dispatch of an admitted packet needs to know. */
  lemma {:induction false} AdmittedFacts(env: Env, c: PortConfig, portId: nat, size: int, t: Track, e: PortEvent)
    requires ValidConfig(c) && WordSize(size) && Base(c, t) && Uniform(size, t.port)
    requires PortEnabled(t, e) && RegularEvent(c, size, e)
    requires e.Incoming? && Act(env, portId, t.port, e).admitted
    ensures Shaper.Sound(t.port.bucket, e.at) && Shaper.NoOverflow(t.port.bucket, e.at)
    ensures var q := Offered(env, t.port, portId, e.packet, e.nextHop, e.at, e.msg);
      && Sane(c, q, e.at) && BucketSane(c, q.bucket, e.at)
      && Shaper.Settled(q.bucket, e.at) && Shaper.NoOverflow(q.bucket, e.at)
      && Uniform(size, q) && NextSize(q.queues) == size
      && (Shaper.Ready(q.bucket, size) ==>
            Depart(env, q, e.at).port.bucket == q.bucket.(tokens := q.bucket.tokens - 8 * size))
  {
    hide Sane, Judge, Earned, FirstBusy, Depart, NextSize, Shaper.Poll, WakeDelay, InHorizon, Shaper.NoOverflow,
         PollFault;
    var p, now := t.port, e.at;
    var index := NUM_QOS_LEVEL * portId + e.packet.tos;
    var v := Judge(env, p, e.packet, now, index, e.msg.snapshot);
    JudgeFrame(env, p, e.packet, now, index, e.msg.snapshot);
    SaneLater(c, p, t.log.clock, now);
    JudgeKeepsSane(env, c, p, e.packet, now, index, e.msg.snapshot);
    EnqueueKeepsSane(c, v.port, e.packet, e.nextHop, now);
    SaneBucket(c, p, now);
    HorizonMeansNoOverflow(c, p.bucket, now);
    SettledFacts(c, Enqueue(v.port, e.packet, e.nextHop), now);
    OfferedFacts(env, p, portId, e.packet, e.nextHop, now, e.msg);
    var q := Offered(env, p, portId, e.packet, e.nextHop, now, e.msg);
    UniformNextSize(size, q);
    if Shaper.Ready(q.bucket, size) {
      DepartKeepsSane(env, c, q, now);
    }
  }

  /** A SEND event finds no more than one packet's tokens, so it serves at most one packet
      and leaves the next SEND event, if any, exact and strictly in the future. */
  lemma {:induction false} SendIsExact(env: Env, c: PortConfig, portId: nat, size: int, t: Track, e: PortEvent)
    requires ValidConfig(c) && WordSize(size) && Regular(c, size, t)
    requires PortEnabled(t, e) && e.Wakeup?
    ensures var o := Act(env, portId, t.port, e);
      var t' := PortStep(env, portId, t, e);
      && t'.log.pending == (if o.wake.Some? then multiset{e.at + o.wake.value} else multiset{})
      && (o.wake.Some? ==> o.wake.value > 0.0)
      && Exact(size, t') && Timed(size, t')
      && !o.fault
      && (o.departed.Some? <==> Shaper.Ready(Shaper.Poll(t.port.bucket, e.at), size))
      && (o.departed.Some? ==> o.departed.value.packet.sizeInBytes == size
                               && Waiting(o.port) == Waiting(t.port) - 1)
      && (o.departed.None? ==> Waiting(o.port) == Waiting(t.port))
      && (o.wake.Some? <==> Waiting(o.port) > 0)
  {
    hide Sane, Earned, FirstBusy, Depart, NextSize, Shaper.Poll, WakeDelay, Uniform, BucketSane, Shaper.Potential,
         Forwarded, PollFault;
    var p, now := t.port, e.at;
    SendKeepsBusy(env, portId, t, e);
    OnlyPending(t.log.pending, now);
    SaneLater(c, p, t.log.clock, now);
    SaneBucket(c, p, now);
    SendFacts(env, c, size, p, now);
    var q := Polled(p, now);
    if Shaper.Ready(q.bucket, size) {
      var d := Depart(env, q, now);
      SpendAll(c, q.bucket, size, now);
      DepartTakesOne(env, q, now);
      IdleMeansNoneWaiting(d.port);
      if !Idle(d.port) {
        UniformNextSize(size, d.port);
        WakeIsExact(c, d.port.bucket, size, now);
      }
    } else {
      IdleMeansNoneWaiting(p);
      WakeIsExact(c, q.bucket, size, now);
    }
  }

  /** Everything a SEND event needs to know. */
  lemma SendFacts(env: Env, c: PortConfig, size: int, p: PortState, now: real)
    requires ValidConfig(c) && WordSize(size) && Sane(c, p, now) && Uniform(size, p) && !Idle(p)
    requires Shaper.Potential(p.bucket, now) <= (8 * size) as real
    ensures var q := Polled(p, now);
      && BucketSane(c, q.bucket, now) && !PollFault(q)
      && Shaper.Settled(q.bucket, now) && Shaper.NoOverflow(q.bucket, now)
      && NextSize(p.queues) == NextSize(q.queues) == size
      && q.bucket.tokens <= 8 * size
      && (Shaper.Ready(q.bucket, size) ==>
            && Depart(env, q, now).packet.sizeInBytes == size
            && Uniform(size, Depart(env, q, now).port)
            && Depart(env, q, now).port.bucket == q.bucket.(tokens := q.bucket.tokens - 8 * size)
            && forall target :: Forwarded(env, q, Depart(env, q, now), target, now).delay > 0.0)
  {
    hide Sane, Earned, FirstBusy, Depart, NextSize, Shaper.Poll, Shaper.Potential, Forwarded, PollFault;
    SaneBucket(c, p, now);
    TimedMeansNoOverflow(p.bucket, size, now, now);
    SettledFacts(c, p, now);
    Shaper.PollBounds(p.bucket, now);
    var q := Polled(p, now);
    UniformNextSize(size, p);
    UniformNextSize(size, q);
    NoPollFault(c, q, now);
    if Shaper.Ready(q.bucket, size) {
      DepartKeepsSane(env, c, q, now);
      UniformAfterDeparture(env, size, q, now);
      forall target ensures Forwarded(env, q, Depart(env, q, now), target, now).delay > 0.0 {
        ForwardDelayPositive(env, c, q, target, now);
      }
    }
  }

  /** A bucket that holds exactly one packet's tokens is empty after serving it. */
  lemma SpendAll(c: PortConfig, b: Shaper.Bucket, size: int, now: real)
    requires BucketSane(c, b, now) && Shaper.Settled(b, now) && Shaper.NoOverflow(b, now)
    requires WordSize(size) && Shaper.Ready(b, size) && b.tokens <= 8 * size
    ensures var b' := b.(tokens := b.tokens - 8 * size);
      && b'.tokens == 0 && !Shaper.Ready(b', size)
      && BucketSane(c, b', now) && Shaper.Settled(b', now) && Shaper.NoOverflow(b', now)
  {
    hide NewTokens, Earned;
  }

  /** With one packet size no event ever violates an assertion, every SEND event a port
      schedules for itself lies strictly in the future, and the discipline is kept. */
  lemma {:induction false} StepKeepsRegular(env: Env, c: PortConfig, portId: nat, size: int, t: Track, e: PortEvent)
    requires ValidConfig(c) && WordSize(size) && Regular(c, size, t)
    requires PortEnabled(t, e) && RegularEvent(c, size, e)
    ensures Regular(c, size, PortStep(env, portId, t, e))
    ensures var o := Act(env, portId, t.port, e);
      && !o.fault
      && (o.wake.Some? ==> o.wake.value > 0.0)
  {
    hide Sane, Act, Timed, Uniform, PortStep, InHorizon, Busy;
    StepKeepsBase(env, c, portId, t, e);
    StepKeepsUniform(env, c, portId, size, t, e);
    if e.Wakeup? {
      SendIsExact(env, c, portId, size, t, e);
    } else {
      SaneLater(c, t.port, t.log.clock, e.at);
      SaneBucket(c, t.port, e.at);
      HorizonMeansNoOverflow(c, t.port.bucket, e.at);
      ArriveNeverFaults(env, c, portId, t, e);
      if Act(env, portId, t.port, e).admitted {
        AdmittedKeepsTimed(env, c, portId, size, t, e);
      } else {
        DroppedKeepsTimed(env, portId, size, t, e);
      }
    }
  }

  /** An ARRIVE event that comes strictly before the pending SEND event never sends at once. */
  lemma {:induction false} EarlyArrivalNeverSends(env: Env, c: PortConfig, portId: nat, size: int, t: Track,
      e: PortEvent)
    requires ValidConfig(c) && WordSize(size) && Regular(c, size, t)
    requires PortEnabled(t, e) && RegularEvent(c, size, e) && e.Incoming?
    requires t.port.flag && e.at !in t.log.pending
    ensures Act(env, portId, t.port, e).departed.None?
  {
    hide Sane, Judge, Earned, FirstBusy, Depart, NextSize, Shaper.Poll, WakeDelay, Uniform, InHorizon, BucketSane,
         Shaper.Potential, PollFault;
    if Act(env, portId, t.port, e).admitted {
      var p, now := t.port, e.at;
      JudgeFrame(env, p, e.packet, now, NUM_QOS_LEVEL * portId + e.packet.tos, e.msg.snapshot);
      OfferedFacts(env, p, portId, e.packet, e.nextHop, now, e.msg);
      AdmittedFacts(env, c, portId, size, t, e);
      var x := ThePending(t.log.pending);
      NotYetAffordable(p.bucket, size, now, x);
    } else {
      JudgeFrame(env, t.port, e.packet, e.at, NUM_QOS_LEVEL * portId + e.packet.tos, e.msg.snapshot);
    }
  }

  lemma NotYetAffordable(b: Shaper.Bucket, size: int, now: real, x: real)
    requires Shaper.Sound(b, now) && now < x && WordSize(size)
    requires Shaper.Potential(b, x) <= (8 * size) as real
    ensures !Shaper.Ready(Shaper.Poll(b, now), size)
  {
    hide Earned, Shaper.Poll, PollFault;
    Shaper.PollBounds(b, now);
    Shaper.PotentialAdvances(b, now, x);
    EarnedOrder(b.rate, now, now, x);
    EarnedOrder(b.rate, now, x, now);
  }

  lemma {:induction false} RunKeepsRegular(env: Env, c: PortConfig, portId: nat, size: int, t: Track,
      es: seq<PortEvent>)
    requires ValidConfig(c) && WordSize(size) && Regular(c, size, t)
    requires ValidPortRun(env, portId, t, es)
    requires forall i :: 0 <= i < |es| ==> RegularEvent(c, size, es[i])
    ensures Regular(c, size, PortRun(env, portId, t, es))
    decreases |es|
  {
    hide Regular, PortStep, PortEnabled, RegularEvent;
    if es != [] {
      RunKeepsRegular(env, c, portId, size, t, es[..|es| - 1]);
      StepKeepsRegular(env, c, portId, size, PortRun(env, portId, t, es[..|es| - 1]), es[|es| - 1]);
    }
  }

  /** A fresh port satisfies the invariants for any size. */
  lemma FreshIsRegular(c: PortConfig, size: int)
    requires ValidConfig(c)
    ensures Base(c, InitTrack(c)) && Regular(c, size, InitTrack(c))
  {
    FreshIsBase(c);
    hide Base;
  }

  lemma FreshIsBase(c: PortConfig)
    requires ValidConfig(c)
    ensures Base(c, InitTrack(c))
  {
    InitSane(c);
    hide Sane, Idle;
  }
}
