/** What a busy port guarantees: service, a bounded backlog, progress and drain. */
module PortService {
  import opened Types
  import opened Tokens
  import opened QueueFifo
  import opened Scheduling
  import opened Ports
  import opened PortRollback
  import opened Runs
  import opened PortInvariants
  import opened PortTiming
  import opened PortTokens
  import opened UniformSize
  import Shaper
  import Metering
  import Dropping

  /** A SEND event is pending at the start of the run and after each of its events. */
  ghost predicate StaysBusy(env: Env, portId: nat, t: Track, es: seq<PortEvent>)
    requires WellTyped(es)
    decreases |es|
  {
    if es == [] then t.port.flag
    else StaysBusy(env, portId, t, es[..|es| - 1]) && PortRun(env, portId, t, es).port.flag
  }

  // ----- Service -----

  /** While a SEND event is pending the bucket cannot overflow: a poll adds every token. */
  lemma BusyPollKeepsTokens(c: PortConfig, size: int, t: Track, now: real)
    requires ValidConfig(c) && GoodSize(size) && Regular(c, size, t) && t.port.flag
    requires t.log.clock <= now && forall x :: x in t.log.pending ==> now <= x
    ensures var b := t.port.bucket;
      && Shaper.Sound(b, now)
      && Shaper.Potential(b, now) <= (8 * size) as real
      && Shaper.NoOverflow(b, now)
      && Shaper.Poll(b, now).tokens == b.tokens + NewTokens(b.rate, b.lastUpdate, now)
      && Shaper.Potential(Shaper.Poll(b, now), now) > Shaper.Potential(b, now) - 1.0
  {
    hide Earned, NewTokens, Sane, Shaper.Poll, Shaper.Potential, Uniform, Idle, PollFault;
    SaneLater(c, t.port, t.log.clock, now);
    SaneBucket(c, t.port, now);
    var x := ThePending(t.log.pending);
    TimedMeansNoOverflow(t.port.bucket, size, now, x);
    Shaper.PollLosesLessThanOne(t.port.bucket, now);
  }

  /** While a SEND event is pending an event loses less than one token, and only by polling. */
  lemma {:induction false} BusyStepServes(env: Env, c: PortConfig, portId: nat, size: int, t: Track, e: PortEvent)
    requires ValidConfig(c) && GoodSize(size) && Regular(c, size, t) && t.port.flag
    requires PortEnabled(t, e)
    ensures var t' := PortStep(env, portId, t, e);
      Shaper.Potential(t'.port.bucket, e.at) + (t'.log.departedBits + t'.log.polls) as real
      >= Shaper.Potential(t.port.bucket, t.log.clock) + (t.log.departedBits + t.log.polls) as real
         + Earned(c.bandwidth, t.log.clock, e.at)
  {
    hide Act, Earned, Sane, Busy, Uniform, Timed, NewTokens, Shaper.Poll, Shaper.Potential, PollFault;
    BucketStep(env, c, portId, t, e);
    BusyPollKeepsTokens(c, size, t, e.at);
    Shaper.PotentialAdvances(t.port.bucket, t.log.clock, e.at);
    var o := Act(env, portId, t.port, e);
    SpendLowersPotential(Shaper.Poll(t.port.bucket, e.at), DepartedBits(o), e.at);
  }

  lemma {:induction false} BusyRunServes(env: Env, c: PortConfig, portId: nat, size: int, t: Track, es: seq<PortEvent>)
    requires ValidConfig(c) && GoodSize(size) && Regular(c, size, t)
    requires ValidPortRun(env, portId, t, es) && StaysBusy(env, portId, t, es)
    requires forall i :: 0 <= i < |es| ==> RegularEvent(c, size, es[i])
    ensures var t' := PortRun(env, portId, t, es);
      && Regular(c, size, t') && t'.port.flag
      && Shaper.Potential(t'.port.bucket, t'.log.clock) + (t'.log.departedBits + t'.log.polls) as real
         >= Shaper.Potential(t.port.bucket, t.log.clock) + (t.log.departedBits + t.log.polls) as real
            + Earned(c.bandwidth, t.log.clock, t'.log.clock)
    decreases |es|
  {
    hide Act, Earned, Regular, RegularEvent, Shaper.Potential, PortEnabled;
    if es == [] {
      EarnedSplit(c.bandwidth, t.log.clock, t.log.clock, t.log.clock);
    } else {
      var before, e := es[..|es| - 1], es[|es| - 1];
      BusyRunServes(env, c, portId, size, t, before);
      var mid := PortRun(env, portId, t, before);
      BusyStepServes(env, c, portId, size, mid, e);
      StepKeepsRegular(env, c, portId, size, mid, e);
      EarnedSplit(c.bandwidth, t.log.clock, mid.log.clock, e.at);
    }
  }

  /** Service: while a SEND event stays pending, the bits that depart are at least the rate
      times the elapsed time, less the bits of one packet and one bit per poll. */
  lemma {:induction false} Service(env: Env, c: PortConfig, portId: nat, size: int, t: Track, es: seq<PortEvent>)
    requires ValidConfig(c) && GoodSize(size) && Regular(c, size, t)
    requires ValidPortRun(env, portId, t, es) && StaysBusy(env, portId, t, es)
    requires forall i :: 0 <= i < |es| ==> RegularEvent(c, size, es[i])
    ensures var t' := PortRun(env, portId, t, es);
      (t'.log.departedBits - t.log.departedBits) as real
      >= Earned(c.bandwidth, t.log.clock, t'.log.clock) - (8 * size + (t'.log.polls - t.log.polls)) as real
  {
    hide Act, Earned, Regular, RegularEvent, Shaper.Potential, PortRun, StaysBusy;
    BusyRunServes(env, c, portId, size, t, es);
    BusyFromStart(env, portId, t, es);
    BusyValue(c, size, t);
    BusyValue(c, size, PortRun(env, portId, t, es));
  }

  lemma BusyValue(c: PortConfig, size: int, t: Track)
    requires ValidConfig(c) && GoodSize(size) && Regular(c, size, t) && t.port.flag
    ensures 0.0 <= Shaper.Potential(t.port.bucket, t.log.clock) <= (8 * size) as real
  {
    hide Sane, Shaper.Potential, Uniform, Shaper.Poll, PollFault;
    BaseValue(c, t);
    var x := ThePending(t.log.pending);
    BusyPollKeepsTokens(c, size, t, t.log.clock);
  }

  // ----- Backlog -----

  function QueuedBits(p: PortState): int {
    8 * (Bytes(p.queues[0].packets) + Bytes(p.queues[1].packets) + Bytes(p.queues[2].packets))
  }

  /** What a meter can still let pass at `now`: its tokens and the earned fraction, but no
      more than both bursts and one bit. */
  function Credit(m: Metering.Meter, now: real): real {
    Min(Metering.Worth(m, now), (m.cbs + m.ebs + 1) as real)
  }

  function Credits(p: PortState, now: real): real {
    Credit(p.meters[0], now) + Credit(p.meters[1], now) + Credit(p.meters[2], now)
  }

  /** The burst allowance of all meters of a port. */
  function Bursts(c: PortConfig): int {
    NUM_QOS_LEVEL * (c.cbs + c.ebs + 1)
  }

  lemma CreditAdvances(m: Metering.Meter, t: real, u: real)
    requires m.cir > 0.0 && t <= u
    ensures Credit(m, u) <= Credit(m, t) + Earned(Metering.Rate(m), t, u)
  {
    hide Earned, Metering.Worth;
    Metering.Later(m, t, u);
    EarnedOrder(Metering.Rate(m), t, t, u);
  }

  /** The rates of the meters of a port add up to the rate of its shaper. */
  lemma RatesAddUp(c: PortConfig, m: Metering.Meter, t: real, u: real)
    requires m.cir == CommittedRate(c.bandwidth)
    ensures 3.0 * Earned(Metering.Rate(m), t, u) == Earned(c.bandwidth, t, u)
  {
    var r := Metering.Rate(m);
    assert 3.0 * r == c.bandwidth;
    var dt := u - t;
    assert 3.0 * (r * dt) == (3.0 * r) * dt;
  }

  lemma {:induction false} CreditsAdvance(c: PortConfig, p: PortState, t: real, u: real)
    requires ValidConfig(c) && Sane(c, p, t) && t <= u
    ensures Credits(p, u) <= Credits(p, t) + Earned(c.bandwidth, t, u)
  {
    hide Earned, Credit, InitPort, QueuesSane, BucketSane, DropperSane;
    CreditAdvances(p.meters[0], t, u);
    CreditAdvances(p.meters[1], t, u);
    CreditAdvances(p.meters[2], t, u);
    RatesAddUp(c, p.meters[0], t, u);
    RatesAddUp(c, p.meters[1], t, u);
    RatesAddUp(c, p.meters[2], t, u);
  }

  lemma MeterNoWrap(c: PortConfig, m: Metering.Meter, now: real)
    requires ValidConfig(c) && MeterSane(c, m, now) && InHorizon(c, now)
    ensures NoWrap(Metering.Rate(m), m.lastUpdate, now)
  {
    hide Earned;
    RatesAddUp(c, m, 0.0, now);
    EarnedOrder(Metering.Rate(m), 0.0, 0.0, now);
    NoWrapPart(Metering.Rate(m), 0.0, m.lastUpdate, now, now);
  }

  /** A packet that the meter lets pass is paid from its credit. */
  lemma {:induction false} UpdateUsesCredit(m: Metering.Meter, bytes: int, now: real)
    requires Metering.Sound(m, now) && bytes >= 0
    requires NoWrap(Metering.Rate(m), m.lastUpdate, now)
    ensures var (m', color) := Metering.Update(m, bytes, now);
      Credit(m', now) <= Credit(m, now) - Metering.PassedBits(color, bytes) as real
  {
    hide Earned, Metering.Refreshed;
    Metering.RefreshBounds(m, now);
    Metering.RefreshLeavesLessThanOne(m, now);
  }

  /** An ARRIVE event: only the packet's meter changes, and an admitted packet used its credit. */
  lemma {:induction false} ArriveUsesCredit(env: Env, c: PortConfig, portId: nat, p: PortState, e: PortEvent)
    requires ValidConfig(c) && Sane(c, p, e.at) && e.Incoming? && InHorizon(c, e.at)
    requires e.packet.tos < NUM_QOS_LEVEL && e.packet.sizeInBytes > 0
    ensures var o := Act(env, portId, p, e);
      Credits(o.port, e.at) <= Credits(p, e.at) - (if o.admitted then (8 * e.packet.sizeInBytes) as real else 0.0)
  {
    hide Earned, FirstBusy, Depart, NextSize, Shaper.Poll, WakeDelay, Judge, Credit, Sane, PollFault;
    var index := NUM_QOS_LEVEL * portId + e.packet.tos;
    JudgeFrame(env, p, e.packet, e.at, index, e.msg.snapshot);
    JudgeUsesCredit(env, c, p, e.packet, e.at, index, e.msg.snapshot);
    DepartKeepsMeters(env, Offered(env, p, portId, e.packet, e.nextHop, e.at, e.msg), e.at);
  }

  lemma DepartKeepsMeters(env: Env, p: PortState, now: real)
    requires !Idle(p)
    ensures Depart(env, p, now).port.meters == p.meters
  {
    hide FirstBusy;
  }

  lemma {:induction false} JudgeUsesCredit(env: Env, c: PortConfig, p: PortState, packet: Packet, now: real,
      index: int, snap: Snapshot)
    requires ValidConfig(c) && Sane(c, p, now) && InHorizon(c, now)
    requires packet.tos < NUM_QOS_LEVEL && packet.sizeInBytes > 0
    ensures var v := Judge(env, p, packet, now, index, snap);
      Credits(v.port, now) <= Credits(p, now) - (if v.drop then 0.0 else (8 * packet.sizeInBytes) as real)
  {
    hide Earned, Credit, InitPort, QueuesSane, BucketSane, DropperSane, Metering.Update, InHorizon, Dropping.Sampled,
         Bytes;
    var m := p.meters[packet.tos];
    MeterNoWrap(c, m, now);
    UpdateUsesCredit(m, packet.sizeInBytes, now);
  }

  /** An event adds the admitted packet to the queued bits and takes the departed one away. */
  lemma {:induction false} QueuedBitsStep(env: Env, portId: nat, p: PortState, e: PortEvent)
    requires e.Incoming? ==> e.packet.tos < NUM_QOS_LEVEL
    ensures var o := Act(env, portId, p, e);
      QueuedBits(o.port) == QueuedBits(p) - DepartedBits(o)
        + (if e.Incoming? && o.admitted then 8 * e.packet.sizeInBytes else 0)
  {
    hide FirstBusy, Depart, NextSize, Shaper.Poll, WakeDelay, Judge, Bytes, PollFault;
    match e {
      case Incoming(at, packet, nextHop, msg) =>
        JudgeFrame(env, p, packet, at, NUM_QOS_LEVEL * portId + packet.tos, msg.snapshot);
        OfferedFacts(env, p, portId, packet, nextHop, at, msg);
        BytesOfPut(p.queues[packet.tos].packets, packet.(nextHop := nextHop));
        DepartQueuedBits(env, Offered(env, p, portId, packet, nextHop, at, msg), at);
      case Wakeup(at, msg) =>
        if !Idle(p) {
          DepartQueuedBits(env, Polled(p, at), at);
        }
    }
  }

  lemma DepartQueuedBits(env: Env, p: PortState, now: real)
    requires !Idle(p)
    ensures var d := Depart(env, p, now);
      QueuedBits(d.port) == QueuedBits(p) - 8 * d.packet.sizeInBytes
  {
    hide FirstBusy, Bytes;
    BytesOfEnds(p.queues[FirstBusy(p.queues)].packets);
  }

  /** One event of a busy port keeps queued bits and meter credit below what the shaper
      still owes, the bursts, and one bit per poll. */
  lemma {:induction false} BacklogStep(env: Env, c: PortConfig, portId: nat, size: int, t: Track, e: PortEvent,
      slack: real)
    requires ValidConfig(c) && GoodSize(size) && Regular(c, size, t) && t.port.flag
    requires PortEnabled(t, e) && RegularEvent(c, size, e)
    requires QueuedBits(t.port) as real + Credits(t.port, t.log.clock)
             <= Shaper.Potential(t.port.bucket, t.log.clock) + slack
    ensures var t' := PortStep(env, portId, t, e);
      QueuedBits(t'.port) as real + Credits(t'.port, e.at)
      <= Shaper.Potential(t'.port.bucket, e.at) + slack + (t'.log.polls - t.log.polls) as real
  {
    hide Act, Earned, Sane, Busy, Uniform, Timed, QueuedBits, Credits, Shaper.Potential, InHorizon;
    BusyStepServes(env, c, portId, size, t, e);
    QueuedBitsStep(env, portId, t.port, e);
    CreditsAdvance(c, t.port, t.log.clock, e.at);
    SaneLater(c, t.port, t.log.clock, e.at);
    if e.Incoming? {
      ArriveUsesCredit(env, c, portId, t.port, e);
    } else {
      SendKeepsCredits(env, portId, t.port, e);
    }
  }

  lemma SendKeepsCredits(env: Env, portId: nat, p: PortState, e: PortEvent)
    requires e.Wakeup?
    ensures Credits(Act(env, portId, p, e).port, e.at) == Credits(p, e.at)
  {
    hide FirstBusy, Depart, Credit, Shaper.Poll, WakeDelay, Shaper.Ready, PollFault;
    if !Idle(p) {
      DepartKeepsMeters(env, Polled(p, e.at), e.at);
    }
  }

  lemma {:induction false} BacklogRun(env: Env, c: PortConfig, portId: nat, size: int, t: Track, es: seq<PortEvent>,
      slack: real)
    requires ValidConfig(c) && GoodSize(size) && Regular(c, size, t)
    requires ValidPortRun(env, portId, t, es) && StaysBusy(env, portId, t, es)
    requires forall i :: 0 <= i < |es| ==> RegularEvent(c, size, es[i])
    requires QueuedBits(t.port) as real + Credits(t.port, t.log.clock)
             <= Shaper.Potential(t.port.bucket, t.log.clock) + slack
    ensures var t' := PortRun(env, portId, t, es);
      && Regular(c, size, t') && t'.port.flag
      && QueuedBits(t'.port) as real + Credits(t'.port, t'.log.clock)
         <= Shaper.Potential(t'.port.bucket, t'.log.clock) + slack + (t'.log.polls - t.log.polls) as real
    decreases |es|
  {
    hide Act, Regular, RegularEvent, Shaper.Potential, PortEnabled, QueuedBits, Credits;
    if es != [] {
      var before, e := es[..|es| - 1], es[|es| - 1];
      BacklogRun(env, c, portId, size, t, before, slack);
      var mid := PortRun(env, portId, t, before);
      BacklogStep(env, c, portId, size, mid, e, slack + (mid.log.polls - t.log.polls) as real);
      StepKeepsRegular(env, c, portId, size, mid, e);
    }
  }

  /** The state in which a busy period starts: one packet queued, its credit spent. */
  lemma {:induction false} BusyPeriodStarts(env: Env, c: PortConfig, portId: nat, size: int, t: Track, e: PortEvent)
    requires ValidConfig(c) && GoodSize(size) && Regular(c, size, t) && !t.port.flag
    requires PortEnabled(t, e) && RegularEvent(c, size, e)
    requires PortStep(env, portId, t, e).port.flag
    ensures var t' := PortStep(env, portId, t, e);
      && QueuedBits(t'.port) as real + Credits(t'.port, e.at) <= Bursts(c) as real
      && t'.log.polls == t.log.polls + 1
  {
    hide Act, Sane, Uniform, Timed, Idle, QueuedBits, Credits, InHorizon;
    if e.Wakeup? {
      SendKeepsBusy(env, portId, t, e);
    } else {
      SaneLater(c, t.port, t.log.clock, e.at);
      ArriveUsesCredit(env, c, portId, t.port, e);
      QueuedBitsStep(env, portId, t.port, e);
      IdleHasNoBits(t.port);
      CreditsBound(c, t.port, e.at);
      FlagNeedsAdmission(env, portId, t.port, e);
    }
  }

  lemma IdleHasNoBits(p: PortState)
    requires Idle(p)
    ensures QueuedBits(p) == 0
  {
    hide FirstBusy;
    IdleMeansNoneWaiting(p);
  }

  lemma CreditsBound(c: PortConfig, p: PortState, now: real)
    requires ValidConfig(c) && Sane(c, p, now)
    ensures Credits(p, now) <= Bursts(c) as real
  {
    hide InitPort, QueuesSane, BucketSane, DropperSane, Metering.Worth;
  }

  lemma FlagNeedsAdmission(env: Env, portId: nat, p: PortState, e: PortEvent)
    requires e.Incoming? && e.packet.tos < NUM_QOS_LEVEL && !p.flag
    requires Act(env, portId, p, e).port.flag
    ensures Act(env, portId, p, e).admitted && Act(env, portId, p, e).departed.None?
  {
    hide FirstBusy, Depart, NextSize, Shaper.Poll, WakeDelay, Judge, PollFault;
    JudgeFrame(env, p, e.packet, e.at, NUM_QOS_LEVEL * portId + e.packet.tos, e.msg.snapshot);
    OfferedFacts(env, p, portId, e.packet, e.nextHop, e.at, e.msg);
    DepartTakesOne(env, Offered(env, p, portId, e.packet, e.nextHop, e.at, e.msg), e.at);
  }

  /** Backlog: in a busy period with k uses of the shaper, whatever arrives, the bits queued
      at a port stay below the bursts of its meters, one packet, and k - 1 bits. */
  lemma {:induction false} BacklogBound(env: Env, c: PortConfig, portId: nat, size: int, t: Track, first: PortEvent,
      es: seq<PortEvent>)
    requires ValidConfig(c) && GoodSize(size) && Regular(c, size, t) && !t.port.flag
    requires PortEnabled(t, first) && RegularEvent(c, size, first)
    requires ValidPortRun(env, portId, PortStep(env, portId, t, first), es)
    requires StaysBusy(env, portId, PortStep(env, portId, t, first), es)
    requires forall i :: 0 <= i < |es| ==> RegularEvent(c, size, es[i])
    ensures var t' := PortRun(env, portId, PortStep(env, portId, t, first), es);
      QueuedBits(t'.port) <= Bursts(c) + 8 * size + (t'.log.polls - t.log.polls) - 1
  {
    hide PortStep, Regular, RegularEvent, QueuedBits, Credits, PortRun, Bursts, Shaper.Potential, StaysBusy;
    var t1 := PortStep(env, portId, t, first);
    BusyFromStart(env, portId, t1, es);
    StepKeepsRegular(env, c, portId, size, t, first);
    BusyPeriodStarts(env, c, portId, size, t, first);
    StepClock(env, portId, t, first);
    BusyValue(c, size, t1);
    BacklogRun(env, c, portId, size, t1, es, Bursts(c) as real);
    BacklogFromCredits(c, size, PortRun(env, portId, t1, es), Bursts(c) + PortRun(env, portId, t1,
        es).log.polls - t1.log.polls);
  }

  lemma BacklogFromCredits(c: PortConfig, size: int, t: Track, slack: int)
    requires ValidConfig(c) && GoodSize(size) && Regular(c, size, t) && t.port.flag
    requires QueuedBits(t.port) as real + Credits(t.port, t.log.clock)
             <= Shaper.Potential(t.port.bucket, t.log.clock) + slack as real
    ensures QueuedBits(t.port) <= 8 * size + slack
  {
    hide Regular, QueuedBits, Credits, Shaper.Potential;
    BusyValue(c, size, t);
    CreditsNonNegative(c, size, t);
  }

  lemma StepClock(env: Env, portId: nat, t: Track, e: PortEvent)
    requires e.Incoming? ==> e.packet.tos < NUM_QOS_LEVEL
    ensures PortStep(env, portId, t, e).log.clock == e.at
  {
    hide Act;
  }

  lemma CreditsNonNegative(c: PortConfig, size: int, t: Track)
    requires ValidConfig(c) && Regular(c, size, t)
    ensures Credits(t.port, t.log.clock) >= 0.0
  {
    hide InitPort, QueuesSane, BucketSane, DropperSane, Earned, Metering.Worth, Busy, Uniform, Timed;
    Metering.WorthCoversTokens(t.port.meters[0], t.log.clock);
    Metering.WorthCoversTokens(t.port.meters[1], t.log.clock);
    Metering.WorthCoversTokens(t.port.meters[2], t.log.clock);
  }

  lemma {:induction false} BusyFromStart(env: Env, portId: nat, t: Track, es: seq<PortEvent>)
    requires WellTyped(es) && StaysBusy(env, portId, t, es)
    ensures t.port.flag
    decreases |es|
  {
    hide PortRun;
    if es != [] {
      BusyFromStart(env, portId, t, es[..|es| - 1]);
    }
  }
}
