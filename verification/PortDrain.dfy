/** Progress of the self-triggered SEND events, and what is left when arrivals stop. */
module PortDrain {
  import opened Types
  import opened Tokens
  import opened Scheduling
  import opened Ports
  import opened Runs
  import opened PortInvariants
  import opened PortTokens
  import opened UniformSize
  import Shaper

  /** If the bucket will hold exactly one packet's tokens, that packet is affordable then:
      whole tokens round nothing away. */
  lemma ExactMeansReady(c: PortConfig, b: Shaper.Bucket, size: int, now: real)
    requires BucketSane(c, b, now) && GoodSize(size)
    requires Shaper.Potential(b, now) == (8 * size) as real
    ensures Shaper.Ready(Shaper.Poll(b, now), size)
  {
    hide Earned, NewTokens;
    EarnedOrder(b.rate, b.lastUpdate, now, now);
    var missing := 8 * size - b.tokens;
    assert Earned(b.rate, b.lastUpdate, now) == missing as real;
    EnoughTokens(b.rate, b.lastUpdate, now, now, missing);
  }

  /** Events that neither poll nor are SEND events leave the pending SEND event exact. */
  lemma {:induction false} QuietRunKeepsExact(env: Env, c: PortConfig, portId: nat, size: int, t: Track,
      es: seq<PortEvent>)
    requires ValidConfig(c) && GoodSize(size) && Regular(c, size, t) && Exact(size, t)
    requires ValidPortRun(env, portId, t, es)
    requires forall i :: 0 <= i < |es| ==> RegularEvent(c, size, es[i])
    ensures var t' := PortRun(env, portId, t, es);
      && Regular(c, size, t')
      && t'.log.polls >= t.log.polls
      && (t'.log.polls == t.log.polls ==> Exact(size, t'))
    decreases |es|
  {
    hide Act, Regular, RegularEvent, Exact, Shaper.Potential;
    if es != [] {
      var before, e := es[..|es| - 1], es[|es| - 1];
      QuietRunKeepsExact(env, c, portId, size, t, before);
      var mid := PortRun(env, portId, t, before);
      StepKeepsRegular(env, c, portId, size, mid, e);
      var o := Act(env, portId, mid.port, e);
      if !Polls(e, o) && mid.log.polls == t.log.polls {
        KeepsExactWithoutPoll(env, c, portId, size, mid, e);
      }
    }
  }

  lemma KeepsExactWithoutPoll(env: Env, c: PortConfig, portId: nat, size: int, t: Track, e: PortEvent)
    requires ValidConfig(c) && Regular(c, size, t) && Exact(size, t) && PortEnabled(t, e)
    requires !Polls(e, Act(env, portId, t.port, e))
    ensures Exact(size, PortStep(env, portId, t, e))
  {
    hide Act, Base, Uniform, Shaper.Potential;
    DroppedKeepsTimed(env, portId, size, t, e);
  }

  /** Progress: after a SEND event that served nothing, the next SEND event serves a packet
      unless an ARRIVE event was admitted in between (only admissions and SEND events count
      as polls). */
  lemma {:induction false} NoTwoIdleSends(env: Env, c: PortConfig, portId: nat, size: int, t: Track, first: PortEvent,
                       es: seq<PortEvent>, second: PortEvent)
    requires ValidConfig(c) && GoodSize(size) && Regular(c, size, t)
    requires PortEnabled(t, first) && first.Wakeup?
    requires ValidPortRun(env, portId, PortStep(env, portId, t, first), es)
    requires PortEnabled(PortRun(env, portId, PortStep(env, portId, t, first), es), second) && second.Wakeup?
    requires forall i :: 0 <= i < |es| ==> RegularEvent(c, size, es[i])
    requires PortRun(env, portId, PortStep(env, portId, t, first), es).log.polls
             == PortStep(env, portId, t, first).log.polls
    ensures Act(env, portId, PortRun(env, portId, PortStep(env, portId, t, first), es).port, second).departed.Some?
  {
    hide Act, Regular, RegularEvent, Exact, PortRun, PortStep, ValidPortRun;
    SendLeavesExact(env, c, portId, size, t, first);
    QuietRunThenSend(env, c, portId, size, PortStep(env, portId, t, first), es, second);
  }

  lemma {:induction false} SendLeavesExact(env: Env, c: PortConfig, portId: nat, size: int, t: Track, e: PortEvent)
    requires ValidConfig(c) && GoodSize(size) && Regular(c, size, t)
    requires PortEnabled(t, e) && e.Wakeup?
    ensures Regular(c, size, PortStep(env, portId, t, e)) && Exact(size, PortStep(env, portId, t, e))
  {
    hide Act, Regular, Exact, PortStep;
    StepKeepsRegular(env, c, portId, size, t, e);
    SendIsExact(env, c, portId, size, t, e);
  }

  lemma {:induction false} QuietRunThenSend(env: Env, c: PortConfig, portId: nat, size: int, t: Track,
      es: seq<PortEvent>, e: PortEvent)
    requires ValidConfig(c) && GoodSize(size) && Regular(c, size, t) && Exact(size, t)
    requires ValidPortRun(env, portId, t, es)
    requires forall i :: 0 <= i < |es| ==> RegularEvent(c, size, es[i])
    requires PortRun(env, portId, t, es).log.polls == t.log.polls
    requires PortEnabled(PortRun(env, portId, t, es), e) && e.Wakeup?
    ensures Act(env, portId, PortRun(env, portId, t, es).port, e).departed.Some?
  {
    hide Act, Regular, RegularEvent, Exact, PortRun;
    QuietRunKeepsExact(env, c, portId, size, t, es);
    ExactSendServes(env, c, portId, size, PortRun(env, portId, t, es), e);
  }

  lemma ExactSendServes(env: Env, c: PortConfig, portId: nat, size: int, t: Track, e: PortEvent)
    requires ValidConfig(c) && GoodSize(size) && Regular(c, size, t) && Exact(size, t)
    requires PortEnabled(t, e) && e.Wakeup?
    ensures Act(env, portId, t.port, e).departed.Some?
  {
    hide Act, Uniform, Timed, Shaper.Potential, Sane;
    SendIsExact(env, c, portId, size, t, e);
    SaneLater(c, t.port, t.log.clock, e.at);
    SaneBucket(c, t.port, e.at);
    ExactMeansReady(c, t.port.bucket, size, e.at);
  }

  // ----- Drain -----

  /** The time of the one pending SEND event. */
  ghost function PendingTime(pending: multiset<real>): (x: real)
    requires |pending| == 1
    ensures x in pending
  {
    PendingExists(pending);
    var x :| x in pending;
    x
  }

  lemma PendingExists(pending: multiset<real>)
    requires |pending| == 1
    ensures exists x :: x in pending
  {
    var x := ThePending(pending);
  }

  /** The port after at most `n` of its pending SEND events, with nothing arriving. */
  ghost function Drained(env: Env, portId: nat, t: Track, msg: Message, n: nat): Track
    decreases n
  {
    if n == 0 || |t.log.pending| != 1 then t
    else Drained(env, portId, PortStep(env, portId, t, Wakeup(PendingTime(t.log.pending), msg)), msg, n - 1)
  }

  function Served(l: PortLog): nat {
    |l.departed[0]| + |l.departed[1]| + |l.departed[2]|
  }

  lemma PendingIsEnabled(c: PortConfig, size: int, t: Track, x: real, msg: Message)
    requires ValidConfig(c) && Regular(c, size, t) && |t.log.pending| == 1 && x in t.log.pending
    ensures PortEnabled(t, Wakeup(x, msg)) && t.log.clock <= x
  {
    hide Base, Uniform, Shaper.Potential;
    OnlyPending(t.log.pending, x);
  }

  lemma ServedStep(env: Env, portId: nat, t: Track, e: PortEvent)
    requires e.Wakeup?
    ensures Served(PortStep(env, portId, t, e).log) ==
            Served(t.log) + (if Act(env, portId, t.port, e).departed.Some? then 1 else 0)
  {
    hide FirstBusy, Shaper.Poll, WakeDelay, Shaper.Consume, Touch, Forwarded;
  }

  /** One SEND event of the drain: the next one is exact, and a packet is served unless
      this one was not exact. */
  lemma {:induction false} DrainStep(env: Env, c: PortConfig, portId: nat, size: int, t: Track, msg: Message)
    requires ValidConfig(c) && GoodSize(size) && Regular(c, size, t) && |t.log.pending| == 1
    ensures var t' := PortStep(env, portId, t, Wakeup(PendingTime(t.log.pending), msg));
      && Regular(c, size, t') && Exact(size, t')
      && (Exact(size, t) ==> Waiting(t'.port) == Waiting(t.port) - 1)
      && Waiting(t.port) - 1 <= Waiting(t'.port) <= Waiting(t.port)
      && Served(t'.log) + Waiting(t'.port) == Served(t.log) + Waiting(t.port)
  {
    hide Act, Regular, Exact, PortEnabled, Waiting, Served, PortStep;
    var e := Wakeup(PendingTime(t.log.pending), msg);
    PendingIsEnabled(c, size, t, e.at, msg);
    StepKeepsRegular(env, c, portId, size, t, e);
    SendIsExact(env, c, portId, size, t, e);
    ServedStep(env, portId, t, e);
    StepPort(env, portId, t, e);
    if Exact(size, t) {
      ExactSendServes(env, c, portId, size, t, e);
    }
  }

  lemma StepPort(env: Env, portId: nat, t: Track, e: PortEvent)
    requires e.Wakeup?
    ensures PortStep(env, portId, t, e).port == Act(env, portId, t.port, e).port
  {
    hide Act;
  }

  /** From an exact state every SEND event serves a packet until none is left. */
  lemma {:induction false} DrainFromExact(env: Env, c: PortConfig, portId: nat, size: int, t: Track, msg: Message,
      n: nat)
    requires ValidConfig(c) && GoodSize(size) && Regular(c, size, t) && Exact(size, t)
    requires n >= Waiting(t.port)
    ensures var t' := Drained(env, portId, t, msg, n);
      && Idle(t'.port) && !t'.port.flag && t'.log.pending == multiset{}
      && Served(t'.log) == Served(t.log) + Waiting(t.port)
    decreases n
  {
    hide PortStep, Regular, Exact, Waiting, Idle, Served;
    RegularIsBusy(c, size, t);
    if |t.log.pending| == 1 {
      DrainStep(env, c, portId, size, t, msg);
      DrainFromExact(env, c, portId, size, PortStep(env, portId, t, Wakeup(PendingTime(t.log.pending), msg)), msg,
          n - 1);
    }
  }

  lemma RegularIsBusy(c: PortConfig, size: int, t: Track)
    requires ValidConfig(c) && Regular(c, size, t)
    ensures |t.log.pending| == if Waiting(t.port) > 0 then 1 else 0
    ensures t.port.flag <==> Waiting(t.port) > 0
    ensures Idle(t.port) <==> Waiting(t.port) == 0
    ensures |t.log.pending| == 0 ==> t.log.pending == multiset{}
  {
    hide Sane, Uniform, Timed, Idle;
    IdleMeansNoneWaiting(t.port);
  }

  /** Drain: once arrivals stop, a port with k queued packets serves all of them and clears
      its flag within k + 1 SEND events. */
  lemma {:induction false} Drain(env: Env, c: PortConfig, portId: nat, size: int, t: Track, msg: Message)
    requires ValidConfig(c) && GoodSize(size) && Regular(c, size, t)
    ensures var t' := Drained(env, portId, t, msg, Waiting(t.port) + 1);
      && Idle(t'.port) && !t'.port.flag && t'.log.pending == multiset{}
      && Served(t'.log) == Served(t.log) + Waiting(t.port)
  {
    hide PortStep, Regular, Exact, Waiting, Idle, Served;
    RegularIsBusy(c, size, t);
    if |t.log.pending| == 1 {
      DrainStep(env, c, portId, size, t, msg);
      DrainFromExact(env, c, portId, size, PortStep(env, portId, t, Wakeup(PendingTime(t.log.pending), msg)), msg,
          Waiting(t.port));
    }
  }

  // ----- Packets the bucket can never pay for -----

  lemma OversizedIsNeverReady(c: PortConfig, b: Shaper.Bucket, size: int, now: real)
    requires BucketSane(c, b, now) && WordSize(size) && !GoodSize(size)
    ensures !Shaper.Ready(Shaper.Poll(b, now), size)
  {
    hide Earned, Shaper.Poll;
    Shaper.PollBounds(b, now);
  }

  lemma OversizedStep(env: Env, c: PortConfig, portId: nat, size: int, t: Track, msg: Message)
    requires ValidConfig(c) && WordSize(size) && !GoodSize(size) && Regular(c, size, t) && |t.log.pending| == 1
    ensures var t' := PortStep(env, portId, t, Wakeup(PendingTime(t.log.pending), msg));
      && Regular(c, size, t') && |t'.log.pending| == 1
      && Waiting(t'.port) == Waiting(t.port) && Served(t'.log) == Served(t.log)
      && t'.log.polls == t.log.polls + 1
      && PendingTime(t.log.pending) < PendingTime(t'.log.pending)
  {
    hide Act, Regular, Exact, PortEnabled, Waiting, Served;
    var e := Wakeup(PendingTime(t.log.pending), msg);
    PendingIsEnabled(c, size, t, e.at, msg);
    StepKeepsRegular(env, c, portId, size, t, e);
    SendIsExact(env, c, portId, size, t, e);
    RegularIsBusy(c, size, t);
    ServedStep(env, portId, t, e);
    RegularBucket(c, size, t, e.at);
    OversizedIsNeverReady(c, t.port.bucket, size, e.at);
  }

  lemma RegularBucket(c: PortConfig, size: int, t: Track, now: real)
    requires ValidConfig(c) && Regular(c, size, t) && t.log.clock <= now
    ensures BucketSane(c, t.port.bucket, now)
  {
    hide InitPort, QueuesSane, MeterSane, DropperSane, Busy, Uniform, Timed;
  }

  /** With packets larger than the bucket the SEND events go on for ever and serve nothing. */
  lemma {:induction false} OversizedNeverServes(env: Env, c: PortConfig, portId: nat, size: int, t: Track,
      msg: Message, n: nat)
    requires ValidConfig(c) && WordSize(size) && !GoodSize(size) && Regular(c, size, t) && Waiting(t.port) > 0
    ensures var t' := Drained(env, portId, t, msg, n);
      && |t'.log.pending| == 1 && t'.log.polls == t.log.polls + n
      && Waiting(t'.port) == Waiting(t.port) && Served(t'.log) == Served(t.log)
      && !Idle(t'.port)
    decreases n
  {
    hide PortStep, Regular, Waiting, Idle, Served;
    RegularIsBusy(c, size, t);
    if n > 0 {
      OversizedStep(env, c, portId, size, t, msg);
      var t1 := PortStep(env, portId, t, Wakeup(PendingTime(t.log.pending), msg));
      OversizedNeverServes(env, c, portId, size, t1, msg, n - 1);
    }
  }

  /** Once arrivals stop, a port with packets waiting empties if and only if its bucket can
      pay for a packet. */
  lemma DrainsIff(env: Env, c: PortConfig, portId: nat, size: int, t: Track, msg: Message)
    requires ValidConfig(c) && WordSize(size) && Regular(c, size, t) && Waiting(t.port) > 0
    ensures (exists n: nat :: Idle(Drained(env, portId, t, msg, n).port)) <==> GoodSize(size)
  {
    hide Regular, Drained, Idle, Waiting;
    if GoodSize(size) {
      Drain(env, c, portId, size, t, msg);
    } else {
      forall n: nat
        ensures !Idle(Drained(env, portId, t, msg, n).port)
      {
        OversizedNeverServes(env, c, portId, size, t, msg, n);
      }
    }
  }
}
