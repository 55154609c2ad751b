/** Shaping, delay, service, backlog and drain at every port of the switch, in runs from
    initialisation. */
module SwitchBounds {
  import opened Types
  import opened Tokens
  import opened Ports
  import opened Switching
  import opened Runs
  import opened PortInvariants
  import opened PortTiming
  import opened PortTokens
  import opened UniformSize
  import opened PortService
  import opened PortDrain
  import opened PortWire
  import opened Lifting
  import opened SwitchRuns

  // ----- Any packet sizes -----

  lemma {:induction false} BaseInRuns(env: Env, cs: seq<PortConfig>, routing: seq<Route>, es: seq<Event>, i: nat)
    requires (forall k :: 0 <= k < |cs| ==> ValidConfig(cs[k])) && i < |cs|
    requires ValidRun(env, InitWorld(cs, routing), es)
    ensures var w := Run(env, InitWorld(cs, routing), es);
      WorldShaped(w) && |w.sw.ports| == |w.logs| == |cs| && Base(cs[i], TrackOf(w, i))
  {
    hide Run, ValidRun, Base, InitWorld;
    InitBase(cs, routing);
    RunKeepsAllBase(env, cs, InitWorld(cs, routing), es);
  }

  lemma ProjectedTimes(env: Env, c: PortConfig, sw: Switch, es: seq<Event>, i: nat, from: real, to: real)
    requires forall j :: 0 <= j < |es| ==> from <= es[j].at <= to && InHorizon(c, es[j].at)
    ensures forall k :: 0 <= k < |Project(env, sw, es, i)| ==>
      var at := Project(env, sw, es, i)[k].at; from <= at <= to && InHorizon(c, at)
  {
    hide InHorizon, Project;
    ProjectedEvents(env, sw, es, i);
  }

  /** Shaping: over any window of any run the bits that leave a port are at most the capacity of
      its bucket, one bit, and the rate times the length of the window. */
  lemma {:induction false} ShapedInRuns(env: Env, cs: seq<PortConfig>, routing: seq<Route>, es0: seq<Event>,
      es: seq<Event>, i: nat, from: real, to: real)
    requires (forall k :: 0 <= k < |cs| ==> ValidConfig(cs[k])) && i < |cs|
    requires ValidRun(env, InitWorld(cs, routing), es0)
    requires ValidRun(env, Run(env, InitWorld(cs, routing), es0), es)
    requires from <= to && forall j :: 0 <= j < |es| ==> from <= es[j].at <= to && InHorizon(cs[i], es[j].at)
    ensures var w := Run(env, InitWorld(cs, routing), es0);
      var w' := Run(env, w, es);
      && |w.logs| == |w'.logs| == |cs|
      && (w'.logs[i].departedBits - w.logs[i].departedBits) as real
         <= SHAPER_CAPACITY as real + Earned(cs[i].bandwidth, from, to) + 1.0
  {
    hide Run, ValidRun, Base, Project, PortRun, ValidPortRun, InHorizon, Earned, InitWorld;
    BaseInRuns(env, cs, routing, es0, i);
    var w := Run(env, InitWorld(cs, routing), es0);
    RunOnPort(env, w, es, i);
    ProjectedTimes(env, cs[i], w.sw, es, i, from, to);
    ShapedWindow(env, cs[i], i, TrackOf(w, i), Project(env, w.sw, es, i), from, to);
  }

  /** Delay: every packet forwarded in any run reaches its next hop within the time it takes to
      send one bucket and one bit, plus the propagation delay. */
  lemma {:induction false} DelayInRuns(env: Env, cs: seq<PortConfig>, routing: seq<Route>, es: seq<Event>, e: Event,
      i: nat)
    requires (forall k :: 0 <= k < |cs| ==> ValidConfig(cs[k])) && i < |cs|
    requires ValidRun(env, InitWorld(cs, routing), es) && Enabled(env, Run(env, InitWorld(cs, routing), es), e)
    requires (forall j :: 0 <= j < |es| ==> InHorizon(cs[i], es[j].at)) && InHorizon(cs[i], e.at)
    ensures var w := Run(env, InitWorld(cs, routing), es);
      && |w.sw.ports| == |w.logs| == |cs|
      && (Concerns(env, w.sw, e, i) ==>
            var pe := Seen(w.sw, e);
            && (pe.Incoming? ==> pe.packet.tos < NUM_QOS_LEVEL)
            && var f := Act(env, i, w.sw.ports[i], pe).forward;
               f.Some? ==> f.value.delay <= (SHAPER_CAPACITY + 1) as real / cs[i].bandwidth + cs[i].propagation)
  {
    hide Run, ValidRun, Enabled, Base, Act, InHorizon, WireSound, InitWorld;
    BaseInRuns(env, cs, routing, es, i);
    WireInRuns(env, cs, routing, es, i);
    var w := Run(env, InitWorld(cs, routing), es);
    if Concerns(env, w.sw, e, i) {
      StepOnPorts(env, w, e);
      ConcernIsTyped(env, w, e, i);
      SeenAt(w.sw, e);
      if Act(env, i, w.sw.ports[i], Seen(w.sw, e)).forward.Some? {
        ForwardDelayBound(env, cs[i], i, TrackOf(w, i), Seen(w.sw, e));
      }
    }
  }

  lemma SeenAt(sw: Switch, e: Event)
    ensures Seen(sw, e).at == e.at
  {
  }

  // ----- One packet size -----

  /** A SEND event is pending for port `i` at the start of the run and after each of its events. */
  ghost predicate StaysBusyAt(env: Env, w: World, es: seq<Event>, i: nat)
    decreases |es|
  {
    var w' := Run(env, w, es);
    && i < |w'.sw.ports| && w'.sw.ports[i].flag
    && (es != [] ==> StaysBusyAt(env, w, es[..|es| - 1], i))
  }

  lemma {:induction false} BusyProjected(env: Env, w: World, es: seq<Event>, i: nat)
    requires WorldShaped(w) && ValidRun(env, w, es) && i < |w.sw.ports| && StaysBusyAt(env, w, es, i)
    ensures ValidPortRun(env, i, TrackOf(w, i), Project(env, w.sw, es, i))
    ensures StaysBusy(env, i, TrackOf(w, i), Project(env, w.sw, es, i))
    decreases |es|
  {
    hide Step, PortStep, PortEnabled, Enabled, Seen, Concerns, ValidPortRun, PortRun;
    RunOnPort(env, w, es, i);
    if es != [] {
      var before, e := es[..|es| - 1], es[|es| - 1];
      BusyProjected(env, w, before, i);
      if Concerns(env, w.sw, e, i) {
        var pes := Project(env, w.sw, before, i);
        assert (pes + [Seen(w.sw, e)])[..|pes|] == pes;
      }
    }
  }

  /** A run from initialisation with packets of one size and times within the horizon, continued
      by events of the same kind. */
  ghost predicate RegularContinuation(env: Env, cs: seq<PortConfig>, routing: seq<Route>, size: int, es0: seq<Event>,
      es: seq<Event>)
  {
    && (forall k :: 0 <= k < |cs| ==> ValidConfig(cs[k])) && GoodSize(size)
    && ValidRun(env, InitWorld(cs, routing), es0) && RegularRun(cs, size, es0)
    && ValidRun(env, Run(env, InitWorld(cs, routing), es0), es) && RegularRun(cs, size, es)
  }

  /** Service: while a SEND event for the port stays pending, the bits that depart from it are at
      least the rate times the elapsed time, less the bits of one packet and one bit per poll. */
  lemma {:induction false} ServiceInRuns(env: Env, cs: seq<PortConfig>, routing: seq<Route>, size: int, es0: seq<Event>,
      es: seq<Event>, i: nat)
    requires RegularContinuation(env, cs, routing, size, es0, es) && i < |cs|
    requires StaysBusyAt(env, Run(env, InitWorld(cs, routing), es0), es, i)
    ensures var w := Run(env, InitWorld(cs, routing), es0);
      var w' := Run(env, w, es);
      && |w.logs| == |w'.logs| == |cs|
      && (w'.logs[i].departedBits - w.logs[i].departedBits) as real
         >= Earned(cs[i].bandwidth, w.logs[i].clock, w'.logs[i].clock)
            - (8 * size + (w'.logs[i].polls - w.logs[i].polls)) as real
  {
    hide Run, ValidRun, Regular, Project, PortRun, ValidPortRun, InHorizon, Earned, InitWorld, StaysBusyAt, StaysBusy;
    RegularInRuns(env, cs, routing, size, es0, i);
    var w := Run(env, InitWorld(cs, routing), es0);
    RunOnPort(env, w, es, i);
    BusyProjected(env, w, es, i);
    ProjectedRegular(env, cs, w.sw, size, es, i);
    Service(env, cs[i], i, size, TrackOf(w, i), Project(env, w.sw, es, i));
  }

  /** Backlog: from the event that starts a busy period of the port on, whatever arrives, the bits
      queued there stay below the bursts of its meters, one packet, and one bit per further poll. */
  lemma {:induction false} BacklogInRuns(env: Env, cs: seq<PortConfig>, routing: seq<Route>, size: int, es0: seq<Event>,
      first: Event, es: seq<Event>, i: nat)
    requires RegularContinuation(env, cs, routing, size, es0, [first]) && i < |cs|
    requires var w := Run(env, InitWorld(cs, routing), es0);
      && |w.sw.ports| == |cs| && !w.sw.ports[i].flag && Concerns(env, w.sw, first, i)
      && ValidRun(env, Step(env, w, first), es) && RegularRun(cs, size, es)
      && StaysBusyAt(env, Step(env, w, first), es, i)
    ensures var w := Run(env, InitWorld(cs, routing), es0);
      var w' := Run(env, Step(env, w, first), es);
      && |w.logs| == |w'.logs| == |w'.sw.ports| == |cs|
      && QueuedBits(w'.sw.ports[i]) <= Bursts(cs[i]) + 8 * size + (w'.logs[i].polls - w.logs[i].polls) - 1
  {
    hide Run, Regular, Project, PortRun, ValidPortRun, InHorizon, InitWorld, StaysBusyAt, StaysBusy, Enabled, Step,
         PortStep, QueuedBits, Seen, RegularRun, Concerns;
    RegularInRuns(env, cs, routing, size, es0, i);
    var w := Run(env, InitWorld(cs, routing), es0);
    SingleRun(env, w, first);
    StepOnPorts(env, w, first);
    FirstIsRegular(env, cs, size, w.sw, first, i);
    var w1 := Step(env, w, first);
    RunOnPort(env, w1, es, i);
    BusyProjected(env, w1, es, i);
    ProjectedRegular(env, cs, w1.sw, size, es, i);
    BacklogBound(env, cs[i], i, size, TrackOf(w, i), Seen(w.sw, first), Project(env, w1.sw, es, i));
  }

  lemma SingleRun(env: Env, w: World, e: Event)
    requires ValidRun(env, w, [e])
    ensures Enabled(env, w, e)
  {
    hide Enabled;
    assert [e][..0] == [];
  }

  lemma FirstIsRegular(env: Env, cs: seq<PortConfig>, size: int, sw: Switch, e: Event, i: nat)
    requires RegularRun(cs, size, [e]) && i < |cs|
    ensures RegularEvent(cs[i], size, Seen(sw, e))
  {
    hide InHorizon;
    assert [] + [e] == [e];
    LastIsRegular(env, cs, size, sw, [], e, i);
  }

  /** Progress: between two SEND events of a port of which the first served nothing, either an
      ARRIVE event was admitted there or the second serves a packet. */
  lemma {:induction false} NoTwoIdleSendsInRuns(env: Env, cs: seq<PortConfig>, routing: seq<Route>, size: int,
      es0: seq<Event>, first: Event, es: seq<Event>, second: Event, i: nat)
    requires RegularContinuation(env, cs, routing, size, es0, [first]) && i < |cs|
    requires first.msg.kind == SEND && first.msg.port == i && second.msg.kind == SEND && second.msg.port == i
    requires var w1 := Step(env, Run(env, InitWorld(cs, routing), es0), first);
      && ValidRun(env, w1, es) && RegularRun(cs, size, es)
      && Enabled(env, Run(env, w1, es), second)
      && |w1.logs| == |Run(env, w1, es).logs| == |cs| && Run(env, w1, es).logs[i].polls == w1.logs[i].polls
    ensures var w' := Run(env, Step(env, Run(env, InitWorld(cs, routing), es0), first), es);
      |w'.sw.ports| == |cs| && Act(env, i, w'.sw.ports[i], Seen(w'.sw, second)).departed.Some?
  {
    hide Run, Regular, Project, PortRun, ValidPortRun, InHorizon, InitWorld, Enabled, Step, PortStep, RegularRun, Act;
    RegularInRuns(env, cs, routing, size, es0, i);
    var w := Run(env, InitWorld(cs, routing), es0);
    SingleRun(env, w, first);
    StepOnPorts(env, w, first);
    var w1 := Step(env, w, first);
    RunOnPort(env, w1, es, i);
    StepOnPorts(env, Run(env, w1, es), second);
    ProjectedRegular(env, cs, w1.sw, size, es, i);
    NoTwoIdleSends(env, cs[i], i, size, TrackOf(w, i), Seen(w.sw, first), Project(env, w1.sw, es, i),
                   Seen(Run(env, w1, es).sw, second));
  }

  /** Drain: in any state of any run, once arrivals stop, a port with packets waiting serves them
      all within one SEND event more than it has packets, if and only if its bucket can pay for a
      packet; otherwise it never empties. */
  lemma {:induction false} DrainInRuns(env: Env, cs: seq<PortConfig>, routing: seq<Route>, size: int, es: seq<Event>,
      i: nat, msg: Message)
    requires (forall k :: 0 <= k < |cs| ==> ValidConfig(cs[k])) && WordSize(size) && i < |cs|
    requires ValidRun(env, InitWorld(cs, routing), es) && RegularRun(cs, size, es)
    ensures var w := Run(env, InitWorld(cs, routing), es);
      && |w.sw.ports| == |w.logs| == |cs|
      && var t := TrackOf(w, i);
      && (GoodSize(size) ==>
            var t' := Drained(env, i, t, msg, Waiting(t.port) + 1);
            && Idle(t'.port) && !t'.port.flag && t'.log.pending == multiset{}
            && Served(t'.log) == Served(t.log) + Waiting(t.port))
      && (Waiting(t.port) > 0 ==>
            ((exists n: nat :: Idle(Drained(env, i, t, msg, n).port)) <==> GoodSize(size)))
  {
    hide Run, ValidRun, Regular, InHorizon, InitWorld, Drained, Idle, Waiting, Served;
    RegularInRuns(env, cs, routing, size, es, i);
    var t := TrackOf(Run(env, InitWorld(cs, routing), es), i);
    if GoodSize(size) {
      Drain(env, cs[i], i, size, t, msg);
    }
    if Waiting(t.port) > 0 {
      DrainsIff(env, cs[i], i, size, t, msg);
    }
  }
}
