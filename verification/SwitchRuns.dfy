/** Results about every run of the switch from initialisation: packet conservation, and the
    port results lifted to the switch. */
module SwitchRuns {
  import opened Types
  import opened Scheduling
  import opened Ports
  import opened Switching
  import opened Runs
  import opened PortInvariants
  import opened PortRollback
  import opened PortTiming
  import opened UniformSize
  import opened PortOrder
  import opened PortWire
  import opened PortRed
  import opened PortDrain
  import opened Lifting
  import opened Statistics
  import Shaper
  import Dropping

  // ----- Conservation -----

  /** Packets a port has taken in: those that departed and those that wait. */
  function Held(t: Track): nat {
    Served(t.log) + Waiting(t.port)
  }

  /** The same for the first `n` ports. */
  function TotalHeld(w: World, n: nat): nat
    requires n <= |w.sw.ports| == |w.logs|
  {
    if n == 0 then 0 else TotalHeld(w, n - 1) + Held(TrackOf(w, n - 1))
  }

  /** Every packet to be forwarded was dropped, has departed, or waits in a queue; and the
      records are those of the delivered and the dropped packets. */
  ghost predicate Conserved(w: World) {
    && |w.sw.ports| == |w.logs|
    && w.sw.stats.received == w.sw.stats.dropped + TotalHeld(w, |w.sw.ports|)
    && Consistent(w.sw.stats)
  }

  function Arrivals(es: seq<Event>): nat
    decreases |es|
  {
    if es == [] then 0
    else Arrivals(es[..|es| - 1]) + (if es[|es| - 1].msg.kind == ARRIVE then 1 else 0)
  }

  lemma {:induction false} StepHeld(env: Env, portId: nat, t: Track, e: PortEvent)
    requires e.Incoming? ==> e.packet.tos < NUM_QOS_LEVEL
    ensures Held(PortStep(env, portId, t, e)) ==
            Held(t) + (if e.Incoming? && Act(env, portId, t.port, e).admitted then 1 else 0)
  {
    hide Act, FirstBusy;
    StepQueues(env, portId, t.port, e);
  }

  lemma AdmittedOrDropped(env: Env, p: PortState, portId: nat, packet: Packet, nextHop: int, now: real, msg: Message)
    requires packet.tos < NUM_QOS_LEVEL
    ensures var o := Arrive(env, p, portId, packet, nextHop, now, msg); o.admitted <==> !o.bits.c1
  {
    hide Judge, Depart, Shaper.Poll, FirstBusy, WakeDelay, PollFault;
    JudgeFrame(env, p, packet, now, NUM_QOS_LEVEL * portId + packet.tos, msg.snapshot);
  }

  lemma {:induction false} TotalAfterStep(w: World, w': World, i: nat, extra: nat, n: nat)
    requires i < |w.sw.ports| == |w.logs| == |w'.sw.ports| == |w'.logs| && n <= |w.logs|
    requires forall k :: 0 <= k < |w.logs| && k != i ==> TrackOf(w', k) == TrackOf(w, k)
    requires Held(TrackOf(w', i)) == Held(TrackOf(w, i)) + extra
    ensures TotalHeld(w', n) == TotalHeld(w, n) + (if i < n then extra else 0)
    decreases n
  {
    hide Held;
    if n > 0 {
      TotalAfterStep(w, w', i, extra, n - 1);
    }
  }

  lemma {:induction false} TotalUnchanged(w: World, w': World, n: nat)
    requires |w.sw.ports| == |w.logs| == |w'.sw.ports| == |w'.logs| && n <= |w.logs|
    requires forall k :: 0 <= k < |w.logs| ==> TrackOf(w', k) == TrackOf(w, k)
    ensures TotalHeld(w', n) == TotalHeld(w, n)
    decreases n
  {
    hide Held;
    if n > 0 {
      TotalUnchanged(w, w', n - 1);
    }
  }

  /** How an ARRIVE event moves the counters. */
  lemma ArriveCounters(env: Env, w: World, e: Event)
    requires WorldShaped(w) && Enabled(env, w, e) && e.msg.kind == ARRIVE && Consistent(w.sw.stats)
    ensures var st, st' := w.sw.stats, Step(env, w, e).sw.stats;
      && Consistent(st')
      && (if e.msg.packet.dest == env.self then
            st'.received == st.received && st'.dropped == st.dropped && st'.recvd == st.recvd + 1
          else
            var i := w.sw.routing[e.msg.packet.dest].port;
            var o := Act(env, i, w.sw.ports[i], Seen(w.sw, e));
            && st'.received == st.received + 1 && st'.recvd == st.recvd
            && st'.dropped == st.dropped + (if o.admitted then 0 else 1))
  {
    hide Arrive, DropRecords, Note;
    AppendRetract(w.sw.stats, e.msg.packet.pid, e.at - e.msg.packet.sendTime, 0);
    AppendRetract(w.sw.stats.(received := w.sw.stats.received + 1), e.msg.packet.pid, 0.0, 1);
    if e.msg.packet.dest != env.self {
      var route := w.sw.routing[e.msg.packet.dest];
      AdmittedOrDropped(env, w.sw.ports[route.port], route.port, e.msg.packet, route.nextHop, e.at, e.msg);
    }
  }

  lemma OtherCounters(env: Env, w: World, e: Event)
    requires WorldShaped(w) && Enabled(env, w, e) && e.msg.kind != ARRIVE
    ensures Step(env, w, e).sw.stats == w.sw.stats
  {
    hide Send, Note;
  }

  lemma StepConserves(env: Env, w: World, e: Event)
    requires WorldShaped(w) && Enabled(env, w, e) && Conserved(w)
    ensures Conserved(Step(env, w, e))
    ensures var st, st' := w.sw.stats, Step(env, w, e).sw.stats;
      st'.received + st'.recvd == st.received + st.recvd + (if e.msg.kind == ARRIVE then 1 else 0)
  {
    hide Act, Step, PortStep, PortEnabled, Held, Consistent, Note;
    StepOnPorts(env, w, e);
    var w' := Step(env, w, e);
    if e.msg.kind == ARRIVE {
      ArriveCounters(env, w, e);
    } else {
      OtherCounters(env, w, e);
    }
    if i: nat :| i < |w.sw.ports| && Concerns(env, w.sw, e, i) {
      ConcernIsTyped(env, w, e, i);
      StepHeld(env, i, TrackOf(w, i), Seen(w.sw, e));
      var extra := if Seen(w.sw, e).Incoming? && Act(env, i, w.sw.ports[i], Seen(w.sw, e)).admitted then 1 else 0;
      TotalAfterStep(w, w', i, extra, |w.logs|);
      SeenKinds(env, w, e, i);
    } else {
      TotalUnchanged(w, w', |w.logs|);
      NoConcernMeansDelivered(env, w, e);
    }
  }

  lemma SeenKinds(env: Env, w: World, e: Event, i: nat)
    requires Concerns(env, w.sw, e, i)
    ensures Seen(w.sw, e).Incoming? <==> e.msg.kind == ARRIVE
    ensures e.msg.kind == ARRIVE ==> e.msg.packet.dest != env.self && w.sw.routing[e.msg.packet.dest].port == i
  {
  }

  lemma NoConcernMeansDelivered(env: Env, w: World, e: Event)
    requires Enabled(env, w, e)
    requires forall i: nat :: i < |w.sw.ports| ==> !Concerns(env, w.sw, e, i)
    ensures e.msg.kind == ARRIVE ==> e.msg.packet.dest == env.self
  {
    if e.msg.kind == ARRIVE && e.msg.packet.dest != env.self {
      assert Concerns(env, w.sw, e, w.sw.routing[e.msg.packet.dest].port);
    }
  }

  /** Conservation: in every run from initialisation, each packet to be forwarded was dropped,
      departed or waits; arrivals are the packets to be forwarded and those delivered here; the
      records number the dropped and the delivered, and exactly the dropped are marked. */
  lemma {:induction false} Conservation(env: Env, cs: seq<PortConfig>, routing: seq<Route>, es: seq<Event>)
    requires forall i :: 0 <= i < |cs| ==> ValidConfig(cs[i])
    requires ValidRun(env, InitWorld(cs, routing), es)
    ensures var w := Run(env, InitWorld(cs, routing), es);
      var st := w.sw.stats;
      && Conserved(w)
      && Arrivals(es) == st.received + st.recvd
      && |st.live| == st.recvd + st.dropped
      && DropRecords(st.live) == st.dropped
    decreases |es|
  {
    hide Step, Enabled, TotalHeld, AllBase;
    var w0 := InitWorld(cs, routing);
    InitBase(cs, routing);
    BaseIsShaped(cs, w0);
    if es == [] {
      NothingHeld(cs, routing, |cs|);
    } else {
      var before, e := es[..|es| - 1], es[|es| - 1];
      Conservation(env, cs, routing, before);
      RunKeepsAllBase(env, cs, w0, before);
      BaseIsShaped(cs, Run(env, w0, before));
      StepConserves(env, Run(env, w0, before), e);
    }
  }

  // ----- The sent counter -----

  /** The number of packets that departed inside ARRIVE events of a run. */
  function ArriveDepartures(env: Env, w: World, es: seq<Event>): nat
    decreases |es|
  {
    if es == [] then 0
    else
      var before, e := es[..|es| - 1], es[|es| - 1];
      ArriveDepartures(env, w, before) + (if DepartsInArrive(env, Run(env, w, before).sw, e) then 1 else 0)
  }

  predicate DepartsInArrive(env: Env, sw: Switch, e: Event) {
    e.msg.kind == ARRIVE && CanHandle(env, sw, e.msg) &&
    var work := Handle(env, sw, e.msg, e.at).work;
    work.Some? && work.value.outcome.departed.Some?
  }

  lemma {:induction false} SentBit(env: Env, p: PortState, portId: nat, packet: Packet, nextHop: int, now: real,
      msg: Message)
    requires packet.tos < NUM_QOS_LEVEL
    ensures var o := Arrive(env, p, portId, packet, nextHop, now, msg);
      o.departed.Some? <==> o.bits.c2 && !o.bits.c1
  {
    hide Judge, Depart, Shaper.Poll, FirstBusy, WakeDelay, PollFault;
    JudgeFrame(env, p, packet, now, NUM_QOS_LEVEL * portId + packet.tos, msg.snapshot);
  }

  lemma {:induction false} StepCountsSent(env: Env, w: World, e: Event)
    requires WorldShaped(w) && Enabled(env, w, e)
    ensures Step(env, w, e).sw.stats.sent
            == w.sw.stats.sent + (if DepartsInArrive(env, w.sw, e) then 1 else 0)
  {
    hide Arrive, Send, Note;
    if e.msg.kind == ARRIVE && e.msg.packet.dest != env.self {
      var route := w.sw.routing[e.msg.packet.dest];
      SentBit(env, w.sw.ports[route.port], route.port, e.msg.packet, route.nextHop, e.at, e.msg);
    }
  }

  /** In every run from initialisation the sent counter is the number of departures made inside
      ARRIVE events; those made by SEND events are not counted. */
  lemma {:induction false} SentCountsArriveDepartures(env: Env, cs: seq<PortConfig>, routing: seq<Route>,
      es: seq<Event>)
    requires forall i :: 0 <= i < |cs| ==> ValidConfig(cs[i])
    requires ValidRun(env, InitWorld(cs, routing), es)
    ensures Run(env, InitWorld(cs, routing), es).sw.stats.sent == ArriveDepartures(env, InitWorld(cs, routing), es)
    decreases |es|
  {
    hide Step, Enabled, DepartsInArrive, AllBase;
    var w0 := InitWorld(cs, routing);
    if es != [] {
      var before, e := es[..|es| - 1], es[|es| - 1];
      SentCountsArriveDepartures(env, cs, routing, before);
      InitBase(cs, routing);
      RunKeepsAllBase(env, cs, w0, before);
      BaseIsShaped(cs, Run(env, w0, before));
      StepCountsSent(env, Run(env, w0, before), e);
    }
  }

  lemma BaseIsShaped(cs: seq<PortConfig>, w: World)
    requires AllBase(cs, w)
    ensures WorldShaped(w)
  {
    hide Base;
  }

  lemma {:induction false} NothingHeld(cs: seq<PortConfig>, routing: seq<Route>, n: nat)
    requires (forall i :: 0 <= i < |cs| ==> ValidConfig(cs[i])) && n <= |cs|
    ensures TotalHeld(InitWorld(cs, routing), n) == 0
    decreases n
  {
    if n > 0 {
      NothingHeld(cs, routing, n - 1);
    }
  }

  // ----- Port results in runs of the switch -----

  /** A fresh port satisfies every invariant of its runs. */
  lemma FreshTrack(c: PortConfig, size: int, routing: seq<Route>, portId: nat)
    requires ValidConfig(c)
    ensures var t := InitTrack(c);
      && Base(c, t) && Regular(c, size, t) && InOrder(t) && WireSound(t) && AveragesSound(t)
      && AllRouted(routing, portId, t.port)
  {
    hide Base, Regular, InOrder, WireSound, AveragesSound, AllRouted, InitTrack;
    FreshIsRegular(c, size);
    FreshInOrder(c);
    InitWireSound(c);
    FreshAverages(c);
    FreshRouted(c, routing, portId);
  }

  /** `pe` is how port `i` sees one of the events. */
  predicate SeenIn(env: Env, sw: Switch, es: seq<Event>, i: nat, pe: PortEvent) {
    exists j :: 0 <= j < |es| && Concerns(env, sw, es[j], i) && pe == Seen(sw, es[j])
  }

  /** Every event a port sees is an event of the run that concerns it. */
  lemma {:induction false} ProjectedEvents(env: Env, sw: Switch, es: seq<Event>, i: nat)
    ensures forall k :: 0 <= k < |Project(env, sw, es, i)| ==> SeenIn(env, sw, es, i, Project(env, sw, es, i)[k])
    decreases |es|
  {
    hide Seen, Concerns;
    if es != [] {
      var before := es[..|es| - 1];
      ProjectedEvents(env, sw, before, i);
      forall pe | SeenIn(env, sw, before, i, pe)
        ensures SeenIn(env, sw, es, i, pe)
      {
        var j :| 0 <= j < |before| && Concerns(env, sw, before[j], i) && pe == Seen(sw, before[j]);
        assert es[j] == before[j];
      }
      assert Concerns(env, sw, es[|es| - 1], i) ==> SeenIn(env, sw, es, i, Seen(sw, es[|es| - 1]));
    }
  }

  /** All packets of the run have the same size, and all times are within the horizon. */
  predicate RegularRun(cs: seq<PortConfig>, size: int, es: seq<Event>) {
    && (forall j :: 0 <= j < |es| && es[j].msg.kind == ARRIVE ==> es[j].msg.packet.sizeInBytes == size)
    && (forall i, j :: 0 <= i < |cs| && 0 <= j < |es| ==> InHorizon(cs[i], es[j].at))
  }

  lemma ProjectedRegular(env: Env, cs: seq<PortConfig>, sw: Switch, size: int, es: seq<Event>, i: nat)
    requires RegularRun(cs, size, es) && i < |cs|
    ensures forall k :: 0 <= k < |Project(env, sw, es, i)| ==>
      RegularEvent(cs[i], size, Project(env, sw, es, i)[k])
  {
    hide InHorizon, Project;
    ProjectedEvents(env, sw, es, i);
  }

  lemma ProjectedHorizon(env: Env, cs: seq<PortConfig>, sw: Switch, es: seq<Event>, i: nat)
    requires i < |cs| && forall j :: 0 <= j < |es| ==> InHorizon(cs[i], es[j].at)
    ensures forall k :: 0 <= k < |Project(env, sw, es, i)| ==> InHorizon(cs[i], Project(env, sw, es, i)[k].at)
  {
    hide InHorizon, Project;
    ProjectedEvents(env, sw, es, i);
  }

  /** With one packet size and times within the horizon, every port keeps the invariants of that
      size in every run from initialisation. */
  lemma {:induction false} RegularInRuns(env: Env, cs: seq<PortConfig>, routing: seq<Route>, size: int,
      es: seq<Event>, i: nat)
    requires (forall k :: 0 <= k < |cs| ==> ValidConfig(cs[k])) && WordSize(size) && i < |cs|
    requires ValidRun(env, InitWorld(cs, routing), es) && RegularRun(cs, size, es)
    ensures var w := Run(env, InitWorld(cs, routing), es);
      && WorldShaped(w) && |w.sw.ports| == |w.logs| == |cs|
      && Regular(cs[i], size, TrackOf(w, i))
  {
    hide Run, ValidRun, AllBase, Regular, Project, PortRun, ValidPortRun, InHorizon;
    var w0 := InitWorld(cs, routing);
    InitBase(cs, routing);
    BaseIsShaped(cs, w0);
    RunOnPort(env, w0, es, i);
    ProjectedRegular(env, cs, w0.sw, size, es, i);
    FreshTrack(cs[i], size, routing, i);
    RunKeepsRegular(env, cs[i], i, size, TrackOf(w0, i), Project(env, w0.sw, es, i));
  }

  /** With one packet size and times within the horizon, in every run from initialisation no
      assertion of a forward handler fails and every SEND event lies strictly in the future. */
  lemma {:induction false} RegularRunNeverFaults(env: Env, cs: seq<PortConfig>, routing: seq<Route>, size: int,
      es: seq<Event>, e: Event, i: nat)
    requires (forall k :: 0 <= k < |cs| ==> ValidConfig(cs[k])) && WordSize(size) && i < |cs|
    requires ValidRun(env, InitWorld(cs, routing), es) && RegularRun(cs, size, es + [e])
    requires Enabled(env, Run(env, InitWorld(cs, routing), es), e)
    ensures var w := Run(env, InitWorld(cs, routing), es);
      && |w.sw.ports| == |w.logs| == |cs|
      && Regular(cs[i], size, TrackOf(w, i))
      && (Concerns(env, w.sw, e, i) ==>
            var pe := Seen(w.sw, e);
            && (pe.Incoming? ==> pe.packet.tos < NUM_QOS_LEVEL)
            && var o := Act(env, i, w.sw.ports[i], pe);
               !o.fault && (o.wake.Some? ==> o.wake.value > 0.0))
  {
    hide Run, ValidRun, Enabled, AllBase, Act, Regular, InHorizon;
    PartIsRegular(cs, size, es, e);
    RegularInRuns(env, cs, routing, size, es, i);
    var w := Run(env, InitWorld(cs, routing), es);
    if Concerns(env, w.sw, e, i) {
      StepOnPorts(env, w, e);
      ConcernIsTyped(env, w, e, i);
      LastIsRegular(env, cs, size, w.sw, es, e, i);
      StepKeepsRegular(env, cs[i], i, size, TrackOf(w, i), Seen(w.sw, e));
    }
  }

  lemma PartIsRegular(cs: seq<PortConfig>, size: int, es: seq<Event>, e: Event)
    requires RegularRun(cs, size, es + [e])
    ensures RegularRun(cs, size, es)
  {
    hide InHorizon;
    forall j | 0 <= j < |es|
      ensures es[j] == (es + [e])[j]
    {
    }
  }

  lemma LastIsRegular(env: Env, cs: seq<PortConfig>, size: int, sw: Switch, es: seq<Event>, e: Event, i: nat)
    requires RegularRun(cs, size, es + [e]) && i < |cs|
    ensures RegularEvent(cs[i], size, Seen(sw, e))
  {
    hide InHorizon;
    assert (es + [e])[|es|] == e;
  }

  /** In every run from initialisation, at every port, each priority is served first-in
      first-out, and RED averages stay within the sampled lengths. */
  lemma {:induction false} OrderInRuns(env: Env, cs: seq<PortConfig>, routing: seq<Route>, es: seq<Event>, i: nat)
    requires (forall k :: 0 <= k < |cs| ==> ValidConfig(cs[k])) && i < |cs|
    requires ValidRun(env, InitWorld(cs, routing), es)
    ensures var w := Run(env, InitWorld(cs, routing), es);
      && |w.sw.ports| == |w.logs| == |cs|
      && InOrder(TrackOf(w, i))
      && (Dropping.IsPower(env.power) ==> AveragesSound(TrackOf(w, i)))
  {
    hide Run, ValidRun, AllBase, Project, PortRun, ValidPortRun, InOrder, AveragesSound, Dropping.IsPower;
    var w0 := InitWorld(cs, routing);
    InitBase(cs, routing);
    BaseIsShaped(cs, w0);
    RunOnPort(env, w0, es, i);
    FreshTrack(cs[i], 1, routing, i);
    RunKeepsOrder(env, i, TrackOf(w0, i), Project(env, w0.sw, es, i));
    if Dropping.IsPower(env.power) {
      RunKeepsAverages(env, i, TrackOf(w0, i), Project(env, w0.sw, es, i));
    }
  }

  /** In every run from initialisation within the horizon, at every port, slots on the wire
      never overlap and packets reach the next hop in the order of their departure. */
  lemma {:induction false} WireInRuns(env: Env, cs: seq<PortConfig>, routing: seq<Route>, es: seq<Event>, i: nat)
    requires (forall k :: 0 <= k < |cs| ==> ValidConfig(cs[k])) && i < |cs|
    requires ValidRun(env, InitWorld(cs, routing), es)
    requires forall j :: 0 <= j < |es| ==> InHorizon(cs[i], es[j].at)
    ensures var w := Run(env, InitWorld(cs, routing), es);
      && |w.sw.ports| == |w.logs| == |cs|
      && WireSound(TrackOf(w, i))
      && forall a, b :: 0 <= a < b < |w.logs[i].slots| ==>
           && w.logs[i].slots[a].end <= w.logs[i].slots[b].start
           && w.logs[i].slots[a].reaches < w.logs[i].slots[b].reaches
  {
    hide Run, ValidRun, AllBase, Project, PortRun, ValidPortRun, InHorizon, WireSound;
    var w0 := InitWorld(cs, routing);
    InitBase(cs, routing);
    BaseIsShaped(cs, w0);
    RunOnPort(env, w0, es, i);
    FreshTrack(cs[i], 1, routing, i);
    ProjectedHorizon(env, cs, w0.sw, es, i);
    RunKeepsWire(env, cs[i], i, TrackOf(w0, i), Project(env, w0.sw, es, i));
  }

  /** In every run from initialisation, if a port leads to one neighbour, each packet it
      forwards goes where the routing entry of the packet's own destination points. */
  lemma {:induction false} ForwardingInRuns(env: Env, cs: seq<PortConfig>, routing: seq<Route>, es: seq<Event>,
      e: Event, i: nat)
    requires (forall k :: 0 <= k < |cs| ==> ValidConfig(cs[k])) && i < |cs|
    requires SingleNeighbour(routing, i)
    requires ValidRun(env, InitWorld(cs, routing), es) && Enabled(env, Run(env, InitWorld(cs, routing), es), e)
    ensures var w := Run(env, InitWorld(cs, routing), es);
      && |w.sw.ports| == |w.logs| == |cs|
      && (Concerns(env, w.sw, e, i) ==>
            var pe := Seen(w.sw, e);
            && (pe.Incoming? ==> pe.packet.tos < NUM_QOS_LEVEL)
            && var f := Act(env, i, w.sw.ports[i], pe).forward;
               f.Some? ==> ForwardedRight(routing, f.value))
  {
    hide Run, ValidRun, Enabled, AllBase, Project, PortRun, ValidPortRun, Act, AllRouted;
    var w0 := InitWorld(cs, routing);
    InitBase(cs, routing);
    BaseIsShaped(cs, w0);
    RunOnPort(env, w0, es, i);
    FreshTrack(cs[i], 1, routing, i);
    ProjectedRouted(env, w0, es, i);
    RunForwards(env, i, routing, TrackOf(w0, i), Project(env, w0.sw, es, i));
    var w := Run(env, w0, es);
    if Concerns(env, w.sw, e, i) {
      ConcernIsTyped(env, w, e, i);
      StepForwards(env, i, routing, TrackOf(w, i), Seen(w.sw, e));
      ForwardTarget(env, i, w.sw.ports[i], Seen(w.sw, e));
    }
  }

  lemma ProjectedRouted(env: Env, w: World, es: seq<Event>, i: nat)
    ensures forall k :: 0 <= k < |Project(env, w.sw, es, i)| ==>
      WellRouted(w.sw.routing, i, Project(env, w.sw, es, i)[k])
  {
    hide Project;
    ProjectedEvents(env, w.sw, es, i);
  }
}
