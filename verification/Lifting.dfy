/** From runs of the switch to runs of its ports. */
module Lifting {
  import opened Types
  import opened Ports
  import opened Switching
  import opened Runs
  import opened PortInvariants
  import opened PortOrder

  /** Each port has its log, which is not ahead of the clock. */
  ghost predicate WorldShaped(w: World) {
    && |w.logs| == |w.sw.ports|
    && forall i :: 0 <= i < |w.logs| ==> w.logs[i].clock <= w.clock
  }

  /** An event is handled as its port sees it, and no other port notices. */
  lemma StepOnPorts(env: Env, w: World, e: Event)
    requires WorldShaped(w) && Enabled(env, w, e)
    ensures var w' := Step(env, w, e);
      && WorldShaped(w') && w'.clock == e.at
      && |w'.sw.ports| == |w.sw.ports| && w'.sw.routing == w.sw.routing
      && (forall i :: 0 <= i < |w.sw.ports| ==>
            if Concerns(env, w.sw, e, i) then
              && PortEnabled(TrackOf(w, i), Seen(w.sw, e))
              && TrackOf(w', i) == PortStep(env, i, TrackOf(w, i), Seen(w.sw, e))
            else TrackOf(w', i) == TrackOf(w, i))
  {
    hide Arrive, Send, NotePending, NoteAdmitted, NoteDeparted, NoteSlots, NoteSamples;
  }

  /** What a run of the switch does to a port is a run of that port. */
  lemma {:induction false} RunOnPort(env: Env, w: World, es: seq<Event>, i: nat)
    requires WorldShaped(w) && ValidRun(env, w, es) && i < |w.sw.ports|
    ensures var w' := Run(env, w, es);
      && WorldShaped(w') && |w'.sw.ports| == |w.sw.ports| && w'.sw.routing == w.sw.routing
      && ValidPortRun(env, i, TrackOf(w, i), Project(env, w.sw, es, i))
      && TrackOf(w', i) == PortRun(env, i, TrackOf(w, i), Project(env, w.sw, es, i))
    decreases |es|
  {
    hide Step, PortStep, PortEnabled, Enabled;
    if es != [] {
      var before, e := es[..|es| - 1], es[|es| - 1];
      RunOnPort(env, w, before, i);
      var mid := Run(env, w, before);
      StepOnPorts(env, mid, e);
      SameView(env, w.sw, mid.sw, e, i);
      var pes := Project(env, w.sw, before, i);
      if Concerns(env, w.sw, e, i) {
        ConcernIsTyped(env, mid, e, i);
        ExtendPortRun(env, i, TrackOf(w, i), pes, Seen(w.sw, e));
      }
    }
  }

  lemma ConcernIsTyped(env: Env, w: World, e: Event, i: nat)
    requires Enabled(env, w, e) && Concerns(env, w.sw, e, i)
    ensures var pe := Seen(w.sw, e);
      && (pe.Incoming? ==> pe.packet.tos < NUM_QOS_LEVEL)
      && WellRouted(w.sw.routing, i, pe)
  {
  }

  lemma SameView(env: Env, a: Switch, b: Switch, e: Event, i: nat)
    requires a.routing == b.routing
    ensures Concerns(env, a, e, i) == Concerns(env, b, e, i) && Seen(a, e) == Seen(b, e)
  {
  }

  lemma {:induction false} ExtendPortRun(env: Env, portId: nat, t: Track, es: seq<PortEvent>, e: PortEvent)
    requires ValidPortRun(env, portId, t, es) && PortEnabled(PortRun(env, portId, t, es), e)
    ensures ValidPortRun(env, portId, t, es + [e])
    ensures PortRun(env, portId, t, es + [e]) == PortStep(env, portId, PortRun(env, portId, t, es), e)
  {
    hide PortStep;
    assert (es + [e])[..|es + [e]| - 1] == es;
  }

  // ----- The base invariant on all ports -----

  ghost predicate AllBase(cs: seq<PortConfig>, w: World) {
    && WorldShaped(w) && |w.sw.ports| == |cs|
    && forall i :: 0 <= i < |cs| ==> ValidConfig(cs[i]) && Base(cs[i], TrackOf(w, i))
  }

  lemma InitBase(cs: seq<PortConfig>, routing: seq<Route>)
    requires forall i :: 0 <= i < |cs| ==> ValidConfig(cs[i])
    ensures AllBase(cs, InitWorld(cs, routing))
  {
    hide Sane, Idle, InitPort;
    forall i | 0 <= i < |cs|
      ensures Base(cs[i], TrackOf(InitWorld(cs, routing), i))
    {
      InitSane(cs[i]);
      InitFlag(cs[i]);
    }
  }

  lemma InitFlag(c: PortConfig)
    requires ValidConfig(c)
    ensures !InitPort(c).flag
  {
  }

  lemma {:induction false} StepKeepsAllBase(env: Env, cs: seq<PortConfig>, w: World, e: Event)
    requires AllBase(cs, w) && Enabled(env, w, e)
    ensures AllBase(cs, Step(env, w, e))
  {
    hide Base, Step, PortStep, PortEnabled;
    StepOnPorts(env, w, e);
    forall i | 0 <= i < |cs| && Concerns(env, w.sw, e, i)
      ensures Base(cs[i], TrackOf(Step(env, w, e), i))
    {
      StepKeepsBase(env, cs[i], i, TrackOf(w, i), Seen(w.sw, e));
    }
  }

  lemma {:induction false} RunKeepsAllBase(env: Env, cs: seq<PortConfig>, w: World, es: seq<Event>)
    requires AllBase(cs, w) && ValidRun(env, w, es)
    ensures AllBase(cs, Run(env, w, es))
    decreases |es|
  {
    hide AllBase, Step, Enabled;
    if es != [] {
      RunKeepsAllBase(env, cs, w, es[..|es| - 1]);
      StepKeepsAllBase(env, cs, Run(env, w, es[..|es| - 1]), es[|es| - 1]);
    }
  }

  /** From initialisation on, in every run: the flag of a port is set iff a packet waits there
      iff exactly one SEND event for the port is pending, and then only one. Hence a SEND
      event always finds a packet. */
  lemma {:induction false} BusyPortDiscipline(env: Env, cs: seq<PortConfig>, routing: seq<Route>, es: seq<Event>,
      i: nat)
    requires forall k :: 0 <= k < |cs| ==> ValidConfig(cs[k])
    requires ValidRun(env, InitWorld(cs, routing), es) && i < |cs|
    ensures var w := Run(env, InitWorld(cs, routing), es);
      && |w.sw.ports| == |w.logs| == |cs|
      && (w.sw.ports[i].flag <==> Waiting(w.sw.ports[i]) > 0)
      && |w.logs[i].pending| == (if w.sw.ports[i].flag then 1 else 0)
      && (forall e :: Enabled(env, w, e) && e.msg.kind == SEND && e.msg.port == i ==> !Idle(w.sw.ports[i]))
  {
    hide Sane, Idle, Run, ValidRun, InitWorld, Waiting;
    InitBase(cs, routing);
    RunKeepsAllBase(env, cs, InitWorld(cs, routing), es);
    var w := Run(env, InitWorld(cs, routing), es);
    assert Base(cs[i], TrackOf(w, i));
    IdleMeansNoneWaiting(w.sw.ports[i]);
    forall e | Enabled(env, w, e) && e.msg.kind == SEND && e.msg.port == i
      ensures !Idle(w.sw.ports[i])
    {
      assert w.logs[i].pending != multiset{};
    }
  }
}
