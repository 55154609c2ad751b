/** What the statistics of the switch hold, and who is dropped, in runs from initialisation. */
module SwitchRecords {
  import opened Types
  import opened Ports
  import opened Switching
  import opened Runs
  import opened Statistics
  import opened Lifting
  import opened PortAdmission
  import opened SwitchRuns

  /** The record that an event adds: of a packet delivered here its delay, of a packet dropped here
      that it was dropped; of a packet that is queued, and of a SEND event, none. */
  function RecordOf(env: Env, sw: Switch, e: Event): seq<Record> {
    var packet := e.msg.packet;
    if e.msg.kind != ARRIVE || !CanHandle(env, sw, e.msg) then []
    else if packet.dest == env.self then [Record(packet.pid, e.at - packet.sendTime, 0)]
    else if Admits(env, sw.ports[sw.routing[packet.dest].port], packet, e.at) then []
    else [Record(packet.pid, 0.0, 1)]
  }

  /** The records of a run, in the order of its events. */
  function RecordsOf(env: Env, w: World, es: seq<Event>): seq<Record>
    decreases |es|
  {
    if es == [] then []
    else
      var before := es[..|es| - 1];
      RecordsOf(env, w, before) + RecordOf(env, Run(env, w, before).sw, es[|es| - 1])
  }

  /** What the ARRIVE handler records. */
  lemma {:induction false} HandleArriveRecords(env: Env, sw: Switch, msg: Message, now: real)
    requires Routable(env, sw, msg.packet)
    ensures var packet := msg.packet;
      HandleArrive(env, sw, msg, now).sw.stats.live == sw.stats.live +
        (if packet.dest == env.self then [Record(packet.pid, now - packet.sendTime, 0)]
         else if Admits(env, sw.ports[sw.routing[packet.dest].port], packet, now) then []
         else [Record(packet.pid, 0.0, 1)])
  {
    hide Arrive, Admits;
    if msg.packet.dest != env.self {
      var route := sw.routing[msg.packet.dest];
      ArriveAdmitsIff(env, route.port, sw.ports[route.port], Incoming(now, msg.packet, route.nextHop, msg));
    }
  }

  lemma {:induction false} StepRecords(env: Env, w: World, e: Event)
    requires WorldShaped(w) && Enabled(env, w, e)
    ensures Step(env, w, e).sw.stats.live == w.sw.stats.live + RecordOf(env, w.sw, e)
  {
    hide HandleArrive, Send, Note, Admits;
    if e.msg.kind == ARRIVE {
      HandleArriveRecords(env, w.sw, e.msg, e.at);
    }
  }

  /** In every run from initialisation the live records are, in the order of the events: identifier
      and delay of each packet delivered here, and the drop of each packet not admitted here. */
  lemma {:induction false} RecordsInRuns(env: Env, cs: seq<PortConfig>, routing: seq<Route>, es: seq<Event>)
    requires forall i :: 0 <= i < |cs| ==> ValidConfig(cs[i])
    requires ValidRun(env, InitWorld(cs, routing), es)
    ensures Run(env, InitWorld(cs, routing), es).sw.stats.live == RecordsOf(env, InitWorld(cs, routing), es)
    decreases |es|
  {
    hide Step, Enabled, RecordOf, AllBase;
    var w0 := InitWorld(cs, routing);
    if es != [] {
      var before, e := es[..|es| - 1], es[|es| - 1];
      RecordsInRuns(env, cs, routing, before);
      InitBase(cs, routing);
      RunKeepsAllBase(env, cs, w0, before);
      BaseIsShaped(cs, Run(env, w0, before));
      StepRecords(env, Run(env, w0, before), e);
    }
  }

  /** In every run from initialisation, a packet that arrives to be forwarded is admitted to its port
      exactly when its color, its queue and the average of its dropper allow it, and the event
      changes the meters and droppers of that port in exactly the way this takes. */
  lemma {:induction false} AdmissionInRuns(env: Env, cs: seq<PortConfig>, routing: seq<Route>, es: seq<Event>, e: Event,
      i: nat)
    requires (forall k :: 0 <= k < |cs| ==> ValidConfig(cs[k])) && i < |cs|
    requires ValidRun(env, InitWorld(cs, routing), es) && Enabled(env, Run(env, InitWorld(cs, routing), es), e)
    ensures var w := Run(env, InitWorld(cs, routing), es);
      var w' := Step(env, w, e);
      && |w.sw.ports| == |w'.sw.ports| == |cs|
      && (Concerns(env, w.sw, e, i) ==>
            var pe := Seen(w.sw, e);
            && (pe.Incoming? ==> pe.packet.tos < NUM_QOS_LEVEL)
            && (pe.Incoming? ==>
                  Act(env, i, w.sw.ports[i], pe).admitted == Admits(env, w.sw.ports[i], pe.packet, e.at))
            && Effect(env, i, w.sw.ports[i], pe, w'.sw.ports[i]))
  {
    hide Run, ValidRun, Enabled, AllBase, Act, Admits, Effect, InitWorld, Step, Concerns;
    InitBase(cs, routing);
    RunKeepsAllBase(env, cs, InitWorld(cs, routing), es);
    var w := Run(env, InitWorld(cs, routing), es);
    BaseIsShaped(cs, w);
    BasePorts(cs, w);
    StepOnPorts(env, w, e);
    if Concerns(env, w.sw, e, i) {
      ConcernIsTyped(env, w, e, i);
      if Seen(w.sw, e).Incoming? {
        ArriveAdmitsIff(env, i, w.sw.ports[i], Seen(w.sw, e));
      }
      EventEffect(env, i, w.sw.ports[i], Seen(w.sw, e));
    }
  }

  lemma BasePorts(cs: seq<PortConfig>, w: World)
    requires AllBase(cs, w)
    ensures |w.sw.ports| == |cs|
  {
  }

  /** RED drops in any run: between two states of a run, if a dropper of a port has only seen queues
      of at least `low`, more than its threshold, and often enough for its weight, it drops the next
      packet about which it is asked. */
  lemma {:induction false} LongQueueDropsInRuns(env: Env, cs: seq<PortConfig>, routing: seq<Route>, es0: seq<Event>,
      es: seq<Event>, e: Event, i: nat, k: nat, low: real)
    requires (forall j :: 0 <= j < |cs| ==> ValidConfig(cs[j])) && i < |cs| && k < 2 * NUM_QOS_LEVEL && low > 0.0
    requires ValidRun(env, InitWorld(cs, routing), es0)
    requires var w := Run(env, InitWorld(cs, routing), es0);
      && ValidRun(env, w, es) && Enabled(env, Run(env, w, es), e) && Concerns(env, w.sw, e, i)
      && |w.sw.ports| == |w.logs| == |cs| && w.sw.routing == routing
      && LongEnough(env, i, TrackOf(w, i), Project(env, w.sw, es, i), Seen(w.sw, e), k, low)
    ensures var w' := Run(env, Run(env, InitWorld(cs, routing), es0), es);
      && |w'.sw.ports| == |cs| && (Seen(w'.sw, e).Incoming? ==> Seen(w'.sw, e).packet.tos < NUM_QOS_LEVEL)
      && !Act(env, i, w'.sw.ports[i], Seen(w'.sw, e)).admitted
  {
    hide Run, ValidRun, Enabled, AllBase, Act, InitWorld, PortRun, ValidPortRun, SampledLong, Samples, Project;
    var w0 := InitWorld(cs, routing);
    InitBase(cs, routing);
    RunKeepsAllBase(env, cs, w0, es0);
    var w := Run(env, w0, es0);
    BaseIsShaped(cs, w);
    RunOnPort(env, w, es, i);
    var w' := Run(env, w, es);
    SameView(env, w.sw, w'.sw, e, i);
    ConcernIsTyped(env, w', e, i);
    LongQueueIsDropped(env, i, TrackOf(w, i), Project(env, w.sw, es, i), Seen(w.sw, e), k, low);
  }

  /** The premises of LongQueueIsDropped. */
  ghost predicate LongEnough(env: Env, portId: nat, t: Track, es: seq<PortEvent>, e: PortEvent, k: nat, low: real)
    requires k < 2 * NUM_QOS_LEVEL
  {
    && WellTyped(es + [e]) && WellTyped(es) && (e.Incoming? ==> e.packet.tos < NUM_QOS_LEVEL)
    && SampledLong(env, portId, t, es + [e], k, low)
    && var d := t.port.droppers[k];
       var n := |PortRun(env, portId, t, es + [e]).log.samples[k]| - |t.log.samples[k]|;
    && 0.0 <= d.wq <= 1.0 && d.maxth < low && d.avg <= low
    && low - d.avg <= (low - d.maxth) * (1.0 + n as real * d.wq)
    && Samples(PortRun(env, portId, t, es).port, e, k)
  }
}
