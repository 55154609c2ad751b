/** Optimistic execution of a switch: events are handled speculatively and retracted newest
    first, and the switch ends up where a sequential execution of the surviving events would:
    with the repaired handlers always, with those as written if the retractions are covered. */
module Optimistic {
  import opened Types
  import opened Ports
  import opened Switching
  import opened Runs
  import opened PortInvariants
  import opened Lifting
  import opened SwitchRollback
  import opened QTimeRollback

  /** The switch, the SEND events still to come for each port, and the entries of the handled
      events that have not been retracted. */
  datatype Machine = Machine(sw: Switch, pending: seq<multiset<real>>, journal: seq<Entry>)

  datatype Op = Do(event: Event) | Retract

  function Clock(start: real, journal: seq<Entry>): real {
    if journal == [] then start else journal[|journal| - 1].event.at
  }

  /** An event may be handled next if it is in time order with those handled and with the
      pending SEND events, and a SEND event only if it is pending; any handled event may be
      retracted when it is the newest. */
  ghost predicate MayDo(env: Env, start: real, m: Machine, op: Op) {
    match op
    case Do(e) =>
      && CanHandle(env, m.sw, e.msg)
      && Clock(start, m.journal) <= e.at
      && (forall i, x :: 0 <= i < |m.pending| && x in m.pending[i] ==> e.at <= x)
      && (e.msg.kind == SEND ==> e.msg.port < |m.pending| && e.at in m.pending[e.msg.port])
      && (e.msg.kind == ARRIVE ==> e.msg.packet.sizeInBytes > 0)
    case Retract => m.journal != []
  }

  /** No assertion of the reverse handler fails when the newest event is retracted. */
  predicate RetractSafe(env: Env, m: Machine)
    requires m.journal != []
  {
    var last := m.journal[|m.journal| - 1];
    CanUndo(env, m.sw, last.msg, last.bits)
  }

  /** Handling an event consumes it, if it is a SEND event, and adds the one it schedules. */
  function Consumed(pending: multiset<real>, e: Event, wake: Option<real>): multiset<real> {
    (if e.msg.kind == SEND then pending - multiset{e.at} else pending)
    + (if wake.Some? then multiset{e.at + wake.value} else multiset{})
  }

  /** Retracting it cancels the one it scheduled and brings it back. */
  function Returned(pending: multiset<real>, e: Event, wake: Option<real>): multiset<real> {
    (if wake.Some? then pending - multiset{e.at + wake.value} else pending)
    + (if e.msg.kind == SEND then multiset{e.at} else multiset{})
  }

  /** The port whose SEND events an event consumes or schedules. */
  function PortOf(env: Env, sw: Switch, e: Event): Option<nat> {
    match e.msg.kind
    case ARRIVE =>
      if e.msg.packet.dest != env.self && e.msg.packet.dest < |sw.routing|
         && 0 <= sw.routing[e.msg.packet.dest].port
      then Some(sw.routing[e.msg.packet.dest].port) else None
    case SEND => if 0 <= e.msg.port then Some(e.msg.port) else None
    case KICKOFF => None
  }

  /** Performs one operation; one that the handlers cannot take changes nothing. */
  function Perform(env: Env, m: Machine, op: Op): Machine {
    match op
    case Do(e) =>
      if !CanHandle(env, m.sw, e.msg) then m else
      var r := Handle(env, m.sw, e.msg, e.at);
      var entry := EntryOf(e, r);
      var port := PortOf(env, m.sw, e);
      Machine(r.sw,
              if port.Some? && port.value < |m.pending|
              then m.pending[port.value := Consumed(m.pending[port.value], e, entry.wake)]
              else m.pending,
              m.journal + [entry])
    case Retract =>
      if m.journal == [] || !RetractSafe(env, m) then m else
      var entry := m.journal[|m.journal| - 1];
      var port := PortOf(env, m.sw, entry.event);
      Machine(Undo(env, m.sw, entry.msg, entry.bits),
              if port.Some? && port.value < |m.pending|
              then m.pending[port.value := Returned(m.pending[port.value], entry.event, entry.wake)]
              else m.pending,
              m.journal[..|m.journal| - 1])
  }

  function PendingOf(w: World): (pending: seq<multiset<real>>)
    ensures |pending| == |w.logs| && forall i :: 0 <= i < |pending| ==> pending[i] == w.logs[i].pending
  {
    seq(|w.logs|, i requires 0 <= i < |w.logs| => w.logs[i].pending)
  }

  function Start(w: World): Machine {
    Machine(w.sw, PendingOf(w), [])
  }

  function Execute(env: Env, m: Machine, ops: seq<Op>): Machine
    decreases |ops|
  {
    if ops == [] then m else Perform(env, Execute(env, m, ops[..|ops| - 1]), ops[|ops| - 1])
  }

  /** Each operation is allowed when it is performed. */
  ghost predicate ValidExecution(env: Env, start: real, m: Machine, ops: seq<Op>)
    decreases |ops|
  {
    ops == [] ||
    (ValidExecution(env, start, m, ops[..|ops| - 1])
     && MayDo(env, start, Execute(env, m, ops[..|ops| - 1]), ops[|ops| - 1]))
  }

  function Survivors(journal: seq<Entry>): seq<Event> {
    seq(|journal|, i requires 0 <= i < |journal| => journal[i].event)
  }

  /** The machine is where the sequential run of its surviving events ends: a valid run, the
      same switch up to last priorities, the same pending SEND events, and the same messages,
      bits and emissions event by event. */
  ghost predicate Faithful(env: Env, w: World, m: Machine) {
    var es := Survivors(m.journal);
    && ValidRun(env, w, es)
    && AlikeSwitch(Repaired, m.sw, Run(env, w, es).sw)
    && m.pending == PendingOf(Run(env, w, es))
    && m.journal == Journal(env, w, es)
  }

  lemma {:induction false} RunClock(env: Env, w: World, es: seq<Event>)
    requires WorldShaped(w) && ValidRun(env, w, es)
    ensures Run(env, w, es).clock == if es == [] then w.clock else es[|es| - 1].at
    ensures WorldShaped(Run(env, w, es)) && |Run(env, w, es).logs| == |w.logs|
    ensures Run(env, w, es).sw.routing == w.sw.routing
    decreases |es|
  {
    hide Step, Enabled;
    if es != [] {
      RunClock(env, w, es[..|es| - 1]);
      StepOnPorts(env, Run(env, w, es[..|es| - 1]), es[|es| - 1]);
    }
  }

  /** A step of the sequential run updates the pending SEND events of the event's port. */
  lemma {:induction false} StepPending(env: Env, w: World, e: Event)
    requires WorldShaped(w) && CanHandle(env, w.sw, e.msg)
    ensures var r := Handle(env, w.sw, e.msg, e.at);
      var port := PortOf(env, w.sw, e);
      && Step(env, w, e).sw == r.sw
      && (r.work.Some? ==> port == Some(r.work.value.port))
      && PendingOf(Step(env, w, e)) ==
         (if port.Some? && port.value < |w.logs|
          then PendingOf(w)[port.value := Consumed(w.logs[port.value].pending, e, EntryOf(e, r).wake)]
          else PendingOf(w))
  {
    hide Handle, CanHandle, PortOf, NoteAdmitted, NoteDeparted, NoteSlots, NoteSamples;
    WorkIsOnPort(env, w.sw, e);
    SeenKind(env, w.sw, e);
    var w' := Step(env, w, e);
    assert |w'.logs| == |w.logs|;
  }

  lemma WorkIsOnPort(env: Env, sw: Switch, e: Event)
    requires CanHandle(env, sw, e.msg)
    ensures var work := Handle(env, sw, e.msg, e.at).work;
      && (work.Some? <==> PortOf(env, sw, e).Some?)
      && (work.Some? ==> PortOf(env, sw, e) == Some(work.value.port) && work.value.port < |sw.ports|)
      && (work.Some? && Seen(sw, e).Incoming? ==> Seen(sw, e).packet.tos < NUM_QOS_LEVEL)
  {
    hide Arrive, Send;
  }

  lemma SeenKind(env: Env, sw: Switch, e: Event)
    requires CanHandle(env, sw, e.msg)
    ensures Seen(sw, e).at == e.at
    ensures PortOf(env, sw, e).Some? ==> (Seen(sw, e).Wakeup? <==> e.msg.kind == SEND)
  {
  }

  lemma SurvivorsOfAppend(journal: seq<Entry>, entry: Entry)
    ensures Survivors(journal + [entry]) == Survivors(journal) + [entry.event]
    ensures journal != [] ==> Survivors(journal[..|journal| - 1]) == Survivors(journal)[..|journal| - 1]
  {
  }

  lemma DoKeepsFaithful(env: Env, cs: seq<PortConfig>, w: World, m: Machine, e: Event)
    requires AllBase(cs, w) && Faithful(env, w, m)
    requires MayDo(env, w.clock, m, Do(e))
    ensures Faithful(env, w, Perform(env, m, Do(e)))
  {
    hide AlikeSwitch, Handle, Step, AllBase, CanHandle, PortOf, Enabled, Consumed, Returned, PendingOf, WorldShaped;
    var es := Survivors(m.journal);
    var mid := Run(env, w, es);
    AllBaseShaped(cs, w);
    RunClock(env, w, es);
    AlikeShape(m.sw, mid.sw);
    CanHandleAlike(env, m.sw, mid.sw, e.msg);
    HandleAlike(env, m.sw, mid.sw, e.msg, e.at);
    EnabledAlike(env, w, m, mid, e);
    StepPending(env, mid, e);
    PortOfAlike(env, m.sw, mid.sw, e);
    SurvivorsOfAppend(m.journal, EntryOf(e, Handle(env, m.sw, e.msg, e.at)));
    RunExtended(env, w, es, e);
    hide Run, ValidRun, Journal, Enabled, Clock;
    assert Perform(env, m, Do(e)).journal == m.journal + [EntryOf(e, Handle(env, m.sw, e.msg, e.at))];
  }

  lemma RunExtended(env: Env, w: World, es: seq<Event>, e: Event)
    requires ValidRun(env, w, es) && Enabled(env, Run(env, w, es), e)
    ensures var mid := Run(env, w, es);
      && ValidRun(env, w, es + [e]) && Run(env, w, es + [e]) == Step(env, mid, e)
      && CanHandle(env, mid.sw, e.msg)
      && Journal(env, w, es + [e]) == Journal(env, w, es) + [EntryOf(e, Handle(env, mid.sw, e.msg, e.at))]
  {
    hide CanHandle, Step, Handle;
    assert (es + [e])[..|es + [e]| - 1] == es;
  }

  lemma AllBaseShaped(cs: seq<PortConfig>, w: World)
    requires AllBase(cs, w)
    ensures WorldShaped(w)
  {
    hide Base;
  }

  lemma AlikeShape(a: Switch, b: Switch)
    requires AlikeSwitch(Repaired, a, b)
    ensures |a.ports| == |b.ports| && a.routing == b.routing
  {
  }

  lemma CanHandleAlike(env: Env, a: Switch, b: Switch, msg: Message)
    requires |a.ports| == |b.ports| && a.routing == b.routing
    ensures CanHandle(env, a, msg) == CanHandle(env, b, msg)
  {
  }

  lemma PortOfAlike(env: Env, a: Switch, b: Switch, e: Event)
    requires a.routing == b.routing
    ensures PortOf(env, a, e) == PortOf(env, b, e)
  {
  }

  lemma EnabledAlike(env: Env, w: World, m: Machine, mid: World, e: Event)
    requires MayDo(env, w.clock, m, Do(e)) && CanHandle(env, mid.sw, e.msg)
    requires m.pending == PendingOf(mid) && Clock(w.clock, m.journal) == mid.clock
    ensures Enabled(env, mid, e)
  {
    hide CanHandle;
    forall i, x | 0 <= i < |mid.logs| && x in mid.logs[i].pending
      ensures e.at <= x
    {
      assert m.pending[i] == mid.logs[i].pending;
    }
    if e.msg.kind == SEND && 0 <= e.msg.port < |mid.logs| {
      assert m.pending[e.msg.port] == mid.logs[e.msg.port].pending;
    }
    if e.msg.kind == SEND {
      SendHasPort(env, mid.sw, e.msg);
    }
  }

  lemma SendHasPort(env: Env, sw: Switch, msg: Message)
    requires CanHandle(env, sw, msg) && msg.kind == SEND
    ensures 0 <= msg.port < |sw.ports|
  {
  }

  lemma ConsumedThenReturned(pending: multiset<real>, e: Event, wake: Option<real>)
    requires e.msg.kind == SEND ==> e.at in pending
    ensures Returned(Consumed(pending, e, wake), e, wake) == pending
  {
  }

  /** The newest entry of a faithful machine, and the run before it. */
  lemma NewestEntry(env: Env, cs: seq<PortConfig>, w: World, m: Machine)
    requires AllBase(cs, w) && Faithful(env, w, m) && m.journal != []
    ensures var es := Survivors(m.journal);
      var before, e := es[..|es| - 1], es[|es| - 1];
      var mid := Run(env, w, before);
      && AllBase(cs, mid) && WorldShaped(mid) && |mid.logs| == |mid.sw.ports|
      && ValidRun(env, w, before) && Enabled(env, mid, e) && CanHandle(env, mid.sw, e.msg)
      && Run(env, w, es) == Step(env, mid, e)
      && Step(env, mid, e).sw == Handle(env, mid.sw, e.msg, e.at).sw
      && m.journal[|m.journal| - 1] == EntryOf(e, Handle(env, mid.sw, e.msg, e.at))
      && m.journal[..|m.journal| - 1] == Journal(env, w, before)
      && Survivors(m.journal[..|m.journal| - 1]) == before
      && m.sw.routing == mid.sw.routing && |m.sw.ports| == |mid.sw.ports|
  {
    hide AlikeSwitch, Handle, Step, AllBase, CanHandle, Enabled;
    var es := Survivors(m.journal);
    var before, e := es[..|es| - 1], es[|es| - 1];
    AllBaseShaped(cs, w);
    RunClock(env, w, before);
    RunClock(env, w, es);
    RunKeepsAllBase(env, cs, w, before);
    AllBaseShaped(cs, Run(env, w, before));
    EnabledCanHandle(env, cs, Run(env, w, before), e);
    AlikeShape(m.sw, Run(env, w, es).sw);
    SurvivorsOfAppend(m.journal, m.journal[0]);
  }

  /** What retracting the newest event needs to restore the q_times: it is covered in the switch
      that it met, under the last priorities of now. */
  ghost predicate RetractCovered(env: Env, w: World, m: Machine)
    requires m.journal != []
  {
    var es := Survivors(m.journal);
    var e := es[|es| - 1];
    EventCovered(env, Run(env, w, es[..|es| - 1]).sw, e.msg, e.at, Live(m.sw))
  }

  /** Retracting the newest event is always safe; it leads back to the run without that event
      exactly when the retraction is covered. */
  lemma {:induction false} RetractFaithfulIff(env: Env, cs: seq<PortConfig>, w: World, m: Machine)
    requires AllBase(cs, w) && Faithful(env, w, m) && m.journal != []
    ensures RetractSafe(env, m)
    ensures Faithful(env, w, Perform(env, m, Retract)) <==> RetractCovered(env, w, m)
  {
    hide AlikeSwitch, Handle, Step, AllBase, Undo, CanUndo, CanHandle, Prepared, PortOf, Enabled, Run, Journal,
         PendingOf, Returned, EventCovered;
    NewestEntry(env, cs, w, m);
    var es := Survivors(m.journal);
    var mid, e := Run(env, w, es[..|es| - 1]), es[|es| - 1];
    EnabledIsPrepared(env, cs, mid, e);
    HandleUndoneExactly(env, mid.sw, e.msg, e.at, m.sw);
    RetractPending(env, m, mid, e);
  }

  /** With the repaired handlers every retraction is covered. */
  lemma RepairedIsCovered(env: Env, cs: seq<PortConfig>, w: World, m: Machine)
    requires env.variant == Repaired && AllBase(cs, w) && Faithful(env, w, m) && m.journal != []
    ensures RetractCovered(env, w, m)
  {
    hide AlikeSwitch, Handle, Step, AllBase, CanHandle, Run, Journal, PendingOf, Enabled;
    NewestEntry(env, cs, w, m);
  }

  /** Every retraction of an execution is covered when it is performed. */
  ghost predicate RetractionsCovered(env: Env, w: World, m: Machine, ops: seq<Op>)
    decreases |ops|
  {
    ops == [] ||
    (var mid := Execute(env, m, ops[..|ops| - 1]);
     RetractionsCovered(env, w, m, ops[..|ops| - 1])
     && (ops[|ops| - 1].Retract? && mid.journal != [] ==> RetractCovered(env, w, mid)))
  }

  /** Retracting gives the pending SEND events back. */
  lemma RetractPending(env: Env, m: Machine, mid: World, e: Event)
    requires WorldShaped(mid) && Enabled(env, mid, e) && CanHandle(env, mid.sw, e.msg)
    requires m.pending == PendingOf(Step(env, mid, e)) && m.sw.routing == mid.sw.routing
    ensures var wake := EntryOf(e, Handle(env, mid.sw, e.msg, e.at)).wake;
      var port := PortOf(env, m.sw, e);
      (if port.Some? && port.value < |m.pending|
       then m.pending[port.value := Returned(m.pending[port.value], e, wake)]
       else m.pending) == PendingOf(mid)
  {
    hide Handle, Step, CanHandle, PortOf, Enabled, Consumed, Returned;
    StepPending(env, mid, e);
    PortOfAlike(env, m.sw, mid.sw, e);
    EnabledPending(env, mid, e);
  }

  lemma EnabledPending(env: Env, w: World, e: Event)
    requires Enabled(env, w, e)
    ensures var port := PortOf(env, w.sw, e);
      port.Some? && port.value < |w.logs| ==>
        forall wake :: Returned(Consumed(w.logs[port.value].pending, e, wake), e, wake) == w.logs[port.value].pending
  {
    var port := PortOf(env, w.sw, e);
    forall wake, i | port == Some(i) && i < |w.logs|
      ensures Returned(Consumed(w.logs[i].pending, e, wake), e, wake) == w.logs[i].pending
    {
      ConsumedThenReturned(w.logs[i].pending, e, wake);
    }
  }

  /** Optimistic equals sequential: from initialisation, whatever is handled and retracted and
      in whatever interleaving, no reverse handler fails, and the switch, its pending SEND
      events and everything it has sent are those of a sequential run of the surviving events
      in time order. As written this needs covered retractions; repaired it needs nothing. */
  lemma {:induction false} OptimisticEqualsSequential(env: Env, cs: seq<PortConfig>, routing: seq<Route>, ops: seq<Op>)
    requires forall i :: 0 <= i < |cs| ==> ValidConfig(cs[i])
    requires ValidExecution(env, 0.0, Start(InitWorld(cs, routing)), ops)
    requires env.variant == Written ==>
      RetractionsCovered(env, InitWorld(cs, routing), Start(InitWorld(cs, routing)), ops)
    ensures var m := Execute(env, Start(InitWorld(cs, routing)), ops);
      Faithful(env, InitWorld(cs, routing), m) && (m.journal != [] ==> RetractSafe(env, m))
    decreases |ops|
  {
    hide Faithful, Perform, AllBase, MayDo, RetractSafe, RetractCovered;
    var w := InitWorld(cs, routing);
    InitBase(cs, routing);
    if ops == [] {
      StartFaithful(env, w);
    } else {
      OptimisticEqualsSequential(env, cs, routing, ops[..|ops| - 1]);
      var m := Execute(env, Start(w), ops[..|ops| - 1]);
      match ops[|ops| - 1] {
        case Do(e) => DoKeepsFaithful(env, cs, w, m, e);
        case Retract =>
          RetractNeedsJournal(env, m);
          if env.variant == Repaired {
            RepairedIsCovered(env, cs, w, m);
          }
          RetractFaithfulIff(env, cs, w, m);
      }
      var m' := Execute(env, Start(w), ops);
      if m'.journal != [] {
        RetractFaithfulIff(env, cs, w, m');
      }
    }
  }

  lemma RetractNeedsJournal(env: Env, m: Machine)
    requires MayDo(env, 0.0, m, Retract)
    ensures m.journal != []
  {
  }

  lemma StartFaithful(env: Env, w: World)
    ensures Faithful(env, w, Start(w)) && Start(w).journal == []
  {
    AlikeReflexive(Repaired, w.sw);
  }
}
