/** Rollback of the whole switch: single events, stacks of events, and the optimistic
    execution that mixes both. */
module SwitchRollback {
  import opened Types
  import opened Ports
  import opened Switching
  import opened Runs
  import opened PortInvariants
  import opened PortRollback
  import opened Lifting
  import opened Statistics
  import opened Scheduling
  import Shaper

  /** Equal up to what Alike leaves open at each port. */
  predicate AlikeSwitch(v: Variant, a: Switch, b: Switch) {
    && a.routing == b.routing && a.stats == b.stats && |a.ports| == |b.ports|
    && forall i :: 0 <= i < |a.ports| ==> Alike(v, a.ports[i], b.ports[i])
  }

  lemma AlikeSwitchTransitive(v: Variant, a: Switch, b: Switch, c: Switch)
    requires AlikeSwitch(v, a, b) && AlikeSwitch(v, b, c)
    ensures AlikeSwitch(v, a, c)
  {
    hide Alike;
    forall i | 0 <= i < |a.ports|
      ensures Alike(v, a.ports[i], c.ports[i])
    {
      AlikeIsTransitive(v, a.ports[i], b.ports[i], c.ports[i]);
    }
  }

  lemma AlikeReflexive(v: Variant, a: Switch)
    ensures AlikeSwitch(v, a, a)
  {
  }

  // ----- One event -----

  lemma IndexParts(portId: nat, tos: nat)
    requires tos < NUM_QOS_LEVEL
    ensures (NUM_QOS_LEVEL * portId + tos) / NUM_QOS_LEVEL == portId
    ensures (NUM_QOS_LEVEL * portId + tos) % NUM_QOS_LEVEL == tos
  {
  }

  lemma ArriveStatsUndone(st: Stats, packet: Packet, o: Outcome)
    requires !o.bits.c1 || !o.bits.c2
    ensures o.bits.c1 ==> ArriveStats(st, packet, o).live != []
    ensures UndoArriveStats(ArriveStats(st, packet, o), o.bits) == st
  {
    AppendRetract(st.(received := st.received + 1), packet.pid, 0.0, 1);
  }

  lemma DroppedIsNotSent(env: Env, p: PortState, portId: nat, packet: Packet, nextHop: int, now: real, msg: Message)
    requires packet.tos < NUM_QOS_LEVEL
    ensures var o := Arrive(env, p, portId, packet, nextHop, now, msg);
      && (!o.bits.c1 || !o.bits.c2)
      && (env.variant == Written ==> !o.bits.c7)
  {
    hide Judge, Depart, Shaper.Poll, FirstBusy, WakeDelay, PollFault;
    JudgeFrame(env, p, packet, now, NUM_QOS_LEVEL * portId + packet.tos, msg.snapshot);
  }

  /** What a forward handler may rely on: queues within capacity, and a SEND event only for a
      port that has its flag set and a packet waiting. */
  predicate Prepared(sw: Switch, msg: Message) {
    && (forall i :: 0 <= i < |sw.ports| ==> WithinCapacity(sw.ports[i]))
    && (msg.kind == SEND && 0 <= msg.port < |sw.ports| ==>
          sw.ports[msg.port].flag && !Idle(sw.ports[msg.port]))
  }

  /** The bits that the ARRIVE handler as written leaves behind: a dropped packet was not
      sent, and the repaired handler's bit is clear. */
  predicate WrittenBits(msg: Message, bits: Bits) {
    msg.kind == ARRIVE ==> !bits.c7 && (bits.c1 ==> !bits.c2)
  }

  /** The reverse handler undoes the forward handler, from the message and the bits alone. */
  lemma {:induction false} HandleUndone(env: Env, sw: Switch, msg: Message, now: real)
    requires CanHandle(env, sw, msg) && Prepared(sw, msg)
    ensures var r := Handle(env, sw, msg, now);
      && r.msg == msg.(port := r.msg.port, snapshot := r.msg.snapshot)
      && CanUndo(env, r.sw, r.msg, r.bits)
      && (env.variant == Written ==> WrittenBits(r.msg, r.bits))
      && AlikeSwitch(env.variant, Undo(env, r.sw, r.msg, r.bits), sw)
  {
    hide Arrive, Send, UndoArrive, UndoSend, CanUndoArrive, CanUndoSend, Alike, WithinCapacity, ArriveStats,
         UndoArriveStats, Idle;
    forall i | 0 <= i < |sw.ports|
      ensures Alike(env.variant, sw.ports[i], sw.ports[i])
    {
      AlikeSelf(env.variant, sw.ports[i]);
    }
    match msg.kind {
      case ARRIVE =>
        if msg.packet.dest == env.self {
          AppendRetract(sw.stats, msg.packet.pid, now - msg.packet.sendTime, 0);
        } else {
          var route := sw.routing[msg.packet.dest];
          var p := sw.ports[route.port];
          var o := Arrive(env, p, route.port, msg.packet, route.nextHop, now, msg);
          ArriveUndone(env, p, route.port, msg.packet, route.nextHop, now, msg);
          DroppedIsNotSent(env, p, route.port, msg.packet, route.nextHop, now, msg);
          ArriveStatsUndone(sw.stats, msg.packet, o);
          IndexParts(route.port, msg.packet.tos);
        }
      case SEND =>
        SendUndone(env, sw.ports[msg.port], msg.port, now, msg);
        SendPortId(env, sw.ports[msg.port], msg.port, now, msg);
      case KICKOFF =>
    }
  }

  lemma AlikeSelf(v: Variant, p: PortState)
    ensures Alike(v, p, p)
  {
  }

  lemma SendPortId(env: Env, p: PortState, portId: nat, now: real, msg: Message)
    ensures Send(env, p, portId, now, msg).portId == portId
  {
    hide Depart, Shaper.Poll, FirstBusy, WakeDelay, PollFault;
  }

  /** The reverse handler does the same, up to Alike, from any state that is alike. */
  lemma {:induction false} UndoAlike(env: Env, a: Switch, b: Switch, msg: Message, bits: Bits)
    requires AlikeSwitch(env.variant, a, b) && CanUndo(env, b, msg, bits)
    ensures CanUndo(env, a, msg, bits)
    ensures AlikeSwitch(env.variant, Undo(env, a, msg, bits), Undo(env, b, msg, bits))
  {
    hide UndoArrive, UndoSend, CanUndoArrive, CanUndoSend, Alike, UndoArriveStats;
    match msg.kind {
      case ARRIVE =>
        if !bits.c0 {
          var i := MeterPort(msg.snapshot);
          UndoArriveAlike(env.variant, a.ports[i], b.ports[i], MeterTos(msg.snapshot), bits, msg.snapshot);
        }
      case SEND =>
        UndoSendAlike(env, a.ports[msg.port], b.ports[msg.port], bits, msg.snapshot);
      case KICKOFF =>
    }
  }

  /** A forward handler, as written or repaired, does the same from any two states that differ in
      last priorities only: same message, same bits, same packet forwarded, same SEND event
      scheduled, same assertion failures. */
  lemma {:induction false} HandleAlike(env: Env, a: Switch, b: Switch, msg: Message, now: real)
    requires AlikeSwitch(Repaired, a, b) && CanHandle(env, b, msg)
    ensures CanHandle(env, a, msg)
    ensures var r, r' := Handle(env, b, msg, now), Handle(env, a, msg, now);
      && r'.msg == r.msg && r'.bits == r.bits
      && (r.work.None? ==> r'.work.None?)
      && (r.work.Some? ==> && r'.work.Some? && r'.work.value.port == r.work.value.port
                           && r'.work.value.outcome == r.work.value.outcome.(port := r'.work.value.outcome.port))
      && AlikeSwitch(Repaired, r'.sw, r.sw)
  {
    hide Arrive, Send, Alike, Idle;
    match msg.kind {
      case ARRIVE =>
        if msg.packet.dest != env.self {
          var route := b.routing[msg.packet.dest];
          ArriveIgnoresPriority(env, a.ports[route.port], b.ports[route.port], route.port, msg.packet, route.nextHop,
              now, msg);
        }
      case SEND =>
        SendIgnoresPriority(env, a.ports[msg.port], b.ports[msg.port], msg.port, now, msg);
      case KICKOFF =>
    }
  }

  // ----- Stacks of events -----

  /** What the engine keeps of a handled event: the event, its message and bits as the forward
      handler left them, and what the handler sent: a packet, and a SEND event for a port. */
  datatype Entry = Entry(event: Event, msg: Message, bits: Bits, forward: Option<Forward>, wake: Option<real>)

  function EntryOf(e: Event, r: Result): Entry {
    Entry(e, r.msg, r.bits,
          if r.work.Some? then r.work.value.outcome.forward else None,
          if r.work.Some? then r.work.value.outcome.wake else None)
  }

  /** The entries of a run, oldest first. */
  function Journal(env: Env, w: World, es: seq<Event>): seq<Entry>
    decreases |es|
  {
    if es == [] then []
    else
      var before, e := es[..|es| - 1], es[|es| - 1];
      var mid := Run(env, w, before).sw;
      Journal(env, w, before)
      + (if CanHandle(env, mid, e.msg) then [EntryOf(e, Handle(env, mid, e.msg, e.at))] else [])
  }

  ghost predicate CanUndoAll(env: Env, sw: Switch, journal: seq<Entry>)
    decreases |journal|
  {
    journal == [] ||
    (var last := journal[|journal| - 1];
     CanUndo(env, sw, last.msg, last.bits)
     && CanUndoAll(env, Undo(env, sw, last.msg, last.bits), journal[..|journal| - 1]))
  }

  /** Undoes the entries, newest first. */
  function UndoAll(env: Env, sw: Switch, journal: seq<Entry>): Switch
    requires CanUndoAll(env, sw, journal)
    decreases |journal|
  {
    if journal == [] then sw
    else
      var last := journal[|journal| - 1];
      UndoAll(env, Undo(env, sw, last.msg, last.bits), journal[..|journal| - 1])
  }

  lemma EnabledIsPrepared(env: Env, cs: seq<PortConfig>, w: World, e: Event)
    requires AllBase(cs, w) && Enabled(env, w, e)
    ensures Prepared(w.sw, e.msg)
  {
    hide Sane, Idle;
    forall i | 0 <= i < |w.sw.ports|
      ensures WithinCapacity(w.sw.ports[i])
    {
      assert Base(cs[i], TrackOf(w, i));
      SaneCapacity(cs[i], w.sw.ports[i], w.logs[i].clock);
    }
    if e.msg.kind == SEND {
      assert Base(cs[e.msg.port], TrackOf(w, e.msg.port));
      assert w.logs[e.msg.port].pending != multiset{};
    }
  }

  /** LIFO rollback: running any events and undoing them newest first restores the switch, for
      the handlers as written up to q_times and last priorities, for the repaired ones up to
      last priorities. It works from any state alike the one the run ended in. */
  lemma {:induction false} RollbackRestores(env: Env, cs: seq<PortConfig>, w: World, es: seq<Event>, sw: Switch)
    requires AllBase(cs, w) && ValidRun(env, w, es)
    requires AlikeSwitch(env.variant, sw, Run(env, w, es).sw)
    ensures CanUndoAll(env, sw, Journal(env, w, es))
    ensures AlikeSwitch(env.variant, UndoAll(env, sw, Journal(env, w, es)), w.sw)
    decreases |es|
  {
    hide AllBase, Enabled, Handle, Undo, CanUndo, AlikeSwitch, Prepared, CanHandle;
    if es != [] {
      var before, e := es[..|es| - 1], es[|es| - 1];
      var mid := Run(env, w, before);
      RunKeepsAllBase(env, cs, w, before);
      EnabledIsPrepared(env, cs, mid, e);
      EnabledCanHandle(env, cs, mid, e);
      var r := Handle(env, mid.sw, e.msg, e.at);
      HandleUndone(env, mid.sw, e.msg, e.at);
      UndoAlike(env, sw, r.sw, r.msg, r.bits);
      AlikeSwitchTransitive(env.variant, Undo(env, sw, r.msg, r.bits), Undo(env, r.sw, r.msg, r.bits), mid.sw);
      var journal := Journal(env, w, es);
      assert journal[|journal| - 1] == EntryOf(e, r);
      assert journal[..|journal| - 1] == Journal(env, w, before);
      RollbackRestores(env, cs, w, before, Undo(env, sw, r.msg, r.bits));
    }
  }

  lemma EnabledCanHandle(env: Env, cs: seq<PortConfig>, w: World, e: Event)
    requires AllBase(cs, w) && Enabled(env, w, e)
    ensures CanHandle(env, w.sw, e.msg)
    ensures Step(env, w, e).sw == Handle(env, w.sw, e.msg, e.at).sw
  {
    hide Base, Handle;
  }
}
