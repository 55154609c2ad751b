/** Rollback of the whole switch including the q_times of its droppers: exactly when the handlers
    as written restore them, for one event and for a stack of events. */
module QTimeRollback {
  import opened Types
  import opened Ports
  import opened Switching
  import opened Runs
  import opened PortRollback
  import opened PortServing
  import opened PortQTimes
  import opened Lifting
  import opened SwitchRollback
  import Dropping
  import Metering
  import Shaper

  /** The last priorities. No reverse handler changes them. */
  function Live(sw: Switch): (live: seq<int>)
    ensures |live| == |sw.ports| && forall i :: 0 <= i < |live| ==> live[i] == sw.ports[i].lastPriority
  {
    seq(|sw.ports|, i requires 0 <= i < |sw.ports| => sw.ports[i].lastPriority)
  }

  // ----- One event -----

  /** What the undo of an event needs to restore the q_times too, when `sw` is the switch before
      the event and `live` are the last priorities at the time of the undo. The repaired handlers
      need nothing. */
  predicate EventCovered(env: Env, sw: Switch, msg: Message, at: real, live: seq<int>) {
    && CanHandle(env, sw, msg) && |live| == |sw.ports|
    && (env.variant == Written ==>
          match msg.kind
          case ARRIVE =>
            msg.packet.dest == env.self ||
            (var route := sw.routing[msg.packet.dest];
             ArriveCovered(env, sw.ports[route.port], route.port, msg.packet, route.nextHop, at, msg))
          case SEND => SendCovered(sw.ports[msg.port], at, live[msg.port])
          case KICKOFF => true)
  }

  lemma ExactIsAlike(v: Variant, a: Switch, b: Switch)
    requires AlikeSwitch(Repaired, a, b)
    ensures AlikeSwitch(v, a, b)
  {
  }

  lemma AlikeIsExactIff(a: PortState, b: PortState)
    requires Alike(Written, a, b)
    ensures Alike(Repaired, a, b) <==> Restored(a, b)
  {
  }

  lemma OnePortExact(a: Switch, b: Switch, i: nat)
    requires AlikeSwitch(Written, a, b) && i < |a.ports|
    requires forall k :: 0 <= k < |a.ports| && k != i ==> Alike(Repaired, a.ports[k], b.ports[k])
    ensures AlikeSwitch(Repaired, a, b) <==> Restored(a.ports[i], b.ports[i])
  {
    hide Alike, Restored;
    AlikeIsExactIff(a.ports[i], b.ports[i]);
  }

  /** From any state that the event's own outcome differs from in last priorities only, its undo
      is safe, and restores the switch before the event up to last priorities exactly when the
      event is covered. */
  lemma {:induction false} HandleUndoneExactly(env: Env, sw: Switch, msg: Message, at: real, x: Switch)
    requires CanHandle(env, sw, msg) && Prepared(sw, msg)
    requires AlikeSwitch(Repaired, x, Handle(env, sw, msg, at).sw)
    ensures var r := Handle(env, sw, msg, at);
      && CanUndo(env, x, r.msg, r.bits)
      && AlikeSwitch(env.variant, Undo(env, x, r.msg, r.bits), sw)
      && (AlikeSwitch(Repaired, Undo(env, x, r.msg, r.bits), sw) <==> EventCovered(env, sw, msg, at, Live(x)))
  {
    hide Handle, Undo, CanUndo, AlikeSwitch, Prepared, CanHandle, ArriveCovered, SendCovered;
    var r := Handle(env, sw, msg, at);
    HandleUndone(env, sw, msg, at);
    ExactIsAlike(env.variant, x, r.sw);
    UndoAlike(env, x, r.sw, r.msg, r.bits);
    AlikeSwitchTransitive(env.variant, Undo(env, x, r.msg, r.bits), Undo(env, r.sw, r.msg, r.bits), sw);
    AlikePorts(x, r.sw);
    HandleKeepsPorts(env, sw, msg, at);
    if env.variant == Written {
      match msg.kind {
        case ARRIVE =>
          if msg.packet.dest == env.self {
            DeliveredUndone(env, sw, msg, at, x);
          } else {
            ArriveUndoneExactly(env, sw, msg, at, x);
          }
        case SEND =>
          SendUndoneExactly(env, sw, msg, at, x);
          assert Live(x)[msg.port] == x.ports[msg.port].lastPriority;
        case KICKOFF => NothingUndone(env, sw, msg, at, x);
      }
    }
  }

  lemma AlikePorts(a: Switch, b: Switch)
    requires AlikeSwitch(Repaired, a, b)
    ensures |a.ports| == |b.ports|
  {
  }

  lemma HandleKeepsPorts(env: Env, sw: Switch, msg: Message, at: real)
    requires CanHandle(env, sw, msg)
    ensures |Handle(env, sw, msg, at).sw.ports| == |sw.ports|
  {
    hide Arrive, Send;
  }

  lemma DeliveredUndone(env: Env, sw: Switch, msg: Message, at: real, x: Switch)
    requires CanHandle(env, sw, msg) && msg.kind == ARRIVE && msg.packet.dest == env.self
    requires AlikeSwitch(Repaired, x, Handle(env, sw, msg, at).sw)
    requires var r := Handle(env, sw, msg, at);
      CanUndo(env, x, r.msg, r.bits) && AlikeSwitch(env.variant, Undo(env, x, r.msg, r.bits), sw)
    ensures var r := Handle(env, sw, msg, at); AlikeSwitch(Repaired, Undo(env, x, r.msg, r.bits), sw)
  {
    hide Alike;
  }

  lemma NothingUndone(env: Env, sw: Switch, msg: Message, at: real, x: Switch)
    requires CanHandle(env, sw, msg) && msg.kind == KICKOFF
    requires AlikeSwitch(Repaired, x, Handle(env, sw, msg, at).sw)
    ensures var r := Handle(env, sw, msg, at);
      CanUndo(env, x, r.msg, r.bits) && AlikeSwitch(Repaired, Undo(env, x, r.msg, r.bits), sw)
  {
  }

  lemma {:induction false} ArriveUndoneExactly(env: Env, sw: Switch, msg: Message, at: real, x: Switch)
    requires env.variant == Written && msg.kind == ARRIVE && msg.packet.dest != env.self
    requires CanHandle(env, sw, msg) && Prepared(sw, msg)
    requires AlikeSwitch(Repaired, x, Handle(env, sw, msg, at).sw)
    requires var r := Handle(env, sw, msg, at);
      CanUndo(env, x, r.msg, r.bits) && AlikeSwitch(Written, Undo(env, x, r.msg, r.bits), sw)
    ensures var r := Handle(env, sw, msg, at);
      var route := sw.routing[msg.packet.dest];
      AlikeSwitch(Repaired, Undo(env, x, r.msg, r.bits), sw) <==>
        ArriveCovered(env, sw.ports[route.port], route.port, msg.packet, route.nextHop, at, msg)
  {
    hide Arrive, UndoArrive, CanUndoArrive, ArriveCovered, WithinCapacity, Alike, ArriveStats, UndoArriveStats, Idle,
         Restored;
    var r := Handle(env, sw, msg, at);
    var route := sw.routing[msg.packet.dest];
    var i, p := route.port, sw.ports[route.port];
    var o := Arrive(env, p, i, msg.packet, route.nextHop, at, msg);
    ArriveUndone(env, p, i, msg.packet, route.nextHop, at, msg);
    IndexParts(i, msg.packet.tos);
    assert Alike(Repaired, x.ports[i], o.port);
    ExactPort(x.ports[i], o.port);
    ArriveUndoExact(env, p, i, msg.packet, route.nextHop, at, msg, x.ports[i].lastPriority);
    OnePortExact(Undo(env, x, r.msg, r.bits), sw, i);
  }

  lemma ExactPort(a: PortState, b: PortState)
    requires Alike(Repaired, a, b)
    ensures a == b.(lastPriority := a.lastPriority)
    ensures Known(b.lastPriority) ==> Known(a.lastPriority)
  {
  }

  lemma {:induction false} SendUndoneExactly(env: Env, sw: Switch, msg: Message, at: real, x: Switch)
    requires env.variant == Written && msg.kind == SEND
    requires CanHandle(env, sw, msg) && Prepared(sw, msg)
    requires AlikeSwitch(Repaired, x, Handle(env, sw, msg, at).sw)
    requires var r := Handle(env, sw, msg, at);
      CanUndo(env, x, r.msg, r.bits) && AlikeSwitch(Written, Undo(env, x, r.msg, r.bits), sw)
    ensures var r := Handle(env, sw, msg, at);
      0 <= msg.port < |x.ports| == |sw.ports| &&
      (AlikeSwitch(Repaired, Undo(env, x, r.msg, r.bits), sw) <==>
         SendCovered(sw.ports[msg.port], at, x.ports[msg.port].lastPriority))
  {
    hide Send, UndoSend, CanUndoSend, SendCovered, SendEmpties, SendServes, WithinCapacity, Alike, Idle, Restored;
    var r := Handle(env, sw, msg, at);
    var i, p := msg.port, sw.ports[msg.port];
    var o := Send(env, p, i, at, msg);
    SendPortId(env, p, i, at, msg);
    assert Alike(Repaired, x.ports[i], o.port);
    ExactPort(x.ports[i], o.port);
    SendEmptiesServes(p, at);
    if SendServes(p, at) {
      SendLeavesKnown(env, p, i, at, msg);
    }
    SendUndoExact(env, p, i, at, msg, x.ports[i].lastPriority);
    OnePortExact(Undo(env, x, r.msg, r.bits), sw, i);
  }

  lemma UndoKeepsLive(env: Env, sw: Switch, msg: Message, bits: Bits)
    requires CanUndo(env, sw, msg, bits)
    ensures Live(Undo(env, sw, msg, bits)) == Live(sw)
  {
    hide Metering.Restore, Dropping.Restore, Shaper.Restore;
  }

  // ----- Stacks of events -----

  /** Every event of the run is covered, each in the switch that it met. */
  ghost predicate RunCovered(env: Env, w: World, es: seq<Event>, live: seq<int>)
    decreases |es|
  {
    es == [] ||
    (var before, e := es[..|es| - 1], es[|es| - 1];
     RunCovered(env, w, before, live) && EventCovered(env, Run(env, w, before).sw, e.msg, e.at, live))
  }

  /** A run whose events are covered under the live last priorities is undone newest first up to
      last priorities, q_times included, by the handlers as written and by the repaired ones. */
  lemma {:induction false} RollbackRestoresQTimes(env: Env, cs: seq<PortConfig>, w: World, es: seq<Event>, sw: Switch)
    requires AllBase(cs, w) && ValidRun(env, w, es)
    requires AlikeSwitch(Repaired, sw, Run(env, w, es).sw) && RunCovered(env, w, es, Live(sw))
    ensures CanUndoAll(env, sw, Journal(env, w, es))
    ensures AlikeSwitch(Repaired, UndoAll(env, sw, Journal(env, w, es)), w.sw)
    decreases |es|
  {
    hide AllBase, Enabled, Handle, Undo, CanUndo, AlikeSwitch, Prepared, CanHandle, EventCovered;
    if es != [] {
      var before, e := es[..|es| - 1], es[|es| - 1];
      var mid := Run(env, w, before);
      RunKeepsAllBase(env, cs, w, before);
      EnabledIsPrepared(env, cs, mid, e);
      EnabledCanHandle(env, cs, mid, e);
      var r := Handle(env, mid.sw, e.msg, e.at);
      HandleUndoneExactly(env, mid.sw, e.msg, e.at, sw);
      UndoKeepsLive(env, sw, r.msg, r.bits);
      var journal := Journal(env, w, es);
      assert journal[|journal| - 1] == EntryOf(e, r);
      assert journal[..|journal| - 1] == Journal(env, w, before);
      RollbackRestoresQTimes(env, cs, w, before, Undo(env, sw, r.msg, r.bits));
    }
  }

  // ----- What a rollback leaves in the q_times -----

  /** The q_time that the reverse handler as written gives to dropper `k` of port `i`, if any. */
  function Writes(entry: Entry, i: nat, k: nat, live: int): Option<real> {
    var snap, bits := entry.msg.snapshot, entry.bits;
    match entry.msg.kind
    case ARRIVE =>
      if !bits.c0 && MeterPort(snap) == i && (bits.c5 || bits.c6) && k / 2 == MeterTos(snap)
      then Some(if k == DropperIndex(MeterTos(snap), !bits.c5) then snap.dropper.qTime else snap.dropperQTime)
      else None
    case SEND =>
      if entry.msg.port == i && bits.c0 && bits.c2 && live <= k <= live + 1 then Some(snap.dropperQTime) else None
    case KICKOFF => None
  }

  /** What the oldest entry that writes the dropper writes to it. */
  function OldestWrite(journal: seq<Entry>, i: nat, k: nat, live: int): Option<real>
    decreases |journal|
  {
    if journal == [] then None
    else
      var older := OldestWrite(journal[..|journal| - 1], i, k, live);
      if older.Some? then older else Writes(journal[|journal| - 1], i, k, live)
  }

  function Or(write: Option<real>, q: real): real {
    if write.Some? then write.value else q
  }

  lemma {:induction false} UndoWrites(env: Env, sw: Switch, entry: Entry, i: nat, k: nat)
    requires env.variant == Written && CanUndo(env, sw, entry.msg, entry.bits) && WrittenBits(entry.msg, entry.bits)
    requires i < |sw.ports| && k < 2 * NUM_QOS_LEVEL
    ensures var sw' := Undo(env, sw, entry.msg, entry.bits);
      && |sw'.ports| == |sw.ports| && sw'.ports[i].lastPriority == sw.ports[i].lastPriority
      && sw'.ports[i].droppers[k].qTime
         == Or(Writes(entry, i, k, sw.ports[i].lastPriority), sw.ports[i].droppers[k].qTime)
  {
    hide UndoArrive, UndoSend, UndoArriveStats, CanUndoArrive, CanUndoSend;
    match entry.msg.kind {
      case ARRIVE =>
        if !entry.bits.c0 && MeterPort(entry.msg.snapshot) == i {
          UndoArriveWrites(sw.ports[i], MeterTos(entry.msg.snapshot), entry.bits, entry.msg.snapshot, k);
        }
      case SEND =>
        if entry.msg.port == i {
          UndoSendWrites(env, sw.ports[i], entry.bits, entry.msg.snapshot, k);
        }
      case KICKOFF =>
    }
  }

  lemma UndoArriveWrites(p: PortState, tos: nat, bits: Bits, snap: Snapshot, k: nat)
    requires CanUndoArrive(p, tos, bits, snap) && !bits.c7 && k < 2 * NUM_QOS_LEVEL
    ensures var u := UndoArrive(p, tos, bits, snap);
      && u.lastPriority == p.lastPriority
      && u.droppers[k].qTime ==
           if (bits.c5 || bits.c6) && k / 2 == tos
           then if k == DropperIndex(tos, !bits.c5) then snap.dropper.qTime else snap.dropperQTime
           else p.droppers[k].qTime
  {
    UndoArriveDroppers(p, tos, bits, snap);
    UndoArriveKeepsPriority(p, p.lastPriority, tos, bits, snap);
    assert p.(lastPriority := p.lastPriority) == p;
    hide UndoArrive;
  }

  lemma UndoSendWrites(env: Env, p: PortState, bits: Bits, snap: Snapshot, k: nat)
    requires env.variant == Written && CanUndoSend(env, p, bits, snap) && k < 2 * NUM_QOS_LEVEL
    ensures var u := UndoSend(env, p, bits, snap);
      && u.lastPriority == p.lastPriority
      && u.droppers[k].qTime ==
           if bits.c0 && bits.c2 && p.lastPriority <= k <= p.lastPriority + 1 then snap.dropperQTime
           else p.droppers[k].qTime
  {
    hide Shaper.Restore;
  }

  /** A rollback leaves in every dropper what the oldest entry that writes it writes, and leaves
      the others alone. */
  lemma {:induction false} UndoAllQTimes(env: Env, sw: Switch, journal: seq<Entry>, i: nat, k: nat)
    requires env.variant == Written && CanUndoAll(env, sw, journal)
    requires forall j :: 0 <= j < |journal| ==> WrittenBits(journal[j].msg, journal[j].bits)
    requires i < |sw.ports| && k < 2 * NUM_QOS_LEVEL
    ensures var u := UndoAll(env, sw, journal);
      && |u.ports| == |sw.ports|
      && u.ports[i].droppers[k].qTime
         == Or(OldestWrite(journal, i, k, sw.ports[i].lastPriority), sw.ports[i].droppers[k].qTime)
    decreases |journal|
  {
    hide Undo, CanUndo, Writes, WrittenBits;
    if journal != [] {
      var last := journal[|journal| - 1];
      UndoWrites(env, sw, last, i, k);
      UndoAllQTimes(env, Undo(env, sw, last.msg, last.bits), journal[..|journal| - 1], i, k);
    }
  }

  lemma {:induction false} JournalBits(env: Env, cs: seq<PortConfig>, w: World, es: seq<Event>)
    requires env.variant == Written && AllBase(cs, w) && ValidRun(env, w, es)
    ensures forall j :: 0 <= j < |Journal(env, w, es)| ==>
      WrittenBits(Journal(env, w, es)[j].msg, Journal(env, w, es)[j].bits)
    decreases |es|
  {
    hide AllBase, Enabled, Handle, Undo, CanUndo, AlikeSwitch, Prepared, CanHandle, WrittenBits;
    if es != [] {
      var before, e := es[..|es| - 1], es[|es| - 1];
      var mid := Run(env, w, before);
      JournalBits(env, cs, w, before);
      RunKeepsAllBase(env, cs, w, before);
      EnabledIsPrepared(env, cs, mid, e);
      EnabledCanHandle(env, cs, mid, e);
      HandleUndone(env, mid.sw, e.msg, e.at);
    }
  }

  /** The q_time of every dropper before the run is what the oldest entry of the journal that
      writes it saved; or no entry writes it, and the run left it unchanged. */
  predicate QTimesSaved(w: Switch, sw: Switch, journal: seq<Entry>)
    requires |sw.ports| == |w.ports|
  {
    forall i, k :: 0 <= i < |sw.ports| && 0 <= k < 2 * NUM_QOS_LEVEL ==>
      Or(OldestWrite(journal, i, k, sw.ports[i].lastPriority), sw.ports[i].droppers[k].qTime)
      == w.ports[i].droppers[k].qTime
  }

  /** As written, a stack of events is undone up to last priorities, q_times included, if and only
      if the q_times are saved in its journal, which can be read off before the rollback. */
  lemma {:induction false} RollbackExactIff(env: Env, cs: seq<PortConfig>, w: World, es: seq<Event>, sw: Switch)
    requires env.variant == Written && AllBase(cs, w) && ValidRun(env, w, es)
    requires AlikeSwitch(Written, sw, Run(env, w, es).sw)
    ensures var journal := Journal(env, w, es);
      && CanUndoAll(env, sw, journal) && |sw.ports| == |w.sw.ports|
      && (AlikeSwitch(Repaired, UndoAll(env, sw, journal), w.sw) <==> QTimesSaved(w.sw, sw, journal))
  {
    hide AllBase, ValidRun, Run, Journal, CanUndoAll, UndoAll, OldestWrite, Alike;
    var journal := Journal(env, w, es);
    RollbackRestores(env, cs, w, es, sw);
    JournalBits(env, cs, w, es);
    var u := UndoAll(env, sw, journal);
    RunPorts(env, cs, w, es);
    forall i, k | 0 <= i < |sw.ports| && 0 <= k < 2 * NUM_QOS_LEVEL
      ensures |u.ports| == |sw.ports|
      ensures u.ports[i].droppers[k].qTime
        == Or(OldestWrite(journal, i, k, sw.ports[i].lastPriority), sw.ports[i].droppers[k].qTime)
    {
      UndoAllQTimes(env, sw, journal, i, k);
    }
    forall i | 0 <= i < |u.ports|
      ensures Alike(Repaired, u.ports[i], w.sw.ports[i]) <==>
        forall k :: 0 <= k < 2 * NUM_QOS_LEVEL ==> u.ports[i].droppers[k].qTime == w.sw.ports[i].droppers[k].qTime
    {
      AlikeByQTimes(u.ports[i], w.sw.ports[i]);
    }
  }

  lemma RunPorts(env: Env, cs: seq<PortConfig>, w: World, es: seq<Event>)
    requires AllBase(cs, w) && ValidRun(env, w, es)
    ensures |Run(env, w, es).sw.ports| == |w.sw.ports|
  {
    hide Run, ValidRun;
    RunKeepsAllBase(env, cs, w, es);
  }

  lemma AlikeByQTimes(a: PortState, b: PortState)
    requires Alike(Written, a, b)
    ensures Alike(Repaired, a, b) <==>
      forall k :: 0 <= k < 2 * NUM_QOS_LEVEL ==> a.droppers[k].qTime == b.droppers[k].qTime
  {
    assert forall k :: 0 <= k < 2 * NUM_QOS_LEVEL ==> a.droppers[k].(qTime := b.droppers[k].qTime) == b.droppers[k];
  }
}
