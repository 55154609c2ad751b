/** Undoing one event of a port. */
module PortRollback {
  import opened Types
  import opened Conversion
  import opened QueueFifo
  import opened Scheduling
  import opened Ports
  import Shaper
  import Metering
  import Dropping

  /** Every queue is within its capacity. */
  predicate WithinCapacity(p: PortState) {
    forall i :: 0 <= i < NUM_QOS_LEVEL ==> Bytes(p.queues[i].packets) <= p.queues[i].capacity
  }

  predicate SameAverages(a: seq<Dropping.Dropper>, b: seq<Dropping.Dropper>) {
    |a| == |b| && forall i :: 0 <= i < |a| ==> a[i].(qTime := b[i].qTime) == b[i]
  }

  predicate Known(priority: int) {
    0 <= priority < NUM_QOS_LEVEL
  }

  /** `a` equals `b` up to the scheduler's last priority and, for the handlers as written, up
      to the q_times of the droppers; if a priority was served in `b`, one was in `a`. */
  predicate Alike(v: Variant, a: PortState, b: PortState) {
    && (Known(b.lastPriority) ==> Known(a.lastPriority))
    && a.(lastPriority := b.lastPriority, droppers := b.droppers) == b
    && SameAverages(a.droppers, b.droppers)
    && (v == Repaired ==> a.droppers == b.droppers)
  }

  // ----- Queues -----

  lemma PutBackUndoesDepart(env: Env, p: PortState, now: real)
    requires !Idle(p) && WithinCapacity(p)
    ensures var d := Depart(env, p, now);
      var s := SchedulerSnapshot(d.prio, d.packet);
      && CanUndoDeparture(d.port, s)
      && d.port.queues[d.prio := TakeReverse(d.port.queues[d.prio], d.packet)] == p.queues
  {
    hide FirstBusy, Shaper.Consume, Touch, InjectionDelay;
    var d := Depart(env, p, now);
    var q := p.queues[d.prio];
    BytesOfEnds(q.packets);
    PutTakeUndo(q, q.packets[0]);
  }

  lemma DepartFrame(env: Env, p: PortState, now: real)
    requires !Idle(p)
    ensures var d := Depart(env, p, now);
      && d.port == p.(queues := d.port.queues, bucket := d.port.bucket, droppers := d.port.droppers,
                      lastPriority := d.prio, available := d.end)
      && d.port.bucket == Shaper.Consume(p.bucket, d.packet.sizeInBytes, now)
  {
    hide FirstBusy, Shaper.Consume, Touch, InjectionDelay;
  }

  lemma EnqueueUndone(p: PortState, packet: Packet, nextHop: int)
    requires packet.tos < NUM_QOS_LEVEL
    ensures var queues := Enqueue(p, packet, nextHop).queues;
      && queues[packet.tos].packets != []
      && queues[packet.tos := PutReverse(queues[packet.tos])] == p.queues
  {
    hide FirstBusy;
    PutTakeUndo(p.queues[packet.tos], packet.(nextHop := nextHop));
  }

  lemma EnqueueWithinCapacity(p: PortState, packet: Packet, nextHop: int)
    requires packet.tos < NUM_QOS_LEVEL && WithinCapacity(p)
    requires Bytes(p.queues[packet.tos].packets) + packet.sizeInBytes <= p.queues[packet.tos].capacity
    ensures WithinCapacity(Enqueue(p, packet, nextHop))
  {
    hide FirstBusy, Bytes;
    BytesOfPut(p.queues[packet.tos].packets, packet.(nextHop := nextHop));
  }

  // ----- Droppers -----

  /** A departure changes q_times only, and setting them back undoes it. */
  lemma DroppersOfDepart(env: Env, p: PortState, now: real)
    requires !Idle(p)
    ensures var d := Depart(env, p, now);
      var i := EmptiedIndex(env.variant, d.prio);
      && SameAverages(d.port.droppers, p.droppers)
      && (if d.emptied
          then SetQTimes(d.port.droppers, i, p.droppers[i].qTime, p.droppers[i + 1].qTime) == p.droppers
          else d.port.droppers == p.droppers)
  {
    hide FirstBusy, Shaper.Consume, InjectionDelay;
  }

  lemma SettingQTimesKeepsAverages(droppers: seq<Dropping.Dropper>, i: nat, x: real, y: real)
    requires i + 1 < |droppers|
    ensures SameAverages(SetQTimes(droppers, i, x, y), droppers)
  {
  }

  lemma AlikeIsTransitive(v: Variant, a: PortState, b: PortState, c: PortState)
    requires Alike(v, a, b) && Alike(v, b, c)
    ensures Alike(v, a, c)
  {
  }

  // ----- SEND -----

  /** Undoing a SEND event of a busy port restores the port. */
  lemma SendUndone(env: Env, p: PortState, portId: nat, now: real, msg: Message)
    requires p.flag && !Idle(p) && WithinCapacity(p)
    ensures var o := Send(env, p, portId, now, msg);
      && CanUndoSend(env, o.port, o.bits, o.snapshot)
      && Alike(env.variant, UndoSend(env, o.port, o.bits, o.snapshot), p)
  {
    hide FirstBusy, Shaper.Consume, InjectionDelay, Shaper.NextAvailableTime, Bytes, Touch, SetQTimes;
    var q := Polled(p, now);
    var d := Depart(env, q, now);
    PutBackUndoesDepart(env, q, now);
    DroppersOfDepart(env, q, now);
    Shaper.RestoreUndoesUse(p.bucket, d.packet.sizeInBytes, now, now);
    if env.variant == Written {
      var i := EmptiedIndex(Written, d.prio);
      SettingQTimesKeepsAverages(d.port.droppers, i, p.droppers[i].qTime, p.droppers[i].qTime);
    }
  }

  // ----- ARRIVE -----

  /** The meter part of the undo restores all meters; the dropper part restores the pair of
      the arriving packet and leaves the other pairs alone. */
  lemma JudgeUndone(env: Env, p: PortState, packet: Packet, now: real, index: int, snap: Snapshot,
                    x: PortState, bits: Bits, s: Snapshot)
    requires packet.tos < NUM_QOS_LEVEL
    requires var v := Judge(env, p, packet, now, index, snap);
      && x.meters == v.port.meters && SameAverages(x.droppers, v.port.droppers)
      && bits.c5 == v.bits.c5 && bits.c6 == v.bits.c6
      && s.meter == v.snapshot.meter && s.dropper == v.snapshot.dropper
      && s.dropperQTime == v.snapshot.dropperQTime
    ensures var v := Judge(env, p, packet, now, index, snap);
      var u := UndoJudge(x, packet.tos, bits, s);
      && u == x.(meters := p.meters, droppers := u.droppers)
      && SameAverages(u.droppers, p.droppers)
      && (x.droppers == v.port.droppers ==> u.droppers == p.droppers)
      && (forall k :: 0 <= k < 2 * NUM_QOS_LEVEL ==>
            u.droppers[k] == if (v.bits.c5 || v.bits.c6) && k / 2 == packet.tos
                             then p.droppers[k] else x.droppers[k])
  {
    hide Metering.Update, Dropping.Sampled, Bytes;
    SampledChangesOnlyState(p.droppers[2 * packet.tos], |p.queues[packet.tos].packets|, now, env.power);
    SampledChangesOnlyState(p.droppers[2 * packet.tos + 1], |p.queues[packet.tos].packets|, now, env.power);
    Metering.RestoreUndoesUpdate(p.meters[packet.tos], packet.sizeInBytes, now);
  }

  lemma SampledChangesOnlyState(d: Dropping.Dropper, length: int, now: real, power: (real, real) -> real)
    ensures var d' := Dropping.Sampled(d, length, now, power); d' == d.(avg := d'.avg, qTime := d'.qTime)
  {
  }

  /** The state in which an admitted packet meets the scheduler: enqueued, bucket polled. */
  function Offered(env: Env, p: PortState, portId: nat, packet: Packet, nextHop: int, now: real,
      msg: Message): (q: PortState)
    requires packet.tos < NUM_QOS_LEVEL
    ensures !Idle(q)
  {
    var v := Judge(env, p, packet, now, NUM_QOS_LEVEL * portId + packet.tos, msg.snapshot);
    Polled(Enqueue(v.port, packet, nextHop), now)
  }

  /** What a verdict leaves alone, and what it guarantees about an admitted packet. */
  lemma JudgeFrame(env: Env, p: PortState, packet: Packet, now: real, index: int, snap: Snapshot)
    requires packet.tos < NUM_QOS_LEVEL
    ensures var v := Judge(env, p, packet, now, index, snap);
      && v.port == p.(meters := v.port.meters, droppers := v.port.droppers)
      && v.bits == NO_BITS.(c1 := v.drop, c5 := v.bits.c5, c6 := v.bits.c6)
      && v.snapshot.meterIndex == index
      && (!v.drop ==> && (v.bits.c5 || v.bits.c6)
                      && Bytes(p.queues[packet.tos].packets) + packet.sizeInBytes
                         <= p.queues[packet.tos].capacity)
  {
    hide Metering.Update, Dropping.Sampled, Bytes;
  }

  /** The three ways in which an admitted packet is dispatched, and what the undo reads. */
  lemma {:induction false} ArriveUndone(env: Env, p: PortState, portId: nat, packet: Packet, nextHop: int, now: real,
      msg: Message)
    requires packet.tos < NUM_QOS_LEVEL && WithinCapacity(p)
    ensures var o := Arrive(env, p, portId, packet, nextHop, now, msg);
      && o.snapshot.meterIndex == NUM_QOS_LEVEL * portId + packet.tos
      && (!o.bits.c1 ==> o.portId == portId)
      && !o.bits.c0
      && CanUndoArrive(o.port, packet.tos, o.bits, o.snapshot)
      && Alike(env.variant, UndoArrive(o.port, packet.tos, o.bits, o.snapshot), p)
  {
    hide FirstBusy, Judge, Shaper.Consume, InjectionDelay, Shaper.NextAvailableTime, Bytes, Touch, SetQTimes,
         UndoJudge, Depart, NextSize, PollFault;
    var index := NUM_QOS_LEVEL * portId + packet.tos;
    var v := Judge(env, p, packet, now, index, msg.snapshot);
    JudgeFrame(env, p, packet, now, index, msg.snapshot);
    if v.drop {
      JudgeUndone(env, p, packet, now, index, msg.snapshot, v.port, v.bits, v.snapshot);
    } else {
      EnqueueUndone(v.port, packet, nextHop);
      EnqueueWithinCapacity(v.port, packet, nextHop);
      var q := Offered(env, p, portId, packet, nextHop, now, msg);
      if Shaper.Ready(q.bucket, NextSize(q.queues)) {
        ArriveUndoneAfterDeparture(env, p, portId, packet, nextHop, now, msg);
      } else {
        Shaper.RestoreUndoesUse(p.bucket, 0, now, now);
        var o := Arrive(env, p, portId, packet, nextHop, now, msg);
        JudgeUndone(env, p, packet, now, index, msg.snapshot, o.port, o.bits, o.snapshot);
      }
    }
  }

  /** What an ARRIVE event that sends leaves behind. */
  lemma {:induction false} ArriveServed(env: Env, p: PortState, portId: nat, packet: Packet, nextHop: int, now: real,
      msg: Message)
    requires packet.tos < NUM_QOS_LEVEL
    requires var o := Arrive(env, p, portId, packet, nextHop, now, msg); o.bits.c2 && !o.bits.c1
    ensures var o := Arrive(env, p, portId, packet, nextHop, now, msg);
      var v := Judge(env, p, packet, now, NUM_QOS_LEVEL * portId + packet.tos, msg.snapshot);
      var q := Offered(env, p, portId, packet, nextHop, now, msg);
      var d := Depart(env, q, now);
      && !v.drop && o.port == d.port
      && o.bits == v.bits.(c2 := true, c7 := env.variant == Repaired && d.emptied)
      && o.snapshot == DepartureSnapshot(env, q, d, v.snapshot.(bucket := Shaper.SnapshotOf(v.port.bucket)))
  {
    hide FirstBusy, Judge, Shaper.NextAvailableTime, Shaper.Ready, NextSize, Depart, Forwarded, Shaper.Poll, PollFault,
         Enqueue, DepartureSnapshot;
    JudgeFrame(env, p, packet, now, NUM_QOS_LEVEL * portId + packet.tos, msg.snapshot);
  }

  lemma {:induction false} ArriveUndoneAfterDeparture(env: Env, p: PortState, portId: nat, packet: Packet, nextHop: int,
      now: real, msg: Message)
    requires packet.tos < NUM_QOS_LEVEL && WithinCapacity(p)
    requires var o := Arrive(env, p, portId, packet, nextHop, now, msg); o.bits.c2 && !o.bits.c1
    ensures var o := Arrive(env, p, portId, packet, nextHop, now, msg);
      && CanUndoArrive(o.port, packet.tos, o.bits, o.snapshot)
      && Alike(env.variant, UndoArrive(o.port, packet.tos, o.bits, o.snapshot), p)
  {
    hide FirstBusy, Judge, Bytes, SetQTimes, UndoJudge, NextSize, Depart, Arrive, Shaper.Poll, Shaper.Consume;
    var index := NUM_QOS_LEVEL * portId + packet.tos;
    var v := Judge(env, p, packet, now, index, msg.snapshot);
    JudgeFrame(env, p, packet, now, index, msg.snapshot);
    ArriveServed(env, p, portId, packet, nextHop, now, msg);
    EnqueueUndone(v.port, packet, nextHop);
    EnqueueWithinCapacity(v.port, packet, nextHop);
    var q := Offered(env, p, portId, packet, nextHop, now, msg);
    var d := Depart(env, q, now);
    PutBackUndoesDepart(env, q, now);
    DroppersOfDepart(env, q, now);
    DepartFrame(env, q, now);
    Shaper.RestoreUndoesUse(p.bucket, d.packet.sizeInBytes, now, now);
    var o := Arrive(env, p, portId, packet, nextHop, now, msg);
    var p0 := if o.bits.c7 then d.port.(droppers := v.port.droppers) else d.port;
    JudgeUndone(env, p, packet, now, index, msg.snapshot, p0, o.bits, o.snapshot);
  }

  // ----- Undoing from a state that is merely alike -----

  lemma UndoJudgeAlike(v: Variant, a: PortState, b: PortState, tos: nat, bits: Bits, snap: Snapshot)
    requires tos < NUM_QOS_LEVEL && Alike(v, a, b)
    ensures Alike(v, UndoJudge(a, tos, bits, snap), UndoJudge(b, tos, bits, snap))
    ensures var u := UndoJudge(a, tos, bits, snap);
      u == a.(meters := u.meters, droppers := u.droppers)
  {
  }

  lemma SetQTimesAlike(v: Variant, a: PortState, b: PortState, i: nat, j: nat, x: real, y: real)
    requires Alike(v, a, b) && i + 1 < 2 * NUM_QOS_LEVEL && j + 1 < 2 * NUM_QOS_LEVEL
    requires v == Repaired ==> i == j
    ensures Alike(v, a.(droppers := SetQTimes(a.droppers, i, x, y)), b.(droppers := SetQTimes(b.droppers, j, x, y)))
  {
  }

  /** The undo of a SEND event does not see what Alike leaves open. */
  lemma UndoSendAlike(env: Env, a: PortState, b: PortState, bits: Bits, snap: Snapshot)
    requires Alike(env.variant, a, b) && CanUndoSend(env, b, bits, snap)
    ensures CanUndoSend(env, a, bits, snap)
    ensures Alike(env.variant, UndoSend(env, a, bits, snap), UndoSend(env, b, bits, snap))
  {
    hide SetQTimes, Bytes;
    if bits.c0 && bits.c2 {
      if env.variant == Written {
        SetQTimesAlike(Written, a, b, EmptiedIndex(Written, a.lastPriority), EmptiedIndex(Written, b.lastPriority),
            snap.dropperQTime, snap.dropperQTime);
      } else {
        var i := EmptiedIndex(Repaired, snap.scheduler.lastPriority);
        SetQTimesAlike(Repaired, a, b, i, i, snap.emptiedQTimes.0, snap.emptiedQTimes.1);
      }
    }
  }

  /** The undo of an ARRIVE event does not see what Alike leaves open. */
  lemma {:induction false} UndoArriveAlike(v: Variant, a: PortState, b: PortState, tos: nat, bits: Bits, snap: Snapshot)
    requires Alike(v, a, b) && CanUndoArrive(b, tos, bits, snap)
    ensures CanUndoArrive(a, tos, bits, snap)
    ensures Alike(v, UndoArrive(a, tos, bits, snap), UndoArrive(b, tos, bits, snap))
  {
    hide SetQTimes, Bytes, UndoJudge;
    var a0, b0 := a, b;
    if bits.c7 {
      var i := 2 * snap.scheduler.lastPriority;
      SetQTimesAlike(v, a, b, i, i, snap.emptiedQTimes.0, snap.emptiedQTimes.1);
      a0 := a.(droppers := SetQTimes(a.droppers, i, snap.emptiedQTimes.0, snap.emptiedQTimes.1));
      b0 := b.(droppers := SetQTimes(b.droppers, i, snap.emptiedQTimes.0, snap.emptiedQTimes.1));
    }
    UndoJudgeAlike(v, a0, b0, tos, bits, snap);
  }

  // ----- The forward handlers do not read the last priority -----

  lemma JudgeIgnoresPriority(env: Env, p: PortState, last: int, packet: Packet, now: real, index: int, snap: Snapshot)
    requires packet.tos < NUM_QOS_LEVEL
    ensures var v := Judge(env, p, packet, now, index, snap);
      Judge(env, p.(lastPriority := last), packet, now, index, snap) == v.(port := v.port.(lastPriority := last))
  {
    hide Metering.Update, Dropping.Sampled, Bytes, Dropping.Drops;
  }

  lemma DepartIgnoresPriority(env: Env, p: PortState, last: int, now: real)
    requires !Idle(p)
    ensures Depart(env, p.(lastPriority := last), now) == Depart(env, p, now)
    ensures Known(Depart(env, p, now).port.lastPriority)
  {
    hide FirstBusy, Shaper.Consume, Touch, InjectionDelay;
  }

  /** From ports that differ in the last priority only, an ARRIVE event does the same. */
  lemma ArriveIgnoresPriority(env: Env, a: PortState, b: PortState, portId: nat, packet: Packet, nextHop: int,
      now: real, msg: Message)
    requires packet.tos < NUM_QOS_LEVEL && Alike(Repaired, a, b)
    ensures var o, o' := Arrive(env, b, portId, packet, nextHop, now, msg), Arrive(env, a, portId, packet, nextHop,
        now, msg);
      && o' == o.(port := o'.port)
      && Alike(Repaired, o'.port, o.port)
  {
    hide FirstBusy, Judge, Depart, Shaper.Poll, Shaper.NextAvailableTime, Shaper.Ready, NextSize;
    assert a == b.(lastPriority := a.lastPriority);
    var index := NUM_QOS_LEVEL * portId + packet.tos;
    JudgeIgnoresPriority(env, b, a.lastPriority, packet, now, index, msg.snapshot);
    JudgeFrame(env, b, packet, now, index, msg.snapshot);
    DepartIgnoresPriority(env, Offered(env, b, portId, packet, nextHop, now, msg), a.lastPriority, now);
  }

  /** From ports that differ in the last priority only, a SEND event does the same. */
  lemma SendIgnoresPriority(env: Env, a: PortState, b: PortState, portId: nat, now: real, msg: Message)
    requires Alike(Repaired, a, b)
    ensures var o, o' := Send(env, b, portId, now, msg), Send(env, a, portId, now, msg);
      && o' == o.(port := o'.port)
      && Alike(Repaired, o'.port, o.port)
  {
    hide FirstBusy, Depart, Shaper.Poll, Shaper.NextAvailableTime, Shaper.Ready, NextSize;
    assert a == b.(lastPriority := a.lastPriority);
    if !Idle(b) {
      DepartIgnoresPriority(env, Polled(b, now), a.lastPriority, now);
    }
  }
}
