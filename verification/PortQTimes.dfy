/** The dropper bookkeeping as written: exactly when the undo of an event restores the port
    completely, and an event for which it does not. */
module PortQTimes {
  import opened Types
  import opened QueueFifo
  import opened Scheduling
  import opened Ports
  import opened PortRollback
  import opened PortServing
  import opened PortRed
  import Shaper
  import Metering
  import Dropping

  /** The port is as it was, but for the scheduler's last priority. */
  predicate Restored(a: PortState, p: PortState) {
    a.(lastPriority := p.lastPriority) == p
  }

  // ----- ARRIVE -----

  /** The two droppers that are touched when queue `prio` runs empty at `now`, while a packet of
      priority `tos` arrives, belong to the arriving packet or already have this q_time. */
  predicate TouchedIsCovered(p: PortState, tos: nat, prio: nat, now: real)
    requires prio < NUM_QOS_LEVEL
  {
    forall k :: prio <= k <= prio + 1 ==> k / 2 == tos || p.droppers[k].qTime == now
  }

  /** No queue runs empty, or the touched droppers are covered. */
  predicate ArriveCovered(env: Env, p: PortState, portId: nat, packet: Packet, nextHop: int, now: real, msg: Message)
    requires packet.tos < NUM_QOS_LEVEL
  {
    ArriveEmpties(env, p, portId, packet, nextHop, now, msg) ==>
      TouchedIsCovered(p, packet.tos, FirstBusy(Enqueue(p, packet, nextHop).queues), now)
  }

  /** As written, undoing an ARRIVE event restores the port exactly when the event is covered,
      whatever the last priority is by then. */
  lemma {:induction false} ArriveUndoExact(env: Env, p: PortState, portId: nat, packet: Packet, nextHop: int,
      now: real, msg: Message, live: int)
    requires env.variant == Written && packet.tos < NUM_QOS_LEVEL && WithinCapacity(p)
    ensures var o := Arrive(env, p, portId, packet, nextHop, now, msg);
      var x := o.port.(lastPriority := live);
      && CanUndoArrive(x, packet.tos, o.bits, o.snapshot)
      && (Restored(UndoArrive(x, packet.tos, o.bits, o.snapshot), p) <==>
            ArriveCovered(env, p, portId, packet, nextHop, now, msg))
  {
    hide Arrive, UndoArrive, CanUndoArrive, FirstBusy, Judge, Depart, Shaper.Poll, Shaper.Ready, NextSize, Bytes,
         WithinCapacity, PollFault, Offered, Enqueue;
    ArriveUndone(env, p, portId, packet, nextHop, now, msg);
    ArriveServesIff(env, p, portId, packet, nextHop, now, msg);
    var o := Arrive(env, p, portId, packet, nextHop, now, msg);
    UndoArriveKeepsPriority(o.port, live, packet.tos, o.bits, o.snapshot);
    var u := UndoArrive(o.port, packet.tos, o.bits, o.snapshot);
    JudgeUndoneDroppers(env, p, portId, packet, nextHop, now, msg);
    assert Restored(u, p) <==> u.droppers == p.droppers;
  }

  lemma {:induction false} UndoArriveKeepsPriority(p: PortState, live: int, tos: nat, bits: Bits, snap: Snapshot)
    requires CanUndoArrive(p, tos, bits, snap)
    ensures var x := p.(lastPriority := live);
      && CanUndoArrive(x, tos, bits, snap)
      && UndoArrive(x, tos, bits, snap) == UndoArrive(p, tos, bits, snap).(lastPriority := live)
  {
    hide Bytes, Metering.Restore, Dropping.Restore, Shaper.Restore, SetQTimes;
  }

  /** Which droppers a departure touches, as written. */
  lemma DepartTouches(env: Env, p: PortState, now: real)
    requires env.variant == Written && !Idle(p)
    ensures var d := Depart(env, p, now);
      && d.prio < NUM_QOS_LEVEL
      && forall k :: 0 <= k < 2 * NUM_QOS_LEVEL ==>
           d.port.droppers[k] == if d.emptied && d.prio <= k <= d.prio + 1
                                 then Dropping.TimeUpdate(p.droppers[k], now) else p.droppers[k]
  {
    hide FirstBusy, Shaper.Consume;
  }

  /** What an ARRIVE event leaves for its undo. */
  lemma {:induction false} ArriveLeaves(env: Env, p: PortState, portId: nat, packet: Packet, nextHop: int,
      now: real, msg: Message)
    requires env.variant == Written && packet.tos < NUM_QOS_LEVEL
    ensures var v := Judge(env, p, packet, now, NUM_QOS_LEVEL * portId + packet.tos, msg.snapshot);
      var o := Arrive(env, p, portId, packet, nextHop, now, msg);
      && o.bits.c5 == v.bits.c5 && o.bits.c6 == v.bits.c6 && !o.bits.c7
      && (!o.bits.c5 && !o.bits.c6 ==> o.departed.None?)
      && o.snapshot.meter == v.snapshot.meter && o.snapshot.dropper == v.snapshot.dropper
      && o.snapshot.dropperQTime == v.snapshot.dropperQTime
      && o.port.meters == v.port.meters && SameAverages(o.port.droppers, v.port.droppers)
      && forall k :: 0 <= k < 2 * NUM_QOS_LEVEL ==>
           o.port.droppers[k] ==
             if o.departed.Some? && o.departed.value.emptied && o.departed.value.prio <= k <= o.departed.value.prio + 1
             then Dropping.TimeUpdate(v.port.droppers[k], now) else v.port.droppers[k]
  {
    hide FirstBusy, Judge, Depart, Shaper.Poll, Shaper.NextAvailableTime, Shaper.Ready, NextSize, Forwarded, Bytes,
         PollFault;
    JudgeFrame(env, p, packet, now, NUM_QOS_LEVEL * portId + packet.tos, msg.snapshot);
    var q := Offered(env, p, portId, packet, nextHop, now, msg);
    DepartTouches(env, q, now);
    DroppersOfDepart(env, q, now);
    DepartFrame(env, q, now);
  }

  lemma UndoArriveDroppers(p: PortState, tos: nat, bits: Bits, snap: Snapshot)
    requires CanUndoArrive(p, tos, bits, snap) && !bits.c7
    ensures UndoArrive(p, tos, bits, snap).droppers == UndoJudge(p, tos, bits, snap).droppers
  {
    hide Bytes, UndoJudge, Shaper.Restore;
  }

  /** The droppers after the undo of an ARRIVE event: the arriving packet's pair is restored,
      every other dropper is as the departure left it. */
  lemma {:induction false} JudgeUndoneDroppers(env: Env, p: PortState, portId: nat, packet: Packet, nextHop: int,
      now: real, msg: Message)
    requires env.variant == Written && packet.tos < NUM_QOS_LEVEL
    requires var o := Arrive(env, p, portId, packet, nextHop, now, msg);
      CanUndoArrive(o.port, packet.tos, o.bits, o.snapshot)
    ensures var o := Arrive(env, p, portId, packet, nextHop, now, msg);
      var u := UndoArrive(o.port, packet.tos, o.bits, o.snapshot);
      forall k :: 0 <= k < 2 * NUM_QOS_LEVEL ==>
        u.droppers[k] ==
          if k / 2 == packet.tos || o.departed.None? then p.droppers[k]
          else if o.departed.value.emptied && o.departed.value.prio <= k <= o.departed.value.prio + 1
          then Dropping.TimeUpdate(p.droppers[k], now) else p.droppers[k]
  {
    hide Arrive, UndoArrive, CanUndoArrive, Judge, UndoJudge, Dropping.Sampled, Dropping.Drops;
    var index := NUM_QOS_LEVEL * portId + packet.tos;
    JudgeFrame(env, p, packet, now, index, msg.snapshot);
    JudgeDroppers(env, p, packet, now, index, msg.snapshot);
    ArriveLeaves(env, p, portId, packet, nextHop, now, msg);
    var o := Arrive(env, p, portId, packet, nextHop, now, msg);
    UndoArriveDroppers(o.port, packet.tos, o.bits, o.snapshot);
    JudgeUndone(env, p, packet, now, index, msg.snapshot, o.port, o.bits, o.snapshot);
  }

  // ----- SEND -----

  /** What the undo of a SEND event needs when the live last priority is `live`: no queue runs
      empty; or the droppers that the undo writes, `live` and `live + 1`, had the one saved
      q_time, and those that the event touched and the undo does not write had the event's. */
  predicate SendCovered(p: PortState, now: real, live: int) {
    SendEmpties(p, now) ==>
      var prio := FirstBusy(p.queues);
      forall k :: 0 <= k < 2 * NUM_QOS_LEVEL ==>
        if live <= k <= live + 1 then p.droppers[k].qTime == p.droppers[prio].qTime
        else prio <= k <= prio + 1 ==> p.droppers[k].qTime == now
  }

  /** As written, undoing a SEND event while the live last priority is `live` restores the port
      exactly when the event is covered. */
  lemma {:induction false} SendUndoExact(env: Env, p: PortState, portId: nat, now: real, msg: Message, live: int)
    requires env.variant == Written && p.flag && !Idle(p) && WithinCapacity(p)
    requires SendEmpties(p, now) ==> Known(live)
    ensures var o := Send(env, p, portId, now, msg);
      var x := o.port.(lastPriority := live);
      && CanUndoSend(env, x, o.bits, o.snapshot)
      && (Restored(UndoSend(env, x, o.bits, o.snapshot), p) <==> SendCovered(p, now, live))
  {
    hide Send, UndoSend, CanUndoSend, FirstBusy, WithinCapacity, SendEmpties;
    SendUndoneDroppers(env, p, portId, now, msg, live);
    var o := Send(env, p, portId, now, msg);
    var u := UndoSend(env, o.port.(lastPriority := live), o.bits, o.snapshot);
    assert Restored(u, p) <==> u.droppers == p.droppers;
  }

  /** What a SEND event leaves for its undo. */
  lemma {:induction false} SendLeaves(env: Env, p: PortState, portId: nat, now: real, msg: Message)
    requires env.variant == Written && !Idle(p)
    ensures var o := Send(env, p, portId, now, msg);
      var prio := FirstBusy(p.queues);
      && o.bits.c0 == SendServes(p, now) && o.bits.c2 == SendEmpties(p, now)
      && (SendEmpties(p, now) ==> o.snapshot.dropperQTime == p.droppers[prio].qTime)
      && forall k :: 0 <= k < 2 * NUM_QOS_LEVEL ==>
           o.port.droppers[k] == if SendEmpties(p, now) && prio <= k <= prio + 1
                                 then Dropping.TimeUpdate(p.droppers[k], now) else p.droppers[k]
  {
    hide FirstBusy, Shaper.Poll, Shaper.NextAvailableTime, Shaper.Ready, NextSize, Forwarded, Depart, PollFault,
         EmptyHead, SendServes, SendEmpties;
    SendServesIff(env, p, portId, now, msg);
    SendEmptiesServes(p, now);
    DepartTouches(env, Polled(p, now), now);
  }

  /** The live last priority decides which droppers the undo of a SEND event writes. */
  lemma {:induction false} UndoSendByPriority(env: Env, x: PortState, live: int, bits: Bits, snap: Snapshot)
    requires env.variant == Written && CanUndoSend(env, x, bits, snap)
    requires bits.c0 && bits.c2 ==> Known(live)
    ensures var y := x.(lastPriority := live);
      && CanUndoSend(env, y, bits, snap)
      && UndoSend(env, y, bits, snap) == UndoSend(env, x, bits, snap).(
           lastPriority := live,
           droppers := if bits.c0 && bits.c2 then SetQTimes(x.droppers, live, snap.dropperQTime, snap.dropperQTime)
                       else x.droppers)
  {
    hide Bytes, SetQTimes, Shaper.Restore;
  }

  /** The droppers after the undo of a SEND event: those that the live last priority selects
      have the q_time the yellow dropper of the served one had. */
  lemma {:induction false} SendUndoneDroppers(env: Env, p: PortState, portId: nat, now: real, msg: Message, live: int)
    requires env.variant == Written && WithinCapacity(p) && p.flag && !Idle(p)
    requires SendEmpties(p, now) ==> Known(live)
    ensures var o := Send(env, p, portId, now, msg);
      var x := o.port.(lastPriority := live);
      var prio := FirstBusy(p.queues);
      && CanUndoSend(env, x, o.bits, o.snapshot)
      && var u := UndoSend(env, x, o.bits, o.snapshot);
      && u == p.(droppers := u.droppers, lastPriority := live)
      && forall k :: 0 <= k < 2 * NUM_QOS_LEVEL ==>
           u.droppers[k] ==
             if SendEmpties(p, now) && live <= k <= live + 1 then p.droppers[k].(qTime := p.droppers[prio].qTime)
             else if SendEmpties(p, now) && prio <= k <= prio + 1 then Dropping.TimeUpdate(p.droppers[k], now)
             else p.droppers[k]
  {
    hide Send, UndoSend, CanUndoSend, FirstBusy, SendServes, SendEmpties, WithinCapacity;
    SendUndone(env, p, portId, now, msg);
    SendLeaves(env, p, portId, now, msg);
    var o := Send(env, p, portId, now, msg);
    SendEmptiesServes(p, now);
    UndoSendByPriority(env, o.port, live, o.bits, o.snapshot);
  }

  lemma SendLeavesKnown(env: Env, p: PortState, portId: nat, now: real, msg: Message)
    requires SendServes(p, now)
    ensures Known(Send(env, p, portId, now, msg).port.lastPriority)
  {
    hide FirstBusy, Shaper.Poll, Shaper.NextAvailableTime, Shaper.Ready, NextSize, Forwarded, Depart, PollFault,
         EmptyHead;
    DepartFrame(env, Polled(p, now), now);
  }

  lemma SendEmptiesServes(p: PortState, now: real)
    ensures SendEmpties(p, now) ==> SendServes(p, now)
  {
  }

  /** Undone at once, while the last priority is still its own, a SEND event is covered exactly
      when no queue runs empty or the two touched droppers have the same q_time. */
  lemma SendUndoneAtOnce(p: PortState, now: real)
    requires !Idle(p)
    ensures var prio := FirstBusy(p.queues);
      SendCovered(p, now, prio) <==>
        (SendEmpties(p, now) ==> p.droppers[prio].qTime == p.droppers[prio + 1].qTime)
  {
    hide FirstBusy, SendEmpties;
  }

  /** On an idle port a packet that is sent at once empties its own queue: as written its undo
      restores the port only for priority 0, unless the q_times already agree. */
  lemma {:induction false} IdleArriveUndoExact(env: Env, p: PortState, portId: nat, packet: Packet, nextHop: int,
      now: real, msg: Message, live: int)
    requires env.variant == Written && packet.tos < NUM_QOS_LEVEL && WithinCapacity(p) && Idle(p)
    requires !Judge(env, p, packet, now, NUM_QOS_LEVEL * portId + packet.tos, msg.snapshot).drop
    requires Shaper.Ready(Shaper.Poll(p.bucket, now), packet.sizeInBytes)
    ensures var o := Arrive(env, p, portId, packet, nextHop, now, msg);
      var x := o.port.(lastPriority := live);
      && CanUndoArrive(x, packet.tos, o.bits, o.snapshot)
      && (Restored(UndoArrive(x, packet.tos, o.bits, o.snapshot), p) <==>
            match packet.tos
            case 0 => true
            case 1 => p.droppers[1].qTime == now
            case _ => p.droppers[2].qTime == now && p.droppers[3].qTime == now)
  {
    hide Arrive, UndoArrive, CanUndoArrive, FirstBusy, WithinCapacity, Judge, Shaper.Poll, Shaper.Ready;
    ArriveUndoExact(env, p, portId, packet, nextHop, now, msg, live);
    IdleQueues(p, packet, nextHop);
  }

  lemma IdleQueues(p: PortState, packet: Packet, nextHop: int)
    requires Idle(p) && packet.tos < NUM_QOS_LEVEL
    ensures var queues := Enqueue(p, packet, nextHop).queues;
      && FirstBusy(queues) == packet.tos && queues[packet.tos].packets == [packet.(nextHop := nextHop)]
      && NextSize(queues) == packet.sizeInBytes
  {
    hide FirstBusy;
    FirstBusyIsUnique(Enqueue(p, packet, nextHop).queues, packet.tos);
  }
}
