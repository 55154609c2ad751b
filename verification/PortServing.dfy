/** Which packet an event of a port will serve, told from the state before the event. */
module PortServing {
  import opened Types
  import opened Conversion
  import opened Scheduling
  import opened Ports
  import opened PortRollback
  import opened Runs
  import Shaper

  /** A SEND event of the port serves a packet: the polled bucket pays for the next one. */
  predicate SendServes(p: PortState, now: real) {
    !Idle(p) && Shaper.Ready(Shaper.Poll(p.bucket, now), NextSize(p.queues))
  }

  /** It serves the last packet of its queue. */
  predicate SendEmpties(p: PortState, now: real) {
    SendServes(p, now) && |p.queues[FirstBusy(p.queues)].packets| == 1
  }

  /** An ARRIVE event of the port serves a packet: the arriving packet is admitted, and the
      polled bucket pays for the packet that is then the next one. */
  predicate ArriveServes(env: Env, p: PortState, portId: nat, packet: Packet, nextHop: int, now: real, msg: Message)
    requires packet.tos < NUM_QOS_LEVEL
  {
    && !Judge(env, p, packet, now, NUM_QOS_LEVEL * portId + packet.tos, msg.snapshot).drop
    && Shaper.Ready(Shaper.Poll(p.bucket, now), NextSize(Enqueue(p, packet, nextHop).queues))
  }

  /** It serves the last packet of its queue. */
  predicate ArriveEmpties(env: Env, p: PortState, portId: nat, packet: Packet, nextHop: int, now: real, msg: Message)
    requires packet.tos < NUM_QOS_LEVEL
  {
    var queues := Enqueue(p, packet, nextHop).queues;
    ArriveServes(env, p, portId, packet, nextHop, now, msg) && |queues[FirstBusy(queues)].packets| == 1
  }

  lemma SendServesIff(env: Env, p: PortState, portId: nat, now: real, msg: Message)
    ensures var o := Send(env, p, portId, now, msg);
      && (o.departed.Some? <==> SendServes(p, now))
      && (o.departed.Some? ==>
            && o.departed.value == Depart(env, Polled(p, now), now)
            && o.departed.value.prio == FirstBusy(p.queues) < NUM_QOS_LEVEL
            && o.departed.value.packet == p.queues[FirstBusy(p.queues)].packets[0]
            && (o.departed.value.emptied <==> SendEmpties(p, now)))
  {
    hide FirstBusy, Shaper.Poll, Shaper.Consume, Shaper.NextAvailableTime, Shaper.Ready, NextSize, Forwarded, Touch,
         InjectionDelay, PollFault, EmptyHead;
  }

  lemma ArriveServesIff(env: Env, p: PortState, portId: nat, packet: Packet, nextHop: int, now: real, msg: Message)
    requires packet.tos < NUM_QOS_LEVEL
    ensures var o := Arrive(env, p, portId, packet, nextHop, now, msg);
      var queues := Enqueue(p, packet, nextHop).queues;
      && FirstBusy(queues) < NUM_QOS_LEVEL
      && (o.departed.Some? <==> ArriveServes(env, p, portId, packet, nextHop, now, msg))
      && (o.departed.Some? ==>
            && o.departed.value == Depart(env, Offered(env, p, portId, packet, nextHop, now, msg), now)
            && o.departed.value.prio == FirstBusy(queues)
            && o.departed.value.packet == queues[FirstBusy(queues)].packets[0]
            && (o.departed.value.emptied <==> ArriveEmpties(env, p, portId, packet, nextHop, now, msg)))
  {
    hide FirstBusy, Judge, Shaper.Poll, Shaper.Consume, Shaper.NextAvailableTime, Shaper.Ready, NextSize, Forwarded,
         Touch, InjectionDelay, PollFault, EmptyHead;
    JudgeFrame(env, p, packet, now, NUM_QOS_LEVEL * portId + packet.tos, msg.snapshot);
    assert !Idle(Enqueue(p, packet, nextHop));
  }

  // ----- Any event -----

  /** The event serves a packet. */
  predicate Serves(env: Env, portId: nat, p: PortState, e: PortEvent)
    requires e.Incoming? ==> e.packet.tos < NUM_QOS_LEVEL
  {
    match e
    case Incoming(at, packet, nextHop, msg) => ArriveServes(env, p, portId, packet, nextHop, at, msg)
    case Wakeup(at, msg) => SendServes(p, at)
  }

  /** The next packet of the port, once an arriving packet is put in. */
  function Candidate(p: PortState, e: PortEvent): Packet
    requires e.Incoming? ==> e.packet.tos < NUM_QOS_LEVEL
    requires e.Wakeup? ==> !Idle(p)
  {
    var q := if e.Incoming? then Enqueue(p, e.packet, e.nextHop) else p;
    q.queues[FirstBusy(q.queues)].packets[0]
  }

  /** An event departs a packet exactly when it serves one, and then it is the candidate. */
  lemma ServesIff(env: Env, portId: nat, p: PortState, e: PortEvent)
    requires e.Incoming? ==> e.packet.tos < NUM_QOS_LEVEL
    ensures var o := Act(env, portId, p, e);
      && (o.departed.Some? <==> Serves(env, portId, p, e))
      && (o.departed.Some? ==> (e.Wakeup? ==> !Idle(p)) && o.departed.value.packet == Candidate(p, e))
  {
    hide FirstBusy, Arrive, Send, ArriveServes, ArriveEmpties, SendEmpties;
    match e {
      case Incoming(at, packet, nextHop, msg) => ArriveServesIff(env, p, portId, packet, nextHop, at, msg);
      case Wakeup(at, msg) => SendServesIff(env, p, portId, at, msg);
    }
  }
}
