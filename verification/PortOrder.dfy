/** Which packets leave a port, in which order, and where they go. */
module PortOrder {
  import opened Types
  import opened QueueFifo
  import opened Scheduling
  import opened Ports
  import opened PortRollback
  import opened PortServing
  import opened Runs
  import opened PortInvariants
  import Shaper

  // ----- FIFO and strict priority -----

  /** For each priority, the packets admitted so far are those that departed, in the same
      order, followed by those that wait. */
  predicate InOrder(t: Track) {
    forall i :: 0 <= i < NUM_QOS_LEVEL ==>
      t.log.admitted[i] == t.log.departed[i] + t.port.queues[i].packets
  }

  /** Between two logs exactly one packet departed, namely, of all packets admitted and not
      yet departed, the oldest one of the highest priority. */
  predicate ServedInOrder(l: PortLog, l': PortLog, d: Departure) {
    && d.prio < NUM_QOS_LEVEL
    && |l.departed[d.prio]| < |l'.admitted[d.prio]|
    && d.packet == l'.admitted[d.prio][|l.departed[d.prio]|]
    && l'.departed == l.departed[d.prio := l.departed[d.prio] + [d.packet]]
    && forall j :: 0 <= j < d.prio ==> l'.departed[j] == l'.admitted[j]
  }

  /** The queues after an event, from the queues with the event's packet admitted. */
  lemma StepQueues(env: Env, portId: nat, p: PortState, e: PortEvent)
    requires e.Incoming? ==> e.packet.tos < NUM_QOS_LEVEL
    ensures var o := Act(env, portId, p, e);
      var queues := if e.Incoming? && o.admitted
        then p.queues[e.packet.tos := Put(p.queues[e.packet.tos], e.packet.(nextHop := e.nextHop))]
        else p.queues;
      match o.departed
      case None => o.port.queues == queues
      case Some(d) =>
        && d.prio == FirstBusy(queues) < NUM_QOS_LEVEL
        && d.packet == queues[d.prio].packets[0]
        && o.port.queues == queues[d.prio := Take(queues[d.prio])]
  {
    hide FirstBusy, Judge, Shaper.Poll, WakeDelay, Forwarded, Shaper.Consume, Touch, PollFault;
    if e.Incoming? {
      JudgeFrame(env, p, e.packet, e.at, NUM_QOS_LEVEL * portId + e.packet.tos, e.msg.snapshot);
      OfferedFacts(env, p, portId, e.packet, e.nextHop, e.at, e.msg);
    }
  }

  lemma {:induction false} StepKeepsInOrder(env: Env, portId: nat, t: Track, e: PortEvent)
    requires e.Incoming? ==> e.packet.tos < NUM_QOS_LEVEL
    requires InOrder(t)
    ensures InOrder(PortStep(env, portId, t, e))
  {
    hide Act, FirstBusy, NotePending, NoteSlots, NoteSamples, DepartedBits;
    StepQueues(env, portId, t.port, e);
    var t' := PortStep(env, portId, t, e);
    var joined := if e.Incoming? && Act(env, portId, t.port, e).admitted
      then Put(t.port.queues[e.packet.tos], e.packet.(nextHop := e.nextHop)).packets else [];
    forall i | 0 <= i < NUM_QOS_LEVEL
      ensures t'.log.admitted[i] == t'.log.departed[i] + t'.port.queues[i].packets
    {
      var waiting := if joined != [] && i == e.packet.tos then joined else t.port.queues[i].packets;
      assert t'.log.admitted[i] == t.log.departed[i] + waiting;
      ServedPrefix(t.log.departed[i], waiting);
    }
  }

  lemma ServedPrefix(departed: seq<Packet>, waiting: seq<Packet>)
    ensures waiting != [] ==> departed + waiting == (departed + [waiting[0]]) + waiting[1..]
  {
  }

  lemma {:induction false} StepServesInOrder(env: Env, portId: nat, t: Track, e: PortEvent)
    requires e.Incoming? ==> e.packet.tos < NUM_QOS_LEVEL
    requires InOrder(t)
    ensures var t' := PortStep(env, portId, t, e);
      match Act(env, portId, t.port, e).departed
      case None => t'.log.departed == t.log.departed
      case Some(d) => ServedInOrder(t.log, t'.log, d)
  {
    hide Act, FirstBusy, NotePending, NoteSlots, NoteSamples, DepartedBits;
    StepQueues(env, portId, t.port, e);
  }

  lemma {:induction false} StepKeepsOrder(env: Env, portId: nat, t: Track, e: PortEvent)
    requires e.Incoming? ==> e.packet.tos < NUM_QOS_LEVEL
    requires InOrder(t)
    ensures var t' := PortStep(env, portId, t, e);
      var o := Act(env, portId, t.port, e);
      && InOrder(t')
      && (match o.departed
          case None => t'.log.departed == t.log.departed
          case Some(d) => ServedInOrder(t.log, t'.log, d))
  {
    hide Act, PortStep, InOrder, ServedInOrder;
    StepKeepsInOrder(env, portId, t, e);
    StepServesInOrder(env, portId, t, e);
  }

  /** Over every run each priority is served first-in first-out. */
  lemma {:induction false} RunKeepsOrder(env: Env, portId: nat, t: Track, es: seq<PortEvent>)
    requires InOrder(t) && ValidPortRun(env, portId, t, es)
    ensures InOrder(PortRun(env, portId, t, es))
    decreases |es|
  {
    hide PortStep, InOrder;
    if es != [] {
      RunKeepsOrder(env, portId, t, es[..|es| - 1]);
      StepKeepsOrder(env, portId, PortRun(env, portId, t, es[..|es| - 1]), es[|es| - 1]);
    }
  }

  // ----- Forwarding -----

  predicate RoutedVia(routing: seq<Route>, portId: nat, packet: Packet) {
    packet.dest < |routing| && routing[packet.dest].port == portId
  }

  /** Every waiting packet leaves through this port and knows its next hop. */
  predicate AllRouted(routing: seq<Route>, portId: nat, p: PortState) {
    forall i, k :: 0 <= i < NUM_QOS_LEVEL && 0 <= k < |p.queues[i].packets| ==>
      var packet := p.queues[i].packets[k];
      RoutedVia(routing, portId, packet) && packet.nextHop == routing[packet.dest].nextHop
  }

  /** A port leads to one neighbour only. */
  predicate SingleNeighbour(routing: seq<Route>, portId: nat) {
    forall a, b :: 0 <= a < |routing| && 0 <= b < |routing|
                   && routing[a].port == portId && routing[b].port == portId ==>
      routing[a].nextHop == routing[b].nextHop
  }

  predicate WellRouted(routing: seq<Route>, portId: nat, e: PortEvent) {
    e.Incoming? ==> RoutedVia(routing, portId, e.packet) && e.nextHop == routing[e.packet.dest].nextHop
  }

  /** The forwarded packet goes where the routing entry of its own destination points. */
  predicate ForwardedRight(routing: seq<Route>, f: Forward) {
    f.packet.dest < |routing| && f.target == routing[f.packet.dest].nextHop
  }

  /** Whom an event forwards to: a SEND event to the departing packet's own next hop, an
      ARRIVE event to the arriving packet's. */
  lemma ForwardTarget(env: Env, portId: nat, p: PortState, e: PortEvent)
    requires e.Incoming? ==> e.packet.tos < NUM_QOS_LEVEL
    ensures var o := Act(env, portId, p, e);
      && (o.forward.Some? <==> o.departed.Some?)
      && (o.forward.Some? ==>
            && o.forward.value.packet == o.departed.value.packet.(prevHop := env.self, nextHop := -1)
            && o.forward.value.target == if e.Incoming? then e.nextHop else o.departed.value.packet.nextHop)
  {
    hide FirstBusy, Judge, Shaper.Poll, WakeDelay, Depart, Shaper.Ready, PollFault;
    if e.Incoming? {
      JudgeFrame(env, p, e.packet, e.at, NUM_QOS_LEVEL * portId + e.packet.tos, e.msg.snapshot);
    }
  }

  /** Waiting packets stay routed. A packet is forwarded right by every SEND event; by an ARRIVE
      event exactly when the route of the packet it will serve, which need not be the arriving
      one, names the arriving packet's next hop. */
  lemma {:induction false} StepForwards(env: Env, portId: nat, routing: seq<Route>, t: Track, e: PortEvent)
    requires e.Incoming? ==> e.packet.tos < NUM_QOS_LEVEL
    requires AllRouted(routing, portId, t.port) && WellRouted(routing, portId, e)
    ensures var o := Act(env, portId, t.port, e);
      && AllRouted(routing, portId, o.port)
      && (o.forward.Some? <==> Serves(env, portId, t.port, e))
      && (Serves(env, portId, t.port, e) ==>
            && (e.Wakeup? ==> !Idle(t.port))
            && var candidate := Candidate(t.port, e);
            && RoutedVia(routing, portId, candidate)
            && o.forward.value.packet == candidate.(prevHop := env.self, nextHop := -1)
            && (ForwardedRight(routing, o.forward.value) <==>
                  e.Wakeup? || routing[candidate.dest].nextHop == e.nextHop))
  {
    hide Act, FirstBusy, Serves, Candidate;
    StepQueues(env, portId, t.port, e);
    ForwardTarget(env, portId, t.port, e);
    ServesIff(env, portId, t.port, e);
  }

  /** If a port leads to one neighbour, every packet of every run goes to the next hop its own
      destination's routing entry names. */
  lemma {:induction false} RunForwards(env: Env, portId: nat, routing: seq<Route>, t: Track, es: seq<PortEvent>)
    requires SingleNeighbour(routing, portId) && AllRouted(routing, portId, t.port)
    requires ValidPortRun(env, portId, t, es)
    requires forall i :: 0 <= i < |es| ==> WellRouted(routing, portId, es[i])
    ensures AllRouted(routing, portId, PortRun(env, portId, t, es).port)
    ensures es != [] ==>
      var f := Act(env, portId, PortRun(env, portId, t, es[..|es| - 1]).port, es[|es| - 1]).forward;
      f.Some? ==> ForwardedRight(routing, f.value)
    decreases |es|
  {
    hide Act, AllRouted, Serves, Candidate;
    if es != [] {
      RunForwards(env, portId, routing, t, es[..|es| - 1]);
      var mid := PortRun(env, portId, t, es[..|es| - 1]);
      StepForwards(env, portId, routing, mid, es[|es| - 1]);
      ForwardTarget(env, portId, mid.port, es[|es| - 1]);
    }
  }

  /** On an idle port an ARRIVE event serves the arriving packet or none. */
  lemma IdleServesArrival(env: Env, portId: nat, p: PortState, e: PortEvent)
    requires e.Incoming? && e.packet.tos < NUM_QOS_LEVEL && Idle(p)
    ensures var d := Act(env, portId, p, e).departed;
      d.Some? ==> d.value.packet == e.packet.(nextHop := e.nextHop)
                  && d.value.prio == e.packet.tos && d.value.emptied
  {
    hide Act, FirstBusy;
    StepQueues(env, portId, p, e);
    DepartedMarksEmptied(env, portId, p, e);
    var queues := p.queues[e.packet.tos := Put(p.queues[e.packet.tos], e.packet.(nextHop := e.nextHop))];
    FirstBusyIsUnique(queues, e.packet.tos);
  }

  lemma DepartedMarksEmptied(env: Env, portId: nat, p: PortState, e: PortEvent)
    requires e.Incoming? ==> e.packet.tos < NUM_QOS_LEVEL
    ensures var o := Act(env, portId, p, e);
      o.departed.Some? ==> && o.departed.value.prio < NUM_QOS_LEVEL
                           && (o.departed.value.emptied <==> o.port.queues[o.departed.value.prio].packets == [])
                           && (e.Incoming? ==> o.admitted)
  {
    hide FirstBusy, Judge, Shaper.Poll, WakeDelay, Forwarded, Shaper.Consume, Touch, PollFault;
    if e.Incoming? {
      JudgeFrame(env, p, e.packet, e.at, NUM_QOS_LEVEL * portId + e.packet.tos, e.msg.snapshot);
    }
  }

  lemma FreshInOrder(c: PortConfig)
    requires ValidConfig(c)
    ensures InOrder(InitTrack(c))
  {
    hide MaxThreshold, CommittedRate;
  }

  lemma FreshRouted(c: PortConfig, routing: seq<Route>, portId: nat)
    requires ValidConfig(c)
    ensures AllRouted(routing, portId, InitTrack(c).port)
  {
    hide MaxThreshold, CommittedRate;
  }
}
