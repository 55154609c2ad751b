/** Runs of the switch: events in time order, with a book-keeping log per port. */
module Runs {
  import opened Types
  import opened Ports
  import opened Switching

  /** A slot on the wire, its packet, and the time at which the packet reaches the next switch. */
  datatype Slot = Slot(packet: Packet, start: real, end: real, reaches: real)

  /** What happened at a port so far: the time of its last event, the SEND events still to
      come, the packets admitted to and departed from each priority, the slots on the wire,
      and for each dropper the queue lengths it sampled. A poll is a use of the shaper by
      an event: by every SEND event and by every admitted ARRIVE event. */
  datatype Log = Log(
    clock: real,
    pending: multiset<real>,
    admitted: seq<seq<Packet>>,
    departed: seq<seq<Packet>>,
    slots: seq<Slot>,
    samples: seq<seq<nat>>,
    polls: nat,
    departedBits: int)

  type PortLog = l: Log |
    |l.admitted| == NUM_QOS_LEVEL && |l.departed| == NUM_QOS_LEVEL && |l.samples| == 2 * NUM_QOS_LEVEL
    witness Log(0.0, multiset{}, [[], [], []], [[], [], []], [], [[], [], [], [], [], []], 0, 0)

  const EMPTY_LOG: PortLog :=
    Log(0.0, multiset{}, [[], [], []], [[], [], []], [], [[], [], [], [], [], []], 0, 0)

  /** An event of one port: a packet routed through it, or one of its own SEND events. */
  datatype PortEvent =
    | Incoming(at: real, packet: Packet, nextHop: int, msg: Message)
    | Wakeup(at: real, msg: Message)

  datatype Track = Track(port: PortState, log: PortLog)

  function Act(env: Env, portId: nat, p: PortState, e: PortEvent): Outcome
    requires e.Incoming? ==> e.packet.tos < NUM_QOS_LEVEL
  {
    match e
    case Incoming(at, packet, nextHop, msg) => Arrive(env, p, portId, packet, nextHop, at, msg)
    case Wakeup(at, msg) => Send(env, p, portId, at, msg)
  }

  function NotePending(pending: multiset<real>, e: PortEvent, o: Outcome): multiset<real> {
    (if e.Wakeup? then pending - multiset{e.at} else pending)
    + (if o.wake.Some? then multiset{e.at + o.wake.value} else multiset{})
  }

  function NoteAdmitted(admitted: seq<seq<Packet>>, e: PortEvent, o: Outcome): seq<seq<Packet>>
    requires e.Incoming? ==> e.packet.tos < |admitted|
  {
    if e.Incoming? && o.admitted then
      admitted[e.packet.tos := admitted[e.packet.tos] + [e.packet.(nextHop := e.nextHop)]]
    else admitted
  }

  function NoteDeparted(departed: seq<seq<Packet>>, o: Outcome): seq<seq<Packet>> {
    if o.departed.Some? && o.departed.value.prio < |departed| then
      departed[o.departed.value.prio := departed[o.departed.value.prio] + [o.departed.value.packet]]
    else departed
  }

  function NoteSlots(slots: seq<Slot>, e: PortEvent, o: Outcome): seq<Slot> {
    if o.departed.Some? && o.forward.Some? then
      slots + [Slot(o.departed.value.packet, o.departed.value.start, o.departed.value.end,
                    e.at + o.forward.value.delay)]
    else slots
  }

  function NoteSamples(samples: seq<seq<nat>>, p: PortState, e: PortEvent, o: Outcome): seq<seq<nat>>
    requires |samples| == 2 * NUM_QOS_LEVEL
    requires e.Incoming? ==> e.packet.tos < NUM_QOS_LEVEL
  {
    if e.Incoming? && (o.bits.c5 || o.bits.c6) then
      var i := DropperIndex(e.packet.tos, o.bits.c6);
      samples[i := samples[i] + [|p.queues[e.packet.tos].packets|]]
    else samples
  }

  function DepartedBits(o: Outcome): int {
    if o.departed.Some? then 8 * o.departed.value.packet.sizeInBytes else 0
  }

  function Note(l: PortLog, p: PortState, e: PortEvent, o: Outcome): PortLog
    requires e.Incoming? ==> e.packet.tos < NUM_QOS_LEVEL
  {
    Log(e.at,
        NotePending(l.pending, e, o),
        NoteAdmitted(l.admitted, e, o),
        NoteDeparted(l.departed, o),
        NoteSlots(l.slots, e, o),
        NoteSamples(l.samples, p, e, o),
        l.polls + (if e.Wakeup? || o.admitted then 1 else 0),
        l.departedBits + DepartedBits(o))
  }

  function PortStep(env: Env, portId: nat, t: Track, e: PortEvent): Track
    requires e.Incoming? ==> e.packet.tos < NUM_QOS_LEVEL
  {
    var o := Act(env, portId, t.port, e);
    Track(o.port, Note(t.log, t.port, e, o))
  }

  /** The next event of a port in time order: never before the last one, and never after a
      SEND event that is still to come. */
  ghost predicate PortEnabled(t: Track, e: PortEvent) {
    && t.log.clock <= e.at
    && (forall x :: x in t.log.pending ==> e.at <= x)
    && (e.Wakeup? ==> e.at in t.log.pending)
    && (e.Incoming? ==> e.packet.tos < NUM_QOS_LEVEL && e.packet.sizeInBytes > 0)
  }

  function PortRun(env: Env, portId: nat, t: Track, es: seq<PortEvent>): Track
    requires WellTyped(es)
    decreases |es|
  {
    if es == [] then t
    else PortStep(env, portId, PortRun(env, portId, t, es[..|es| - 1]), es[|es| - 1])
  }

  predicate WellTyped(es: seq<PortEvent>) {
    forall i :: 0 <= i < |es| ==> es[i].Incoming? ==> es[i].packet.tos < NUM_QOS_LEVEL
  }

  ghost predicate ValidPortRun(env: Env, portId: nat, t: Track, es: seq<PortEvent>)
    decreases |es|
  {
    WellTyped(es) &&
    (es == [] ||
     (ValidPortRun(env, portId, t, es[..|es| - 1])
      && PortEnabled(PortRun(env, portId, t, es[..|es| - 1]), es[|es| - 1])))
  }

  function InitTrack(c: PortConfig): Track
    requires ValidConfig(c)
  {
    Track(InitPort(c), EMPTY_LOG)
  }

  // ----- Runs of the whole switch -----

  datatype Event = Event(at: real, msg: Message)

  datatype World = World(sw: Switch, clock: real, logs: seq<PortLog>)

  function TrackOf(w: World, i: nat): Track
    requires i < |w.sw.ports| && i < |w.logs|
  {
    Track(w.sw.ports[i], w.logs[i])
  }

  /** The event as its port sees it. */
  function Seen(sw: Switch, e: Event): PortEvent
  {
    if e.msg.kind == ARRIVE && e.msg.packet.dest < |sw.routing|
    then Incoming(e.at, e.msg.packet, sw.routing[e.msg.packet.dest].nextHop, e.msg)
    else Wakeup(e.at, e.msg)
  }

  /** Whether the event concerns port `i`. */
  predicate Concerns(env: Env, sw: Switch, e: Event, i: nat) {
    match e.msg.kind
    case ARRIVE => e.msg.packet.dest != env.self && e.msg.packet.dest < |sw.routing|
                   && sw.routing[e.msg.packet.dest].port == i
    case SEND => e.msg.port == i
    case KICKOFF => false
  }

  ghost predicate Enabled(env: Env, w: World, e: Event) {
    && CanHandle(env, w.sw, e.msg)
    && w.clock <= e.at
    && (forall i, x :: 0 <= i < |w.logs| && x in w.logs[i].pending ==> e.at <= x)
    && (e.msg.kind == SEND ==> e.msg.port < |w.logs| && e.at in w.logs[e.msg.port].pending)
    && (e.msg.kind == ARRIVE ==> e.msg.packet.sizeInBytes > 0)
  }

  /** Handles one event; an event that the handlers cannot take changes nothing. */
  function Step(env: Env, w: World, e: Event): World {
    if !CanHandle(env, w.sw, e.msg) || |w.logs| != |w.sw.ports| then w
    else
      var r := Handle(env, w.sw, e.msg, e.at);
      World(r.sw, e.at,
            if r.work.Some? then
              var i := r.work.value.port;
              w.logs[i := Note(w.logs[i], w.sw.ports[i], Seen(w.sw, e), r.work.value.outcome)]
            else w.logs)
  }

  function Run(env: Env, w: World, es: seq<Event>): World
    decreases |es|
  {
    if es == [] then w else Step(env, Run(env, w, es[..|es| - 1]), es[|es| - 1])
  }

  /** Each event of the run is enabled when it is handled. */
  ghost predicate ValidRun(env: Env, w: World, es: seq<Event>)
    decreases |es|
  {
    es == [] ||
    (ValidRun(env, w, es[..|es| - 1]) && Enabled(env, Run(env, w, es[..|es| - 1]), es[|es| - 1]))
  }

  /** The switch after initialisation, with empty logs. */
  function InitWorld(cs: seq<PortConfig>, routing: seq<Route>): World
    requires forall i :: 0 <= i < |cs| ==> ValidConfig(cs[i])
  {
    World(InitSwitch(cs, routing), 0.0, seq(|cs|, i => EMPTY_LOG))
  }

  /** The events of a run that concern one port, as that port sees them: the packets routed
      through it, and its own SEND events. */
  function Project(env: Env, sw: Switch, es: seq<Event>, i: nat): seq<PortEvent>
    decreases |es|
  {
    if es == [] then []
    else
      var before := Project(env, sw, es[..|es| - 1], i);
      var e := es[|es| - 1];
      if Concerns(env, sw, e, i) then before + [Seen(sw, e)] else before
  }
}
