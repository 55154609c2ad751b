/** The switch as a value: its ports, its routing table and its statistics, with the four
    event handlers and the two dispatchers. */
module Switching {
  import opened Types
  import opened Ports
  import opened Statistics

  datatype Switch = Switch(ports: seq<PortState>, routing: seq<Route>, stats: Stats)

  /** The switch after initialisation: one port per configuration. */
  function InitSwitch(cs: seq<PortConfig>, routing: seq<Route>): Switch
    requires forall i :: 0 <= i < |cs| ==> ValidConfig(cs[i])
  {
    Switch(seq(|cs|, i requires 0 <= i < |cs| => InitPort(cs[i])), routing, NO_STATS)
  }

  /** The port a handler worked on and what it did there. */
  datatype Work = Work(port: nat, outcome: Outcome)

  /** What a forward handler produced: the switch, the message with its snapshot, the branch
      bits, and the work done on a port, if any. */
  datatype Result = Result(sw: Switch, msg: Message, bits: Bits, work: Option<Work>)

  /** What the handlers demand of a packet: a route to an existing port unless it has
      reached its destination, and one of the known service types. */
  predicate Routable(env: Env, sw: Switch, packet: Packet) {
    packet.dest == env.self ||
    (packet.dest < |sw.routing| && 0 <= sw.routing[packet.dest].port < |sw.ports|
     && packet.tos < NUM_QOS_LEVEL)
  }

  function ArriveStats(st: Stats, packet: Packet, o: Outcome): Stats {
    var st1 := st.(received := st.received + 1);
    if o.bits.c1 then Append(st1, packet.pid, 0.0, 1)
    else if o.bits.c2 then st1.(sent := st1.sent + 1)
    else st1
  }

  function HandleArrive(env: Env, sw: Switch, msg: Message, now: real): Result
    requires Routable(env, sw, msg.packet)
  {
    var packet := msg.packet;
    if packet.dest == env.self then
      Result(sw.(stats := Append(sw.stats, packet.pid, now - packet.sendTime, 0)), msg,
             NO_BITS.(c0 := true), None)
    else
      var route := sw.routing[packet.dest];
      var o := Arrive(env, sw.ports[route.port], route.port, packet, route.nextHop, now, msg);
      Result(sw.(ports := sw.ports[route.port := o.port], stats := ArriveStats(sw.stats, packet, o)),
             msg.(port := o.portId, snapshot := o.snapshot), o.bits, Some(Work(route.port, o)))
  }

  function HandleSend(env: Env, sw: Switch, msg: Message, now: real): Result
    requires 0 <= msg.port < |sw.ports|
  {
    var o := Send(env, sw.ports[msg.port], msg.port, now, msg);
    Result(sw.(ports := sw.ports[msg.port := o.port]),
           msg.(port := o.portId, snapshot := o.snapshot), o.bits, Some(Work(msg.port, o)))
  }

  predicate CanHandle(env: Env, sw: Switch, msg: Message) {
    match msg.kind
    case ARRIVE => Routable(env, sw, msg.packet)
    case SEND => 0 <= msg.port < |sw.ports|
    case KICKOFF => true
  }

  /** The forward dispatcher. A message of another kind is reported and changes nothing. */
  function Handle(env: Env, sw: Switch, msg: Message, now: real): Result
    requires CanHandle(env, sw, msg)
  {
    match msg.kind
    case ARRIVE => HandleArrive(env, sw, msg, now)
    case SEND => HandleSend(env, sw, msg, now)
    case KICKOFF => Result(sw, msg, NO_BITS, None)
  }

  // ----- Reverse handlers -----

  function MeterPort(snap: Snapshot): int {
    snap.meterIndex / NUM_QOS_LEVEL
  }

  function MeterTos(snap: Snapshot): nat {
    snap.meterIndex % NUM_QOS_LEVEL
  }

  predicate CanUndoArriveEvent(sw: Switch, msg: Message, bits: Bits) {
    if bits.c0 then sw.stats.live != []
    else
      && 0 <= MeterPort(msg.snapshot) < |sw.ports|
      && (!bits.c1 ==> msg.port == MeterPort(msg.snapshot))
      && CanUndoArrive(sw.ports[MeterPort(msg.snapshot)], MeterTos(msg.snapshot), bits, msg.snapshot)
      && (bits.c1 ==> sw.stats.live != [])
  }

  function UndoArriveStats(st: Stats, bits: Bits): Stats
    requires bits.c1 ==> st.live != []
  {
    var st1 := st.(received := st.received - 1);
    if bits.c1 then Retract(st1)
    else if bits.c2 then st1.(sent := st1.sent - 1)
    else st1
  }

  function UndoArriveEvent(sw: Switch, msg: Message, bits: Bits): Switch
    requires CanUndoArriveEvent(sw, msg, bits)
  {
    if bits.c0 then sw.(stats := Retract(sw.stats))
    else
      var i := MeterPort(msg.snapshot);
      sw.(ports := sw.ports[i := UndoArrive(sw.ports[i], MeterTos(msg.snapshot), bits, msg.snapshot)],
          stats := UndoArriveStats(sw.stats, bits))
  }

  predicate CanUndoSendEvent(env: Env, sw: Switch, msg: Message, bits: Bits) {
    0 <= msg.port < |sw.ports| && CanUndoSend(env, sw.ports[msg.port], bits, msg.snapshot)
  }

  function UndoSendEvent(env: Env, sw: Switch, msg: Message, bits: Bits): Switch
    requires CanUndoSendEvent(env, sw, msg, bits)
  {
    sw.(ports := sw.ports[msg.port := UndoSend(env, sw.ports[msg.port], bits, msg.snapshot)])
  }

  predicate CanUndo(env: Env, sw: Switch, msg: Message, bits: Bits) {
    match msg.kind
    case ARRIVE => CanUndoArriveEvent(sw, msg, bits)
    case SEND => CanUndoSendEvent(env, sw, msg, bits)
    case KICKOFF => true
  }

  /** The reverse dispatcher. */
  function Undo(env: Env, sw: Switch, msg: Message, bits: Bits): Switch
    requires CanUndo(env, sw, msg, bits)
  {
    match msg.kind
    case ARRIVE => UndoArriveEvent(sw, msg, bits)
    case SEND => UndoSendEvent(env, sw, msg, bits)
    case KICKOFF => sw
  }
}
