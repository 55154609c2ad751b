/** One output port of the switch as a value, and what the forward handlers do to it. */
module Ports {
  import opened Types
  import opened Conversion
  import opened QueueFifo
  import opened Scheduling
  import Shaper
  import Metering
  import Dropping

  /** The handlers as written, or with the three repairs to the dropper bookkeeping:
      the pair of the emptied queue is addressed like everywhere else, both of its
      q_times are saved, and the undo takes the priority from the snapshot. */
  datatype Variant = Written | Repaired

  /** The switch's own identifier, the variant, and the floating-point power function. */
  datatype Env = Env(self: int, variant: Variant, power: (real, real) -> real)

  /** Per priority a queue and a meter; per priority a yellow and a green dropper, side by
      side; the shaper; the flag that says a SEND event is under way; and the time at which
      the wire becomes free. */
  datatype Port = Port(
    queues: seq<QueueFifo.Queue>,
    meters: seq<Metering.Meter>,
    droppers: seq<Dropping.Dropper>,
    bucket: Shaper.Bucket,
    lastPriority: int,
    flag: bool,
    available: real,
    bandwidth: real,
    propagation: real)

  const BLANK_QUEUE := QueueFifo.Queue([], 0)
  const BLANK_METER := Metering.Meter(0, 0, 0.0, 1.0, 0, 0)
  const BLANK_DROPPER := Dropping.Dropper(0.0, 0.0, 0.0, 0.0)

  type PortState = p: Port |
    |p.queues| == NUM_QOS_LEVEL && |p.meters| == NUM_QOS_LEVEL
    && |p.droppers| == 2 * NUM_QOS_LEVEL && p.bandwidth > 0.0 && p.bucket.rate > 0.0
    witness Port([BLANK_QUEUE, BLANK_QUEUE, BLANK_QUEUE], [BLANK_METER, BLANK_METER, BLANK_METER],
                 [BLANK_DROPPER, BLANK_DROPPER, BLANK_DROPPER, BLANK_DROPPER, BLANK_DROPPER, BLANK_DROPPER],
                 Shaper.Bucket(0, 0, 1.0, 1.0, 0.0), -1, false, 0.0, 1.0, 0.0)

  // ----- Initialisation -----

  const SHAPER_CAPACITY: nat := 2 * 1400 * 8
  const RED_WEIGHT: real := 0.002

  /** The parameters of a port: bandwidth in Gbps, propagation delay in ns, the capacity in
      bytes of each queue, and the burst sizes of the meters in bits. */
  datatype PortConfig = PortConfig(
    bandwidth: real, propagation: real, capacities: seq<int>, cbs: int, ebs: int)

  predicate ValidConfig(c: PortConfig) {
    && c.bandwidth > 0.0 && c.propagation >= 0.0
    && |c.capacities| == NUM_QOS_LEVEL
    && (forall i :: 0 <= i < NUM_QOS_LEVEL ==> c.capacities[i] >= 0)
    && 0 <= c.cbs < UINT32_RANGE && 0 <= c.ebs < UINT32_RANGE
  }

  /** The port's bandwidth is shared evenly by its meters; in bits per microsecond. */
  function CommittedRate(bandwidth: real): real {
    bandwidth / NUM_QOS_LEVEL as real * 1000.0
  }

  /** The RED threshold in packets: a share of a queue of 1400-byte packets. */
  function MaxThreshold(capacity: int, share: real): real {
    (capacity as real / 1400.0 * share).Floor as real
  }

  function InitDroppers(capacity: int): (Dropping.Dropper, Dropping.Dropper) {
    (Dropping.InitDropper(MaxThreshold(capacity, 0.6), RED_WEIGHT),
     Dropping.InitDropper(MaxThreshold(capacity, 0.9), RED_WEIGHT))
  }

  function InitPort(c: PortConfig): PortState
    requires ValidConfig(c)
  {
    var meter := Metering.InitMeter(CommittedRate(c.bandwidth), c.cbs, c.ebs);
    var (yellow0, green0) := InitDroppers(c.capacities[0]);
    var (yellow1, green1) := InitDroppers(c.capacities[1]);
    var (yellow2, green2) := InitDroppers(c.capacities[2]);
    Port([QueueFifo.Queue([], c.capacities[0]), QueueFifo.Queue([], c.capacities[1]), QueueFifo.Queue([],
        c.capacities[2])],
         [meter, meter, meter],
         [yellow0, green0, yellow1, green1, yellow2, green2],
         Shaper.InitBucket(SHAPER_CAPACITY, c.bandwidth, c.bandwidth),
         -1, false, 0.0, c.bandwidth, c.propagation)
  }

  predicate Idle(p: PortState) {
    FirstBusy(p.queues) == NUM_QOS_LEVEL
  }

  // ----- Meter and dropper -----

  /** The verdict on an arriving packet, with the state changes made to reach it. */
  datatype Verdict = Verdict(port: PortState, drop: bool, bits: Bits, snapshot: Snapshot)

  /** The dropper of priority `tos` for yellow (0) or green (1) packets. */
  function DropperIndex(tos: nat, green: bool): nat {
    2 * tos + (if green then 1 else 0)
  }

  /** The meter colors the packet; then the drop decision is made. */
  function Judge(env: Env, p: PortState, packet: Packet, now: real, index: int, snap: Snapshot): Verdict
    requires packet.tos < NUM_QOS_LEVEL
  {
    var tos := packet.tos;
    var (meter, color) := Metering.Update(p.meters[tos], packet.sizeInBytes, now);
    Decide(env, p.(meters := p.meters[tos := meter]), packet, color, now,
           snap.(meterIndex := index, meter := Metering.SnapshotOf(p.meters[tos])))
  }

  /** A red packet and one that does not fit are dropped; otherwise the dropper of its color
      decides. */
  function Decide(env: Env, p: PortState, packet: Packet, color: Metering.Color, now: real, snap: Snapshot): Verdict
    requires packet.tos < NUM_QOS_LEVEL
  {
    var queue := p.queues[packet.tos];
    if color == Metering.Red || Bytes(queue.packets) + packet.sizeInBytes > queue.capacity then
      Verdict(p, true, NO_BITS.(c1 := true), snap)
    else
      var green := color == Metering.Green;
      var i := DropperIndex(packet.tos, green);
      var other := DropperIndex(packet.tos, !green);
      var dropper := Dropping.Sampled(p.droppers[i], |queue.packets|, now, env.power);
      var drop := Dropping.Drops(dropper);
      Verdict(p.(droppers := p.droppers[i := dropper]), drop,
              NO_BITS.(c1 := drop, c5 := !green, c6 := green),
              snap.(dropper := Dropping.SnapshotOf(p.droppers[i]),
                    dropperQTime := p.droppers[other].qTime))
  }

  // ----- Departure of a packet -----

  /** The first of the two droppers whose q_time is set when queue `prio` runs empty. */
  function EmptiedIndex(v: Variant, prio: nat): nat {
    if v == Written then prio else 2 * prio
  }

  function Touch(droppers: seq<Dropping.Dropper>, i: nat, now: real): seq<Dropping.Dropper>
    requires i + 1 < |droppers|
  {
    droppers[i := Dropping.TimeUpdate(droppers[i], now)]
            [i + 1 := Dropping.TimeUpdate(droppers[i + 1], now)]
  }

  /** A packet has left: from which queue, which packet, its slot on the wire, and whether
      the queue ran empty. */
  datatype Departure = Departure(port: PortState, prio: nat, packet: Packet,
                                 start: real, end: real, emptied: bool)

  /** Serves the highest-priority packet of a port whose bucket was polled at `now`. */
  function Depart(env: Env, p: PortState, now: real): (d: Departure)
    requires !Idle(p)
    ensures d.prio < NUM_QOS_LEVEL
  {
    var prio := FirstBusy(p.queues);
    var packet := p.queues[prio].packets[0];
    var queue := Take(p.queues[prio]);
    var start := Max(now, p.available);
    var end := start + InjectionDelay(packet.sizeInBytes, p.bandwidth);
    var emptied := queue.packets == [];
    Departure(
      p.(queues := p.queues[prio := queue],
         bucket := Shaper.Consume(p.bucket, packet.sizeInBytes, now),
         droppers := if emptied then Touch(p.droppers, EmptiedIndex(env.variant, prio), now) else p.droppers,
         lastPriority := prio,
         available := end),
      prio, packet, start, end, emptied)
  }

  /** The message that carries a departed packet to its next switch. */
  function Forwarded(env: Env, p: PortState, d: Departure, target: int, now: real): Forward {
    Forward(target, d.start - now + (d.end - d.start) + p.propagation,
            d.packet.(prevHop := env.self, nextHop := -1))
  }

  // ----- The handlers, port part -----

  /** What a handler did to its port: the new state, what it left in the message, the
      packet it forwarded, the delay of the SEND event it scheduled for itself, and whether
      one of its assertions failed. `departed` repeats the forwarded packet with its
      priority and slot. */
  datatype Outcome = Outcome(
    port: PortState, portId: int, bits: Bits, snapshot: Snapshot,
    forward: Option<Forward>, wake: Option<real>, departed: Option<Departure>,
    admitted: bool, fault: bool)

  /** The snapshot entries common to both handlers when a packet departs. */
  function DepartureSnapshot(env: Env, p: PortState, d: Departure, snap: Snapshot): Snapshot
    requires d.prio < NUM_QOS_LEVEL
  {
    var s := snap.(scheduler := SchedulerSnapshot(d.prio, d.packet), portAvailableTime := p.available);
    if env.variant == Repaired && d.emptied then
      s.(emptiedQTimes := (p.droppers[2 * d.prio].qTime, p.droppers[2 * d.prio + 1].qTime))
    else s
  }

  /** Time until the packet at hand becomes affordable. */
  function WakeDelay(b: Shaper.Bucket, size: int, now: real): real
    requires b.rate > 0.0
  {
    Shaper.NextAvailableTime(b, size) - now
  }

  function Enqueue(p: PortState, packet: Packet, nextHop: int): (p': PortState)
    requires packet.tos < NUM_QOS_LEVEL
    ensures !Idle(p')
  {
    BusyQueueMeansBusy(p.queues[packet.tos := Put(p.queues[packet.tos], packet.(nextHop := nextHop))], packet.tos);
    p.(queues := p.queues[packet.tos := Put(p.queues[packet.tos], packet.(nextHop := nextHop))])
  }

  function Polled(p: PortState, now: real): PortState {
    p.(bucket := Shaper.Poll(p.bucket, now))
  }

  /** Whether an assertion fails before the handlers decide: after a poll the tokens are not
      negative, and the scheduler never finds an empty packet at the head of a queue. */
  predicate PollFault(p: PortState) {
    p.bucket.tokens < 0 || EmptyHead(p)
  }

  /** The packet to be served next has no positive size. */
  predicate EmptyHead(p: PortState) {
    !Idle(p) && NextSize(p.queues) <= 0
  }

  /** An ARRIVE event for a packet that leaves through this port. */
  function Arrive(env: Env, p: PortState, portId: nat, packet: Packet, nextHop: int, now: real,
                  msg: Message): Outcome
    requires packet.tos < NUM_QOS_LEVEL
  {
    var v := Judge(env, p, packet, now, NUM_QOS_LEVEL * portId + packet.tos, msg.snapshot);
    if v.drop then
      Outcome(v.port, msg.port, v.bits, v.snapshot, None, None, None, false, false)
    else
      Dispatch(env, Polled(Enqueue(v.port, packet, nextHop), now), portId, nextHop, now,
               v.bits, v.snapshot.(bucket := Shaper.SnapshotOf(v.port.bucket)))
  }

  /** The sending half of an ARRIVE event: send now if affordable, otherwise make sure that
      a SEND event is under way. `p` holds the new packet and a polled bucket. */
  function Dispatch(env: Env, p: PortState, portId: nat, nextHop: int, now: real,
                    bits: Bits, snap: Snapshot): Outcome
    requires !Idle(p)
  {
    var size := NextSize(p.queues);
    if Shaper.Ready(p.bucket, size) then
      var d := Depart(env, p, now);
      var f := Forwarded(env, p, d, nextHop, now);
      Outcome(d.port, portId, bits.(c2 := true, c7 := env.variant == Repaired && d.emptied),
              DepartureSnapshot(env, p, d, snap), Some(f), None, Some(d), true,
              PollFault(p) || d.port.bucket.tokens < 0 || f.delay <= 0.0)
    else if !p.flag then
      var wake := WakeDelay(p.bucket, size, now);
      Outcome(p.(flag := true), portId, bits.(c3 := true), snap, None, Some(wake), None, true,
              PollFault(p) || wake <= 0.0)
    else
      Outcome(p, portId, bits, snap, None, None, None, true, PollFault(p))
  }

  /** A SEND event of this port. Its first assertion says that a packet is waiting. */
  function Send(env: Env, p: PortState, portId: nat, now: real, msg: Message): Outcome {
    var polled := Polled(p, now);
    var snap := msg.snapshot.(bucket := Shaper.SnapshotOf(p.bucket));
    if Idle(p) then
      Outcome(polled, portId, NO_BITS, snap, None, None, None, false, true)
    else if !Shaper.Ready(polled.bucket, NextSize(p.queues)) then
      var wake := WakeDelay(polled.bucket, NextSize(p.queues), now);
      Outcome(polled, portId, NO_BITS, snap, None, Some(wake), None, false,
              PollFault(polled) || wake <= 0.0)
    else
      SendNow(env, polled, portId, now, snap)
  }

  /** The branch of a SEND event that serves a packet. */
  function SendNow(env: Env, p: PortState, portId: nat, now: real, snap: Snapshot): Outcome
    requires !Idle(p)
  {
    var d := Depart(env, p, now);
    var f := Forwarded(env, p, d, d.packet.nextHop, now);
    var bad := PollFault(p) || d.port.bucket.tokens < 0 || f.delay <= 0.0;
    var snap1 := DepartureSnapshot(env, p, d, snap);
    var i := EmptiedIndex(env.variant, d.prio);
    var snap2 := if d.emptied then snap1.(dropperQTime := p.droppers[i].qTime) else snap1;
    var bits := NO_BITS.(c0 := true, c2 := d.emptied);
    if Idle(d.port) then
      Outcome(d.port.(flag := false), portId, bits.(c1 := true), snap2,
              Some(f), None, Some(d), false, bad)
    else
      var wake := WakeDelay(d.port.bucket, NextSize(d.port.queues), now);
      Outcome(d.port, portId, bits, snap2, Some(f), Some(wake), Some(d), false,
              bad || EmptyHead(d.port) || wake <= 0.0)
  }

  // ----- The reverse handlers, port part -----

  function SetQTimes(droppers: seq<Dropping.Dropper>, i: nat, first: real, second: real): (r: seq<Dropping.Dropper>)
    requires i + 1 < |droppers|
    ensures |r| == |droppers|
  {
    droppers[i := droppers[i].(qTime := first)][i + 1 := droppers[i + 1].(qTime := second)]
  }

  /** What the assertions of the reverse handlers demand of an event that served a packet. */
  predicate CanUndoDeparture(p: PortState, s: SchedulerSnapshot) {
    && 0 <= s.lastPriority < NUM_QOS_LEVEL
    && Bytes(p.queues[s.lastPriority].packets) + s.packet.sizeInBytes
       <= p.queues[s.lastPriority].capacity
  }

  function PutBack(p: PortState, s: SchedulerSnapshot): PortState
    requires CanUndoDeparture(p, s)
  {
    p.(queues := p.queues[s.lastPriority := TakeReverse(p.queues[s.lastPriority], s.packet)])
  }

  /** Undoes the meter and the dropper part of an ARRIVE event. */
  function UndoJudge(p: PortState, tos: nat, bits: Bits, snap: Snapshot): PortState
    requires tos < NUM_QOS_LEVEL
  {
    var p1 := p.(meters := p.meters[tos := Metering.Restore(p.meters[tos], snap.meter)]);
    if bits.c5 || bits.c6 then
      var green := !bits.c5;
      var i := DropperIndex(tos, green);
      var other := DropperIndex(tos, !green);
      var restored := p.droppers[i := Dropping.Restore(p.droppers[i], snap.dropper)];
      p1.(droppers := restored[other := restored[other].(qTime := snap.dropperQTime)])
    else p1
  }

  /** Undoes the departure an ARRIVE event may have made. */
  function UndoArriveDeparture(p: PortState, bits: Bits, snap: Snapshot): PortState
    requires bits.c2 ==> CanUndoDeparture(p, snap.scheduler)
  {
    if bits.c2 then PutBack(p, snap.scheduler).(available := snap.portAvailableTime) else p
  }

  predicate CanUndoArrive(p: PortState, tos: nat, bits: Bits, snap: Snapshot) {
    && tos < NUM_QOS_LEVEL
    && (bits.c2 || bits.c7 ==> CanUndoDeparture(p, snap.scheduler))
    && (!bits.c1 ==> UndoArriveDeparture(p, bits, snap).queues[tos].packets != [])
  }

  function UndoArrive(p: PortState, tos: nat, bits: Bits, snap: Snapshot): PortState
    requires CanUndoArrive(p, tos, bits, snap)
  {
    var p0 := if bits.c7 then
      p.(droppers := SetQTimes(p.droppers, 2 * snap.scheduler.lastPriority, snap.emptiedQTimes.0, snap.emptiedQTimes.1))
    else p;
    var p1 := UndoJudge(p0, tos, bits, snap);
    if bits.c1 then p1
    else
      var p2 := UndoArriveDeparture(p1, bits, snap);
      var p3 := if bits.c3 then p2.(flag := false) else p2;
      p3.(bucket := Shaper.Restore(p3.bucket, snap.bucket),
          queues := p3.queues[tos := PutReverse(p3.queues[tos])])
  }

  predicate CanUndoSend(env: Env, p: PortState, bits: Bits, snap: Snapshot) {
    && (bits.c0 ==> CanUndoDeparture(p, snap.scheduler))
    && (bits.c0 && bits.c2 && env.variant == Written ==> 0 <= p.lastPriority < NUM_QOS_LEVEL)
  }

  function UndoSend(env: Env, p: PortState, bits: Bits, snap: Snapshot): PortState
    requires CanUndoSend(env, p, bits, snap)
  {
    var p1 := p.(bucket := Shaper.Restore(p.bucket, snap.bucket));
    var p2 := if bits.c0 && bits.c2 then p1.(droppers := UndoEmptied(env, p, snap)) else p1;
    var p3 := if bits.c0 then PutBack(p2, snap.scheduler).(available := snap.portAvailableTime) else p2;
    if bits.c1 then p3.(flag := true) else p3
  }

  /** As written the live priority selects the pair and both droppers get the one saved
      q_time; repaired, the snapshot holds the priority and both times. */
  function UndoEmptied(env: Env, p: PortState, snap: Snapshot): seq<Dropping.Dropper>
    requires env.variant == Written ==> 0 <= p.lastPriority < NUM_QOS_LEVEL
    requires CanUndoDeparture(p, snap.scheduler)
  {
    if env.variant == Written then
      SetQTimes(p.droppers, EmptiedIndex(Written, p.lastPriority), snap.dropperQTime, snap.dropperQTime)
    else
      SetQTimes(p.droppers, EmptiedIndex(Repaired, snap.scheduler.lastPriority),
                snap.emptiedQTimes.0, snap.emptiedQTimes.1)
  }
}
