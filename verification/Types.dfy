/** The records of the switch model that several components share: packets, routes,
    messages and the snapshot a forward handler leaves in its message. */
module Types {
  const NUM_QOS_LEVEL: nat := 3
  const UINT32_RANGE: nat := 0x1_0000_0000

  datatype Option<+T> = None | Some(value: T)

  /** One packet. `prevHop` and `nextHop` are -1 where the program stores "no hop". */
  datatype Packet = Packet(
    pid: nat, sendTime: real, src: nat, dest: nat, prevHop: int, nextHop: int,
    sizeInBytes: int, tos: nat)

  /** A routing entry: the neighbour to forward to and the port that leads there. */
  datatype Route = Route(nextHop: int, port: int)

  datatype Kind = KICKOFF | ARRIVE | SEND

  datatype MeterSnapshot = MeterSnapshot(tc: int, te: int, lastUpdate: real)
  datatype BucketSnapshot = BucketSnapshot(tokens: int, lastUpdate: real)
  datatype DropperSnapshot = DropperSnapshot(avg: real, qTime: real)
  datatype SchedulerSnapshot = SchedulerSnapshot(lastPriority: int, packet: Packet)

  /** What a forward handler saves for its reverse handler. A field that the taken
      branch does not save keeps whatever the message held before.
      `emptiedQTimes` belongs to the repaired handlers only. */
  datatype Snapshot = Snapshot(
    meterIndex: int,
    meter: MeterSnapshot,
    scheduler: SchedulerSnapshot,
    bucket: BucketSnapshot,
    dropper: DropperSnapshot,
    dropperQTime: real,
    portAvailableTime: real,
    emptiedQTimes: (real, real))

  /** The branch bits. The two handlers use the same bits for different branches.
      `c7` belongs to the repaired ARRIVE handler only. */
  datatype Bits = Bits(c0: bool, c1: bool, c2: bool, c3: bool, c5: bool, c6: bool, c7: bool)

  const NO_BITS := Bits(false, false, false, false, false, false, false)

  datatype Message = Message(kind: Kind, port: int, packet: Packet, snapshot: Snapshot)

  /** A packet put on the wire: who receives it, after which delay, and its contents. */
  datatype Forward = Forward(target: int, delay: real, packet: Packet)

  function Max(a: real, b: real): real {
    if a > b then a else b
  }

  function Min(a: real, b: real): real {
    if a < b then a else b
  }
}
