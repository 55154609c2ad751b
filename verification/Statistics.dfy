/** The per-switch counters and the growing array of packet records. */
module Statistics {
  /** `drop` is 1 for a dropped packet, 0 for a delivered one; 255 marks a retracted slot. */
  datatype Record = Record(pid: int, delay: real, drop: int)

  const MAX_RECORDS: nat := 10000

  /** `live` holds the records in use; unused slots and the array capacity are not part of
      the value. */
  datatype Stats = Stats(dropped: int, sent: int, received: int, recvd: int, live: seq<Record>)

  const NO_STATS := Stats(0, 0, 0, 0, [])

  function Append(st: Stats, pid: int, delay: real, drop: int): Stats {
    st.(live := st.live + [Record(pid, delay, drop)],
        dropped := if drop != 0 then st.dropped + 1 else st.dropped,
        recvd := if drop != 0 then st.recvd else st.recvd + 1)
  }

  function Retract(st: Stats): Stats
    requires st.live != []
  {
    var last := st.live[|st.live| - 1];
    st.(live := st.live[..|st.live| - 1],
        dropped := if last.drop != 0 then st.dropped - 1 else st.dropped,
        recvd := if last.drop != 0 then st.recvd else st.recvd - 1)
  }

  /** Number of records of dropped packets. */
  function DropRecords(live: seq<Record>): nat {
    if live == [] then 0
    else DropRecords(live[..|live| - 1]) + (if live[|live| - 1].drop != 0 then 1 else 0)
  }

  /** The counters agree with the records. */
  predicate Consistent(st: Stats) {
    st.dropped == DropRecords(st.live) && st.recvd == |st.live| - DropRecords(st.live)
  }

  lemma {:induction false} DropRecordsBound(live: seq<Record>)
    ensures DropRecords(live) <= |live|
    decreases |live|
  {
    if live != [] {
      DropRecordsBound(live[..|live| - 1]);
    }
  }

  lemma AppendRetract(st: Stats, pid: int, delay: real, drop: int)
    ensures Retract(Append(st, pid, delay, drop)) == st
    ensures Consistent(st) ==> Consistent(Append(st, pid, delay, drop))
    ensures Consistent(st) && st.live != [] ==> Consistent(Retract(st))
  {
    var st' := Append(st, pid, delay, drop);
    assert st'.live[..|st'.live| - 1] == st.live;
  }

  // ----- The statistics in place -----

  class SwitchStats {
    var numPacketsDropped: nat
    var numPacketsSent: int
    var received: int
    var numPacketsRecvd: nat
    var records: array<Record>
    var recordsCapacity: nat

    ghost predicate Valid()
      reads this, records
    {
      && recordsCapacity == records.Length
      && numPacketsRecvd + numPacketsDropped < recordsCapacity
      && Consistent(View())
    }

    ghost function View(): Stats
      reads this, records
    {
      var n := numPacketsRecvd + numPacketsDropped;
      Stats(numPacketsDropped, numPacketsSent, received, numPacketsRecvd,
            if n <= records.Length then records[..n] else [])
    }

    constructor ()
      ensures Valid() && fresh(records) && View() == NO_STATS
    {
      numPacketsRecvd := 0;
      numPacketsDropped := 0;
      numPacketsSent := 0;
      received := 0;
      recordsCapacity := MAX_RECORDS;
      records := new Record[MAX_RECORDS];
    }

    method UpdateStats(pid: int, delay: real, drop: int)
      requires Valid()
      modifies this, records
      ensures Valid() && (records == old(records) || fresh(records))
      ensures View() == Append(old(View()), pid, delay, drop)
    {
      hide DropRecords, Consistent;
      AppendRetract(View(), pid, delay, drop);
      var index := numPacketsRecvd + numPacketsDropped;
      EnsureRoom(index);
      WriteRecord(index, Record(pid, delay, drop));
      if drop != 0 {
        numPacketsDropped := numPacketsDropped + 1;
      } else {
        numPacketsRecvd := numPacketsRecvd + 1;
      }
    }

    /** Doubles the array when record `index` would be the last that fits. */
    method EnsureRoom(index: nat)
      requires Valid() && index == numPacketsRecvd + numPacketsDropped
      modifies this`records, this`recordsCapacity
      ensures recordsCapacity == records.Length && index + 1 < recordsCapacity
      ensures records == old(records) || fresh(records)
      ensures records[..index] == old(records[..index])
    {
      hide Consistent;
      if index + 1 >= recordsCapacity {
        recordsCapacity := recordsCapacity * 2;
        records := Reallocated(records, recordsCapacity);
      }
    }

    method WriteRecord(index: nat, record: Record)
      requires index < records.Length
      modifies records
      ensures records[..index + 1] == old(records[..index]) + [record]
    {
      ghost var live := records[..index];
      records[index] := record;
      assert records[..index] == live;
    }

    /** A larger array with the same leading elements. */
    static method Reallocated(source: array<Record>, length: nat) returns (grown: array<Record>)
      requires source.Length <= length
      ensures fresh(grown) && grown.Length == length
      ensures forall i :: 0 <= i <= source.Length ==> grown[..i] == source[..i]
    {
      grown := new Record[length];
      forall i | 0 <= i < source.Length {
        grown[i] := source[i];
      }
    }

    method UpdateStatsReverse()
      requires Valid() && View().live != []
      modifies this, records
      ensures Valid() && records == old(records)
      ensures View() == Retract(old(View()))
    {
      ghost var before := View();
      AppendRetract(before, 0, 0.0, 0);
      DropRecordsBound(Retract(before).live);
      var index := numPacketsRecvd + numPacketsDropped - 1;
      assert before.live[index] == records[index];
      assert before.live[..index] == records[..index];
      if records[index].drop != 0 {
        numPacketsDropped := numPacketsDropped - 1;
      } else {
        numPacketsRecvd := numPacketsRecvd - 1;
      }
      records[index] := Record(-1, -1.0, 255);
    }
  }
}
