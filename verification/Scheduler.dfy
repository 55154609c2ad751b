/** The strict-priority scheduler of an output port: queue 0 has the highest priority. */
module Scheduling {
  import opened Types
  import opened QueueFifo
  import opened Shaper

  /** The highest priority that has a packet waiting, or the number of queues. */
  function FirstBusy(queues: seq<Queue>): (i: nat)
    ensures i <= |queues|
    ensures forall j :: 0 <= j < i ==> queues[j].packets == []
    ensures i < |queues| ==> queues[i].packets != []
  {
    if queues == [] then 0
    else if queues[0].packets != [] then 0
    else 1 + FirstBusy(queues[1..])
  }

  /** The size of the packet to be served next, 0 if there is none. */
  function NextSize(queues: seq<Queue>): int {
    var i := FirstBusy(queues);
    if i < |queues| then queues[i].packets[0].sizeInBytes else 0
  }

  lemma {:induction false} FirstBusyIsUnique(queues: seq<Queue>, i: nat)
    requires i <= |queues|
    requires forall j :: 0 <= j < i ==> queues[j].packets == []
    requires i < |queues| ==> queues[i].packets != []
    ensures FirstBusy(queues) == i
  {
    if i > 0 {
      assert queues[0].packets == [];
      FirstBusyIsUnique(queues[1..], i - 1);
    }
  }

  lemma {:induction false} BusyQueueMeansBusy(queues: seq<Queue>, i: nat)
    requires i < |queues| && queues[i].packets != []
    ensures FirstBusy(queues) <= i
  {
    if i > 0 && queues[0].packets == [] {
      BusyQueueMeansBusy(queues[1..], i - 1);
    }
  }

  // ----- The scheduler in place -----

  ghost function Views(queueList: seq<FifoQueue>): (v: seq<Queue>)
    reads queueList
    ensures |v| == |queueList|
    ensures forall i :: 0 <= i < |v| ==> v[i] == queueList[i].View()
  {
    seq(|queueList|, i requires 0 <= i < |queueList| reads queueList => queueList[i].View())
  }

  ghost function NodesOf(queueList: seq<FifoQueue>): set<object>
    reads queueList
  {
    set q, n | q in queueList && n in q.nodes :: n
  }

  lemma NodesOfEach(queueList: seq<FifoQueue>)
    ensures forall q :: q in queueList ==> forall n :: n in q.nodes ==> n in NodesOf(queueList)
  {
  }

  class SpScheduler {
    const queueList: seq<FifoQueue>
    const shaper: TokenBucket
    var lastPriority: int

    ghost predicate Valid()
      reads queueList, NodesOf(queueList)
    {
      && (forall i, j :: 0 <= i < j < |queueList| ==> queueList[i] != queueList[j])
      && (forall q, n :: q in queueList && n in q.nodes ==> n in NodesOf(queueList))
      && (forall q :: q in queueList ==> q.Valid())
    }

    lemma OwnNodes()
      requires Valid()
      ensures forall q :: q in queueList ==> forall i :: 0 <= i < |q.nodes| ==> q.nodes[i].owner == q
      ensures forall q :: q in queueList ==> q.numPackets == |q.contents|
      ensures forall q :: q in queueList && q.contents != [] ==>
        q.head != null && q.head.data == q.contents[0]
    {
      forall q | q in queueList
        ensures q.numPackets == |q.contents|
        ensures forall i :: 0 <= i < |q.nodes| ==> q.nodes[i].owner == q
        ensures q.contents != [] ==> q.head != null && q.head.data == q.contents[0]
      {
        q.ValidFacts();
      }
    }

    constructor (queueList: seq<FifoQueue>, shaper: TokenBucket)
      ensures this.queueList == queueList && this.shaper == shaper && lastPriority == -1
    {
      this.queueList := queueList;
      lastPriority := -1;
      this.shaper := shaper;
    }

    /** Takes the packet to be served next; null when every queue is empty. */
    method UpdateScheduler() returns (node: Node?)
      requires Valid()
      modifies this, queueList, NodesOf(queueList)
      ensures Valid()
      ensures var i := FirstBusy(old(Views(queueList)));
        if i < |queueList| then
          && lastPriority == i
          && node != null && node.data == old(queueList[i].contents[0])
          && Views(queueList) == old(Views(queueList))[i := Take(old(queueList[i].View()))]
          && NodesOf(queueList) <= old(NodesOf(queueList))
        else
          && lastPriority == -1 && node == null
          && Views(queueList) == old(Views(queueList))
          && NodesOf(queueList) == old(NodesOf(queueList))
    {
      hide FirstBusy, FifoQueue.Valid;
      OwnNodes();
      var i := 0;
      while i < |queueList|
        invariant 0 <= i <= |queueList|
        invariant forall j :: 0 <= j < i ==> Views(queueList)[j].packets == []
      {
        var q := queueList[i];
        assert q in queueList && q.Valid() && Views(queueList)[i] == q.View();
        if q.numPackets > 0 {
          break;
        }
        i := i + 1;
      }
      FirstBusyIsUnique(Views(queueList), i);
      if i < |queueList| {
        node := TakeFrom(i);
        lastPriority := i;
      } else {
        lastPriority := -1;
        node := null;
      }
    }

    method TakeFrom(index: nat) returns (node: Node)
      requires Valid()
      requires index < |queueList| && queueList[index].contents != []
      modifies queueList, NodesOf(queueList)
      ensures Valid()
      ensures node.data == old(queueList[index].contents[0])
      ensures Views(queueList) == old(Views(queueList))[index := Take(old(queueList[index].View()))]
      ensures NodesOf(queueList) <= old(NodesOf(queueList))
    {
      hide FifoQueue.Valid;
      OwnNodes();
      assert queueList[index] in queueList && queueList[index].Valid();
      node := queueList[index].TakePacket();
      NodesOfEach(queueList);
    }

    /** Puts the recorded packet back at the head of the queue it was taken from. */
    method UpdateReverse(state: SchedulerSnapshot)
      requires Valid()
      requires 0 <= state.lastPriority < |queueList|
      requires Bytes(queueList[state.lastPriority].contents) + state.packet.sizeInBytes
               <= queueList[state.lastPriority].maxSizeInBytes
      modifies queueList, NodesOf(queueList)
      ensures Valid()
      ensures Views(queueList) == old(Views(queueList))[state.lastPriority :=
                TakeReverse(old(queueList[state.lastPriority].View()), state.packet)]
      ensures fresh(NodesOf(queueList) - old(NodesOf(queueList)))
    {
      hide FifoQueue.Valid;
      OwnNodes();
      var index := state.lastPriority;
      assert queueList[index] in queueList && queueList[index].Valid();
      queueList[index].TakePacketReverse(state.packet);
    }

    /** `sound` says whether the assertion on the size of the packet held. */
    method HasNext() returns (size: int, sound: bool)
      requires Valid()
      ensures size == NextSize(Views(queueList))
      ensures sound <==> (FirstBusy(Views(queueList)) < |queueList| ==> size > 0)
    {
      hide FirstBusy, FifoQueue.Valid;
      OwnNodes();
      var i := 0;
      while i < |queueList|
        invariant 0 <= i <= |queueList|
        invariant forall j :: 0 <= j < i ==> Views(queueList)[j].packets == []
      {
        var q := queueList[i];
        assert q in queueList && q.Valid() && Views(queueList)[i] == q.View();
        if q.numPackets > 0 {
          FirstBusyIsUnique(Views(queueList), i);
          return q.head.data.sizeInBytes, q.head.data.sizeInBytes > 0;
        }
        i := i + 1;
      }
      FirstBusyIsUnique(Views(queueList), |queueList|);
      return 0, true;
    }

    method Delta(dequeued: Packet) returns (state: SchedulerSnapshot)
      ensures state == SchedulerSnapshot(lastPriority, dequeued)
    {
      state := SchedulerSnapshot(lastPriority, dequeued);
    }
  }
}
