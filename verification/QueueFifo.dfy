/** The bounded FIFO queue of packets. */
module QueueFifo {
  import opened Types

  /** A queue as a value: its packets, oldest first, and its capacity in bytes. */
  datatype Queue = Queue(packets: seq<Packet>, capacity: int)

  function Bytes(packets: seq<Packet>): int {
    if packets == [] then 0 else packets[0].sizeInBytes + Bytes(packets[1..])
  }

  function Put(q: Queue, p: Packet): Queue {
    q.(packets := q.packets + [p])
  }

  function PutReverse(q: Queue): Queue
    requires q.packets != []
  {
    q.(packets := q.packets[..|q.packets| - 1])
  }

  function Take(q: Queue): Queue
    requires q.packets != []
  {
    q.(packets := q.packets[1..])
  }

  function TakeReverse(q: Queue, p: Packet): Queue {
    q.(packets := [p] + q.packets)
  }

  lemma {:induction false} BytesOfConcat(a: seq<Packet>, b: seq<Packet>)
    ensures Bytes(a + b) == Bytes(a) + Bytes(b)
    decreases |a|
  {
    if a == [] {
      assert a + b == b;
    } else {
      assert (a + b)[1..] == a[1..] + b;
      BytesOfConcat(a[1..], b);
    }
  }

  lemma BytesOfPut(a: seq<Packet>, p: Packet)
    ensures Bytes(a + [p]) == Bytes(a) + p.sizeInBytes
  {
    BytesOfConcat(a, [p]);
    assert Bytes([p]) == p.sizeInBytes + Bytes([p][1..]);
  }

  lemma BytesOfPush(p: Packet, a: seq<Packet>)
    ensures Bytes([p] + a) == p.sizeInBytes + Bytes(a)
  {
    assert ([p] + a)[1..] == a;
  }

  lemma {:induction false} BytesOfEnds(a: seq<Packet>)
    requires a != []
    ensures Bytes(a) == a[0].sizeInBytes + Bytes(a[1..])
    ensures Bytes(a) == Bytes(a[..|a| - 1]) + a[|a| - 1].sizeInBytes
  {
    BytesOfPut(a[..|a| - 1], a[|a| - 1]);
    assert a[..|a| - 1] + [a[|a| - 1]] == a;
  }

  predicate AllPositive(packets: seq<Packet>) {
    forall i :: 0 <= i < |packets| ==> packets[i].sizeInBytes > 0
  }

  lemma {:induction false} BytesNonNegative(packets: seq<Packet>)
    requires AllPositive(packets)
    ensures Bytes(packets) >= 0
    decreases |packets|
  {
    if packets != [] {
      BytesNonNegative(packets[1..]);
    }
  }

  /** The put and the take are undone by their reverses, and in this order only: an
      enqueue followed by a dequeue is undone by re-inserting at the head first and
      removing from the tail afterwards, even when the queue was empty. */
  lemma PutTakeUndo(q: Queue, p: Packet)
    ensures PutReverse(Put(q, p)) == q
    ensures q.packets != [] ==> TakeReverse(Take(q), q.packets[0]) == q
    ensures PutReverse(TakeReverse(Take(Put(q, p)), Put(q, p).packets[0])) == q
    ensures q.packets == [] <==> Take(Put(q, p)).packets == []
  {
    var put := Put(q, p);
    assert put.packets[..|put.packets| - 1] == q.packets;
    assert [put.packets[0]] + put.packets[1..] == put.packets;
    if q.packets != [] {
      assert [q.packets[0]] + q.packets[1..] == q.packets;
    }
  }

  // ----- The queue as a doubly linked list -----

  class Node {
    var data: Packet
    var next: Node?
    var prev: Node?
    /** The queue the node was made for: nodes of different queues are never shared. */
    ghost const owner: FifoQueue

    constructor (data: Packet, ghost owner: FifoQueue)
      ensures this.data == data && this.owner == owner && next == null && prev == null
    {
      this.data, this.owner := data, owner;
      next, prev := null, null;
    }
  }

  class FifoQueue {
    var numPackets: int
    var sizeInBytes: int
    const maxSizeInBytes: int
    var head: Node?
    var tail: Node?

    ghost var nodes: seq<Node>
    ghost var contents: seq<Packet>

    /** The list is well formed from both ends, and its counters are right. */
    ghost predicate Valid()
      reads this, nodes
    {
      && numPackets == |nodes| == |contents|
      && sizeInBytes == Bytes(contents)
      && head == (if nodes == [] then null else nodes[0])
      && tail == (if nodes == [] then null else nodes[|nodes| - 1])
      && (forall i :: 0 <= i < |nodes| ==> nodes[i].owner == this && nodes[i].data == contents[i])
      && (forall i, j :: 0 <= i < j < |nodes| ==> nodes[i] != nodes[j])
      && (nodes != [] ==> head.prev == null && tail.next == null)
      && (forall i :: 0 < i < |nodes| ==> nodes[i].prev == nodes[i - 1])
      && (forall i :: 0 <= i < |nodes| - 1 ==> nodes[i].next == nodes[i + 1])
    }

    /** What clients need to know of a well-formed list. */
    lemma ValidFacts()
      requires Valid()
      ensures numPackets == |contents| == |nodes|
      ensures contents != [] ==> head != null && head.data == contents[0]
      ensures forall i :: 0 <= i < |nodes| ==> nodes[i].owner == this
    {
    }

    ghost function View(): Queue
      reads this
    {
      Queue(contents, maxSizeInBytes)
    }

    constructor (capacityInBytes: int)
      requires capacityInBytes >= 0
      ensures Valid() && View() == Queue([], capacityInBytes) && nodes == []
    {
      maxSizeInBytes := capacityInBytes;
      sizeInBytes := 0;
      numPackets := 0;
      head, tail := null, null;
      nodes, contents := [], [];
    }

    method AppendToTail(packet: Packet) returns (newNode: Node)
      requires Valid()
      requires Bytes(contents) + packet.sizeInBytes <= maxSizeInBytes
      modifies this, nodes
      ensures Valid() && View() == Put(old(View()), packet)
      ensures fresh(newNode) && nodes == old(nodes) + [newNode]
    {
      hide Bytes;
      newNode := new Node(packet, this);
      newNode.next := null;
      if head == null {
        head := newNode;
        newNode.prev := null;
      } else {
        tail.next := newNode;
        newNode.prev := tail;
      }
      tail := newNode;
      numPackets := numPackets + 1;
      sizeInBytes := sizeInBytes + packet.sizeInBytes;
      BytesOfPut(contents, packet);
      nodes, contents := nodes + [newNode], contents + [packet];
    }

    method ReturnFromTail() returns (tailNode: Node?)
      requires Valid()
      modifies this, nodes
      ensures Valid()
      ensures old(contents) == [] ==> tailNode == null && View() == old(View()) && nodes == old(nodes)
      ensures old(contents) != [] ==>
        && tailNode != null && tailNode.data == old(contents)[|old(contents)| - 1]
        && View() == PutReverse(old(View()))
        && nodes == old(nodes)[..|old(nodes)| - 1]
    {
      hide Bytes;
      if numPackets == 0 {
        return null;
      }
      tailNode := tail;
      BytesOfEnds(contents);
      assert |nodes| > 1 ==> nodes[|nodes| - 1].prev == nodes[|nodes| - 2];
      tail := tail.prev;
      if tail != null {
        tail.next := null;
      } else {
        tail := null;
        head := null;
      }
      tailNode.prev := null;
      numPackets := numPackets - 1;
      sizeInBytes := sizeInBytes - tailNode.data.sizeInBytes;
      nodes, contents := nodes[..|nodes| - 1], contents[..|contents| - 1];
    }

    method AppendToHead(packet: Packet)
      requires Valid()
      requires Bytes(contents) + packet.sizeInBytes <= maxSizeInBytes
      modifies this, nodes
      ensures Valid() && View() == TakeReverse(old(View()), packet)
      ensures |nodes| == |old(nodes)| + 1 && fresh(nodes[0]) && nodes[1..] == old(nodes)
    {
      hide Bytes;
      var newNode := new Node(packet, this);
      newNode.next := head;
      newNode.prev := null;
      if head != null {
        head.prev := newNode;
        head := newNode;
      } else {
        head := newNode;
        tail := newNode;
      }
      numPackets := numPackets + 1;
      sizeInBytes := sizeInBytes + packet.sizeInBytes;
      BytesOfPush(packet, contents);
      nodes, contents := [newNode] + nodes, [packet] + contents;
    }

    method ReturnFromHead() returns (headNode: Node?)
      requires Valid()
      modifies this, nodes
      ensures Valid()
      ensures old(contents) == [] ==> headNode == null && View() == old(View()) && nodes == old(nodes)
      ensures old(contents) != [] ==>
        && headNode != null && headNode.data == old(contents)[0]
        && View() == Take(old(View()))
        && nodes == old(nodes)[1..]
    {
      hide Bytes;
      if head == null {
        return null;
      }
      headNode := head;
      BytesOfEnds(contents);
      assert |nodes| > 1 ==> nodes[0].next == nodes[1];
      head := headNode.next;
      if head != null {
        head.prev := null;
      } else {
        tail := null;
      }
      headNode.prev := null;
      headNode.next := null;
      numPackets := numPackets - 1;
      sizeInBytes := sizeInBytes - headNode.data.sizeInBytes;
      nodes, contents := nodes[1..], contents[1..];
    }

    method PutPacket(packet: Packet) returns (node: Node)
      requires Valid()
      requires Bytes(contents) + packet.sizeInBytes <= maxSizeInBytes
      modifies this, nodes
      ensures Valid() && View() == Put(old(View()), packet)
      ensures fresh(node) && nodes == old(nodes) + [node]
    {
      node := AppendToTail(packet);
    }

    method PutPacketReverse()
      requires Valid() && contents != []
      modifies this, nodes
      ensures Valid() && View() == PutReverse(old(View()))
      ensures nodes == old(nodes)[..|old(nodes)| - 1]
    {
      var node := ReturnFromTail();
    }

    method TakePacket() returns (node: Node)
      requires Valid() && contents != []
      modifies this, nodes
      ensures Valid() && View() == Take(old(View()))
      ensures node.data == old(contents)[0] && nodes == old(nodes)[1..]
    {
      node := ReturnFromHead();
    }

    method TakePacketReverse(packet: Packet)
      requires Valid()
      requires Bytes(contents) + packet.sizeInBytes <= maxSizeInBytes
      modifies this, nodes
      ensures Valid() && View() == TakeReverse(old(View()), packet)
      ensures |nodes| == |old(nodes)| + 1 && fresh(nodes[0]) && nodes[1..] == old(nodes)
    {
      AppendToHead(packet);
    }
  }
}
