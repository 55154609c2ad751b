/** The switch in place: components held in flat arrays and updated by the event handlers as
    written. */
module NetworkSwitching {
  import opened Types
  import opened Conversion
  import opened QueueFifo
  import opened Scheduling
  import opened Ports
  import opened Switching
  import opened Layout
  import opened Statistics
  import opened PortRollback
  import PortAdmission
  import SwitchRecords
  import SwitchRollback
  import QTimeRollback
  import Runs
  import Lifting
  import Shaper
  import Metering
  import Dropping

  /** An event in the engine's hands: the message, in which a forward handler leaves its
      snapshot, and the branch bits. */
  class TwEvent {
    var msg: Message
    var bits: Bits

    constructor (msg: Message)
      ensures this.msg == msg && bits == NO_BITS
    {
      this.msg, bits := msg, NO_BITS;
    }
  }

  ghost function MeterViews(list: seq<Metering.SrTcm>): (v: seq<Metering.Meter>)
    reads list
    ensures |v| == |list|
    ensures forall i :: 0 <= i < |v| ==> v[i] == list[i].View()
  {
    seq(|list|, i requires 0 <= i < |list| reads list => list[i].View())
  }

  ghost function DropperViews(list: seq<Dropping.RedDropper>): (v: seq<Dropping.Dropper>)
    reads list
    ensures |v| == |list|
    ensures forall i :: 0 <= i < |v| ==> v[i] == list[i].View()
  {
    seq(|list|, i requires 0 <= i < |list| reads list => list[i].View())
  }

  ghost function BucketViews(list: seq<Shaper.TokenBucket>): (v: seq<Shaper.Bucket>)
    reads list
    ensures |v| == |list|
    ensures forall i :: 0 <= i < |v| ==> v[i] == list[i].View()
  {
    seq(|list|, i requires 0 <= i < |list| reads list => list[i].View())
  }

  ghost function Priorities(list: seq<SpScheduler>): (v: seq<int>)
    reads list
    ensures |v| == |list|
    ensures forall i :: 0 <= i < |v| ==> v[i] == list[i].lastPriority
  {
    seq(|list|, i requires 0 <= i < |list| reads list => list[i].lastPriority)
  }

  predicate Distinct<T(==)>(list: seq<T>) {
    forall i, j :: 0 <= i < j < |list| ==> list[i] != list[j]
  }

  class NetworkSwitch {
    const self: int
    const power: (real, real) -> real
    const queues: seq<FifoQueue>
    const meters: seq<Metering.SrTcm>
    const droppers: seq<Dropping.RedDropper>
    const shapers: seq<Shaper.TokenBucket>
    const schedulers: seq<SpScheduler>
    const portFlags: array<bool>
    const portsAvailableTime: array<real>
    const bandwidths: seq<real>
    const propagationDelays: seq<real>
    const routing: seq<Route>
    const stats: SwitchStats

    ghost var Repr: set<object>

    /** How the components point at each other; this never changes. */
    static ghost predicate Connected(queues: seq<FifoQueue>, meters: seq<Metering.SrTcm>,
        droppers: seq<Dropping.RedDropper>,
                                     shapers: seq<Shaper.TokenBucket>, schedulers: seq<SpScheduler>) {
      var n := |shapers|;
      && |queues| == |meters| == NUM_QOS_LEVEL * n && |droppers| == 2 * NUM_QOS_LEVEL * n && |schedulers| == n
      && Distinct(queues) && Distinct(meters) && Distinct(droppers) && Distinct(shapers) && Distinct(schedulers)
      && (forall i :: 0 <= i < n ==> schedulers[i].queueList == queues[3 * i..3 * i + 3])
      && (forall k :: 0 <= k < |droppers| ==> droppers[k].queue == queues[k / 2])
    }

    static ghost predicate Contained(queues: seq<FifoQueue>, meters: seq<Metering.SrTcm>,
        droppers: seq<Dropping.RedDropper>,
                                     shapers: seq<Shaper.TokenBucket>, schedulers: seq<SpScheduler>,
                                         repr: set<object>) {
      && (forall k :: 0 <= k < |queues| ==> queues[k] in repr)
      && (forall k :: 0 <= k < |meters| ==> meters[k] in repr)
      && (forall k :: 0 <= k < |droppers| ==> droppers[k] in repr)
      && (forall k :: 0 <= k < |shapers| ==> shapers[k] in repr)
      && (forall k :: 0 <= k < |schedulers| ==> schedulers[k] in repr)
    }

    ghost predicate Wired() {
      var n := |shapers|;
      && Connected(queues, meters, droppers, shapers, schedulers)
      && portFlags.Length == portsAvailableTime.Length == |bandwidths| == |propagationDelays| == n
      && (forall i :: 0 <= i < n ==> shapers[i].rate > 0.0 && bandwidths[i] > 0.0)
    }

    ghost predicate Valid()
      reads this, Repr
    {
      && this in Repr && portFlags in Repr && portsAvailableTime in Repr
      && stats in Repr && stats.records in Repr && stats.Valid()
      && Contained(queues, meters, droppers, shapers, schedulers, Repr)
      && (forall k, n :: 0 <= k < |queues| && n in queues[k].nodes ==> n in Repr)
      && (forall k :: 0 <= k < |queues| ==> queues[k].Valid())
      && Wired()
    }

    ghost function FlatView(): Flat
      reads queues, meters, droppers, shapers, schedulers, portFlags, portsAvailableTime
    {
      Flat(Views(queues), MeterViews(meters), DropperViews(droppers), BucketViews(shapers),
           Priorities(schedulers), portFlags[..], portsAvailableTime[..])
    }

    ghost function Wire(): Wires {
      Wires(bandwidths, propagationDelays)
    }

    ghost function PortStates(): (ports: seq<PortState>)
      requires Wired()
      reads queues, meters, droppers, shapers, schedulers, portFlags, portsAvailableTime
      ensures |ports| == |shapers|
    {
      PortsOf(FlatView(), Wire())
    }

    ghost function View(): Switch
      requires Wired()
      reads queues, meters, droppers, shapers, schedulers, portFlags, portsAvailableTime, stats, stats.records
    {
      Switch(PortStates(), routing, stats.View())
    }

    ghost function Environment(): Env {
      Env(self, Written, power)
    }

    // ----- Initialisation -----

    constructor (self: int, power: (real, real) -> real, cs: seq<PortConfig>, routing: seq<Route>)
      requires forall i :: 0 <= i < |cs| ==> ValidConfig(cs[i])
      ensures Valid() && fresh(Repr) && View() == InitSwitch(cs, routing)
      ensures Environment() == Env(self, Written, power)
    {
      hide FifoQueue.Valid, SwitchStats.Valid, Connected, ValidConfig, InitialComponents, View, InitSwitch;
      var stats := new SwitchStats();
      var available := new real[|cs|](_ => 0.0);
      var queues, meters, droppers, shapers, schedulers, made := MakeComponents(cs);
      var flags := new bool[|cs|](_ => false);
      this.self, this.power, this.routing, this.stats := self, power, routing, stats;
      this.queues, this.meters, this.droppers := queues, meters, droppers;
      this.shapers, this.schedulers := shapers, schedulers;
      this.portFlags, this.portsAvailableTime := flags, available;
      this.bandwidths := Bandwidths(cs);
      this.propagationDelays := Propagations(cs);
      Repr := {this, flags, available, stats, stats.records} + made;
      new;
      assert Valid();
      hide Valid, Contained;
      InitialView(cs);
    }

    lemma InitialView(cs: seq<PortConfig>)
      requires forall i :: 0 <= i < |cs| ==> ValidConfig(cs[i])
      requires Wired() && |shapers| == |cs| && stats.View() == NO_STATS
      requires InitialComponents(cs, queues, meters, droppers, shapers, schedulers)
      requires bandwidths == Bandwidths(cs) && propagationDelays == Propagations(cs)
      requires forall i :: 0 <= i < |cs| ==> !portFlags[i] && portsAvailableTime[i] == 0.0
      ensures View() == InitSwitch(cs, routing)
    {
      hide ValidConfig, InitQueueAt, InitMeterAt, InitDropperAt, InitPort, PortsOf, Distinct;
      FreshPorts(cs, FlatView(), Wire());
      assert PortStates() == InitSwitch(cs, routing).ports;
    }

    /** The components as the initialisation leaves them. */
    static ghost predicate InitialComponents(cs: seq<PortConfig>, queues: seq<FifoQueue>, meters: seq<Metering.SrTcm>,
                                             droppers: seq<Dropping.RedDropper>, shapers: seq<Shaper.TokenBucket>,
                                             schedulers: seq<SpScheduler>)
      requires forall i :: 0 <= i < |cs| ==> ValidConfig(cs[i])
      requires |queues| == |meters| == NUM_QOS_LEVEL * |cs| && |droppers| == 2 * |queues|
      requires |shapers| == |schedulers| == |cs|
      reads queues, meters, droppers, shapers, schedulers
    {
      && (forall k :: 0 <= k < |queues| ==> queues[k].View() == InitQueueAt(cs, k))
      && (forall k :: 0 <= k < |meters| ==> meters[k].View() == InitMeterAt(cs, k))
      && (forall k :: 0 <= k < |droppers| ==> droppers[k].View() == InitDropperAt(cs, k))
      && (forall i :: 0 <= i < |cs| ==>
            && shapers[i].View() == Shaper.InitBucket(SHAPER_CAPACITY, cs[i].bandwidth, cs[i].bandwidth)
            && schedulers[i].lastPriority == -1)
    }

    static function Bandwidths(cs: seq<PortConfig>): (b: seq<real>)
      ensures |b| == |cs| && forall i :: 0 <= i < |cs| ==> b[i] == cs[i].bandwidth
    {
      seq(|cs|, i requires 0 <= i < |cs| => cs[i].bandwidth)
    }

    static function Propagations(cs: seq<PortConfig>): (b: seq<real>)
      ensures |b| == |cs| && forall i :: 0 <= i < |cs| ==> b[i] == cs[i].propagation
    {
      seq(|cs|, i requires 0 <= i < |cs| => cs[i].propagation)
    }

    static method MakeComponents(cs: seq<PortConfig>)
      returns (queues: seq<FifoQueue>, meters: seq<Metering.SrTcm>, droppers: seq<Dropping.RedDropper>,
               shapers: seq<Shaper.TokenBucket>, schedulers: seq<SpScheduler>, ghost made: set<object>)
      requires forall i :: 0 <= i < |cs| ==> ValidConfig(cs[i])
      ensures fresh(made) && Contained(queues, meters, droppers, shapers, schedulers, made)
      ensures |queues| == |meters| == NUM_QOS_LEVEL * |cs| && |droppers| == 2 * |queues| && |schedulers| == |cs|
      ensures Connected(queues, meters, droppers, shapers, schedulers)
      ensures |shapers| == |cs| && forall i :: 0 <= i < |cs| ==> shapers[i].rate == cs[i].bandwidth > 0.0
      ensures InitialComponents(cs, queues, meters, droppers, shapers, schedulers)
      ensures forall k :: 0 <= k < |queues| ==> queues[k].Valid() && queues[k].nodes == []
    {
      assert forall i :: 0 <= i < |cs| ==> cs[i].bandwidth > 0.0;
      hide FifoQueue.Valid, Distinct, ValidConfig, InitQueueAt, InitMeterAt, InitDropperAt;
      ghost var made0, made1, made2, made3, made4;
      meters, made0 := MakeMeters(cs);
      queues, made1 := MakeQueues(cs);
      droppers, made2 := MakeDroppers(cs, queues);
      shapers, made3 := MakeShapers(cs);
      schedulers, made4 := MakeSchedulers(cs, queues, shapers);
      made := made0 + made1 + made2 + made3 + made4;
      assert forall i :: 0 <= i < |cs| ==> shapers[i].View().rate == shapers[i].rate;
    }

    static lemma Capacities(cs: seq<PortConfig>, i: nat)
      requires (forall k :: 0 <= k < |cs| ==> ValidConfig(cs[k])) && i < |cs|
      ensures |cs[i].capacities| == NUM_QOS_LEVEL
      ensures forall t :: 0 <= t < NUM_QOS_LEVEL ==>
        InitQueueAt(cs, 3 * i + t) == QueueFifo.Queue([], cs[i].capacities[t]) && cs[i].capacities[t] >= 0
    {
      assert ValidConfig(cs[i]);
    }

    static method MakeQueues(cs: seq<PortConfig>) returns (list: seq<FifoQueue>, ghost made: set<object>)
      requires forall i :: 0 <= i < |cs| ==> ValidConfig(cs[i])
      ensures |list| == NUM_QOS_LEVEL * |cs| && Distinct(list)
      ensures fresh(made) && forall k :: 0 <= k < |list| ==> list[k] in made
      ensures forall k :: 0 <= k < |list| ==> list[k].Valid() && list[k].nodes == []
      ensures forall k :: 0 <= k < |list| ==> list[k].View() == InitQueueAt(cs, k)
    {
      hide FifoQueue.Valid, InitQueueAt;
      list, made := [], {};
      for i := 0 to |cs|
        invariant |list| == NUM_QOS_LEVEL * i && Distinct(list)
        invariant fresh(made) && forall k :: 0 <= k < |list| ==> list[k] in made
        invariant forall k :: 0 <= k < |list| ==> list[k].Valid() && list[k].nodes == []
        invariant forall k :: 0 <= k < |list| ==> list[k].View() == InitQueueAt(cs, k)
      {
        Capacities(cs, i);
        var q0 := new FifoQueue(cs[i].capacities[0]);
        var q1 := new FifoQueue(cs[i].capacities[1]);
        var q2 := new FifoQueue(cs[i].capacities[2]);
        list, made := list + [q0, q1, q2], made + {q0, q1, q2};
      }
    }

    static method MakeMeters(cs: seq<PortConfig>) returns (list: seq<Metering.SrTcm>, ghost made: set<object>)
      requires forall i :: 0 <= i < |cs| ==> ValidConfig(cs[i])
      ensures |list| == NUM_QOS_LEVEL * |cs| && Distinct(list)
      ensures fresh(made) && forall k :: 0 <= k < |list| ==> list[k] in made
      ensures forall k :: 0 <= k < |list| ==>
        list[k].View() == InitMeterAt(cs, k)
    {
      list, made := [], {};
      for i := 0 to |cs|
        invariant |list| == NUM_QOS_LEVEL * i && Distinct(list)
        invariant fresh(made) && forall k :: 0 <= k < |list| ==> list[k] in made
        invariant forall k :: 0 <= k < |list| ==>
          list[k].View() == InitMeterAt(cs, k)
      {
        for j := 0 to NUM_QOS_LEVEL
          invariant |list| == NUM_QOS_LEVEL * i + j && Distinct(list)
          invariant fresh(made) && forall k :: 0 <= k < |list| ==> list[k] in made
          invariant forall k :: 0 <= k < |list| ==>
            list[k].View() == InitMeterAt(cs, k)
        {
          var m := new Metering.SrTcm(cs[i].bandwidth / NUM_QOS_LEVEL as real * 1000.0, cs[i].cbs, cs[i].ebs);
          list, made := list + [m], made + {m};
        }
      }
    }

    static method MakeDroppers(cs: seq<PortConfig>, queues: seq<FifoQueue>)
      returns (list: seq<Dropping.RedDropper>, ghost made: set<object>)
      requires forall i :: 0 <= i < |cs| ==> ValidConfig(cs[i])
      requires |queues| == NUM_QOS_LEVEL * |cs|
      requires forall k :: 0 <= k < |queues| ==> queues[k].maxSizeInBytes == InitQueueAt(cs, k).capacity
      ensures |list| == 2 * |queues| && Distinct(list)
      ensures fresh(made) && forall k :: 0 <= k < |list| ==> list[k] in made
      ensures forall k :: 0 <= k < |list| ==> list[k].queue == queues[k / 2]
      ensures forall k :: 0 <= k < |list| ==>
        list[k].View() == InitDropperAt(cs, k)
    {
      hide ValidConfig, InitQueueAt;
      list, made := [], {};
      for i := 0 to |queues|
        invariant |list| == 2 * i && Distinct(list)
        invariant fresh(made) && forall k :: 0 <= k < |list| ==> list[k] in made
        invariant forall k :: 0 <= k < |list| ==> list[k].queue == queues[k / 2]
        invariant forall k :: 0 <= k < |list| ==>
          list[k].View() == InitDropperAt(cs, k)
      {
        var yellow := new Dropping.RedDropper((queues[i].maxSizeInBytes as real / 1400.0 * 0.6).Floor as real, 0.002,
            queues[i]);
        var green := new Dropping.RedDropper((queues[i].maxSizeInBytes as real / 1400.0 * 0.9).Floor as real, 0.002,
            queues[i]);
        list, made := list + [yellow, green], made + {yellow, green};
      }
    }

    static method MakeShapers(cs: seq<PortConfig>) returns (list: seq<Shaper.TokenBucket>, ghost made: set<object>)
      ensures |list| == |cs| && Distinct(list)
      ensures fresh(made) && forall k :: 0 <= k < |list| ==> list[k] in made
      ensures forall i :: 0 <= i < |cs| ==>
        list[i].View() == Shaper.InitBucket(SHAPER_CAPACITY, cs[i].bandwidth, cs[i].bandwidth)
    {
      list, made := [], {};
      for i := 0 to |cs|
        invariant |list| == i && Distinct(list)
        invariant fresh(made) && forall k :: 0 <= k < |list| ==> list[k] in made
        invariant forall k :: 0 <= k < i ==>
          list[k].View() == Shaper.InitBucket(SHAPER_CAPACITY, cs[k].bandwidth, cs[k].bandwidth)
      {
        var b := new Shaper.TokenBucket(2 * 1400 * 8, cs[i].bandwidth, cs[i].bandwidth);
        list, made := list + [b], made + {b};
      }
    }

    static method MakeSchedulers(cs: seq<PortConfig>, queues: seq<FifoQueue>, shapers: seq<Shaper.TokenBucket>)
      returns (list: seq<SpScheduler>, ghost made: set<object>)
      requires |queues| == NUM_QOS_LEVEL * |cs| && |shapers| == |cs|
      ensures |list| == |cs| && Distinct(list)
      ensures fresh(made) && forall k :: 0 <= k < |list| ==> list[k] in made
      ensures forall i :: 0 <= i < |cs| ==> list[i].queueList == queues[3 * i..3 * i + 3]
      ensures forall i :: 0 <= i < |cs| ==> list[i].lastPriority == -1
    {
      list, made := [], {};
      var offset := 0;
      for i := 0 to |cs|
        invariant |list| == i && offset == NUM_QOS_LEVEL * i && Distinct(list)
        invariant fresh(made) && forall k :: 0 <= k < |list| ==> list[k] in made
        invariant forall k :: 0 <= k < i ==> list[k].queueList == queues[3 * k..3 * k + 3]
        invariant forall k :: 0 <= k < i ==> list[k].lastPriority == -1
      {
        var s := new SpScheduler(queues[offset..offset + NUM_QOS_LEVEL], shapers[i]);
        list, made := list + [s], made + {s};
        offset := offset + NUM_QOS_LEVEL;
      }
    }

    // ----- One component changes, everything else stays -----

    /** The objects the handlers reach exist, and belong to the switch. */
    lemma Parts()
      requires Valid()
      ensures Wired() && Contained(queues, meters, droppers, shapers, schedulers, Repr)
      ensures portFlags in Repr && portsAvailableTime in Repr && stats in Repr && stats.records in Repr
    {
      hide FifoQueue.Valid, SwitchStats.Valid;
    }

    /** All but one object of the switch are as they were, and that one holds no packets. */
    twostate lemma StillValid(changed: object)
      requires old(Valid())
      requires Repr == old(Repr)
      requires unchanged(old(Repr) - {changed})
      requires !(changed is FifoQueue) && !(changed is Node) && !(changed is NetworkSwitch)
      requires !(changed is SwitchStats) && changed != stats.records
      ensures Valid() && stats.View() == old(stats.View())
    {
      hide FifoQueue.Valid, SwitchStats.Valid, Connected;
    }

    /** Components of another kind than the changed object look the same. */
    twostate lemma SameViews(changed: object)
      requires old(Valid())
      requires unchanged(old(Repr) - {changed})
      ensures !(changed is FifoQueue) ==> Views(queues) == old(Views(queues))
      ensures !(changed is Metering.SrTcm) ==> MeterViews(meters) == old(MeterViews(meters))
      ensures !(changed is Dropping.RedDropper) ==> DropperViews(droppers) == old(DropperViews(droppers))
      ensures !(changed is Shaper.TokenBucket) ==> BucketViews(shapers) == old(BucketViews(shapers))
      ensures !(changed is SpScheduler) ==> Priorities(schedulers) == old(Priorities(schedulers))
      ensures changed != portFlags ==> portFlags[..] == old(portFlags[..])
      ensures changed != portsAvailableTime ==> portsAvailableTime[..] == old(portsAvailableTime[..])
    {
      hide FifoQueue.Valid, SwitchStats.Valid, Connected;
    }

    twostate lemma OneMeterView(index: nat)
      requires old(Valid()) && index < |meters|
      requires unchanged(old(Repr) - {meters[index]})
      ensures MeterViews(meters) == old(MeterViews(meters))[index := meters[index].View()]
    {
      hide FifoQueue.Valid, SwitchStats.Valid;
      assert forall j :: 0 <= j < |meters| && j != index ==> meters[j] != meters[index];
      hide Connected;
    }

    twostate lemma OneDropperView(index: nat)
      requires old(Valid()) && index < |droppers|
      requires unchanged(old(Repr) - {droppers[index]})
      ensures DropperViews(droppers) == old(DropperViews(droppers))[index := droppers[index].View()]
    {
      hide FifoQueue.Valid, SwitchStats.Valid;
      assert forall j :: 0 <= j < |droppers| && j != index ==> droppers[j] != droppers[index];
      hide Connected;
    }

    twostate lemma OneBucketView(index: nat)
      requires old(Valid()) && index < |shapers|
      requires unchanged(old(Repr) - {shapers[index]})
      ensures BucketViews(shapers) == old(BucketViews(shapers))[index := shapers[index].View()]
    {
      hide FifoQueue.Valid, SwitchStats.Valid;
      assert forall j :: 0 <= j < |shapers| && j != index ==> shapers[j] != shapers[index];
      hide Connected;
    }

    /** The flat arrays have the lengths that the ports need. */
    lemma FlatFits()
      requires Valid()
      ensures Wired() && Fits(FlatView(), Wire())
    {
      hide FifoQueue.Valid, SwitchStats.Valid;
    }

    twostate lemma MeterChanged(index: nat)
      requires old(Valid()) && index < NUM_QOS_LEVEL * |shapers| == |meters|
      requires Repr == old(Repr)
      requires unchanged(old(Repr) - {meters[index]})
      ensures Valid() && stats.View() == old(stats.View())
      ensures var i, t := index / 3, index % 3;
        var p := old(PortStates())[i];
        PortStates() == old(PortStates())[i := p.(meters := p.meters[t := meters[index].View()])]
    {
      hide FifoQueue.Valid, SwitchStats.Valid, PortsOf, PortAt;
      StillValid(meters[index]);
      SameViews(meters[index]);
      OneMeterView(index);
      FlatFits();
      assert FlatView() == old(FlatView()).(meters := old(FlatView()).meters[index := meters[index].View()]);
      hide Valid, FlatView, Connected;
      SetMeter(old(FlatView()), Wire(), index / 3, index % 3, meters[index].View());
    }

    twostate lemma DropperChanged(index: nat)
      requires old(Valid()) && index < 2 * NUM_QOS_LEVEL * |shapers| == |droppers|
      requires Repr == old(Repr)
      requires unchanged(old(Repr) - {droppers[index]})
      ensures Valid() && stats.View() == old(stats.View())
      ensures var i, k := index / 6, index % 6;
        var p := old(PortStates())[i];
        PortStates() == old(PortStates())[i := p.(droppers := p.droppers[k := droppers[index].View()])]
    {
      hide FifoQueue.Valid, SwitchStats.Valid, PortsOf, PortAt;
      StillValid(droppers[index]);
      SameViews(droppers[index]);
      OneDropperView(index);
      FlatFits();
      assert FlatView() == old(FlatView()).(droppers := old(FlatView()).droppers[index := droppers[index].View()]);
      hide Valid, FlatView, Connected;
      SetDropper(old(FlatView()), Wire(), index / 6, index % 6, droppers[index].View());
    }

    twostate lemma BucketChanged(i: nat)
      requires old(Valid()) && i < |shapers|
      requires Repr == old(Repr)
      requires unchanged(old(Repr) - {shapers[i]})
      ensures Valid() && stats.View() == old(stats.View())
      ensures PortStates() == old(PortStates())[i := old(PortStates())[i].(bucket := shapers[i].View())]
    {
      hide FifoQueue.Valid, SwitchStats.Valid, PortsOf, PortAt;
      StillValid(shapers[i]);
      SameViews(shapers[i]);
      OneBucketView(i);
      FlatFits();
      assert FlatView() == old(FlatView()).(buckets := old(FlatView()).buckets[i := shapers[i].View()]);
      hide Valid, FlatView, Connected;
      SetBucket(old(FlatView()), Wire(), i, shapers[i].View());
    }

    twostate lemma FlagChanged(i: nat)
      requires old(Valid()) && i < |shapers|
      requires Repr == old(Repr)
      requires unchanged(old(Repr) - {portFlags})
      requires portFlags[..] == old(portFlags[..])[i := portFlags[i]]
      ensures Valid() && stats.View() == old(stats.View())
      ensures PortStates() == old(PortStates())[i := old(PortStates())[i].(flag := portFlags[i])]
    {
      hide FifoQueue.Valid, SwitchStats.Valid, PortsOf, PortAt;
      StillValid(portFlags);
      SameViews(portFlags);
      FlatFits();
      assert FlatView() == old(FlatView()).(flags := old(FlatView()).flags[i := portFlags[i]]);
      hide Valid, FlatView, Connected;
      SetFlag(old(FlatView()), Wire(), i, portFlags[i]);
    }

    twostate lemma AvailableChanged(i: nat)
      requires old(Valid()) && i < |shapers|
      requires Repr == old(Repr)
      requires unchanged(old(Repr) - {portsAvailableTime})
      requires portsAvailableTime[..] == old(portsAvailableTime[..])[i := portsAvailableTime[i]]
      ensures Valid() && stats.View() == old(stats.View())
      ensures PortStates() == old(PortStates())[i := old(PortStates())[i].(available := portsAvailableTime[i])]
    {
      hide FifoQueue.Valid, SwitchStats.Valid, PortsOf, PortAt;
      StillValid(portsAvailableTime);
      SameViews(portsAvailableTime);
      FlatFits();
      assert FlatView() == old(FlatView()).(available := old(FlatView()).available[i := portsAvailableTime[i]]);
      hide Valid, FlatView, Connected;
      SetAvailable(old(FlatView()), Wire(), i, portsAvailableTime[i]);
    }

    /** Every node belongs to the queue it hangs in. */
    twostate lemma OwnedNodes()
      requires old(Valid())
      ensures forall k :: 0 <= k < |queues| ==>
        forall j :: 0 <= j < old(|queues[k].nodes|) ==> old(queues[k].nodes)[j].owner == queues[k]
    {
      hide SwitchStats.Valid, Connected, Contained;
      forall k | 0 <= k < |queues|
        ensures forall j :: 0 <= j < old(|queues[k].nodes|) ==> old(queues[k].nodes)[j].owner == queues[k]
      {
        assert old(queues[k].Valid());
      }
    }

    /** The scheduler of port `i`, its queues, and the nodes in them. */
    ghost function Pipeline(i: nat): set<object>
      requires i < |schedulers|
      reads schedulers[i].queueList
    {
      var scheduler: set<object> := {schedulers[i]};
      scheduler + (set q | q in schedulers[i].queueList :: q as object) + NodesOf(schedulers[i].queueList)
    }

    /** The queues of the other ports are as they were. */
    twostate lemma OtherQueues(i: nat)
      requires old(Valid()) && i < |shapers| && |schedulers| == |shapers|
      requires unchanged(old(Repr) - old(Pipeline(i)) - {this})
      ensures forall k :: 0 <= k < |queues| && k / 3 != i ==>
        queues[k].Valid() && queues[k].View() == old(queues[k].View()) && queues[k].nodes == old(queues[k].nodes)
    {
      hide FifoQueue.Valid, SwitchStats.Valid;
      OwnedNodes();
    }

    /** Packets moved between the queues of port `i`: the rest of the switch is as it was. */
    twostate lemma PipelineChanged(i: nat)
      requires old(Valid()) && i < |shapers| && |schedulers| == |shapers|
      requires old(Repr) <= Repr
      requires fresh(Repr - old(Repr))
      requires unchanged(old(Repr) - old(Pipeline(i)) - {this})
      requires schedulers[i].Valid() && NodesOf(schedulers[i].queueList) <= Repr
      ensures Valid() && stats.View() == old(stats.View())
      ensures PortStates() == old(PortStates())[i := old(PortStates())[i].(
                queues := Views(schedulers[i].queueList), lastPriority := schedulers[i].lastPriority)]
    {
      PipelineKeepsValid(i);
      PipelineViews(i);
      FlatFits();
      hide Valid, PortsOf, Connected, Pipeline, FlatView;
      SetPipeline(old(FlatView()), Wire(), i, Views(schedulers[i].queueList), schedulers[i].lastPriority);
    }

    twostate lemma PipelineKeepsValid(i: nat)
      requires old(Valid()) && i < |shapers| && |schedulers| == |shapers|
      requires old(Repr) <= Repr
      requires fresh(Repr - old(Repr))
      requires unchanged(old(Repr) - old(Pipeline(i)) - {this})
      requires schedulers[i].Valid() && NodesOf(schedulers[i].queueList) <= Repr
      ensures Valid() && stats.View() == old(stats.View())
    {
      hide FifoQueue.Valid, SwitchStats.Valid;
      OtherQueues(i);
      forall k | 0 <= k < |queues|
        ensures queues[k].Valid() && forall n :: n in queues[k].nodes ==> n in Repr
      {
        if k / 3 == i {
          assert queues[k] == schedulers[i].queueList[k - 3 * i];
          assert queues[k] in schedulers[i].queueList;
          NodesOfEach(schedulers[i].queueList);
        }
      }
    }

    twostate lemma PipelineViews(i: nat)
      requires old(Valid()) && i < |shapers| && |schedulers| == |shapers|
      requires unchanged(old(Repr) - old(Pipeline(i)) - {this})
      ensures var f := old(FlatView());
        var qs := Views(schedulers[i].queueList);
        |qs| == NUM_QOS_LEVEL && Fits(f, Wire()) &&
        FlatView() == f.(queues := f.queues[..3 * i] + qs + f.queues[3 * i + 3..],
                         priorities := f.priorities[i := schedulers[i].lastPriority])
    {
      hide Valid, Pipeline;
      PipelineQueueViews(i);
      PipelineOtherViews(i);
    }

    twostate lemma PipelineQueueViews(i: nat)
      requires old(Valid()) && i < |shapers| && |schedulers| == |shapers|
      requires unchanged(old(Repr) - old(Pipeline(i)) - {this})
      ensures |queues| == NUM_QOS_LEVEL * |shapers| && |schedulers[i].queueList| == NUM_QOS_LEVEL
      ensures var f := old(Views(queues));
        Views(queues) == f[..3 * i] + Views(schedulers[i].queueList) + f[3 * i + 3..]
    {
      hide FifoQueue.Valid, SwitchStats.Valid;
      OtherQueues(i);
      var f := old(Views(queues));
      var qs := Views(schedulers[i].queueList);
      forall k | 0 <= k < |queues|
        ensures Views(queues)[k] == (f[..3 * i] + qs + f[3 * i + 3..])[k]
      {
        if k / 3 == i {
          assert queues[k] == schedulers[i].queueList[k - 3 * i];
        }
      }
    }

    twostate lemma PipelineOtherViews(i: nat)
      requires old(Valid()) && i < |shapers| && |schedulers| == |shapers|
      requires unchanged(old(Repr) - old(Pipeline(i)) - {this})
      ensures Fits(old(FlatView()), Wire())
      ensures MeterViews(meters) == old(MeterViews(meters)) && DropperViews(droppers) == old(DropperViews(droppers))
      ensures BucketViews(shapers) == old(BucketViews(shapers))
      ensures Priorities(schedulers) == old(Priorities(schedulers))[i := schedulers[i].lastPriority]
      ensures portFlags[..] == old(portFlags[..]) && portsAvailableTime[..] == old(portsAvailableTime[..])
    {
      OldFits();
      OutsidePipeline(i);
      SchedulersOutside(i);
      hide Valid, Pipeline;
    }

    twostate lemma OldFits()
      requires old(Valid())
      ensures Wired() && Fits(old(FlatView()), Wire())
    {
      hide FifoQueue.Valid, SwitchStats.Valid, Distinct;
    }

    /** The components of other kinds belong to the switch and to no pipeline. */
    twostate lemma OutsidePipeline(i: nat)
      requires old(Valid()) && i < |schedulers|
      ensures forall k :: 0 <= k < |meters| ==> meters[k] in old(Repr) && meters[k] !in old(Pipeline(i))
      ensures forall k :: 0 <= k < |droppers| ==> droppers[k] in old(Repr) && droppers[k] !in old(Pipeline(i))
      ensures forall k :: 0 <= k < |shapers| ==> shapers[k] in old(Repr) && shapers[k] !in old(Pipeline(i))
      ensures portFlags in old(Repr) && portFlags !in old(Pipeline(i))
      ensures portsAvailableTime in old(Repr) && portsAvailableTime !in old(Pipeline(i))
    {
      hide FifoQueue.Valid, SwitchStats.Valid, Connected;
    }

    twostate lemma SchedulersOutside(i: nat)
      requires old(Valid()) && i < |schedulers|
      ensures forall k :: 0 <= k < |schedulers| && k != i ==>
        schedulers[k] in old(Repr) && schedulers[k] !in old(Pipeline(i))
    {
      hide FifoQueue.Valid, SwitchStats.Valid;
    }

    twostate lemma StatsChanged()
      requires old(Valid())
      requires old(Repr) <= Repr
      requires fresh(Repr - old(Repr))
      requires unchanged(old(Repr) - {stats, old(stats.records)} - {this})
      requires stats.Valid() && stats.records in Repr
      ensures Valid() && PortStates() == old(PortStates())
    {
      hide FifoQueue.Valid, SwitchStats.Valid, PortsOf, Connected;
    }

    // ----- What the handlers read -----

    lemma MeterAt(i: nat, t: nat)
      requires Valid() && i < |shapers| && t < NUM_QOS_LEVEL
      ensures 3 * i + t < |meters| == NUM_QOS_LEVEL * |shapers| && meters[3 * i + t] in Repr
      ensures meters[3 * i + t].View() == PortStates()[i].meters[t]
    {
      hide FifoQueue.Valid, SwitchStats.Valid, Distinct;
    }

    lemma DropperAt(i: nat, k: nat)
      requires Valid() && i < |shapers| && k < 2 * NUM_QOS_LEVEL
      ensures 6 * i + k < |droppers| == 2 * NUM_QOS_LEVEL * |shapers| && droppers[6 * i + k] in Repr
      ensures droppers[6 * i + k].View() == PortStates()[i].droppers[k]
      ensures 3 * i + k / 2 < |queues| && droppers[6 * i + k].queue == queues[3 * i + k / 2]
    {
      hide FifoQueue.Valid, SwitchStats.Valid, Distinct;
    }

    lemma QueueAt(i: nat, t: nat)
      requires Valid() && i < |shapers| && t < NUM_QOS_LEVEL
      ensures 3 * i + t < |queues| && queues[3 * i + t].Valid()
      ensures queues[3 * i + t].View() == PortStates()[i].queues[t]
      ensures queues[3 * i + t].sizeInBytes == Bytes(PortStates()[i].queues[t].packets)
    {
      hide SwitchStats.Valid, Distinct;
    }

    lemma BucketAt(i: nat)
      requires Valid() && i < |shapers|
      ensures shapers[i] in Repr && shapers[i].View() == PortStates()[i].bucket
    {
      hide FifoQueue.Valid, SwitchStats.Valid, Distinct;
    }

    lemma PortParts(i: nat)
      requires Valid() && i < |shapers|
      ensures |schedulers| == |shapers| == portFlags.Length == portsAvailableTime.Length
      ensures |bandwidths| == |propagationDelays| == |shapers|
      ensures portFlags in Repr && portsAvailableTime in Repr
      ensures portFlags[i] == PortStates()[i].flag && portsAvailableTime[i] == PortStates()[i].available
      ensures bandwidths[i] == PortStates()[i].bandwidth && propagationDelays[i] == PortStates()[i].propagation
      ensures schedulers[i].lastPriority == PortStates()[i].lastPriority
    {
      hide FifoQueue.Valid, SwitchStats.Valid, Distinct;
    }

    /** The scheduler of a port with its queues, as the port sees them. */
    lemma SchedulerAt(i: nat)
      requires Valid() && i < |shapers|
      ensures |schedulers| == |shapers| && schedulers[i].Valid() && |schedulers[i].queueList| == NUM_QOS_LEVEL
      ensures Views(schedulers[i].queueList) == PortStates()[i].queues
      ensures this in Repr && schedulers[i] in Repr && NodesOf(schedulers[i].queueList) <= Repr
      ensures forall q :: q in schedulers[i].queueList ==> q in Repr
      ensures forall t :: 0 <= t < NUM_QOS_LEVEL ==> schedulers[i].queueList[t] == queues[3 * i + t]
    {
      Parts();
      SchedulerValid(i);
      SchedulerViews(i);
      hide Valid, PortStates;
    }

    lemma SchedulerValid(i: nat)
      requires Valid() && i < |schedulers|
      ensures schedulers[i].Valid()
      ensures this in Repr && schedulers[i] in Repr && NodesOf(schedulers[i].queueList) <= Repr
      ensures forall q :: q in schedulers[i].queueList ==> q in Repr
    {
      hide FifoQueue.Valid, SwitchStats.Valid;
      var list := schedulers[i].queueList;
      forall t | 0 <= t < |list|
        ensures list[t] == queues[3 * i + t] && list[t].Valid()
      {
      }
      NodesOfEach(list);
    }

    lemma SchedulerViews(i: nat)
      requires Valid() && i < |shapers|
      ensures |schedulers[i].queueList| == NUM_QOS_LEVEL
      ensures Views(schedulers[i].queueList) == PortStates()[i].queues
      ensures forall t :: 0 <= t < NUM_QOS_LEVEL ==> schedulers[i].queueList[t] == queues[3 * i + t]
    {
      hide FifoQueue.Valid, SwitchStats.Valid, Distinct;
      var list := schedulers[i].queueList;
      forall t | 0 <= t < NUM_QOS_LEVEL
        ensures list[t] == queues[3 * i + t] && list[t].View() == PortStates()[i].queues[t]
      {
      }
    }

    lemma PipelineAt(i: nat)
      requires i < |schedulers|
      ensures this !in Pipeline(i) && this !in NodesOf(schedulers[i].queueList)
      ensures schedulers[i] !in NodesOf(schedulers[i].queueList)
      ensures schedulers[i] in Pipeline(i) && NodesOf(schedulers[i].queueList) <= Pipeline(i)
      ensures forall t :: 0 <= t < |schedulers[i].queueList| ==> schedulers[i].queueList[t] in Pipeline(i)
    {
      forall t | 0 <= t < |schedulers[i].queueList|
        ensures schedulers[i].queueList[t] in Pipeline(i)
      {
        assert schedulers[i].queueList[t] in schedulers[i].queueList;
      }
    }

    // ----- Components, one at a time -----

    method UpdateMeterAt(i: nat, t: nat, packet: Packet, now: real) returns (color: Metering.Color)
      requires Valid() && i < |shapers| && t < NUM_QOS_LEVEL
      modifies Repr
      ensures Valid() && Repr == old(Repr) && stats.View() == old(stats.View())
      ensures color == Metering.Update(old(PortStates())[i].meters[t], packet.sizeInBytes, now).1
      ensures var p := old(PortStates())[i];
        PortStates() == old(PortStates())[i := p.(meters :=
          p.meters[t := Metering.Update(p.meters[t], packet.sizeInBytes, now).0])]
    {
      hide Valid, PortStates, Metering.Update;
      MeterAt(i, t);
      color := meters[3 * i + t].UpdateMeter(packet, now);
      MeterChanged(3 * i + t);
    }

    method RestoreMeterAt(i: nat, t: nat, state: MeterSnapshot)
      requires Valid() && i < |shapers| && t < NUM_QOS_LEVEL
      modifies Repr
      ensures Valid() && Repr == old(Repr) && stats.View() == old(stats.View())
      ensures var p := old(PortStates())[i];
        PortStates() == old(PortStates())[i := p.(meters := p.meters[t := Metering.Restore(p.meters[t], state)])]
    {
      hide Valid, PortStates, Metering.Restore;
      MeterAt(i, t);
      meters[3 * i + t].UpdateReverse(state);
      MeterChanged(3 * i + t);
    }

    method UpdateDropperAt(i: nat, k: nat, now: real) returns (drop: bool)
      requires Valid() && i < |shapers| && k < 2 * NUM_QOS_LEVEL
      modifies Repr
      ensures Valid() && Repr == old(Repr) && stats.View() == old(stats.View())
      ensures var p := old(PortStates())[i];
        var d := Dropping.Sampled(p.droppers[k], |p.queues[k / 2].packets|, now, power);
        drop == Dropping.Drops(d) && PortStates() == old(PortStates())[i := p.(droppers := p.droppers[k := d])]
    {
      hide Valid, PortStates, Dropping.Sampled, Dropping.Drops, FifoQueue.Valid;
      DropperAt(i, k);
      QueueAt(i, k / 2);
      drop := droppers[6 * i + k].UpdateDropper(now, power);
      DropperChanged(6 * i + k);
    }

    method TouchDropperAt(i: nat, k: nat, now: real)
      requires Valid() && i < |shapers| && k < 2 * NUM_QOS_LEVEL
      modifies Repr
      ensures Valid() && Repr == old(Repr) && stats.View() == old(stats.View())
      ensures var p := old(PortStates())[i];
        PortStates() == old(PortStates())[i := p.(droppers := p.droppers[k := Dropping.TimeUpdate(p.droppers[k], now)])]
    {
      hide Valid, PortStates, Dropping.TimeUpdate;
      DropperAt(i, k);
      droppers[6 * i + k].UpdateTime(now);
      DropperChanged(6 * i + k);
    }

    method RestoreDropperAt(i: nat, k: nat, state: DropperSnapshot)
      requires Valid() && i < |shapers| && k < 2 * NUM_QOS_LEVEL
      modifies Repr
      ensures Valid() && Repr == old(Repr) && stats.View() == old(stats.View())
      ensures var p := old(PortStates())[i];
        PortStates() == old(PortStates())[i := p.(droppers := p.droppers[k := Dropping.Restore(p.droppers[k], state)])]
    {
      hide Valid, PortStates, Dropping.Restore;
      DropperAt(i, k);
      droppers[6 * i + k].UpdateReverse(state);
      DropperChanged(6 * i + k);
    }

    method SetQTimeAt(i: nat, k: nat, qTime: real)
      requires Valid() && i < |shapers| && k < 2 * NUM_QOS_LEVEL
      modifies Repr
      ensures Valid() && Repr == old(Repr) && stats.View() == old(stats.View())
      ensures var p := old(PortStates())[i];
        PortStates() == old(PortStates())[i := p.(droppers := p.droppers[k := p.droppers[k].(qTime := qTime)])]
    {
      hide Valid, PortStates;
      DropperAt(i, k);
      droppers[6 * i + k].qTime := qTime;
      DropperChanged(6 * i + k);
    }

    /** `packet` is None where the program passes NULL. */
    method ConsumeAt(i: nat, packet: Option<Packet>, now: real)
      requires Valid() && i < |shapers|
      modifies Repr
      ensures Valid() && Repr == old(Repr) && stats.View() == old(stats.View())
      ensures var p := old(PortStates())[i];
        var b := Shaper.Consume(p.bucket, if packet.Some? then packet.value.sizeInBytes else 0, now);
        PortStates() == old(PortStates())[i := p.(bucket := b)]
    {
      hide Valid, PortStates, Shaper.Consume;
      BucketAt(i);
      shapers[i].ConsumeTokens(packet, now);
      BucketChanged(i);
    }

    method RestoreBucketAt(i: nat, state: BucketSnapshot)
      requires Valid() && i < |shapers|
      modifies Repr
      ensures Valid() && Repr == old(Repr) && stats.View() == old(stats.View())
      ensures var p := old(PortStates())[i];
        PortStates() == old(PortStates())[i := p.(bucket := Shaper.Restore(p.bucket, state))]
    {
      hide Valid, PortStates, Shaper.Restore;
      BucketAt(i);
      shapers[i].ConsumeReverse(state);
      BucketChanged(i);
    }

    method SetFlagAt(i: nat, flag: bool)
      requires Valid() && i < |shapers|
      modifies Repr
      ensures Valid() && Repr == old(Repr) && stats.View() == old(stats.View())
      ensures PortStates() == old(PortStates())[i := old(PortStates())[i].(flag := flag)]
    {
      hide Valid, PortStates;
      PortParts(i);
      portFlags[i] := flag;
      FlagChanged(i);
    }

    method SetAvailableAt(i: nat, available: real)
      requires Valid() && i < |shapers|
      modifies Repr
      ensures Valid() && Repr == old(Repr) && stats.View() == old(stats.View())
      ensures PortStates() == old(PortStates())[i := old(PortStates())[i].(available := available)]
    {
      hide Valid, PortStates;
      PortParts(i);
      portsAvailableTime[i] := available;
      AvailableChanged(i);
    }

    // ----- Queues and statistics -----

    /** Enqueues the packet and writes its next hop into the new node. */
    static method EnqueueRouted(s: SpScheduler, t: nat, packet: Packet, nextHop: int)
      requires s.Valid() && t < |s.queueList|
      requires Bytes(s.queueList[t].contents) + packet.sizeInBytes <= s.queueList[t].maxSizeInBytes
      modifies s.queueList, NodesOf(s.queueList)
      ensures s.Valid() && fresh(NodesOf(s.queueList) - old(NodesOf(s.queueList)))
      ensures Views(s.queueList) ==
              old(Views(s.queueList))[t := Put(old(s.queueList[t].View()), packet.(nextHop := nextHop))]
    {
      hide FifoQueue.Valid;
      s.OwnNodes();
      var q := s.queueList[t];
      assert q in s.queueList && q.Valid();
      PutRouted(q, packet, nextHop);
      NodesOfEach(s.queueList);
    }

    static method PutRouted(q: FifoQueue, packet: Packet, nextHop: int)
      requires q.Valid() && Bytes(q.contents) + packet.sizeInBytes <= q.maxSizeInBytes
      modifies q, q.nodes
      ensures q.Valid() && q.View() == Put(old(q.View()), packet.(nextHop := nextHop))
      ensures |q.nodes| == |old(q.nodes)| + 1 && fresh(q.nodes[|old(q.nodes)|])
      ensures q.nodes[..|old(q.nodes)|] == old(q.nodes)
    {
      var node := q.PutPacket(packet);
      BytesOfPut(old(q.contents), packet);
      BytesOfPut(old(q.contents), packet.(nextHop := nextHop));
      node.data := node.data.(nextHop := nextHop);
      q.contents := old(q.contents) + [node.data];
    }

    static method DequeueTail(s: SpScheduler, t: nat)
      requires s.Valid() && t < |s.queueList| && s.queueList[t].contents != []
      modifies s.queueList, NodesOf(s.queueList)
      ensures s.Valid() && NodesOf(s.queueList) <= old(NodesOf(s.queueList))
      ensures Views(s.queueList) == old(Views(s.queueList))[t := PutReverse(old(s.queueList[t].View()))]
    {
      hide FifoQueue.Valid;
      s.OwnNodes();
      assert s.queueList[t] in s.queueList && s.queueList[t].Valid();
      s.queueList[t].PutPacketReverse();
      NodesOfEach(s.queueList);
    }

    method PutAt(i: nat, t: nat, packet: Packet, nextHop: int)
      requires Valid() && i < |shapers| && t < NUM_QOS_LEVEL
      requires Bytes(PortStates()[i].queues[t].packets) + packet.sizeInBytes <= PortStates()[i].queues[t].capacity
      modifies Repr
      ensures Valid() && fresh(Repr - old(Repr)) && stats.View() == old(stats.View())
      ensures var p := old(PortStates())[i];
        PortStates() == old(PortStates())[i := p.(queues := p.queues[t := Put(p.queues[t],
            packet.(nextHop := nextHop))])]
    {
      hide Valid, PortStates, Pipeline, SpScheduler.Valid, NodesOf, Bytes;
      SchedulerAt(i);
      PipelineAt(i);
      PortParts(i);
      EnqueueRouted(schedulers[i], t, packet, nextHop);
      Repr := Repr + NodesOf(schedulers[i].queueList);
      PipelineChanged(i);
    }

    method PutReverseAt(i: nat, t: nat)
      requires Valid() && i < |shapers| && t < NUM_QOS_LEVEL
      requires PortStates()[i].queues[t].packets != []
      modifies Repr
      ensures Valid() && fresh(Repr - old(Repr)) && stats.View() == old(stats.View())
      ensures var p := old(PortStates())[i];
        PortStates() == old(PortStates())[i := p.(queues := p.queues[t := PutReverse(p.queues[t])])]
    {
      hide Valid, PortStates, Pipeline, SpScheduler.Valid, NodesOf, Bytes;
      SchedulerAt(i);
      PipelineAt(i);
      PortParts(i);
      DequeueTail(schedulers[i], t);
      PipelineChanged(i);
    }

    /** The scheduler takes the next packet. */
    method TakeAt(i: nat) returns (packet: Packet)
      requires Valid() && i < |shapers| && !Idle(PortStates()[i])
      modifies Repr
      ensures Valid() && fresh(Repr - old(Repr)) && stats.View() == old(stats.View())
      ensures var p := old(PortStates())[i];
        var prio := FirstBusy(p.queues);
        && packet == p.queues[prio].packets[0]
        && PortStates() == old(PortStates())[i := p.(queues := p.queues[prio := Take(p.queues[prio])],
            lastPriority := prio)]
    {
      hide Valid, PortStates, Pipeline, SpScheduler.Valid, NodesOf, FirstBusy;
      SchedulerAt(i);
      PipelineAt(i);
      PortParts(i);
      var node := schedulers[i].UpdateScheduler();
      packet := node.data;
      PipelineChanged(i);
    }

    method TakeReverseAt(i: nat, state: SchedulerSnapshot)
      requires Valid() && i < |shapers| && CanUndoDeparture(PortStates()[i], state)
      modifies Repr
      ensures Valid() && fresh(Repr - old(Repr)) && stats.View() == old(stats.View())
      ensures PortStates() == old(PortStates())[i := PutBack(old(PortStates())[i], state)]
    {
      hide Valid, PortStates, Pipeline, SpScheduler.Valid, NodesOf, Bytes;
      SchedulerAt(i);
      PipelineAt(i);
      PortParts(i);
      schedulers[i].UpdateReverse(state);
      Repr := Repr + NodesOf(schedulers[i].queueList);
      PipelineChanged(i);
    }

    method NextSizeAt(i: nat) returns (size: int, sound: bool)
      requires Valid() && i < |shapers|
      ensures size == NextSize(PortStates()[i].queues)
      ensures sound == !EmptyHead(PortStates()[i])
      ensures sound && size == 0 <==> Idle(PortStates()[i])
    {
      hide Valid, PortStates, SpScheduler.Valid;
      SchedulerAt(i);
      size, sound := schedulers[i].HasNext();
      PortParts(i);
    }

    method RecordPacket(pid: int, delay: real, drop: int)
      requires Valid()
      modifies Repr
      ensures Valid() && fresh(Repr - old(Repr))
      ensures PortStates() == old(PortStates())
      ensures stats.View() == Append(old(stats.View()), pid, delay, drop)
    {
      hide Valid, PortStates, SwitchStats.Valid;
      StatsAt();
      stats.UpdateStats(pid, delay, drop);
      Repr := Repr + {stats.records};
      StatsChanged();
    }

    method RetractRecord()
      requires Valid() && stats.View().live != []
      modifies Repr
      ensures Valid() && fresh(Repr - old(Repr))
      ensures PortStates() == old(PortStates())
      ensures stats.View() == Retract(old(stats.View()))
    {
      hide Valid, PortStates, SwitchStats.Valid;
      StatsAt();
      stats.UpdateStatsReverse();
      StatsChanged();
    }

    /** Adds to the counters that no record belongs to. */
    method Count(receivedDelta: int, sentDelta: int)
      requires Valid()
      modifies Repr
      ensures Valid() && fresh(Repr - old(Repr))
      ensures PortStates() == old(PortStates())
      ensures var st := old(stats.View());
        stats.View() == st.(received := st.received + receivedDelta, sent := st.sent + sentDelta)
    {
      hide Valid, PortStates;
      StatsAt();
      stats.received := stats.received + receivedDelta;
      stats.numPacketsSent := stats.numPacketsSent + sentDelta;
      StatsChanged();
    }

    lemma StatsAt()
      requires Valid()
      ensures this in Repr && stats in Repr && stats.records in Repr && stats.Valid()
    {
      hide FifoQueue.Valid, SwitchStats.Valid;
    }

    // ----- ARRIVE -----

    /** Lets the dropper `k` of a port decide, after saving its state and the q_time of its twin. */
    method ConsultDropper(ev: TwEvent, i: nat, k: nat, twin: nat, now: real) returns (drop: bool)
      requires Valid() && ev !in Repr && i < |shapers| && k < 2 * NUM_QOS_LEVEL && twin < 2 * NUM_QOS_LEVEL
      modifies Repr, ev
      ensures Valid() && Repr == old(Repr) && stats.View() == old(stats.View()) && ev.bits == old(ev.bits)
      ensures var p := old(PortStates())[i];
        drop == Dropping.Drops(Dropping.Sampled(p.droppers[k], |p.queues[k / 2].packets|, now, power))
      ensures var p := old(PortStates())[i];
        PortStates() == old(PortStates())[i :=
          p.(droppers := p.droppers[k := Dropping.Sampled(p.droppers[k], |p.queues[k / 2].packets|, now, power)])]
      ensures var p := old(PortStates())[i];
        ev.msg == old(ev.msg).(snapshot := old(ev.msg).snapshot.(
             dropper := Dropping.SnapshotOf(p.droppers[k]), dropperQTime := p.droppers[twin].qTime))
    {
      hide Valid, PortStates, Dropping.Sampled, Dropping.Drops;
      DropperAt(i, k);
      DropperAt(i, twin);
      var state := droppers[6 * i + k].TakeSnapshot();
      ev.msg := ev.msg.(snapshot := ev.msg.snapshot.(dropper := state, dropperQTime := droppers[6 * i + twin].qTime));
      drop := UpdateDropperAt(i, k, now);
    }

    method QueueFull(i: nat, packet: Packet) returns (full: bool)
      requires Valid() && i < |shapers| && packet.tos < NUM_QOS_LEVEL
      ensures var q := PortStates()[i].queues[packet.tos];
        full == (Bytes(q.packets) + packet.sizeInBytes > q.capacity)
    {
      hide Valid, PortStates, Bytes, FifoQueue.Valid;
      QueueAt(i, packet.tos);
      var queue := queues[i * NUM_QOS_LEVEL + packet.tos];
      full := queue.sizeInBytes + packet.sizeInBytes > queue.maxSizeInBytes;
    }

    /** The dropper section: decides whether a packet of the given color is dropped. */
    method DecideDrop(ev: TwEvent, i: nat, color: Metering.Color, now: real) returns (drop: bool)
      requires Valid() && ev !in Repr && i < |shapers|
      requires ev.msg.packet.tos < NUM_QOS_LEVEL && ev.bits == NO_BITS
      modifies Repr, ev
      ensures Valid() && Repr == old(Repr) && stats.View() == old(stats.View())
      ensures var v := Decide(Environment(), old(PortStates())[i], old(ev.msg.packet), color, now,
          old(ev.msg.snapshot));
        && drop == v.drop
        && PortStates() == old(PortStates())[i := v.port]
        && ev.msg == old(ev.msg).(snapshot := v.snapshot)
        && ev.bits == v.bits.(c1 := false)
      ensures var p, packet := old(PortStates())[i], old(ev.msg.packet);
        var d := p.droppers[if color == Metering.Green then 2 * packet.tos + 1 else 2 * packet.tos];
        drop <==>
          || color == Metering.Red || !PortAdmission.FitsQueue(p, packet)
          || PortAdmission.NewAverage(d, |p.queues[packet.tos].packets|, now, power) >= d.maxth
    {
      hide Valid, PortStates, Dropping.Sampled, Dropping.Drops, Dropping.SnapshotOf, Bytes, PortAdmission.FitsQueue,
           PortAdmission.NewAverage, Decide;
      var packet := ev.msg.packet;
      Parts();
      PortAdmission.DecideIff(Environment(), PortStates()[i], packet, color, now, ev.msg.snapshot);
      DecideCases(PortStates()[i], packet, color, now, ev.msg.snapshot);
      var full := QueueFull(i, packet);
      if color == Metering.Red {
        drop := true;
      } else if full {
        drop := true;
      } else if color == Metering.Yellow {
        ev.bits := ev.bits.(c5 := true);
        drop := ConsultDropper(ev, i, DropperIndex(packet.tos, false), DropperIndex(packet.tos, true), now);
      } else {
        ev.bits := ev.bits.(c6 := true);
        drop := ConsultDropper(ev, i, DropperIndex(packet.tos, true), DropperIndex(packet.tos, false), now);
      }
    }

    lemma DecideCases(p: PortState, packet: Packet, color: Metering.Color, now: real, snap: Snapshot)
      requires packet.tos < NUM_QOS_LEVEL
      ensures var v := Decide(Environment(), p, packet, color, now, snap);
        var i := DropperIndex(packet.tos, color == Metering.Green);
        var twin := DropperIndex(packet.tos, color != Metering.Green);
        && i / 2 == packet.tos
        && if color == Metering.Red || Bytes(p.queues[packet.tos].packets) + packet.sizeInBytes
                                       > p.queues[packet.tos].capacity
           then v == Verdict(p, true, NO_BITS.(c1 := true), snap)
           else
             var d := Dropping.Sampled(p.droppers[i], |p.queues[i / 2].packets|, now, power);
             && v.port == p.(droppers := p.droppers[i := d]) && v.drop == Dropping.Drops(d)
             && v.bits.(c1 := false) == NO_BITS.(c5 := color != Metering.Green, c6 := color == Metering.Green)
             && v.snapshot == snap.(dropper := Dropping.SnapshotOf(p.droppers[i]),
                                    dropperQTime := p.droppers[twin].qTime)
    {
      hide Dropping.Sampled, Dropping.Drops, Bytes;
    }

    /** Meter and dropper: decides whether the packet in the event is dropped. */
    method JudgePacket(ev: TwEvent, i: nat, now: real) returns (drop: bool)
      requires Valid() && ev !in Repr && i < |shapers|
      requires ev.msg.packet.tos < NUM_QOS_LEVEL && ev.bits == NO_BITS
      modifies Repr, ev
      ensures Valid() && Repr == old(Repr) && stats.View() == old(stats.View())
      ensures var packet := old(ev.msg.packet);
        var v := Judge(Environment(), old(PortStates())[i], packet, now, NUM_QOS_LEVEL * i + packet.tos,
            old(ev.msg.snapshot));
        && drop == v.drop
        && PortStates() == old(PortStates())[i := v.port]
        && ev.msg == old(ev.msg).(snapshot := v.snapshot)
        && ev.bits == v.bits.(c1 := false)
      ensures drop == !PortAdmission.Admits(Environment(), old(PortStates())[i], old(ev.msg.packet), now)
    {
      hide Valid, PortStates, Metering.Update, Decide, PortAdmission.Admits, PortAdmission.FitsQueue,
           PortAdmission.NewAverage;
      var packet := ev.msg.packet;
      Parts();
      PortAdmission.JudgeIff(Environment(), PortStates()[i], packet, now, NUM_QOS_LEVEL * i + packet.tos,
                             ev.msg.snapshot);
      var meterIndex := i * NUM_QOS_LEVEL + packet.tos;
      MeterAt(i, packet.tos);
      var state := meters[meterIndex].TakeSnapshot();
      ev.msg := ev.msg.(snapshot := ev.msg.snapshot.(meterIndex := meterIndex, meter := state));
      var color := UpdateMeterAt(i, packet.tos, packet, now);
      drop := DecideDrop(ev, i, color, now);
    }

    /** The scheduler takes the next packet and the shaper pays for it. */
    method TakeAndPay(i: nat, now: real) returns (state: SchedulerSnapshot)
      requires Valid() && i < |shapers| && !Idle(PortStates()[i])
      modifies Repr
      ensures Valid() && fresh(Repr - old(Repr)) && stats.View() == old(stats.View())
      ensures var p := old(PortStates())[i];
        var prio := FirstBusy(p.queues);
        var packet := p.queues[prio].packets[0];
        && state == SchedulerSnapshot(prio, packet)
        && PortStates() == old(PortStates())[i := p.(
             queues := p.queues[prio := Take(p.queues[prio])],
             bucket := Shaper.Consume(p.bucket, packet.sizeInBytes, now),
             lastPriority := prio)]
    {
      hide Valid, PortStates, FirstBusy, Shaper.Consume;
      var packet := TakeAt(i);
      PortParts(i);
      state := schedulers[i].Delta(packet);
      ConsumeAt(i, Some(packet), now);
    }

    /** If queue `prio` ran empty, both droppers at the written index learn the time. */
    method NoteEmptied(i: nat, prio: nat, now: real) returns (emptied: bool, yellowQTime: real)
      requires Valid() && i < |shapers| && prio < NUM_QOS_LEVEL
      modifies Repr
      ensures Valid() && Repr == old(Repr) && stats.View() == old(stats.View())
      ensures var p := old(PortStates())[i];
        && emptied == (p.queues[prio].packets == [])
        && (emptied ==> yellowQTime == p.droppers[prio].qTime)
        && PortStates() == old(PortStates())[i :=
             p.(droppers := if emptied then Touch(p.droppers, EmptiedIndex(Written, prio), now) else p.droppers)]
    {
      hide Valid, PortStates, Dropping.TimeUpdate;
      QueueCount(i, prio);
      emptied := queues[3 * i + prio].numPackets == 0;
      yellowQTime := 0.0;
      if emptied {
        DropperAt(i, prio);
        yellowQTime := droppers[prio + i * NUM_QOS_LEVEL * 2].qTime;
        TouchDropperAt(i, prio, now);
        TouchDropperAt(i, prio + 1, now);
      }
    }

    /** The part both handlers share: the scheduler takes a packet, the shaper pays for it, the
        droppers learn that a queue ran empty, and the wire is booked. Also returns what the
        reverse handlers will need. */
    method ServePacket(i: nat, now: real)
      returns (state: SchedulerSnapshot, portAvTime: real, injectionDelay: real, emptied: bool, yellowQTime: real)
      requires Valid() && i < |shapers| && !Idle(PortStates()[i])
      modifies Repr
      ensures Valid() && fresh(Repr - old(Repr)) && stats.View() == old(stats.View())
      ensures var p := old(PortStates())[i];
        var d := Depart(Environment(), p, now);
        && PortStates() == old(PortStates())[i := d.port]
        && state == SchedulerSnapshot(d.prio, d.packet)
        && portAvTime == p.available
        && d.start == Max(now, portAvTime) && d.end == d.start + injectionDelay
        && emptied == d.emptied
        && (emptied ==> yellowQTime == p.droppers[d.prio].qTime)
      ensures injectionDelay * old(PortStates())[i].bandwidth == (8 * state.packet.sizeInBytes) as real
      ensures PortStates()[i].available == Max(now, old(PortStates())[i].available) + injectionDelay
    {
      hide Valid, PortStates, FirstBusy, Shaper.Consume, InjectionDelay, Touch;
      state := TakeAndPay(i, now);
      PortParts(i);
      injectionDelay := InjectionDelay(state.packet.sizeInBytes, bandwidths[i]);
      portAvTime := portsAvailableTime[i];
      emptied, yellowQTime := NoteEmptied(i, state.lastPriority, now);
      SetAvailableAt(i, Max(now, portAvTime) + injectionDelay);
    }

    lemma QueueCount(i: nat, t: nat)
      requires Valid() && i < |shapers| && t < NUM_QOS_LEVEL
      ensures 3 * i + t < |queues| && queues[3 * i + t].numPackets == |PortStates()[i].queues[t].packets|
    {
      hide SwitchStats.Valid, Distinct;
    }

    /** Whether the assertions on the bucket and on a forwarding delay fail. */
    method ForwardFault(i: nat, delay: real) returns (fault: bool)
      requires Valid() && i < |shapers|
      ensures fault == (PortStates()[i].bucket.tokens < 0 || delay <= 0.0)
    {
      hide Valid, PortStates;
      BucketAt(i);
      fault := shapers[i].tokens < 0 || delay <= 0.0;
    }

    /** Whether an assertion on the polled bucket or on the head of a queue fails. */
    method PolledFault(i: nat, sound: bool) returns (fault: bool)
      requires Valid() && i < |shapers| && sound == !EmptyHead(PortStates()[i])
      ensures fault == PollFault(PortStates()[i])
    {
      hide Valid, PortStates, EmptyHead;
      BucketAt(i);
      fault := shapers[i].tokens < 0 || !sound;
    }

    method ShaperReady(i: nat, size: int) returns (ready: bool)
      requires Valid() && i < |shapers|
      ensures ready == Shaper.Ready(PortStates()[i].bucket, size)
    {
      hide Valid, PortStates;
      BucketAt(i);
      ready := shapers[i].IsReady(size);
    }

    /** The time until the next packet becomes affordable. */
    method WakeAt(i: nat, size: int, now: real) returns (wake: real)
      requires Valid() && i < |shapers|
      ensures wake == WakeDelay(PortStates()[i].bucket, size, now)
    {
      hide Valid, PortStates;
      BucketAt(i);
      var at := shapers[i].NextTime(size);
      wake := at - now;
    }

    /** The sending half of an ARRIVE event, once the packet is enqueued and the shaper polled. */
    method DispatchNext(ev: TwEvent, i: nat, nextHop: int, now: real)
      returns (forward: Option<Forward>, wake: Option<real>, fault: bool)
      requires Valid() && ev !in Repr && i < |shapers| && !Idle(PortStates()[i]) && !ev.bits.c7
      modifies Repr, ev
      ensures Valid() && fresh(Repr - old(Repr))
      ensures var o := Dispatch(Environment(), old(PortStates())[i], i, nextHop, now, old(ev.bits),
          old(ev.msg.snapshot));
        && PortStates() == old(PortStates())[i := o.port]
        && ev.bits == o.bits && ev.msg == old(ev.msg).(snapshot := o.snapshot)
        && forward == o.forward && wake == o.wake && fault == o.fault
        && stats.View() == old(stats.View()).(sent := old(stats.View()).sent + if o.departed.Some? then 1 else 0)
    {
      hide Valid, PortStates, Shaper.Ready, NextSize, WakeDelay, Depart, FirstBusy, PollFault, EmptyHead, Forwarded,
           DepartureSnapshot;
      forward, wake := None, None;
      var size, sound := NextSizeAt(i);
      fault := PolledFault(i, sound);
      var ready := ShaperReady(i, size);
      if ready {
        ev.bits := ev.bits.(c2 := true);
        var bad;
        forward, bad := SendFromArrive(ev, i, nextHop, now);
        fault := fault || bad;
      } else {
        wake := WaitForTokens(ev, i, size, now);
        fault := fault || (wake.Some? && wake.value <= 0.0);
      }
    }

    /** Schedules a SEND event unless one is under way. */
    method WaitForTokens(ev: TwEvent, i: nat, size: int, now: real) returns (wake: Option<real>)
      requires Valid() && ev !in Repr && i < |shapers|
      modifies Repr, ev
      ensures Valid() && Repr == old(Repr) && stats.View() == old(stats.View()) && ev.msg == old(ev.msg)
      ensures var p := old(PortStates())[i];
        && PortStates() == old(PortStates())[i := p.(flag := true)]
        && ev.bits == (if p.flag then old(ev.bits) else old(ev.bits).(c3 := true))
        && wake == if p.flag then None else Some(WakeDelay(p.bucket, size, now))
    {
      hide Valid, PortStates, WakeDelay;
      wake := None;
      PortParts(i);
      if !portFlags[i] {
        ev.bits := ev.bits.(c3 := true);
        SetFlagAt(i, true);
        var delay := WakeAt(i, size, now);
        wake := Some(delay);
      }
    }

    method SendFromArrive(ev: TwEvent, i: nat, nextHop: int, now: real)
      returns (forward: Option<Forward>, fault: bool)
      requires Valid() && ev !in Repr && i < |shapers| && !Idle(PortStates()[i])
      modifies Repr, ev
      ensures Valid() && fresh(Repr - old(Repr)) && ev.bits == old(ev.bits)
      ensures stats.View() == old(stats.View()).(sent := old(stats.View()).sent + 1)
      ensures var p := old(PortStates())[i];
        var d := Depart(Environment(), p, now);
        var f := Forwarded(Environment(), p, d, nextHop, now);
        && PortStates() == old(PortStates())[i := d.port]
        && ev.msg == old(ev.msg).(snapshot := DepartureSnapshot(Environment(), p, d, old(ev.msg.snapshot)))
        && forward == Some(f) && fault == (d.port.bucket.tokens < 0 || f.delay <= 0.0)
    {
      hide Valid, PortStates, Depart, FirstBusy;
      PortParts(i);
      var state, portAvTime, injectionDelay, emptied, qTime := ServePacket(i, now);
      var delay := Max(now, portAvTime) - now + injectionDelay + propagationDelays[i];
      fault := ForwardFault(i, delay);
      forward := Some(Forward(nextHop, delay, state.packet.(prevHop := self, nextHop := -1)));
      Count(0, 1);
      ev.msg := ev.msg.(snapshot := ev.msg.snapshot.(scheduler := state, portAvailableTime := portAvTime));
    }

    /** The handler of an ARRIVE event. Returns the packet it forwards, the delay of the SEND
        event it schedules for itself, and whether one of its assertions failed. */
    method HandleArriveEvent(ev: TwEvent, now: real)
      returns (forward: Option<Forward>, wake: Option<real>, fault: bool)
      requires Valid() && ev !in Repr && ev.bits == NO_BITS
      requires Routable(Environment(), View(), ev.msg.packet)
      modifies Repr, ev
      ensures Valid() && fresh(Repr - old(Repr))
      ensures var r := HandleArrive(Environment(), old(View()), old(ev.msg), now);
        && View() == r.sw && ev.msg == r.msg && ev.bits == r.bits
        && (match r.work
            case None => forward == None && wake == None && !fault
            case Some(work) => forward == work.outcome.forward && wake == work.outcome.wake
                               && fault == work.outcome.fault)
      ensures var packet, sw := old(ev.msg.packet), old(View());
        View().stats.live == sw.stats.live +
          (if packet.dest == self then [Record(packet.pid, now - packet.sendTime, 0)]
           else if PortAdmission.Admits(Environment(), sw.ports[sw.routing[packet.dest].port], packet, now) then []
           else [Record(packet.pid, 0.0, 1)])
    {
      hide Valid, PortStates, Judge, Dispatch, Enqueue, Shaper.Poll, Append, FifoQueue.Valid, PortAdmission.Admits;
      ViewParts();
      SwitchRecords.HandleArriveRecords(Environment(), View(), ev.msg, now);
      forward, wake, fault := None, None, false;
      var packet := ev.msg.packet;
      if self == packet.dest {
        ev.bits := ev.bits.(c0 := true);
        RecordPacket(packet.pid, now - packet.sendTime, 0);
        ViewParts();
        return;
      }
      var i := routing[packet.dest].port;
      forward, wake, fault := RouteThrough(ev, i, routing[packet.dest].nextHop, now);
      ViewParts();
    }

    lemma ViewParts()
      requires Valid()
      ensures Wired() && View() == Switch(PortStates(), routing, stats.View())
    {
      hide FifoQueue.Valid, SwitchStats.Valid, PortStates;
    }

    /** An ARRIVE event for a packet that leaves through port `i`. */
    method RouteThrough(ev: TwEvent, i: nat, nextHop: int, now: real)
      returns (forward: Option<Forward>, wake: Option<real>, fault: bool)
      requires Valid() && ev !in Repr && ev.bits == NO_BITS && i < |shapers|
      requires ev.msg.packet.tos < NUM_QOS_LEVEL
      modifies Repr, ev
      ensures Valid() && fresh(Repr - old(Repr))
      ensures var o := Arrive(Environment(), old(PortStates())[i], i, old(ev.msg.packet), nextHop, now, old(ev.msg));
        && PortStates() == old(PortStates())[i := o.port]
        && ev.bits == o.bits && ev.msg == old(ev.msg).(port := o.portId, snapshot := o.snapshot)
        && forward == o.forward && wake == o.wake && fault == o.fault
        && stats.View() == ArriveStats(old(stats.View()), old(ev.msg.packet), o)
    {
      hide Valid, PortStates, Judge, Dispatch, Append, FirstBusy, Bytes, Enqueue, Shaper.Poll, Polled;
      forward, wake, fault := None, None, false;
      var packet := ev.msg.packet;
      Parts();
      JudgeFrame(Environment(), PortStates()[i], packet, now, NUM_QOS_LEVEL * i + packet.tos, ev.msg.snapshot);
      Count(1, 0);
      var drop := JudgePacket(ev, i, now);
      if drop {
        ev.bits := ev.bits.(c1 := true);
        RecordPacket(packet.pid, 0.0, 1);
        return;
      }
      Parts();
      DispatchBits(Environment(), PortStates()[i], i, packet, nextHop, now, ev.bits, ev.msg.snapshot);
      EnqueueAndPoll(ev, i, nextHop, now);
      forward, wake, fault := DispatchNext(ev, i, nextHop, now);
    }

    /** Enqueues the admitted packet, and polls the shaper after saving its state. */
    method EnqueueAndPoll(ev: TwEvent, i: nat, nextHop: int, now: real)
      requires Valid() && ev !in Repr && i < |shapers| && ev.msg.packet.tos < NUM_QOS_LEVEL
      requires Bytes(PortStates()[i].queues[ev.msg.packet.tos].packets) + ev.msg.packet.sizeInBytes
               <= PortStates()[i].queues[ev.msg.packet.tos].capacity
      modifies Repr, ev
      ensures Valid() && fresh(Repr - old(Repr)) && stats.View() == old(stats.View()) && ev.bits == old(ev.bits)
      ensures var p := old(PortStates())[i];
        && PortStates() == old(PortStates())[i := Polled(Enqueue(p, old(ev.msg.packet), nextHop), now)]
        && ev.msg == old(ev.msg).(port := i, snapshot := old(ev.msg).snapshot.(bucket := Shaper.SnapshotOf(p.bucket)))
    {
      hide Valid, PortStates, Shaper.Consume, Bytes, FirstBusy;
      PutAt(i, ev.msg.packet.tos, ev.msg.packet, nextHop);
      PollShaper(ev, i, now);
    }

    /** Updates the tokens of the port after saving them in the event. */
    method PollShaper(ev: TwEvent, i: nat, now: real)
      requires Valid() && ev !in Repr && i < |shapers|
      modifies Repr, ev
      ensures Valid() && Repr == old(Repr) && stats.View() == old(stats.View()) && ev.bits == old(ev.bits)
      ensures var p := old(PortStates())[i];
        && PortStates() == old(PortStates())[i := Polled(p, now)]
        && ev.msg == old(ev.msg).(port := i, snapshot := old(ev.msg).snapshot.(bucket := Shaper.SnapshotOf(p.bucket)))
    {
      hide Valid, PortStates, Shaper.Consume;
      BucketAt(i);
      var state := shapers[i].TakeSnapshot();
      ev.msg := ev.msg.(port := i, snapshot := ev.msg.snapshot.(bucket := state));
      ConsumeAt(i, None, now);
    }

    lemma DispatchBits(env: Env, p: PortState, i: nat, packet: Packet, nextHop: int, now: real, bits: Bits,
        snap: Snapshot)
      requires packet.tos < NUM_QOS_LEVEL && !bits.c1 && !bits.c2
      ensures var q := Polled(Enqueue(p, packet, nextHop), now);
        && !Idle(q)
        && var o := Dispatch(env, q, i, nextHop, now, bits, snap.(bucket := Shaper.SnapshotOf(p.bucket)));
           !o.bits.c1 && (o.bits.c2 <==> o.departed.Some?) && o.portId == i
    {
      hide FirstBusy, Shaper.Poll, NextSize, Depart, WakeDelay;
    }

    // ----- SEND -----

    /** The handler of a SEND event; returns as HandleArriveEvent does. */
    method HandleSendEvent(ev: TwEvent, now: real)
      returns (forward: Option<Forward>, wake: Option<real>, fault: bool)
      requires Valid() && ev !in Repr && ev.bits == NO_BITS && 0 <= ev.msg.port < |shapers|
      modifies Repr, ev
      ensures Valid() && fresh(Repr - old(Repr))
      ensures var r := HandleSend(Environment(), old(View()), old(ev.msg), now);
        && View() == r.sw && ev.msg == r.msg && ev.bits == r.bits
        && r.work.Some? && var o := r.work.value.outcome;
           forward == o.forward && wake == o.wake && fault == o.fault
    {
      hide Valid, PortStates, Send;
      ViewParts();
      forward, wake, fault := SendThrough(ev, ev.msg.port, now);
      ViewParts();
    }

    method SendThrough(ev: TwEvent, i: nat, now: real)
      returns (forward: Option<Forward>, wake: Option<real>, fault: bool)
      requires Valid() && ev !in Repr && ev.bits == NO_BITS && i < |shapers|
      modifies Repr, ev
      ensures Valid() && fresh(Repr - old(Repr)) && stats.View() == old(stats.View())
      ensures var o := Send(Environment(), old(PortStates())[i], i, now, old(ev.msg));
        && PortStates() == old(PortStates())[i := o.port]
        && ev.bits == o.bits && ev.msg == old(ev.msg).(port := o.portId, snapshot := o.snapshot)
        && forward == o.forward && wake == o.wake && fault == o.fault
    {
      hide Valid, PortStates, SendNow, Shaper.Poll, Shaper.Ready, NextSize, FirstBusy, WakeDelay, PollFault, EmptyHead;
      forward, wake, fault := None, None, false;
      Parts();
      PollShaper(ev, i, now);
      var size, sound := NextSizeAt(i);
      if sound && size == 0 {
        fault := true;
        return;
      }
      fault := PolledFault(i, sound);
      var ready := ShaperReady(i, size);
      if ready {
        SendNowPort(PortStates()[i], i, now, ev.msg.snapshot);
        forward, wake, fault := SendFromSend(ev, i, fault, now);
      } else {
        var delay := WakeAt(i, size, now);
        wake := Some(delay);
        fault := fault || delay <= 0.0;
      }
    }

    lemma SendNowPort(p: PortState, i: nat, now: real, snap: Snapshot)
      requires !Idle(p)
      ensures SendNow(Environment(), p, i, now, snap).portId == i
    {
      hide Depart, FirstBusy, WakeDelay;
    }

    /** The branch of a SEND event that serves a packet. */
    method SendFromSend(ev: TwEvent, i: nat, pollFault: bool, now: real)
      returns (forward: Option<Forward>, wake: Option<real>, fault: bool)
      requires Valid() && ev !in Repr && ev.bits == NO_BITS && i < |shapers| && !Idle(PortStates()[i])
      requires pollFault == PollFault(PortStates()[i])
      modifies Repr, ev
      ensures Valid() && fresh(Repr - old(Repr)) && stats.View() == old(stats.View())
      ensures var o := SendNow(Environment(), old(PortStates())[i], i, now, old(ev.msg.snapshot));
        && PortStates() == old(PortStates())[i := o.port]
        && ev.bits == o.bits && ev.msg == old(ev.msg).(snapshot := o.snapshot)
        && forward == o.forward && wake == o.wake && fault == o.fault
    {
      hide Valid, PortStates, Depart, FirstBusy, NextSize, WakeDelay, PollFault, EmptyHead, Forwarded,
           DepartureSnapshot;
      Parts();
      ev.bits := ev.bits.(c0 := true);
      wake := None;
      forward, fault := ServeFromSend(ev, i, now);
      Parts();
      fault := fault || pollFault;
      var size, sound := NextSizeAt(i);
      if size != 0 || !sound {
        var delay := WakeAt(i, size, now);
        wake := Some(delay);
        fault := fault || !sound || delay <= 0.0;
      } else {
        ev.bits := ev.bits.(c1 := true);
        SetFlagAt(i, false);
      }
    }

    method ServeFromSend(ev: TwEvent, i: nat, now: real) returns (forward: Option<Forward>, fault: bool)
      requires Valid() && ev !in Repr && i < |shapers| && !Idle(PortStates()[i])
      modifies Repr, ev
      ensures Valid() && fresh(Repr - old(Repr)) && stats.View() == old(stats.View())
      ensures var p := old(PortStates())[i];
        var d := Depart(Environment(), p, now);
        var f := Forwarded(Environment(), p, d, d.packet.nextHop, now);
        var snap := DepartureSnapshot(Environment(), p, d, old(ev.msg.snapshot));
        && PortStates() == old(PortStates())[i := d.port]
        && ev.bits == (if d.emptied then old(ev.bits).(c2 := true) else old(ev.bits))
        && ev.msg == old(ev.msg).(snapshot :=
             if d.emptied then snap.(dropperQTime := p.droppers[d.prio].qTime) else snap)
        && forward == Some(f) && fault == (d.port.bucket.tokens < 0 || f.delay <= 0.0)
    {
      hide Valid, PortStates, Depart, FirstBusy;
      PortParts(i);
      var state, portAvTime, injectionDelay, emptied, qTime := ServePacket(i, now);
      var delay := Max(now, portAvTime) - now + injectionDelay + propagationDelays[i];
      fault := ForwardFault(i, delay);
      forward := Some(Forward(state.packet.nextHop, delay, state.packet.(prevHop := self, nextHop := -1)));
      ev.msg := ev.msg.(snapshot := ev.msg.snapshot.(scheduler := state, portAvailableTime := portAvTime));
      if emptied {
        ev.bits := ev.bits.(c2 := true);
        ev.msg := ev.msg.(snapshot := ev.msg.snapshot.(dropperQTime := qTime));
      }
    }

    // ----- Reverse handlers -----

    /** Restores the dropper that decided, and the q_time of its twin. */
    method UndoConsult(i: nat, k: nat, twin: nat, state: DropperSnapshot, qTime: real)
      requires Valid() && i < |shapers| && k < 2 * NUM_QOS_LEVEL && twin < 2 * NUM_QOS_LEVEL
      modifies Repr
      ensures Valid() && Repr == old(Repr) && stats.View() == old(stats.View())
      ensures var p := old(PortStates())[i];
        var restored := p.droppers[k := Dropping.Restore(p.droppers[k], state)];
        PortStates() == old(PortStates())[i := p.(droppers := restored[twin := restored[twin].(qTime := qTime)])]
    {
      hide Valid, PortStates, Dropping.Restore;
      RestoreDropperAt(i, k, state);
      SetQTimeAt(i, twin, qTime);
    }

    method UndoJudgeAt(i: nat, t: nat, bits: Bits, snap: Snapshot)
      requires Valid() && i < |shapers| && t < NUM_QOS_LEVEL
      modifies Repr
      ensures Valid() && Repr == old(Repr) && stats.View() == old(stats.View())
      ensures PortStates() == old(PortStates())[i := UndoJudge(old(PortStates())[i], t, bits, snap)]
    {
      hide Valid, PortStates, Metering.Restore, Dropping.Restore;
      RestoreMeterAt(i, t, snap.meter);
      if bits.c5 {
        UndoConsult(i, t * 2, t * 2 + 1, snap.dropper, snap.dropperQTime);
      } else if bits.c6 {
        UndoConsult(i, t * 2 + 1, t * 2, snap.dropper, snap.dropperQTime);
      }
    }

    /** Undoes the departure an ARRIVE event made, if it made one. */
    method UndoServe(i: nat, bits: Bits, snap: Snapshot)
      requires Valid() && i < |shapers|
      requires bits.c2 ==> CanUndoDeparture(PortStates()[i], snap.scheduler)
      modifies Repr
      ensures Valid() && fresh(Repr - old(Repr))
      ensures PortStates() == old(PortStates())[i := UndoArriveDeparture(old(PortStates())[i], bits, snap)]
      ensures var st := old(stats.View()); stats.View() == if bits.c2 then st.(sent := st.sent - 1) else st
    {
      hide Valid, PortStates, CanUndoDeparture, PutBack;
      if bits.c2 {
        TakeReverseAt(i, snap.scheduler);
        SetAvailableAt(i, snap.portAvailableTime);
        Count(0, -1);
      }
    }

    /** The reverse handler of an ARRIVE event. It must put a served packet back before it
        takes the arrived packet out of its queue again. */
    method HandleArriveEventRc(ev: TwEvent)
      requires Valid() && ev !in Repr && !ev.bits.c7 && (ev.bits.c1 ==> !ev.bits.c2)
      requires CanUndoArriveEvent(View(), ev.msg, ev.bits)
      modifies Repr
      ensures Valid() && fresh(Repr - old(Repr)) && ev.msg == old(ev.msg) && ev.bits == old(ev.bits)
      ensures View() == UndoArriveEvent(old(View()), ev.msg, ev.bits)
    {
      hide Valid, PortStates, UndoArrive, CanUndoArrive, Retract;
      ViewParts();
      if ev.bits.c0 {
        RetractRecord();
        ViewParts();
        return;
      }
      var i := ev.msg.snapshot.meterIndex / NUM_QOS_LEVEL;
      UndoRoute(ev, i, ev.msg.snapshot.meterIndex % NUM_QOS_LEVEL);
      ViewParts();
    }

    method UndoRoute(ev: TwEvent, i: nat, t: nat)
      requires Valid() && ev !in Repr && i < |shapers| && t < NUM_QOS_LEVEL
      requires !ev.bits.c7 && (ev.bits.c1 ==> !ev.bits.c2)
      requires !ev.bits.c1 ==> ev.msg.port == i
      requires CanUndoArrive(PortStates()[i], t, ev.bits, ev.msg.snapshot)
      requires ev.bits.c1 ==> stats.View().live != []
      modifies Repr
      ensures Valid() && fresh(Repr - old(Repr)) && ev.msg == old(ev.msg) && ev.bits == old(ev.bits)
      ensures PortStates() == old(PortStates())[i := UndoArrive(old(PortStates())[i], t, ev.bits, ev.msg.snapshot)]
      ensures stats.View() == UndoArriveStats(old(stats.View()), ev.bits)
    {
      hide Valid, PortStates, UndoJudge, Retract, Bytes, PutBack, Shaper.Restore, CanUndoDeparture;
      Parts();
      UndoJudgeKeepsQueues(PortStates()[i], t, ev.bits, ev.msg.snapshot);
      Count(-1, 0);
      UndoJudgeAt(i, t, ev.bits, ev.msg.snapshot);
      if ev.bits.c1 {
        RetractRecord();
        return;
      }
      UndoServe(ev.msg.port, ev.bits, ev.msg.snapshot);
      if ev.bits.c3 {
        SetFlagAt(ev.msg.port, false);
      }
      RestoreBucketAt(ev.msg.port, ev.msg.snapshot.bucket);
      PutReverseAt(i, t);
    }

    lemma UndoJudgeKeepsQueues(p: PortState, t: nat, bits: Bits, snap: Snapshot)
      requires t < NUM_QOS_LEVEL
      ensures var u := UndoJudge(p, t, bits, snap);
        && u.queues == p.queues
        && CanUndoDeparture(u, snap.scheduler) == CanUndoDeparture(p, snap.scheduler)
        && (bits.c2 && CanUndoDeparture(p, snap.scheduler) ==>
              UndoArriveDeparture(u, bits, snap).queues == UndoArriveDeparture(p, bits, snap).queues)
    {
      hide Bytes;
    }

    /** The reverse handler of a SEND event, as written: the live priority of the scheduler
        selects the droppers, and both get the one saved q_time. */
    method HandleSendEventRc(ev: TwEvent)
      requires Valid() && ev !in Repr
      requires CanUndoSendEvent(Environment(), View(), ev.msg, ev.bits)
      modifies Repr
      ensures Valid() && fresh(Repr - old(Repr)) && ev.msg == old(ev.msg) && ev.bits == old(ev.bits)
      ensures View() == UndoSendEvent(Environment(), old(View()), ev.msg, ev.bits)
    {
      hide Valid, PortStates, UndoSend, CanUndoSend;
      ViewParts();
      UndoSendThrough(ev, ev.msg.port);
      ViewParts();
    }

    method UndoNoteEmptied(i: nat, qTime: real)
      requires Valid() && i < |shapers| && Known(PortStates()[i].lastPriority)
      modifies Repr
      ensures Valid() && Repr == old(Repr) && stats.View() == old(stats.View())
      ensures var p := old(PortStates())[i];
        PortStates() == old(PortStates())[i :=
          p.(droppers := SetQTimes(p.droppers, EmptiedIndex(Written, p.lastPriority), qTime, qTime))]
    {
      hide Valid, PortStates;
      PortParts(i);
      var dropperIndex := schedulers[i].lastPriority;
      SetQTimeAt(i, dropperIndex, qTime);
      SetQTimeAt(i, dropperIndex + 1, qTime);
    }

    method UndoSendThrough(ev: TwEvent, i: nat)
      requires Valid() && ev !in Repr && i < |shapers|
      requires CanUndoSend(Environment(), PortStates()[i], ev.bits, ev.msg.snapshot)
      modifies Repr
      ensures Valid() && fresh(Repr - old(Repr)) && ev.msg == old(ev.msg) && ev.bits == old(ev.bits)
      ensures PortStates() == old(PortStates())[i := UndoSend(Environment(), old(PortStates())[i], ev.bits,
          ev.msg.snapshot)]
      ensures stats.View() == old(stats.View())
    {
      hide Valid, PortStates, Shaper.Restore, Bytes, PutBack, SetQTimes;
      var snap := ev.msg.snapshot;
      RestoreBucketAt(i, snap.bucket);
      if ev.bits.c0 {
        if ev.bits.c2 {
          UndoNoteEmptied(i, snap.dropperQTime);
        }
        TakeReverseAt(i, snap.scheduler);
        SetAvailableAt(i, snap.portAvailableTime);
      }
      if ev.bits.c1 {
        SetFlagAt(i, true);
      }
    }

    // ----- Dispatchers -----

    /** The forward dispatcher: clears the bits and calls the handler of the event's kind. */
    method SwitchEventHandler(ev: TwEvent, now: real)
      returns (forward: Option<Forward>, wake: Option<real>, fault: bool)
      requires Valid() && ev !in Repr && CanHandle(Environment(), View(), ev.msg)
      modifies Repr, ev
      ensures Valid() && fresh(Repr - old(Repr))
      ensures var r := Handle(Environment(), old(View()), old(ev.msg), now);
        && View() == r.sw && ev.msg == r.msg && ev.bits == r.bits
        && (match r.work
            case None => forward == None && wake == None && !fault
            case Some(work) => forward == work.outcome.forward && wake == work.outcome.wake
                               && fault == work.outcome.fault)
    {
      hide Valid, PortStates, View, HandleArrive, HandleSend, Routable;
      SamePorts();
      ev.bits := NO_BITS;
      forward, wake, fault := None, None, false;
      match ev.msg.kind {
        case ARRIVE => forward, wake, fault := HandleArriveEvent(ev, now);
        case SEND => forward, wake, fault := HandleSendEvent(ev, now);
        case KICKOFF =>
      }
    }

    lemma SamePorts()
      requires Valid()
      ensures Wired() && View().ports == PortStates() && |View().ports| == |shapers|
    {
      hide FifoQueue.Valid, SwitchStats.Valid, PortStates;
    }

    /** The reverse dispatcher. */
    method SwitchRcEventHandler(ev: TwEvent)
      requires Valid() && ev !in Repr && CanUndo(Environment(), View(), ev.msg, ev.bits)
      requires SwitchRollback.WrittenBits(ev.msg, ev.bits)
      modifies Repr
      ensures Valid() && fresh(Repr - old(Repr)) && ev.msg == old(ev.msg) && ev.bits == old(ev.bits)
      ensures View() == Undo(Environment(), old(View()), ev.msg, ev.bits)
    {
      hide Valid, PortStates, View, UndoArriveEvent, UndoSendEvent, CanUndoArriveEvent, CanUndoSendEvent;
      match ev.msg.kind {
        case ARRIVE => HandleArriveEventRc(ev);
        case SEND => HandleSendEventRc(ev);
        case KICKOFF =>
      }
    }

    /** An event that the engine handles and rolls back at once: in place, the switch is
        restored up to the q_times of its droppers and the last priorities. */
    method HandleThenUndo(ev: TwEvent, now: real)
      requires Valid() && ev !in Repr && CanHandle(Environment(), View(), ev.msg)
      requires SwitchRollback.Prepared(View(), ev.msg)
      modifies Repr, ev
      ensures Valid() && fresh(Repr - old(Repr))
      ensures SwitchRollback.AlikeSwitch(Written, View(), old(View()))
    {
      hide Valid, PortStates, View, Handle, Undo, CanUndo, CanHandle, SwitchRollback.Prepared,
           SwitchRollback.AlikeSwitch;
      SamePorts();
      SwitchRollback.HandleUndone(Environment(), View(), ev.msg, now);
      var forward, wake, fault := SwitchEventHandler(ev, now);
      SamePorts();
      SwitchRcEventHandler(ev);
      SamePorts();
    }

    /** The engine rolls back a stack of events, newest first: `events` hold what the forward
        handlers left in them over a run. In place, the switch is restored up to q_times and last
        priorities, and the q_times are restored exactly when the journal of the run saved them. */
    method RollBack(events: seq<TwEvent>, ghost cs: seq<PortConfig>, ghost w: Runs.World, ghost es: seq<Runs.Event>)
      requires Valid() && forall j :: 0 <= j < |events| ==> events[j] !in Repr
      requires Lifting.AllBase(cs, w) && Runs.ValidRun(Environment(), w, es)
      requires SwitchRollback.AlikeSwitch(Written, View(), Runs.Run(Environment(), w, es).sw)
      requires HoldsJournal(events, SwitchRollback.Journal(Environment(), w, es))
      modifies Repr
      ensures Valid() && fresh(Repr - old(Repr))
      ensures SwitchRollback.AlikeSwitch(Written, View(), w.sw)
      ensures |old(View()).ports| == |w.sw.ports| &&
        (SwitchRollback.AlikeSwitch(Repaired, View(), w.sw) <==>
           QTimeRollback.QTimesSaved(w.sw, old(View()), SwitchRollback.Journal(Environment(), w, es)))
    {
      hide Valid, PortStates, View, Undo, CanUndo, SwitchRollback.AlikeSwitch, SwitchRollback.Journal, Runs.Run,
           Runs.ValidRun, Lifting.AllBase, SwitchRollback.WrittenBits, QTimeRollback.QTimesSaved;
      SamePorts();
      ghost var start := View();
      ghost var journal := SwitchRollback.Journal(Environment(), w, es);
      SwitchRollback.RollbackRestores(Environment(), cs, w, es, start);
      QTimeRollback.RollbackExactIff(Environment(), cs, w, es, start);
      QTimeRollback.JournalBits(Environment(), cs, w, es);
      var n := |events|;
      assert journal[..n] == journal;
      while n > 0
        invariant 0 <= n <= |events| && Valid() && fresh(Repr - old(Repr))
        invariant forall j :: 0 <= j < |events| ==> events[j] !in Repr
        invariant HoldsJournal(events, journal)
        invariant SwitchRollback.CanUndoAll(Environment(), View(), journal[..n])
        invariant SwitchRollback.UndoAll(Environment(), View(), journal[..n])
                  == SwitchRollback.UndoAll(Environment(), start, journal)
      {
        n := n - 1;
        assert journal[..n + 1][..n] == journal[..n] && journal[..n + 1][n] == journal[n];
        SamePorts();
        SwitchRcEventHandler(events[n]);
        SamePorts();
      }
    }

    /** Each event holds the message and the bits of its entry. */
    static ghost predicate HoldsJournal(events: seq<TwEvent>, journal: seq<SwitchRollback.Entry>)
      reads events
    {
      |events| == |journal| &&
      forall j :: 0 <= j < |events| ==> events[j].msg == journal[j].msg && events[j].bits == journal[j].bits
    }
  }
}
