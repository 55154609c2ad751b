/** The flat arrays in which the switch keeps its components, and the ports they make up:
    queue and meter `t` of port `i` are at 3i + t, its droppers at 6i .. 6i + 5. */
module Layout {
  import opened Types
  import opened Ports
  import QueueFifo
  import Shaper
  import Metering
  import Dropping

  datatype Flat = Flat(
    queues: seq<QueueFifo.Queue>,
    meters: seq<Metering.Meter>,
    droppers: seq<Dropping.Dropper>,
    buckets: seq<Shaper.Bucket>,
    priorities: seq<int>,
    flags: seq<bool>,
    available: seq<real>)

  /** The parameters of the wires, which never change. */
  datatype Wires = Wires(bandwidths: seq<real>, propagation: seq<real>)

  predicate Fits(f: Flat, w: Wires) {
    var n := |f.buckets|;
    && |f.queues| == |f.meters| == NUM_QOS_LEVEL * n && |f.droppers| == 2 * NUM_QOS_LEVEL * n
    && |f.priorities| == |f.flags| == |f.available| == |w.bandwidths| == |w.propagation| == n
    && forall i :: 0 <= i < n ==> f.buckets[i].rate > 0.0 && w.bandwidths[i] > 0.0
  }

  function PortAt(f: Flat, w: Wires, i: nat): PortState
    requires Fits(f, w) && i < |f.buckets|
  {
    Port(f.queues[3 * i..3 * i + 3], f.meters[3 * i..3 * i + 3], f.droppers[6 * i..6 * i + 6],
         f.buckets[i], f.priorities[i], f.flags[i], f.available[i], w.bandwidths[i], w.propagation[i])
  }

  function PortsOf(f: Flat, w: Wires): (ports: seq<PortState>)
    requires Fits(f, w)
    ensures |ports| == |f.buckets|
    ensures forall i :: 0 <= i < |ports| ==> ports[i] == PortAt(f, w, i)
  {
    seq(|f.buckets|, i requires 0 <= i < |f.buckets| => PortAt(f, w, i))
  }

  lemma OtherSlice<T>(s: seq<T>, s': seq<T>, a: nat, b: nat)
    requires a + 3 <= |s| == |s'| && b + 3 <= |s| && (b + 3 <= a || a + 3 <= b)
    requires forall j :: 0 <= j < |s| && !(a <= j < a + 3) ==> s'[j] == s[j]
    ensures s'[b..b + 3] == s[b..b + 3]
  {
  }

  /** Changing an entry of a flat array changes one component of one port. */
  lemma SetQueues(f: Flat, w: Wires, i: nat, qs: seq<QueueFifo.Queue>)
    requires Fits(f, w) && i < |f.buckets| && |qs| == NUM_QOS_LEVEL
    ensures var f' := f.(queues := f.queues[..3 * i] + qs + f.queues[3 * i + 3..]);
      Fits(f', w) && PortsOf(f', w) == PortsOf(f, w)[i := PortsOf(f, w)[i].(queues := qs)]
  {
    var f' := f.(queues := f.queues[..3 * i] + qs + f.queues[3 * i + 3..]);
    assert PortAt(f', w, i).queues == qs;
    forall k | 0 <= k < |f.buckets| && k != i
      ensures PortAt(f', w, k) == PortAt(f, w, k)
    {
      OtherSlice(f.queues, f'.queues, 3 * i, 3 * k);
    }
  }

  lemma SetMeter(f: Flat, w: Wires, i: nat, t: nat, m: Metering.Meter)
    requires Fits(f, w) && i < |f.buckets| && t < NUM_QOS_LEVEL
    ensures var f' := f.(meters := f.meters[3 * i + t := m]);
      var p := PortsOf(f, w)[i];
      Fits(f', w) && PortsOf(f', w) == PortsOf(f, w)[i := p.(meters := p.meters[t := m])]
  {
    var f' := f.(meters := f.meters[3 * i + t := m]);
    var p := PortsOf(f, w)[i];
    assert PortAt(f', w, i).meters == p.meters[t := m];
    forall k | 0 <= k < |f.buckets| && k != i
      ensures PortAt(f', w, k) == PortAt(f, w, k)
    {
      assert f'.meters[3 * k..3 * k + 3] == f.meters[3 * k..3 * k + 3];
    }
  }

  lemma SetDropper(f: Flat, w: Wires, i: nat, t: nat, d: Dropping.Dropper)
    requires Fits(f, w) && i < |f.buckets| && t < 2 * NUM_QOS_LEVEL
    ensures var f' := f.(droppers := f.droppers[6 * i + t := d]);
      var p := PortsOf(f, w)[i];
      Fits(f', w) && PortsOf(f', w) == PortsOf(f, w)[i := p.(droppers := p.droppers[t := d])]
  {
    var f' := f.(droppers := f.droppers[6 * i + t := d]);
    var p := PortsOf(f, w)[i];
    assert PortAt(f', w, i).droppers == p.droppers[t := d];
    forall k | 0 <= k < |f.buckets| && k != i
      ensures PortAt(f', w, k) == PortAt(f, w, k)
    {
      assert f'.droppers[6 * k..6 * k + 6] == f.droppers[6 * k..6 * k + 6];
    }
  }

  lemma SetBucket(f: Flat, w: Wires, i: nat, b: Shaper.Bucket)
    requires Fits(f, w) && i < |f.buckets| && b.rate > 0.0
    ensures var f' := f.(buckets := f.buckets[i := b]);
      Fits(f', w) && PortsOf(f', w) == PortsOf(f, w)[i := PortsOf(f, w)[i].(bucket := b)]
  {
  }

  lemma SetPriority(f: Flat, w: Wires, i: nat, x: int)
    requires Fits(f, w) && i < |f.buckets|
    ensures var f' := f.(priorities := f.priorities[i := x]);
      Fits(f', w) && PortsOf(f', w) == PortsOf(f, w)[i := PortsOf(f, w)[i].(lastPriority := x)]
  {
  }

  lemma SetPipeline(f: Flat, w: Wires, i: nat, qs: seq<QueueFifo.Queue>, x: int)
    requires Fits(f, w) && i < |f.buckets| && |qs| == NUM_QOS_LEVEL
    ensures var f' := f.(queues := f.queues[..3 * i] + qs + f.queues[3 * i + 3..], priorities := f.priorities[i := x]);
      Fits(f', w) && PortsOf(f', w) == PortsOf(f, w)[i := PortsOf(f, w)[i].(queues := qs, lastPriority := x)]
  {
    hide PortsOf;
    SetQueues(f, w, i, qs);
    SetPriority(f.(queues := f.queues[..3 * i] + qs + f.queues[3 * i + 3..]), w, i, x);
  }

  lemma SetFlag(f: Flat, w: Wires, i: nat, x: bool)
    requires Fits(f, w) && i < |f.buckets|
    ensures var f' := f.(flags := f.flags[i := x]);
      Fits(f', w) && PortsOf(f', w) == PortsOf(f, w)[i := PortsOf(f, w)[i].(flag := x)]
  {
  }

  lemma SetAvailable(f: Flat, w: Wires, i: nat, x: real)
    requires Fits(f, w) && i < |f.buckets|
    ensures var f' := f.(available := f.available[i := x]);
      Fits(f', w) && PortsOf(f', w) == PortsOf(f, w)[i := PortsOf(f, w)[i].(available := x)]
  {
  }

  // ----- The arrays after initialisation -----

  function InitQueueAt(cs: seq<PortConfig>, k: nat): QueueFifo.Queue
    requires (forall i :: 0 <= i < |cs| ==> ValidConfig(cs[i])) && k < NUM_QOS_LEVEL * |cs|
  {
    var c := cs[k / 3];
    assert ValidConfig(c);
    QueueFifo.Queue([], c.capacities[k % 3])
  }

  function InitMeterAt(cs: seq<PortConfig>, k: nat): Metering.Meter
    requires k < NUM_QOS_LEVEL * |cs|
  {
    Metering.InitMeter(CommittedRate(cs[k / 3].bandwidth), cs[k / 3].cbs, cs[k / 3].ebs)
  }

  /** Even entries are yellow droppers, odd ones green. */
  function InitDropperAt(cs: seq<PortConfig>, k: nat): Dropping.Dropper
    requires (forall i :: 0 <= i < |cs| ==> ValidConfig(cs[i])) && k < 2 * NUM_QOS_LEVEL * |cs|
  {
    Dropping.InitDropper(MaxThreshold(InitQueueAt(cs, k / 2).capacity, if k % 2 == 0 then 0.6 else 0.9), RED_WEIGHT)
  }

  /** Arrays filled as the initialisation fills them make up freshly initialised ports. */
  ghost predicate Fresh(cs: seq<PortConfig>, f: Flat, w: Wires)
    requires forall i :: 0 <= i < |cs| ==> ValidConfig(cs[i])
  {
    var n := |cs|;
    && |f.buckets| == n && Fits(f, w)
    && (forall k :: 0 <= k < NUM_QOS_LEVEL * n ==> f.queues[k] == InitQueueAt(cs, k))
    && (forall k :: 0 <= k < NUM_QOS_LEVEL * n ==> f.meters[k] == InitMeterAt(cs, k))
    && (forall k :: 0 <= k < 2 * NUM_QOS_LEVEL * n ==> f.droppers[k] == InitDropperAt(cs, k))
    && (forall i :: 0 <= i < n ==>
          && f.buckets[i] == Shaper.InitBucket(SHAPER_CAPACITY, cs[i].bandwidth, cs[i].bandwidth)
          && f.priorities[i] == -1 && !f.flags[i] && f.available[i] == 0.0
          && w.bandwidths[i] == cs[i].bandwidth && w.propagation[i] == cs[i].propagation)
  }

  lemma FreshPorts(cs: seq<PortConfig>, f: Flat, w: Wires)
    requires (forall i :: 0 <= i < |cs| ==> ValidConfig(cs[i])) && Fresh(cs, f, w)
    ensures |PortsOf(f, w)| == |cs| && forall i :: 0 <= i < |cs| ==> PortsOf(f, w)[i] == InitPort(cs[i])
  {
    forall i | 0 <= i < |cs|
      ensures PortAt(f, w, i) == InitPort(cs[i])
    {
      FreshPort(cs, f, w, i);
    }
  }

  lemma FreshPort(cs: seq<PortConfig>, f: Flat, w: Wires, i: nat)
    requires (forall k :: 0 <= k < |cs| ==> ValidConfig(cs[k])) && Fresh(cs, f, w) && i < |cs|
    ensures PortAt(f, w, i) == InitPort(cs[i])
  {
    hide MaxThreshold, CommittedRate, Metering.InitMeter, Dropping.InitDropper, InitQueueAt, InitMeterAt, InitDropperAt;
    assert ValidConfig(cs[i]);
    FreshEntries(cs, i);
    var p, p0 := PortAt(f, w, i), InitPort(cs[i]);
    assert p.queues == p0.queues by {
      assert f.queues[3 * i] == InitQueueAt(cs, 3 * i);
      assert f.queues[3 * i + 1] == InitQueueAt(cs, 3 * i + 1);
      assert f.queues[3 * i + 2] == InitQueueAt(cs, 3 * i + 2);
    }
    assert p.meters == p0.meters by {
      assert f.meters[3 * i] == InitMeterAt(cs, 3 * i);
      assert f.meters[3 * i + 1] == InitMeterAt(cs, 3 * i + 1);
      assert f.meters[3 * i + 2] == InitMeterAt(cs, 3 * i + 2);
    }
    assert p.droppers == p0.droppers by {
      hide InitPort;
      FreshDropperEntries(cs, i);
      forall k | 0 <= k < 2 * NUM_QOS_LEVEL
        ensures p.droppers[k] == InitPort(cs[i]).droppers[k]
      {
        assert f.droppers[6 * i + k] == InitDropperAt(cs, 6 * i + k);
      }
    }
  }

  lemma ThreeApart(i: nat, t: nat)
    requires t < 3
    ensures (3 * i + t) / 3 == i && (3 * i + t) % 3 == t
  {
  }

  lemma FreshEntry(cs: seq<PortConfig>, i: nat, t: nat)
    requires (forall k :: 0 <= k < |cs| ==> ValidConfig(cs[k])) && i < |cs| && t < NUM_QOS_LEVEL
    ensures ValidConfig(cs[i])
    ensures InitQueueAt(cs, 3 * i + t) == QueueFifo.Queue([], cs[i].capacities[t])
    ensures InitMeterAt(cs, 3 * i + t) == Metering.InitMeter(CommittedRate(cs[i].bandwidth), cs[i].cbs, cs[i].ebs)
  {
    hide CommittedRate, Metering.InitMeter;
    ThreeApart(i, t);
  }

  lemma FreshEntries(cs: seq<PortConfig>, i: nat)
    requires (forall k :: 0 <= k < |cs| ==> ValidConfig(cs[k])) && i < |cs|
    ensures ValidConfig(cs[i])
    ensures forall t :: 0 <= t < NUM_QOS_LEVEL ==>
      && InitQueueAt(cs, 3 * i + t) == QueueFifo.Queue([], cs[i].capacities[t])
      && InitMeterAt(cs, 3 * i + t) == Metering.InitMeter(CommittedRate(cs[i].bandwidth), cs[i].cbs, cs[i].ebs)
  {
    hide CommittedRate, Metering.InitMeter, InitQueueAt, InitMeterAt;
    FreshEntry(cs, i, 0);
    FreshEntry(cs, i, 1);
    FreshEntry(cs, i, 2);
  }

  lemma FreshDropperEntries(cs: seq<PortConfig>, i: nat)
    requires (forall k :: 0 <= k < |cs| ==> ValidConfig(cs[k])) && i < |cs|
    ensures ValidConfig(cs[i])
    ensures forall k :: 0 <= k < 2 * NUM_QOS_LEVEL ==> InitDropperAt(cs, 6 * i + k) == InitPort(cs[i]).droppers[k]
  {
    hide CommittedRate, Metering.InitMeter, MaxThreshold, Dropping.InitDropper, InitQueueAt;
    assert ValidConfig(cs[i]);
    forall k | 0 <= k < 2 * NUM_QOS_LEVEL
      ensures InitDropperAt(cs, 6 * i + k) == InitPort(cs[i]).droppers[k]
    {
      FreshEntry(cs, i, k / 2);
      assert (6 * i + k) / 2 == 3 * i + k / 2 && (6 * i + k) % 2 == k % 2;
    }
  }
}
