/** The random-early-detection dropper with maxp = 0: it drops on the average length alone. */
module Dropping {
  import opened Types
  import opened QueueFifo

  datatype Dropper = Dropper(maxth: real, wq: real, avg: real, qTime: real)

  function InitDropper(maxth: real, wq: real): Dropper {
    Dropper(maxth, wq, 0.0, 0.0)
  }

  /** Packet slots that could have been served while the queue was idle. */
  function IdleSlots(d: Dropper, now: real): real {
    (now - d.qTime) / 1000000000.0 * 150.0
  }

  /** The dropper after it saw a queue of `length` packets. `power` stands for the
      program's floating-point power function. */
  function Sampled(d: Dropper, length: int, now: real, power: (real, real) -> real): Dropper {
    if length > 0 then
      d.(avg := (1.0 - d.wq) * d.avg + d.wq * length as real)
    else
      d.(avg := power(1.0 - d.wq, IdleSlots(d, now)) * d.avg, qTime := now)
  }

  predicate Drops(d: Dropper) {
    d.avg >= d.maxth
  }

  function TimeUpdate(d: Dropper, now: real): Dropper {
    d.(qTime := now)
  }

  function SnapshotOf(d: Dropper): DropperSnapshot {
    DropperSnapshot(d.avg, d.qTime)
  }

  function Restore(d: Dropper, s: DropperSnapshot): Dropper {
    d.(avg := s.avg, qTime := s.qTime)
  }

  /** What the power function must satisfy: a base in [0,1] raised to a non-negative
      exponent stays in [0,1]. */
  ghost predicate IsPower(power: (real, real) -> real) {
    forall base, m :: 0.0 <= base <= 1.0 && m >= 0.0 ==> 0.0 <= power(base, m) <= 1.0
  }

  ghost predicate Sound(d: Dropper, bound: real, now: real) {
    0.0 <= d.wq <= 1.0 && 0.0 <= d.avg <= bound && d.qTime <= now
  }

  /** The average never leaves [0, longest length ever sampled]. */
  lemma SampledStaysBelow(d: Dropper, length: nat, now: real, power: (real, real) -> real, bound: real)
    requires IsPower(power) && Sound(d, bound, now) && length as real <= bound
    ensures Sound(Sampled(d, length, now, power), bound, now)
  {
    if length > 0 {
      Convex(d.wq, d.avg, length as real, bound);
    } else {
      var f := power(1.0 - d.wq, IdleSlots(d, now));
      assert IdleSlots(d, now) >= 0.0;
      Convex(f, 0.0, d.avg, bound);
    }
  }

  lemma Convex(w: real, x: real, y: real, bound: real)
    requires 0.0 <= w <= 1.0 && 0.0 <= x <= bound && 0.0 <= y <= bound
    ensures 0.0 <= (1.0 - w) * x + w * y <= bound
  {
    var a, b := (1.0 - w) * x, w * y;
    assert 0.0 <= b <= w * bound by {
      NonNegative(w, y);
      NonNegative(w, bound - y);
    }
    assert 0.0 <= a <= (1.0 - w) * bound by {
      NonNegative(1.0 - w, x);
      NonNegative(1.0 - w, bound - x);
    }
    assert (1.0 - w) * bound + w * bound == bound;
  }

  lemma NonNegative(x: real, y: real)
    requires x >= 0.0 && y >= 0.0
    ensures x * y >= 0.0
  {
  }

  // ----- What the average remembers -----

  /** A sample of a waiting queue brings the average closer to its length by exactly the weight;
      a sample of an empty queue lets it decay, as if 150 packets a second had been served since
      the q_time, which becomes now. */
  lemma AverageMoves(d: Dropper, length: nat, now: real, power: (real, real) -> real)
    ensures var d' := Sampled(d, length, now, power);
      && d'.maxth == d.maxth && d'.wq == d.wq
      && (length > 0 ==> length as real - d'.avg == (1.0 - d.wq) * (length as real - d.avg) && d'.qTime == d.qTime)
      && (length == 0 ==> d'.avg == power(1.0 - d.wq, (now - d.qTime) * 0.00000015) * d.avg && d'.qTime == now)
      && (Drops(d') <==> d'.avg >= d.maxth)
  {
  }

  /** The dropper after it saw waiting queues of these lengths. */
  function SampledAll(d: Dropper, lengths: seq<nat>, now: real, power: (real, real) -> real): Dropper
    decreases |lengths|
  {
    if lengths == [] then d
    else Sampled(SampledAll(d, lengths[..|lengths| - 1], now, power), lengths[|lengths| - 1], now, power)
  }

  function Pow(x: real, n: nat): real {
    if n == 0 then 1.0 else x * Pow(x, n - 1)
  }

  /** n samples of one length leave (1 - wq)^n of the distance to it. */
  lemma {:induction false} ConstantSamples(d: Dropper, length: nat, n: nat, now: real, power: (real, real) -> real)
    requires length > 0
    ensures length as real - SampledAll(d, seq(n, _ => length), now, power).avg
            == Pow(1.0 - d.wq, n) * (length as real - d.avg)
    ensures SampledAll(d, seq(n, _ => length), now, power).wq == d.wq
    decreases n
  {
    hide Sampled;
    if n > 0 {
      var lengths := seq(n, _ => length);
      assert lengths[..n - 1] == seq(n - 1, _ => length) && lengths[n - 1] == length;
      ConstantSamples(d, length, n - 1, now, power);
      AverageMoves(SampledAll(d, lengths[..n - 1], now, power), length, now, power);
      ThreeFactors(1.0 - d.wq, Pow(1.0 - d.wq, n - 1), length as real - d.avg);
    }
  }

  lemma ThreeFactors(x: real, y: real, z: real)
    ensures x * (y * z) == (x * y) * z
  {
  }

  /** The distance by which the average may stay below `low` after n samples of at least that
      length, starting from `avg`. */
  function Shortfall(wq: real, n: nat, low: real, avg: real): real {
    Pow(1.0 - wq, n) * (low - avg)
  }

  /** One more sample of at least `low` keeps the average above low minus the shortfall. */
  lemma SampleRaises(d: Dropper, length: nat, now: real, power: (real, real) -> real, n: nat, low: real, avg: real)
    requires 0.0 <= d.wq <= 1.0 && length > 0 && low <= length as real
    requires low - d.avg <= Shortfall(d.wq, n, low, avg)
    ensures low - Sampled(d, length, now, power).avg <= Shortfall(d.wq, n + 1, low, avg)
  {
    AverageMoves(d, length, now, power);
    var w, avg' := d.wq, Sampled(d, length, now, power).avg;
    assert low - avg' <= (1.0 - w) * (low - d.avg) by {
      NonNegative(w, length as real - low);
      assert avg' == (1.0 - w) * d.avg + w * length as real;
      assert w * (length as real - low) == w * length as real - w * low;
      assert (1.0 - w) * (low - d.avg) == low - w * low - (1.0 - w) * d.avg;
    }
    var s := Shortfall(w, n, low, avg);
    assert (1.0 - w) * (low - d.avg) <= (1.0 - w) * s by {
      NonNegative(1.0 - w, s - (low - d.avg));
      assert (1.0 - w) * (s - (low - d.avg)) == (1.0 - w) * s - (1.0 - w) * (low - d.avg);
    }
    assert (1.0 - w) * (Pow(1.0 - w, n) * (low - avg)) == ((1.0 - w) * Pow(1.0 - w, n)) * (low - avg);
  }

  /** Bernoulli's inequality, for the factor by which the distance shrinks. */
  lemma {:induction false} PowShrinks(w: real, n: nat)
    requires 0.0 <= w <= 1.0
    ensures 0.0 <= Pow(1.0 - w, n) && Pow(1.0 - w, n) * (1.0 + n as real * w) <= 1.0
    decreases n
  {
    if n > 0 {
      PowShrinks(w, n - 1);
      var f, m := Pow(1.0 - w, n - 1), (n - 1) as real;
      NonNegative(1.0 - w, f);
      assert n as real == m + 1.0;
      NonNegative(w, w);
      NonNegative(w * w, m + 1.0);
      assert (1.0 - w) * (1.0 + (m + 1.0) * w) == 1.0 + m * w - (w * w) * (m + 1.0);
      NonNegative(f, 1.0 + m * w - (1.0 - w) * (1.0 + (m + 1.0) * w));
      var x, y := 1.0 + m * w, (1.0 - w) * (1.0 + (m + 1.0) * w);
      assert f * (x - y) == f * x - f * y;
      assert ((1.0 - w) * f) * (1.0 + (m + 1.0) * w) == f * y;
    }
  }

  /** After so many samples of at least `low` the shortfall has become smaller than the distance
      from the threshold to `low`. */
  lemma EnoughSamples(wq: real, n: nat, low: real, avg: real, maxth: real)
    requires 0.0 <= wq <= 1.0 && maxth < low && avg <= low
    requires low - avg <= (low - maxth) * (1.0 + n as real * wq)
    ensures Shortfall(wq, n, low, avg) <= low - maxth
  {
    PowShrinks(wq, n);
    var f, g, gap := Pow(1.0 - wq, n), 1.0 + n as real * wq, low - maxth;
    NonNegative(f, gap * g - (low - avg));
    assert f * (gap * g - (low - avg)) == f * (gap * g) - f * (low - avg);
    assert f * (gap * g) == gap * (f * g);
    NonNegative(gap, 1.0 - f * g);
    assert gap * (1.0 - f * g) == gap - gap * (f * g);
  }

  // ----- The dropper in place -----

  class RedDropper {
    const maxth: real
    const wq: real
    const queue: FifoQueue
    var avg: real
    var qTime: real

    ghost function View(): Dropper
      reads this
    {
      Dropper(maxth, wq, avg, qTime)
    }

    constructor (maxth: real, wq: real, queue: FifoQueue)
      ensures View() == InitDropper(maxth, wq) && this.queue == queue
      ensures this.maxth == maxth && this.wq == wq && avg == 0.0 && qTime == 0.0
    {
      this.maxth, this.wq, this.queue := maxth, wq, queue;
      avg, qTime := 0.0, 0.0;
    }

    method UpdateDropper(now: real, power: (real, real) -> real) returns (drop: bool)
      requires queue.Valid()
      modifies this
      ensures View() == Sampled(old(View()), |queue.contents|, now, power)
      ensures drop == Drops(View())
      ensures drop <==> avg >= maxth
      ensures var length := |queue.contents|;
        && (length > 0 ==> length as real - avg == (1.0 - wq) * (length as real - old(avg)) && qTime == old(qTime))
        && (length == 0 ==>
              avg == power(1.0 - wq, (now - old(qTime)) / 1000000000.0 * 150.0) * old(avg) && qTime == now)
    {
      var length := queue.numPackets;
      if length > 0 {
        avg := (1.0 - wq) * avg + wq * length as real;
      } else {
        var m := (now - qTime) / 1000000000.0 * 150.0;
        avg := power(1.0 - wq, m) * avg;
        qTime := now;
      }
      drop := avg >= maxth;
    }

    method UpdateTime(now: real)
      modifies this
      ensures View() == TimeUpdate(old(View()), now)
    {
      qTime := now;
    }

    method UpdateReverse(state: DropperSnapshot)
      modifies this
      ensures View() == Restore(old(View()), state)
    {
      avg := state.avg;
      qTime := state.qTime;
    }

    method TakeSnapshot() returns (state: DropperSnapshot)
      ensures state == SnapshotOf(View())
    {
      state := DropperSnapshot(avg, qTime);
    }
  }
}
