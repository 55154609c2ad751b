/** Unit conversion. */
module Conversion {
  /** Nanoseconds needed to put `bytes` on a wire of `gbps`: the wire carries exactly
      the packet's bits in that time. */
  function InjectionDelay(bytes: int, gbps: real): (delay: real)
    requires gbps > 0.0
    ensures delay * gbps == (8 * bytes) as real
    ensures bytes > 0 ==> delay > 0.0
  {
    var seconds := (8 * bytes) as real / 1000000000.0 / gbps;
    Cancel((8 * bytes) as real, gbps);
    seconds * 1000.0 * 1000.0 * 1000.0
  }

  lemma Cancel(bits: real, gbps: real)
    requires gbps > 0.0
    ensures bits / 1000000000.0 / gbps * 1000.0 * 1000.0 * 1000.0 == bits / gbps
    ensures bits / gbps * gbps == bits
    ensures bits > 0.0 ==> bits / gbps > 0.0
  {
    var q := bits / gbps;
    assert q * gbps == bits;
    assert (q / 1000000000.0) * gbps == bits / 1000000000.0;
    assert bits / 1000000000.0 / gbps == q / 1000000000.0;
    PositiveFactor(q, gbps);
  }

  lemma PositiveFactor(q: real, gbps: real)
    requires gbps > 0.0
    ensures q * gbps > 0.0 <==> q > 0.0
  {
  }
}
