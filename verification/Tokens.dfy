/** Token arithmetic common to the meter and the shaper: a real rate, whole tokens, and
    the unsigned 32-bit word that carries them. */
module Tokens {
  import opened Types

  /** The unsigned 32-bit word that holds `x`. */
  function Word(x: int): (w: nat)
    ensures w < UINT32_RANGE
    ensures 0 <= x ==> w <= x
    ensures 0 <= x < UINT32_RANGE ==> w == x
    ensures UINT32_RANGE <= x < 2 * UINT32_RANGE ==> w == x - UINT32_RANGE
  {
    x % 0x1_0000_0000
  }

  /** Tokens earned, as a real number, from time `last` to time `now`. */
  function Earned(rate: real, last: real, now: real): real {
    rate * (now - last)
  }

  /** The tokens earned fit the 32-bit word. */
  predicate NoWrap(rate: real, last: real, now: real) {
    0.0 <= Earned(rate, last, now) < UINT32_RANGE as real
  }

  /** Whole tokens earned, as the 32-bit word holds them: never more than what was earned,
      and less than one below it when the word does not overflow. */
  function NewTokens(rate: real, last: real, now: real): (n: nat)
    ensures 0.0 <= Earned(rate, last, now) ==> n as real <= Earned(rate, last, now)
    ensures NoWrap(rate, last, now) ==> Earned(rate, last, now) - 1.0 < n as real
  {
    Word(Earned(rate, last, now).Floor)
  }

  lemma EarnedOrder(rate: real, last: real, t: real, u: real)
    requires rate > 0.0
    ensures t <= u <==> Earned(rate, last, t) <= Earned(rate, last, u)
    ensures last <= u <==> 0.0 <= Earned(rate, last, u)
    ensures Earned(rate, last, last) == 0.0
  {
    Sign(rate, u - t);
    Sign(rate, u - last);
  }

  lemma Sign(rate: real, x: real)
    requires rate > 0.0
    ensures rate * x >= 0.0 <==> x >= 0.0
  {
  }

  lemma EarnedSplit(rate: real, last: real, mid: real, now: real)
    ensures Earned(rate, last, now) == Earned(rate, last, mid) + Earned(rate, mid, now)
    ensures Earned(rate, last, last) == 0.0
  {
  }

  lemma NothingNew(rate: real, now: real)
    ensures Earned(rate, now, now) == 0.0
    ensures NewTokens(rate, now, now) == 0
  {
  }

  /** No wrap over an interval means no wrap over a part of it. */
  lemma NoWrapPart(rate: real, last: real, t: real, u: real, now: real)
    requires rate > 0.0 && last <= t <= u <= now && NoWrap(rate, last, now)
    ensures NoWrap(rate, t, u)
  {
    hide Earned;
    EarnedOrder(rate, last, u, now);
    EarnedOrder(rate, t, t, u);
    EarnedOrder(rate, last, last, t);
    EarnedSplit(rate, last, t, u);
  }

  /** Whole tokens of two consecutive intervals never exceed those of their union. */
  lemma FloorsAddUp(rate: real, last: real, mid: real, now: real)
    requires rate > 0.0 && last <= mid <= now && NoWrap(rate, last, now)
    ensures NewTokens(rate, last, mid) + NewTokens(rate, mid, now) <= NewTokens(rate, last, now)
  {
    hide Earned, NewTokens;
    EarnedSplit(rate, last, mid, now);
    EarnedOrder(rate, last, mid, mid);
    EarnedOrder(rate, mid, now, now);
    var x, y := NewTokens(rate, last, mid), NewTokens(rate, mid, now);
    assert (x + y) as real <= Earned(rate, last, now);
  }

  /** If exactly `k` tokens are earned by time `at`, then time `now` has `k` new tokens
      exactly when it reaches `at`. */
  lemma EnoughTokens(rate: real, last: real, at: real, now: real, k: nat)
    requires rate > 0.0 && Earned(rate, last, at) == k as real
    requires last <= now && NoWrap(rate, last, now)
    ensures NewTokens(rate, last, now) >= k <==> now >= at
  {
    hide Earned, NewTokens;
    EarnedOrder(rate, last, at, now);
    EarnedOrder(rate, last, now, at);
  }
}
