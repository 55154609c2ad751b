/** The single-rate three-color meter of RFC 2697, in color-blind mode. */
module Metering {
  import opened Types
  import opened Tokens

  datatype Color = Green | Yellow | Red

  /** `cir` is in bits per microsecond, the two burst sizes are in bits. */
  datatype Meter = Meter(tc: int, te: int, lastUpdate: real, cir: real, cbs: int, ebs: int)

  function InitMeter(cir: real, cbs: int, ebs: int): Meter {
    Meter(cbs, ebs, 0.0, cir, cbs, ebs)
  }

  /** Tokens per nanosecond. */
  function Rate(m: Meter): real {
    m.cir / 1000.0
  }

  /** Adds `n` tokens to bucket C and what does not fit there to bucket E, in unsigned
      32-bit words. */
  function Refill(m: Meter, n: nat): Meter {
    var tc := Word(m.tc + n);
    if tc > m.cbs then
      var te := Word(m.te + (tc - m.cbs));
      m.(tc := m.cbs, te := if te > m.ebs then m.ebs else te)
    else
      m.(tc := tc)
  }

  function Mark(m: Meter, bits: int): (Meter, Color) {
    if bits <= m.tc then (m.(tc := m.tc - bits), Green)
    else if bits <= m.te then (m.(te := m.te - bits), Yellow)
    else (m, Red)
  }

  function Refreshed(m: Meter, now: real): Meter {
    var n := NewTokens(Rate(m), m.lastUpdate, now);
    Refill(if n > 0 then m.(lastUpdate := now) else m, n)
  }

  function Update(m: Meter, bytes: int, now: real): (Meter, Color) {
    Mark(Refreshed(m, now), 8 * bytes)
  }

  function SnapshotOf(m: Meter): MeterSnapshot {
    MeterSnapshot(m.tc, m.te, m.lastUpdate)
  }

  function Restore(m: Meter, s: MeterSnapshot): Meter {
    m.(tc := s.tc, te := s.te, lastUpdate := s.lastUpdate)
  }

  predicate Sound(m: Meter, now: real) {
    && m.cir > 0.0
    && 0 <= m.tc <= m.cbs < UINT32_RANGE
    && 0 <= m.te <= m.ebs < UINT32_RANGE
    && 0.0 <= m.lastUpdate <= now
  }

  /** The tokens stay within the buckets whatever the packet and whatever the wait. */
  lemma UpdateKeepsSound(m: Meter, bytes: int, now: real)
    requires Sound(m, now) && bytes >= 0
    ensures Sound(Update(m, bytes, now).0, now)
    ensures Rate(Update(m, bytes, now).0) == Rate(m)
  {
  }

  /** Only the three saved fields ever change, so restoring them undoes an update. */
  lemma RestoreUndoesUpdate(m: Meter, bytes: int, now: real)
    ensures Restore(Update(m, bytes, now).0, SnapshotOf(m)) == m
  {
    hide NewTokens, Word;
  }

  // ----- Section 3 of RFC 2697 -----

  /** One increment: bucket C first, bucket E when C is full, neither when both are. */
  function RfcTick(m: Meter): Meter {
    if m.tc < m.cbs then m.(tc := m.tc + 1)
    else if m.te < m.ebs then m.(te := m.te + 1)
    else m
  }

  function RfcTicks(m: Meter, n: nat): Meter
    decreases n
  {
    if n == 0 then m else RfcTicks(RfcTick(m), n - 1)
  }

  /** The color-blind decision of section 3 of RFC 2697: the color of a packet of `bits`,
      and what is left in the buckets. */
  ghost predicate RfcColorBlind(m: Meter, bits: int, m': Meter, color: Color) {
    && (color == Green <==> m.tc - bits >= 0)
    && (color == Yellow <==> m.tc - bits < 0 && m.te - bits >= 0)
    && m' == m.(tc := if color == Green then m.tc - bits else m.tc,
                te := if color == Yellow then m.te - bits else m.te)
  }

  lemma {:induction false} RfcTicksClosedForm(m: Meter, n: nat)
    requires 0 <= m.tc <= m.cbs && 0 <= m.te <= m.ebs
    ensures RfcTicks(m, n) == (
              if m.tc + n <= m.cbs then m.(tc := m.tc + n)
              else m.(tc := m.cbs,
                      te := if m.te + (m.tc + n - m.cbs) > m.ebs then m.ebs
                            else m.te + (m.tc + n - m.cbs)))
    decreases n
  {
    if n > 0 {
      RfcTicksClosedForm(RfcTick(m), n - 1);
    }
  }

  /** No unsigned word overflows while `n` tokens are added. */
  predicate RefillFits(m: Meter, n: nat) {
    && m.tc + n < UINT32_RANGE
    && m.te + (if m.tc + n > m.cbs then m.tc + n - m.cbs else 0) < UINT32_RANGE
  }

  /** The bulk refill is the RFC's rule repeated once per token exactly when no 32-bit
      word overflows. */
  lemma RefillIsRepeatedTicks(m: Meter, n: nat)
    requires 0 <= m.tc <= m.cbs < UINT32_RANGE && 0 <= m.te <= m.ebs < UINT32_RANGE
    requires n < UINT32_RANGE
    ensures Refill(m, n) == RfcTicks(m, n) <==> RefillFits(m, n)
  {
    RfcTicksClosedForm(m, n);
  }

  /** A meter and a count for which the words overflow: bucket C is full and as large as the word
      allows, and one more token empties it. */
  lemma RefillOverflows()
    ensures var m := Meter(UINT32_RANGE - 1, 0, 0.0, 1000.0, UINT32_RANGE - 1, 0);
      && !RefillFits(m, 1) && RfcTicks(m, 1) == m
      && Refill(m, 1) == m.(tc := 0)
  {
    var m := Meter(UINT32_RANGE - 1, 0, 0.0, 1000.0, UINT32_RANGE - 1, 0);
    RfcTicksClosedForm(m, 1);
  }

  /** A whole update meters as section 3 of RFC 2697 prescribes: one tick per new token, then the
      color-blind decision. The new tokens are the whole tokens earned, unless these do not fit
      the 32-bit word. */
  lemma UpdateFollowsRfc(m: Meter, bytes: int, now: real)
    requires Sound(m, now) && bytes >= 0
    requires RefillFits(m, NewTokens(Rate(m), m.lastUpdate, now))
    ensures var n := NewTokens(Rate(m), m.lastUpdate, now);
      var ticked := RfcTicks(m.(lastUpdate := if n > 0 then now else m.lastUpdate), n);
      var (m', color) := Update(m, bytes, now);
      RfcColorBlind(ticked, 8 * bytes, m', color)
    ensures NoWrap(Rate(m), m.lastUpdate, now) ==>
      NewTokens(Rate(m), m.lastUpdate, now) == Earned(Rate(m), m.lastUpdate, now).Floor
  {
    var n := NewTokens(Rate(m), m.lastUpdate, now);
    RefillIsRepeatedTicks(if n > 0 then m.(lastUpdate := now) else m, n);
  }

  /** After 2^32 + 5 earned tokens an empty bucket of 100 tokens holds 5, where the RFC fills it. */
  lemma EarnedTokensWrap()
    ensures var m := Meter(0, 0, 0.0, 1000.0, 100, 0);
      var now := (UINT32_RANGE + 5) as real;
      && Earned(Rate(m), 0.0, now) == now
      && Refreshed(m, now).tc == 5 && RfcTicks(m, UINT32_RANGE + 5).tc == 100
  {
    var m := Meter(0, 0, 0.0, 1000.0, 100, 0);
    RfcTicksClosedForm(m, UINT32_RANGE + 5);
  }

  // ----- Policing -----

  /** The committed tokens on hand at `now`, whole ones and the fraction being earned. */
  function Committed(m: Meter, now: real): real {
    m.tc as real + Earned(Rate(m), m.lastUpdate, now)
  }

  /** The same for both buckets together. */
  function Worth(m: Meter, now: real): real {
    (m.tc + m.te) as real + Earned(Rate(m), m.lastUpdate, now)
  }

  function GreenBits(c: Color, bytes: int): int {
    if c == Green then 8 * bytes else 0
  }

  /** Bits of packets that are not red. */
  function PassedBits(c: Color, bytes: int): int {
    if c == Red then 0 else 8 * bytes
  }

  lemma RefillBounds(m: Meter, n: nat)
    requires 0 <= m.tc <= m.cbs < UINT32_RANGE && 0 <= m.te <= m.ebs < UINT32_RANGE
    ensures var m' := Refill(m, n);
      && 0 <= m'.tc <= m.cbs && 0 <= m'.te <= m.ebs
      && m'.tc <= m.tc + n && m'.tc + m'.te <= m.tc + m.te + n
      && (n == 0 ==> m' == m)
      && m' == m.(tc := m'.tc, te := m'.te)
  {
    hide Word;
  }

  lemma {:induction false} RefreshBounds(m: Meter, now: real)
    requires Sound(m, now)
    ensures var m' := Refreshed(m, now);
      && Sound(m', now)
      && m' == m.(tc := m'.tc, te := m'.te, lastUpdate := m'.lastUpdate)
      && Committed(m', now) <= Committed(m, now)
      && Worth(m', now) <= Worth(m, now)
  {
    hide Earned, NewTokens, Refill;
    EarnedOrder(Rate(m), m.lastUpdate, now, now);
    NothingNew(Rate(m), now);
    var n := NewTokens(Rate(m), m.lastUpdate, now);
    RefillBounds(if n > 0 then m.(lastUpdate := now) else m, n);
  }

  lemma RefreshLeavesLessThanOne(m: Meter, now: real)
    requires Sound(m, now) && NoWrap(Rate(m), m.lastUpdate, now)
    ensures var m' := Refreshed(m, now);
      && Committed(m', now) < m'.tc as real + 1.0
      && Worth(m', now) < (m'.tc + m'.te) as real + 1.0
  {
    hide Earned, NewTokens, Refill;
    NothingNew(Rate(m), now);
    var n := NewTokens(Rate(m), m.lastUpdate, now);
    RefillBounds(if n > 0 then m.(lastUpdate := now) else m, n);
  }

  lemma RefreshIsIdempotent(m: Meter, now: real)
    requires Sound(m, now)
    ensures Refreshed(Refreshed(m, now), now) == Refreshed(m, now)
  {
    hide Earned, NewTokens, Refill;
    NothingNew(Rate(m), now);
    var n := NewTokens(Rate(m), m.lastUpdate, now);
    RefillBounds(if n > 0 then m.(lastUpdate := now) else m, n);
    RefillBounds(Refreshed(m, now), 0);
  }

  /** What an update lets pass is paid for, token by token. */
  lemma {:induction false} UpdatePays(m: Meter, bytes: int, now: real)
    requires Sound(m, now) && bytes >= 0
    ensures var (m', c) := Update(m, bytes, now);
      && Sound(m', now)
      && m' == m.(tc := m'.tc, te := m'.te, lastUpdate := m'.lastUpdate)
      && Committed(m', now) <= Committed(m, now) - GreenBits(c, bytes) as real
      && Worth(m', now) <= Worth(m, now) - PassedBits(c, bytes) as real
  {
    hide Earned, Refreshed;
    RefreshBounds(m, now);
  }

  lemma Later(m: Meter, t: real, u: real)
    ensures Committed(m, u) == Committed(m, t) + Earned(Rate(m), t, u)
    ensures Worth(m, u) == Worth(m, t) + Earned(Rate(m), t, u)
  {
    hide Earned;
    EarnedSplit(Rate(m), m.lastUpdate, t, u);
  }

  lemma WorthCoversTokens(m: Meter, now: real)
    requires Sound(m, now)
    ensures Committed(m, now) >= m.tc as real && Worth(m, now) >= (m.tc + m.te) as real
  {
    hide Earned;
    EarnedOrder(Rate(m), m.lastUpdate, now, now);
  }

  datatype Sample = Sample(bytes: int, at: real)

  /** The meter after a run of updates, with the bits coloured green and the bits coloured
      green or yellow. */
  datatype Usage = Usage(meter: Meter, green: int, passed: int)

  function MeterRun(m: Meter, packets: seq<Sample>): Usage
    decreases |packets|
  {
    if packets == [] then Usage(m, 0, 0)
    else
      var u := MeterRun(m, packets[..|packets| - 1]);
      var p := packets[|packets| - 1];
      var (m', c) := Update(u.meter, p.bytes, p.at);
      Usage(m', u.green + GreenBits(c, p.bytes), u.passed + PassedBits(c, p.bytes))
  }

  predicate TimeOrdered(from: real, packets: seq<Sample>) {
    && (forall i :: 0 <= i < |packets| ==> from <= packets[i].at && packets[i].bytes >= 0)
    && (forall i, j :: 0 <= i < j < |packets| ==> packets[i].at <= packets[j].at)
  }

  function Ended(from: real, packets: seq<Sample>): real {
    if packets == [] then from else packets[|packets| - 1].at
  }

  lemma {:induction false} MeterRunPays(m: Meter, from: real, packets: seq<Sample>)
    requires Sound(m, from) && TimeOrdered(from, packets)
    ensures var u := MeterRun(m, packets);
      var end := Ended(from, packets);
      && Sound(u.meter, end)
      && u.meter == m.(tc := u.meter.tc, te := u.meter.te, lastUpdate := u.meter.lastUpdate)
      && 0 <= u.green <= u.passed
      && u.green as real + Committed(u.meter, end) <= Committed(m, from) + Earned(Rate(m), from, end)
      && u.passed as real + Worth(u.meter, end) <= Worth(m, from) + Earned(Rate(m), from, end)
    decreases |packets|
  {
    hide Update, Committed, Worth, Earned;
    if packets != [] {
      var before := packets[..|packets| - 1];
      var p := packets[|packets| - 1];
      var mid := Ended(from, before);
      MeterRunPays(m, from, before);
      var u := MeterRun(m, before);
      Later(u.meter, mid, p.at);
      UpdatePays(u.meter, p.bytes, p.at);
      EarnedSplit(Rate(m), from, mid, p.at);
    } else {
      EarnedSplit(Rate(m), from, from, from);
    }
  }

  /** Policing from initialisation: green bits stay below CBS plus the committed rate, and
      green and yellow bits together below CBS + EBS plus the committed rate. */
  lemma {:induction false} PolicingFromStart(cir: real, cbs: int, ebs: int, packets: seq<Sample>)
    requires cir > 0.0 && 0 <= cbs < UINT32_RANGE && 0 <= ebs < UINT32_RANGE
    requires TimeOrdered(0.0, packets)
    ensures var u := MeterRun(InitMeter(cir, cbs, ebs), packets);
      var earned := Earned(cir / 1000.0, 0.0, Ended(0.0, packets));
      && u.green as real <= cbs as real + earned
      && u.passed as real <= (cbs + ebs) as real + earned
      && 0 <= u.meter.tc <= cbs && 0 <= u.meter.te <= ebs
  {
    hide MeterRun, TimeOrdered, Earned;
    var m := InitMeter(cir, cbs, ebs);
    MeterRunPays(m, 0.0, packets);
    EarnedSplit(Rate(m), 0.0, 0.0, 0.0);
    WorthCoversTokens(MeterRun(m, packets).meter, Ended(0.0, packets));
  }

  /** Policing over any window [from, to]: the bounds hold with one more bit, whatever the
      meter did before. */
  lemma {:induction false} PolicingInWindow(m: Meter, packets: seq<Sample>, from: real, to: real)
    requires Sound(m, from) && TimeOrdered(from, packets)
    requires Ended(from, packets) <= to && NoWrap(Rate(m), m.lastUpdate, to)
    ensures var u := MeterRun(m, packets);
      && u.green as real <= m.cbs as real + Earned(Rate(m), from, to) + 1.0
      && u.passed as real <= (m.cbs + m.ebs) as real + Earned(Rate(m), from, to) + 1.0
  {
    hide Refreshed, Update, NewTokens, Earned;
    EarnedOrder(Rate(m), from, from, to);
    if packets != [] {
      var first, end := packets[0].at, Ended(from, packets);
      var m' := Refreshed(m, first);
      NoWrapPart(Rate(m), m.lastUpdate, m.lastUpdate, first, to);
      RefreshBounds(m, first);
      RefreshLeavesLessThanOne(m, first);
      RefreshIsIdempotent(m, first);
      SameRun(m', m, packets);
      MeterRunPays(m', first, packets);
      WorthCoversTokens(MeterRun(m, packets).meter, end);
      EarnedOrder(Rate(m), first, end, to);
      EarnedSplit(Rate(m), from, first, to);
      EarnedOrder(Rate(m), from, from, first);
    }
  }

  // ----- What the meter lets pass -----

  /** A whole update by section 3 of RFC 2697: one increment per whole token earned, then the
      color-blind decision. */
  function RfcUpdate(m: Meter, bytes: int, now: real): (r: (Meter, Color))
    requires Earned(Rate(m), m.lastUpdate, now) >= 0.0
    ensures var n := Earned(Rate(m), m.lastUpdate, now).Floor;
      RfcColorBlind(RfcTicks(m.(lastUpdate := if n > 0 then now else m.lastUpdate), n), 8 * bytes, r.0, r.1)
  {
    var n := Earned(Rate(m), m.lastUpdate, now).Floor;
    var ticked := RfcTicks(m.(lastUpdate := if n > 0 then now else m.lastUpdate), n);
    var bits := 8 * bytes;
    if ticked.tc - bits >= 0 then (ticked.(tc := ticked.tc - bits), Green)
    else if ticked.te - bits >= 0 then (ticked.(te := ticked.te - bits), Yellow)
    else (ticked, Red)
  }

  /** No unsigned word overflows in an update. */
  predicate UpdateFits(m: Meter, now: real) {
    Earned(Rate(m), m.lastUpdate, now) >= 0.0 && RefillFits(m, Earned(Rate(m), m.lastUpdate, now).Floor)
  }

  lemma UpdateIsRfc(m: Meter, bytes: int, now: real)
    requires Sound(m, now) && bytes >= 0 && UpdateFits(m, now)
    ensures Update(m, bytes, now) == RfcUpdate(m, bytes, now)
  {
    var n := Earned(Rate(m), m.lastUpdate, now).Floor;
    assert NewTokens(Rate(m), m.lastUpdate, now) == n;
    RefillIsRepeatedTicks(if n > 0 then m.(lastUpdate := now) else m, n);
    hide RfcTicks, NewTokens, Earned;
  }

  /** A run of a meter that follows the RFC, token by token; it fits while no word would overflow. */
  function RfcRun(m: Meter, packets: seq<Sample>): Usage
    requires RunFits(m, packets)
    decreases |packets|, 1
  {
    if packets == [] then Usage(m, 0, 0)
    else
      var u := RfcRun(m, packets[..|packets| - 1]);
      var p := packets[|packets| - 1];
      var (m', c) := RfcUpdate(u.meter, p.bytes, p.at);
      Usage(m', u.green + GreenBits(c, p.bytes), u.passed + PassedBits(c, p.bytes))
  }

  predicate RunFits(m: Meter, packets: seq<Sample>)
    decreases |packets|, 0
  {
    packets == [] ||
    (RunFits(m, packets[..|packets| - 1])
     && UpdateFits(RfcRun(m, packets[..|packets| - 1]).meter, packets[|packets| - 1].at))
  }

  /** Over every run in which no word overflows, the meter colors every packet, and lets exactly
      those bits pass, as the RFC does. */
  lemma {:induction false} MeterRunIsRfc(m: Meter, from: real, packets: seq<Sample>)
    requires Sound(m, from) && TimeOrdered(from, packets) && RunFits(m, packets)
    ensures MeterRun(m, packets) == RfcRun(m, packets)
    decreases |packets|
  {
    hide Update, RfcUpdate, UpdateFits;
    if packets != [] {
      var before, p := packets[..|packets| - 1], packets[|packets| - 1];
      MeterRunIsRfc(m, from, before);
      MeterRunPays(m, from, before);
      SoundLater(MeterRun(m, before).meter, Ended(from, before), p.at);
      UpdateIsRfc(MeterRun(m, before).meter, p.bytes, p.at);
    }
  }

  lemma SoundLater(m: Meter, t: real, u: real)
    requires Sound(m, t) && t <= u
    ensures Sound(m, u)
  {
  }

  predicate Full(m: Meter) {
    m.tc == m.cbs && m.te == m.ebs
  }

  /** The packets come at one instant. */
  predicate AtOnce(packets: seq<Sample>, at: real) {
    forall i :: 0 <= i < |packets| ==> packets[i].at == at && packets[i].bytes >= 0
  }

  /** After a burst, the tokens that are gone are those of the bits that passed. */
  lemma {:induction false} BurstState(m: Meter, packets: seq<Sample>, at: real)
    requires Sound(m, at) && Full(m) && UpdateFits(m, at) && AtOnce(packets, at)
    ensures var u := MeterRun(m, packets);
      && Sound(u.meter, at) && u.meter == m.(tc := u.meter.tc, te := u.meter.te, lastUpdate := u.meter.lastUpdate)
      && u.meter.tc == m.cbs - u.green && u.meter.te == m.ebs - (u.passed - u.green)
      && Refreshed(u.meter, at) == u.meter.(lastUpdate := Refreshed(u.meter, at).lastUpdate)
    decreases |packets|
  {
    hide NewTokens, Earned, Refill;
    if packets == [] {
      FullStaysFull(m, at);
    } else {
      var before, p := packets[..|packets| - 1], packets[|packets| - 1];
      BurstState(m, before, at);
      var u := MeterRun(m, before);
      RefreshIsIdempotent(u.meter, at);
      RefreshSettles(u.meter, at);
      UpdateKeepsSound(u.meter, p.bytes, at);
      MarkedNeedsNoRefresh(Refreshed(u.meter, at), 8 * p.bytes, at);
    }
  }

  lemma RefreshSettles(m: Meter, now: real)
    ensures NewTokens(Rate(m), Refreshed(m, now).lastUpdate, now) == 0
    ensures Rate(Refreshed(m, now)) == Rate(m)
  {
    hide NewTokens, Earned, Word;
    NothingNew(Rate(m), now);
  }

  lemma FullStaysFull(m: Meter, now: real)
    requires Sound(m, now) && Full(m) && UpdateFits(m, now)
    ensures Refreshed(m, now) == m.(lastUpdate := Refreshed(m, now).lastUpdate)
  {
  }

  /** After marking, the meter still earns nothing at the instant at which it was refreshed. */
  lemma MarkedNeedsNoRefresh(m: Meter, bits: int, now: real)
    requires Sound(m, now) && Refreshed(m, now) == m && bits >= 0
    requires NewTokens(Rate(m), m.lastUpdate, now) == 0
    ensures Refreshed(Mark(m, bits).0, now) == Mark(m, bits).0
  {
    hide NewTokens;
  }

  /** A burst at one instant that meets full buckets: a packet is green exactly while the green
      bits stay within CBS, and otherwise yellow exactly while the yellow bits stay within EBS. */
  lemma {:induction false} BurstColors(m: Meter, packets: seq<Sample>, bytes: int, at: real)
    requires Sound(m, at) && Full(m) && UpdateFits(m, at) && AtOnce(packets, at) && bytes >= 0
    ensures var u := MeterRun(m, packets);
      var color := Update(u.meter, bytes, at).1;
      && (color == Green <==> u.green + 8 * bytes <= m.cbs)
      && (color == Yellow <==> u.green + 8 * bytes > m.cbs && (u.passed - u.green) + 8 * bytes <= m.ebs)
  {
    hide Refreshed, MeterRun;
    BurstState(m, packets, at);
  }

  lemma {:induction false} SameRun(a: Meter, b: Meter, packets: seq<Sample>)
    requires packets != [] && Refreshed(a, packets[0].at) == Refreshed(b, packets[0].at)
    ensures MeterRun(a, packets) == MeterRun(b, packets)
    decreases |packets|
  {
    hide Refreshed, Mark;
    if |packets| > 1 {
      SameRun(a, b, packets[..|packets| - 1]);
    } else {
      assert MeterRun(a, packets[..0]) == Usage(a, 0, 0);
      assert MeterRun(b, packets[..0]) == Usage(b, 0, 0);
    }
  }

  // ----- The meter in place -----

  class SrTcm {
    var tc: int
    var te: int
    var lastUpdateTime: real
    const cir: real
    const cbs: int
    const ebs: int

    ghost function View(): Meter
      reads this
    {
      Meter(tc, te, lastUpdateTime, cir, cbs, ebs)
    }

    constructor (cir: real, cbs: int, ebs: int)
      requires cir > 0.0
      ensures View() == InitMeter(cir, cbs, ebs)
      ensures tc == cbs && te == ebs && lastUpdateTime == 0.0
      ensures this.cir == cir && this.cbs == cbs && this.ebs == ebs
    {
      lastUpdateTime := 0.0;
      tc := cbs;
      te := ebs;
      this.cir, this.cbs, this.ebs := cir, cbs, ebs;
    }

    method UpdateMeter(packet: Packet, now: real) returns (color: Color)
      modifies this
      ensures View() == Update(old(View()), packet.sizeInBytes, now).0
      ensures color == Update(old(View()), packet.sizeInBytes, now).1
    {
      hide Word, NewTokens, Earned;
      var packetSizeInBits := packet.sizeInBytes * 8;
      var numNewTokens := NewTokens(cir / 1000.0, lastUpdateTime, now);
      if numNewTokens > 0 {
        lastUpdateTime := now;
      }
      tc := Word(tc + numNewTokens);
      if tc > cbs {
        var delta := tc - cbs;
        tc := cbs;
        te := Word(te + delta);
        if te > ebs {
          te := ebs;
        }
      }
      if packetSizeInBits <= tc {
        color := Green;
        tc := tc - packetSizeInBits;
      } else if packetSizeInBits <= te {
        color := Yellow;
        te := te - packetSizeInBits;
      } else {
        color := Red;
      }
    }

    method UpdateReverse(state: MeterSnapshot)
      modifies this
      ensures View() == Restore(old(View()), state)
    {
      tc := state.tc;
      te := state.te;
      lastUpdateTime := state.lastUpdate;
    }

    method TakeSnapshot() returns (state: MeterSnapshot)
      ensures state == SnapshotOf(View())
    {
      state := MeterSnapshot(tc, te, lastUpdateTime);
    }
  }
}
