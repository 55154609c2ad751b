/** The token bucket that shapes an output port. One token is one bit. */
module Shaper {
  import opened Types
  import opened Tokens

  datatype Bucket = Bucket(
    capacity: int, tokens: int, rate: real, portBandwidth: real, lastUpdate: real)

  function InitBucket(capacity: int, rate: real, portBandwidth: real): Bucket {
    Bucket(capacity, capacity, rate, portBandwidth, 0.0)
  }

  /** The clock of the bucket advances only when at least one whole token was earned. */
  function Consume(b: Bucket, bytes: int, now: real): Bucket {
    var n := NewTokens(b.rate, b.lastUpdate, now);
    var filled := if b.tokens + n > b.capacity then b.capacity else b.tokens + n;
    b.(tokens := filled - 8 * bytes, lastUpdate := if n > 0 then now else b.lastUpdate)
  }

  /** A call of the consume operation without a packet. */
  function Poll(b: Bucket, now: real): Bucket {
    Consume(b, 0, now)
  }

  predicate Ready(b: Bucket, bytes: int) {
    8 * bytes <= b.tokens
  }

  function NextAvailableTime(b: Bucket, bytes: int): real
    requires b.rate > 0.0
  {
    if Ready(b, bytes) then b.lastUpdate
    else b.lastUpdate + (8 * bytes - b.tokens) as real / b.rate
  }

  function SnapshotOf(b: Bucket): BucketSnapshot {
    BucketSnapshot(b.tokens, b.lastUpdate)
  }

  function Restore(b: Bucket, s: BucketSnapshot): Bucket {
    b.(tokens := s.tokens, lastUpdate := s.lastUpdate)
  }

  /** Only the two saved fields ever change, so restoring them undoes any use. */
  lemma RestoreUndoesUse(b: Bucket, bytes: int, now: real, later: real)
    ensures Restore(Poll(b, now), SnapshotOf(b)) == b
    ensures Restore(Consume(Poll(b, now), bytes, later), SnapshotOf(b)) == b
  {
    hide NewTokens;
  }

  // ----- What the bucket is worth -----

  /** Tokens held plus the (fractional) tokens earned since the last recorded update. */
  function Potential(b: Bucket, now: real): real {
    b.tokens as real + Earned(b.rate, b.lastUpdate, now)
  }

  predicate Sound(b: Bucket, now: real) {
    b.rate > 0.0 && 0 <= b.tokens <= b.capacity && 0.0 <= b.lastUpdate <= now
  }

  predicate NoOverflow(b: Bucket, now: real) {
    NoWrap(b.rate, b.lastUpdate, now)
  }

  lemma PotentialAdvances(b: Bucket, t: real, u: real)
    ensures Potential(b, u) == Potential(b, t) + Earned(b.rate, t, u)
  {
    hide Earned;
    EarnedSplit(b.rate, b.lastUpdate, t, u);
  }

  /** A poll never creates value. */
  lemma PollBounds(b: Bucket, now: real)
    requires Sound(b, now)
    ensures var b' := Poll(b, now);
      && Sound(b', now)
      && Potential(b', now) <= Potential(b, now)
      && b'.tokens as real <= Potential(b', now)
      && b.lastUpdate <= b'.lastUpdate
      && b' == b.(tokens := b'.tokens, lastUpdate := b'.lastUpdate)
  {
    hide Earned, NewTokens;
    EarnedOrder(b.rate, b.lastUpdate, now, now);
    NothingNew(b.rate, now);
  }

  /** Right after a poll less than one token is pending. */
  lemma PollLeavesLessThanOne(b: Bucket, now: real)
    requires Sound(b, now) && NoOverflow(b, now)
    ensures Potential(Poll(b, now), now) < Poll(b, now).tokens as real + 1.0
    ensures NoOverflow(Poll(b, now), now)
  {
    hide Earned, NewTokens;
    NothingNew(b.rate, now);
  }

  /** Without overflow of the word or of the bucket, a poll loses less than one token. */
  lemma PollLosesLessThanOne(b: Bucket, now: real)
    requires Sound(b, now) && NoOverflow(b, now)
    requires Potential(b, now) <= b.capacity as real
    ensures Potential(Poll(b, now), now) > Potential(b, now) - 1.0
    ensures Poll(b, now).tokens == b.tokens + NewTokens(b.rate, b.lastUpdate, now)
  {
    hide Earned, NewTokens;
    NothingNew(b.rate, now);
  }

  /** A poll adds the whole tokens earned, as far as they fit the bucket; the clock of the bucket
      moves to now if and only if a whole token was earned. */
  lemma PollIsExact(b: Bucket, now: real)
    requires Sound(b, now) && NoOverflow(b, now)
    ensures var b' := Poll(b, now);
      && b'.tokens == (if b.tokens + Earned(b.rate, b.lastUpdate, now).Floor > b.capacity then b.capacity
                       else b.tokens + Earned(b.rate, b.lastUpdate, now).Floor)
      && (Earned(b.rate, b.lastUpdate, now) >= 1.0 ==> b'.lastUpdate == now)
      && (Earned(b.rate, b.lastUpdate, now) < 1.0 ==> b' == b)
  {
    hide Earned;
  }

  /** Polls at which no whole token has been earned yet lose nothing, however many there are. */
  lemma {:induction false} FrequentPollsLoseNothing(b: Bucket, from: real, times: seq<real>, to: real)
    requires Sound(b, from) && Ascending(from, times, to) && Earned(b.rate, b.lastUpdate, to) < 1.0
    ensures PollAll(b, times) == b
    decreases times
  {
    hide Earned, Poll;
    if times != [] {
      var t := times[0];
      AscendingReaches(t, times[1..], to);
      EarnedOrder(b.rate, b.lastUpdate, t, to);
      EarnedOrder(b.rate, b.lastUpdate, t, t);
      PollIsExact(b, t);
      FrequentPollsLoseNothing(b, t, times[1..], to);
    }
  }

  /** A second poll at the same instant earns nothing. */
  lemma PollIsIdempotent(b: Bucket, now: real)
    requires b.tokens <= b.capacity
    ensures Settled(Poll(b, now), now)
  {
    hide Earned, NewTokens;
    NothingNew(b.rate, now);
  }

  /** The bucket was polled at this very instant. */
  predicate Settled(b: Bucket, now: real) {
    NewTokens(b.rate, b.lastUpdate, now) == 0 && b.tokens <= b.capacity
  }

  lemma SettledConsume(b: Bucket, bytes: int, now: real)
    requires Settled(b, now)
    ensures Consume(b, bytes, now) == b.(tokens := b.tokens - 8 * bytes)
  {
    hide NewTokens;
  }

  /** Updating first and consuming later at the same instant equals a single consume. */
  lemma UpdateThenConsume(b: Bucket, bytes: int, now: real)
    requires b.tokens <= b.capacity
    ensures Consume(Poll(b, now), bytes, now) == Consume(b, bytes, now)
  {
    hide NewTokens;
    PollIsIdempotent(b, now);
  }

  function PollAll(b: Bucket, times: seq<real>): Bucket
    decreases times
  {
    if times == [] then b else PollAll(Poll(b, times[0]), times[1..])
  }

  predicate Ascending(from: real, times: seq<real>, to: real)
    decreases times
  {
    if times == [] then from <= to else from <= times[0] && Ascending(times[0], times[1..], to)
  }

  /** Polling early never pays: whatever polls happen before `now`, the bucket then holds
      at most what a single poll at `now` would have given. */
  lemma {:induction false} ExtraPollsNeverPay(b: Bucket, times: seq<real>, now: real)
    requires b.rate > 0.0 && b.tokens <= b.capacity
    requires Ascending(b.lastUpdate, times, now) && NoOverflow(b, now)
    ensures Poll(PollAll(b, times), now).tokens <= Poll(b, now).tokens
    decreases times
  {
    if times != [] {
      var t := times[0];
      AscendingReaches(t, times[1..], now);
      OnePollNeverPays(b, t, now);
      AscendingFrom(Poll(b, t).lastUpdate, t, times[1..], now);
      ExtraPollsNeverPay(Poll(b, t), times[1..], now);
    }
  }

  lemma OnePollNeverPays(b: Bucket, t: real, now: real)
    requires b.rate > 0.0 && b.tokens <= b.capacity
    requires b.lastUpdate <= t <= now && NoOverflow(b, now)
    ensures Poll(Poll(b, t), now).tokens <= Poll(b, now).tokens
    ensures NoOverflow(Poll(b, t), now)
  {
    hide Earned, NewTokens;
    NoWrapPart(b.rate, b.lastUpdate, t, now, now);
    FloorsAddUp(b.rate, b.lastUpdate, t, now);
  }

  lemma {:induction false} AscendingReaches(from: real, times: seq<real>, to: real)
    requires Ascending(from, times, to)
    ensures from <= to
    decreases times
  {
    if times != [] {
      AscendingReaches(times[0], times[1..], to);
    }
  }

  lemma AscendingFrom(low: real, from: real, times: seq<real>, to: real)
    requires low <= from && Ascending(from, times, to)
    ensures Ascending(low, times, to)
  {
  }

  // ----- The next available time -----

  /** The wait computed by NextAvailableTime earns exactly the missing tokens. */
  lemma MissingTokens(b: Bucket, bytes: int)
    requires b.rate > 0.0 && !Ready(b, bytes)
    ensures var at := NextAvailableTime(b, bytes);
      && Earned(b.rate, b.lastUpdate, at) == (8 * bytes - b.tokens) as real
      && Potential(b, at) == (8 * bytes) as real
      && at > b.lastUpdate
  {
    var missing := (8 * bytes - b.tokens) as real;
    var wait := missing / b.rate;
    assert b.rate * wait == missing;
    Sign(b.rate, -wait);
    assert NextAvailableTime(b, bytes) - b.lastUpdate == wait;
  }

  /** The next available time is exact: a packet that is not affordable becomes affordable
      at that time and not before. */
  lemma NextAvailableTimeIsExact(b: Bucket, bytes: int, now: real)
    requires Sound(b, now) && !Ready(b, bytes) && 8 * bytes <= b.capacity
    requires NoOverflow(b, now)
    ensures Ready(Poll(b, now), bytes) <==> now >= NextAvailableTime(b, bytes)
  {
    hide Earned, NewTokens, NextAvailableTime;
    MissingTokens(b, bytes);
    EnoughTokens(b.rate, b.lastUpdate, NextAvailableTime(b, bytes), now, 8 * bytes - b.tokens);
  }

  /** After a poll, the time at which an unaffordable packet becomes affordable lies
      strictly in the future, even when the clock of the bucket lags. */
  lemma WaitIsPositive(b: Bucket, bytes: int, now: real)
    requires Sound(b, now) && !Ready(b, bytes) && Settled(b, now)
    requires NoOverflow(b, now)
    ensures NextAvailableTime(b, bytes) > now
  {
    hide Earned, NewTokens, NextAvailableTime;
    MissingTokens(b, bytes);
    EnoughTokens(b.rate, b.lastUpdate, NextAvailableTime(b, bytes), now, 8 * bytes - b.tokens);
  }

  // ----- The bucket in place -----

  class TokenBucket {
    const capacity: int
    var tokens: int
    const rate: real
    const portBandwidth: real
    var lastUpdateTime: real

    ghost function View(): Bucket
      reads this
    {
      Bucket(capacity, tokens, rate, portBandwidth, lastUpdateTime)
    }

    constructor (capacity: int, rate: real, portBandwidth: real)
      ensures View() == InitBucket(capacity, rate, portBandwidth)
      ensures this.capacity == capacity && tokens == capacity && lastUpdateTime == 0.0
      ensures this.rate == rate && this.portBandwidth == portBandwidth
    {
      this.capacity := capacity;
      tokens := capacity;
      this.rate := rate;
      this.portBandwidth := portBandwidth;
      lastUpdateTime := 0.0;
    }

    /** `packet` is None where the program passes NULL. */
    method ConsumeTokens(packet: Option<Packet>, now: real)
      modifies this
      ensures View() ==
              Consume(old(View()), if packet.Some? then packet.value.sizeInBytes else 0, now)
    {
      var packetSize := 0;
      if packet.Some? {
        packetSize := packet.value.sizeInBytes;
      }
      var numNewTokens := NewTokens(rate, lastUpdateTime, now);
      if numNewTokens > 0 {
        lastUpdateTime := now;
      }
      tokens := tokens + numNewTokens;
      if tokens > capacity {
        tokens := capacity;
      }
      tokens := tokens - packetSize * 8;
    }

    method IsReady(packetSize: int) returns (ready: bool)
      ensures ready == Ready(View(), packetSize)
    {
      ready := packetSize * 8 <= tokens;
    }

    /** When the bucket will hold enough tokens. */
    method NextTime(packetSize: int) returns (at: real)
      requires rate > 0.0
      ensures at == NextAvailableTime(View(), packetSize)
      ensures 8 * packetSize <= tokens ==> at == lastUpdateTime
      ensures 8 * packetSize > tokens ==> Earned(rate, lastUpdateTime, at) == (8 * packetSize - tokens) as real
    {
      if 8 * packetSize > tokens {
        MissingTokens(View(), packetSize);
      }
      var ready := IsReady(packetSize);
      if ready {
        at := lastUpdateTime;
      } else {
        at := lastUpdateTime + (packetSize * 8 - tokens) as real / rate;
      }
    }

    method ConsumeReverse(state: BucketSnapshot)
      modifies this
      ensures View() == Restore(old(View()), state)
    {
      tokens := state.tokens;
      lastUpdateTime := state.lastUpdate;
    }

    method TakeSnapshot() returns (state: BucketSnapshot)
      ensures state == SnapshotOf(View())
    {
      state := BucketSnapshot(tokens, lastUpdateTime);
    }
  }
}
