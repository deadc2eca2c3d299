/**
  The two rate limiters and their bounds over whole histories
  (src/ratelimit.rs). Time is an integer clock; the refill rate is the exact
  rational `maxCommands / window`.
 */
module RateLimits {

  // -- Sliding window ------------------------------------------------------------------------

  /** `retain(|ts| ts > window_start)`. */
  function Unexpired(timestamps: seq<int>, windowStart: int): seq<int>
  {
    if timestamps == [] then []
    else (if timestamps[0] > windowStart then [timestamps[0]] else []) + Unexpired(timestamps[1..], windowStart)
  }

  lemma {:induction false} UnexpiredSnoc(timestamps: seq<int>, now: int, windowStart: int)
    ensures Unexpired(timestamps + [now], windowStart)
         == Unexpired(timestamps, windowStart) + if now > windowStart then [now] else []
    decreases |timestamps|
  {
    if timestamps != [] {
      assert (timestamps + [now])[1..] == timestamps[1..] + [now];
      UnexpiredSnoc(timestamps[1..], now, windowStart);
    }
  }

  /** Dropping what already expired earlier makes no difference later. */
  lemma {:induction false} UnexpiredTwice(times: seq<int>, earlier: int, later: int)
    requires earlier <= later
    ensures Unexpired(Unexpired(times, earlier), later) == Unexpired(times, later)
    decreases |times|
  {
    if times != [] {
      UnexpiredTwice(times[1..], earlier, later);
      var kept := Unexpired(times[1..], earlier);
      if times[0] > earlier { assert ([times[0]] + kept)[1..] == kept; } else { assert [] + kept == kept; }
    }
  }

  /** How many of `times` lie in the half-open window `[from, from + width)`. */
  function CountIn(times: seq<int>, from: int, width: nat): nat
  {
    if times == [] then 0 else (if from <= times[0] < from + width then 1 else 0) + CountIn(times[1..], from, width)
  }

  lemma {:induction false} CountInSnoc(times: seq<int>, now: int, from: int, width: nat)
    ensures CountIn(times + [now], from, width) == CountIn(times, from, width) + if from <= now < from + width then 1 else 0
    decreases |times|
  {
    if times != [] {
      assert (times + [now])[1..] == times[1..] + [now];
      CountInSnoc(times[1..], now, from, width);
    }
  }

  /** The next call is admitted exactly when fewer than `max` grants are younger than a window. */
  predicate Admits(grants: seq<int>, max: nat, window: nat, now: int)
  {
    |Unexpired(grants, now - window)| < max
  }

  function WithCall(grants: seq<int>, max: nat, window: nat, now: int): seq<int>
  {
    if Admits(grants, max, window, now) then grants + [now] else grants
  }

  /** All grants once further calls have been answered. */
  function SlidingGrants(grants: seq<int>, calls: seq<int>, max: nat, window: nat): seq<int>
    decreases |calls|
  {
    if calls == [] then grants else SlidingGrants(WithCall(grants, max, window, calls[0]), calls[1..], max, window)
  }

  lemma {:induction false} SlidingGrantsSnoc(grants: seq<int>, calls: seq<int>, now: int, max: nat, window: nat)
    ensures SlidingGrants(grants, calls + [now], max, window)
         == WithCall(SlidingGrants(grants, calls, max, window), max, window, now)
    decreases |calls|
  {
    if calls != [] {
      assert (calls + [now])[1..] == calls[1..] + [now];
      SlidingGrantsSnoc(WithCall(grants, max, window, calls[0]), calls[1..], now, max, window);
    }
  }

  /** Grants inside a window that opened after `windowStart` have not expired at it. */
  lemma {:induction false} InWindowIsUnexpired(grants: seq<int>, from: int, width: nat, windowStart: int)
    requires from > windowStart
    ensures CountIn(grants, from, width) <= |Unexpired(grants, windowStart)|
    decreases |grants|
  {
    if grants != [] { InWindowIsUnexpired(grants[1..], from, width, windowStart); }
  }

  lemma CallKeepsBound(grants: seq<int>, max: nat, window: nat, now: int, from: int)
    requires CountIn(grants, from, window) <= max
    ensures CountIn(WithCall(grants, max, window, now), from, window) <= max
  {
    if Admits(grants, max, window, now) {
      CountInSnoc(grants, now, from, window);
      if from <= now < from + window { InWindowIsUnexpired(grants, from, window, now - window); }
    }
  }

  /** Over any history of calls, no half-open window of length `window` sees more than `max` grants. */
  lemma {:induction false} SlidingWindowBound(grants: seq<int>, calls: seq<int>, max: nat, window: nat, from: int)
    requires CountIn(grants, from, window) <= max
    ensures CountIn(SlidingGrants(grants, calls, max, window), from, window) <= max
    decreases |calls|
  {
    if calls != [] {
      CallKeepsBound(grants, max, window, calls[0], from);
      SlidingWindowBound(WithCall(grants, max, window, calls[0]), calls[1..], max, window, from);
    }
  }

  /** Grants made so far that have not expired lie in the window that ends now. */
  lemma {:induction false} UnexpiredIsInWindow(grants: seq<int>, window: nat, now: int)
    requires forall g | g in grants :: g <= now
    ensures CountIn(grants, now - window + 1, window) == |Unexpired(grants, now - window)|
    decreases |grants|
  {
    if grants != [] {
      assert grants[0] in grants && forall g | g in grants[1..] :: g in grants;
      UnexpiredIsInWindow(grants[1..], window, now);
    }
  }

  /** A call is refused only while the window that ends with it is full. */
  lemma RefusalMeansFull(grants: seq<int>, max: nat, window: nat, now: int)
    requires (forall g | g in grants :: g <= now) && !Admits(grants, max, window, now)
    ensures CountIn(grants, now - window + 1, window) >= max
  {
    UnexpiredIsInWindow(grants, window, now);
  }

  /** The kept timestamps and the grants look alike from `windowStart` on. */
  predicate SameUnexpired(timestamps: seq<int>, grants: seq<int>, windowStart: int)
  {
    Unexpired(timestamps, windowStart) == Unexpired(grants, windowStart)
  }

  /** One call on the kept timestamps does what the history calls for. */
  lemma CallTracksHistory(timestamps: seq<int>, grants: seq<int>, max: nat, window: nat, clock: int, now: int)
    requires SameUnexpired(timestamps, grants, clock - window) && clock <= now
    ensures var kept := Unexpired(timestamps, now - window);
            && (Admits(grants, max, window, now) <==> |kept| < max)
            && SameUnexpired(kept, grants, now - window) && SameUnexpired(kept + [now], grants + [now], now - window)
  {
    var kept := Unexpired(timestamps, now - window);
    UnexpiredTwice(timestamps, clock - window, now - window);
    UnexpiredTwice(grants, clock - window, now - window);
    UnexpiredTwice(grants, now - window, now - window);
    UnexpiredSnoc(kept, now, now - window);
    UnexpiredSnoc(grants, now, now - window);
  }

  class SlidingWindowLimiter {
    const maxCommands: nat
    const window: nat
    var timestamps: seq<int>
    ghost var grants: seq<int>
    ghost var calls: seq<int>
    ghost var clock: int

    /** The grants are those of the history; expired ones may have been forgotten. */
    ghost predicate Valid()
      reads this
    {
      grants == SlidingGrants([], calls, maxCommands, window) && SameUnexpired(timestamps, grants, clock - window)
    }

    constructor (maxCommands: nat, window: nat, now: int)
      ensures Valid() && calls == [] && grants == [] && clock == now
      ensures this.maxCommands == maxCommands && this.window == window
    {
      this.maxCommands := maxCommands;
      this.window := window;
      timestamps := [];
      grants := [];
      calls := [];
      clock := now;
    }

    static method Retain(timestamps: seq<int>, windowStart: int) returns (kept: seq<int>)
      ensures kept == Unexpired(timestamps, windowStart)
    {
      kept := [];
      var k := 0;
      while k < |timestamps|
        invariant 0 <= k <= |timestamps|
        invariant kept == Unexpired(timestamps[..k], windowStart)
      {
        assert timestamps[..k + 1] == timestamps[..k] + [timestamps[k]];
        UnexpiredSnoc(timestamps[..k], timestamps[k], windowStart);
        if timestamps[k] > windowStart { kept := kept + [timestamps[k]]; }
        k := k + 1;
      }
      assert timestamps[..k] == timestamps;
    }

    /** `try_acquire`: granted exactly when the history says so. */
    method TryAcquire(now: int) returns (granted: bool)
      requires Valid() && clock <= now
      modifies this
      ensures Valid() && clock == now && calls == old(calls) + [now]
      ensures granted <==> Admits(old(grants), maxCommands, window, now)
      ensures grants == old(grants) + if granted then [now] else []
    {
      CallTracksHistory(timestamps, grants, maxCommands, window, clock, now);
      SlidingGrantsSnoc([], calls, now, maxCommands, window);
      var kept := Retain(timestamps, now - window);
      granted := |kept| < maxCommands;
      if granted {
        timestamps := kept + [now];
        grants := grants + [now];
      } else {
        timestamps := kept;
      }
      calls := calls + [now];
      clock := now;
    }
  }

  // -- Token bucket ------------------------------------------------------------------------------

  /** `tokens` at hand, last topped up `pending` time units ago. */
  datatype Bucket = Bucket(tokens: nat, pending: nat)

  /** The refill rate is `num / den` tokens per time unit. */
  datatype Limits = Limits(capacity: nat, num: nat, den: nat)

  function Min(a: nat, b: nat): nat { if a < b then a else b }

  /** `(elapsed * refill_rate) as u64`. */
  function NewTokens(l: Limits, elapsed: nat): nat
    requires l.den > 0
  {
    elapsed * l.num / l.den
  }

  /** `refill`: fractions of a token stay pending until a whole one is due. */
  function Refilled(l: Limits, b: Bucket): Bucket
    requires l.den > 0
  {
    if b.pending > 0 && NewTokens(l, b.pending) > 0
    then Bucket(Min(b.tokens + NewTokens(l, b.pending), l.capacity), 0) else b
  }

  /** `try_acquire`, `gap` time units after the call before. */
  function Called(l: Limits, b: Bucket, gap: nat): Bucket
    requires l.den > 0
  {
    var filled := Refilled(l, b.(pending := b.pending + gap));
    if filled.tokens == 0 then filled else filled.(tokens := filled.tokens - 1)
  }

  predicate Grants(l: Limits, b: Bucket, gap: nat)
    requires l.den > 0
  {
    Refilled(l, b.(pending := b.pending + gap)).tokens > 0
  }

  function After(l: Limits, b: Bucket, gaps: seq<nat>): Bucket
    requires l.den > 0
    decreases |gaps|
  {
    if gaps == [] then b else After(l, Called(l, b, gaps[0]), gaps[1..])
  }

  /** How many of the calls are granted. */
  function Granted(l: Limits, b: Bucket, gaps: seq<nat>): nat
    requires l.den > 0
    decreases |gaps|
  {
    if gaps == [] then 0 else (if Grants(l, b, gaps[0]) then 1 else 0) + Granted(l, Called(l, b, gaps[0]), gaps[1..])
  }

  function Total(gaps: seq<nat>): nat { if gaps == [] then 0 else gaps[0] + Total(gaps[1..]) }

  // Arithmetic of whole tokens.

  lemma MulMonotone(a: nat, b: nat, d: nat)
    ensures a <= b ==> a * d <= b * d
  {
    assert (b - a) * d + a * d == b * d;
  }

  lemma AtLeastFloor(x: nat, k: nat, d: nat)
    requires d > 0 && k * d <= x
    ensures k <= x / d
  {
    MulMonotone(x / d + 1, k, d);
    assert (x / d + 1) * d == (x / d) * d + d;
  }

  lemma Distribute(p: nat, q: nat, d: nat)
    ensures (p + q) * d == p * d + q * d
  {
  }

  lemma FloorSum(x: nat, y: nat, d: nat)
    requires d > 0
    ensures x / d + y / d <= (x + y) / d
  {
    var p, q := x / d, y / d;
    assert p * d <= x && q * d <= y;
    Distribute(p, q, d);
    AtLeastFloor(x + y, p + q, d);
  }

  /** Whole tokens due over two spans are due over both together. */
  lemma FloorsAdd(l: Limits, a: nat, b: nat)
    requires l.den > 0
    ensures NewTokens(l, a) + NewTokens(l, b) <= NewTokens(l, a + b)
  {
    assert (a + b) * l.num == a * l.num + b * l.num;
    FloorSum(a * l.num, b * l.num, l.den);
  }

  /** A call takes what it grants out of the tokens at hand and those that fell due. */
  lemma CallBalance(l: Limits, b: Bucket, gap: nat)
    requires l.den > 0
    ensures var c := Called(l, b, gap);
            && c.pending <= b.pending + gap
            && (if Grants(l, b, gap) then 1 else 0) + c.tokens <= b.tokens + NewTokens(l, b.pending + gap - c.pending)
            && (b.tokens <= l.capacity ==> (if Grants(l, b, gap) then 1 else 0) + c.tokens <= l.capacity)
  {
  }

  /** Grants plus tokens left never exceed the tokens at the start plus the whole tokens due since. */
  lemma {:induction false} GrantsBalance(l: Limits, b: Bucket, gaps: seq<nat>)
    requires l.den > 0
    ensures var end := After(l, b, gaps);
            && end.pending <= b.pending + Total(gaps)
            && Granted(l, b, gaps) + end.tokens <= b.tokens + NewTokens(l, b.pending + Total(gaps) - end.pending)
            && (b.tokens <= l.capacity ==> end.tokens <= l.capacity)
    decreases |gaps|
  {
    if gaps != [] {
      var c := Called(l, b, gaps[0]);
      CallBalance(l, b, gaps[0]);
      GrantsBalance(l, c, gaps[1..]);
      FloorsAdd(l, b.pending + gaps[0] - c.pending, c.pending + Total(gaps[1..]) - After(l, b, gaps).pending);
    } else {
      FloorsAdd(l, 0, 0);
    }
  }

  /** A bucket that starts full has granted, by any time `elapsed` later, at most its capacity plus the whole tokens due. */
  lemma TokenBucketBound(l: Limits, gaps: seq<nat>, elapsed: nat)
    requires l.den > 0 && Total(gaps) <= elapsed
    ensures Granted(l, Bucket(l.capacity, 0), gaps) <= l.capacity + NewTokens(l, elapsed)
  {
    var b := Bucket(l.capacity, 0);
    GrantsBalance(l, b, gaps);
    var used := Total(gaps) - After(l, b, gaps).pending;
    FloorsAdd(l, used, elapsed - used);
  }

  lemma {:induction false} HistorySplits(l: Limits, b: Bucket, before: seq<nat>, during: seq<nat>)
    requires l.den > 0
    ensures After(l, b, before + during) == After(l, After(l, b, before), during)
    ensures Granted(l, b, before + during) == Granted(l, b, before) + Granted(l, After(l, b, before), during)
    decreases |before|
  {
    if before == [] {
      assert before + during == during;
    } else {
      assert (before + during)[1..] == before[1..] + during;
      HistorySplits(l, Called(l, b, before[0]), before[1..], during);
    }
  }

  /** After a call's refill, less than one token is pending. */
  lemma PendingBelowOne(l: Limits, b: Bucket, gap: nat)
    requires l.den > 0
    ensures Called(l, b, gap).pending * l.num < l.den
  {
    var x := (b.pending + gap) * l.num;
    assert x / l.den == 0 ==> x < l.den;
  }

  /** `first` grants on the first call, at most `cap` with the tokens left, and `rest` afterwards. */
  lemma SpanArithmetic(l: Limits, granted: nat, pending: nat, elapsed: nat, d: nat)
    requires l.den > 0 && pending * l.num < l.den && elapsed <= pending + d
    requires granted <= l.capacity + NewTokens(l, elapsed)
    ensures granted * l.den <= (l.capacity + 1) * l.den + d * l.num
  {
    var due := NewTokens(l, elapsed);
    assert due * l.den <= elapsed * l.num;
    MulMonotone(elapsed, pending + d, l.num);
    assert (pending + d) * l.num == pending * l.num + d * l.num;
    MulMonotone(granted, l.capacity + due, l.den);
    assert (l.capacity + due) * l.den == l.capacity * l.den + due * l.den;
    assert (l.capacity + 1) * l.den == l.capacity * l.den + l.den;
  }

  /**
    Over any interval, anywhere in a history, a token bucket grants at most
    `capacity + rate * d + 1`, where `d` is the time from the interval's first
    call to its last.
   */
  lemma TokenBucketIntervalBound(l: Limits, before: seq<nat>, during: seq<nat>)
    requires l.den > 0 && during != []
    ensures var b := Bucket(l.capacity, 0);
            var granted := Granted(l, b, before + during) - Granted(l, b, before);
            granted * l.den <= (l.capacity + 1) * l.den + Total(during[1..]) * l.num
  {
    var b := Bucket(l.capacity, 0);
    HistorySplits(l, b, before, during);
    GrantsBalance(l, b, before);
    var middle := After(l, b, before);
    var first := Called(l, middle, during[0]);
    CallBalance(l, middle, during[0]);
    PendingBelowOne(l, middle, during[0]);
    GrantsBalance(l, first, during[1..]);
    var elapsed := first.pending + Total(during[1..]) - After(l, first, during[1..]).pending;
    SpanArithmetic(l, Granted(l, middle, during), first.pending, elapsed, Total(during[1..]));
  }

  // What a bucket owes its callers.

  /** A bucket whose refill was just made or is not due yet. */
  predicate IsSettled(l: Limits, b: Bucket)
    requires l.den > 0
  {
    b.pending == 0 || NewTokens(l, b.pending) == 0
  }

  /** `n` calls at the same instant. */
  function AtOnce(n: nat): (gaps: seq<nat>)
    ensures |gaps| == n
  {
    if n == 0 then [] else [0] + AtOnce(n - 1)
  }

  lemma {:induction false} SettledBurst(l: Limits, b: Bucket, n: nat)
    requires l.den > 0 && IsSettled(l, b)
    ensures Granted(l, b, AtOnce(n)) == Min(n, b.tokens)
    decreases n
  {
    if n > 0 {
      assert AtOnce(n)[1..] == AtOnce(n - 1);
      SettledBurst(l, Called(l, b, 0), n - 1);
    }
  }

  /** Of `n` calls made at once after a pause, a bucket grants as many as it has tokens, those due included, up to its capacity: no fewer and no more. */
  lemma BurstIsExact(l: Limits, b: Bucket, pause: nat, n: nat)
    requires l.den > 0 && b.tokens <= l.capacity && n > 0
    ensures Granted(l, b, [pause] + AtOnce(n - 1)) == Min(n, Min(l.capacity, b.tokens + (b.pending + pause) * l.num / l.den))
  {
    var first := Called(l, b, pause);
    assert ([pause] + AtOnce(n - 1))[1..] == AtOnce(n - 1);
    if b.pending + pause == 0 { NothingDue(l); }
    SettledBurst(l, first, n - 1);
  }

  lemma NothingDue(l: Limits)
    requires l.den > 0
    ensures 0 * l.num / l.den == 0
  {
    assert 0 * l.num == 0;
  }

  /** Tokens at hand are only ever spent on grants. */
  lemma {:induction false} TokensAreSpent(l: Limits, b: Bucket, gaps: seq<nat>)
    requires l.den > 0 && b.tokens <= l.capacity
    ensures Granted(l, b, gaps) + After(l, b, gaps).tokens >= b.tokens
    decreases |gaps|
  {
    if gaps != [] { TokensAreSpent(l, Called(l, b, gaps[0]), gaps[1..]); }
  }

  /** A call is refused only if, since the bucket was last full, it granted its whole capacity, and only while less than one token is due. */
  lemma RefusalMeansSpent(l: Limits, since: seq<nat>, gap: nat)
    requires l.den > 0 && !Grants(l, After(l, Bucket(l.capacity, 0), since), gap)
    ensures Granted(l, Bucket(l.capacity, 0), since) >= l.capacity
    ensures Called(l, After(l, Bucket(l.capacity, 0), since), gap).pending * l.num < l.den
  {
    TokensAreSpent(l, Bucket(l.capacity, 0), since);
    PendingBelowOne(l, After(l, Bucket(l.capacity, 0), since), gap);
  }

  class TokenBucketLimiter {
    const limits: Limits
    var tokens: nat
    var lastRefill: int
    ghost var clock: int
    ghost var gaps: seq<nat>
    ghost var grants: nat

    /** The fields are what the history of calls leaves of the full bucket. */
    ghost predicate Valid()
      reads this
    {
      && limits.den > 0 && lastRefill <= clock
      && After(limits, Bucket(limits.capacity, 0), gaps) == Bucket(tokens, clock - lastRefill)
      && Granted(limits, Bucket(limits.capacity, 0), gaps) == grants
    }

    constructor (maxCommands: nat, window: nat, now: int)
      requires window > 0
      ensures Valid() && gaps == [] && grants == 0 && clock == now && limits == Limits(maxCommands, maxCommands, window)
    {
      limits := Limits(maxCommands, maxCommands, window);
      tokens := maxCommands;
      lastRefill := now;
      clock := now;
      gaps := [];
      grants := 0;
    }

    method Refill(now: int)
      requires limits.den > 0 && lastRefill <= now
      modifies this`tokens, this`lastRefill
      ensures lastRefill <= now
      ensures Bucket(tokens, now - lastRefill) == Refilled(limits, Bucket(old(tokens), now - old(lastRefill)))
    {
      var elapsed := now - lastRefill;
      if elapsed > 0 {
        var newTokens := NewTokens(limits, elapsed);
        if newTokens > 0 {
          tokens := Min(tokens + newTokens, limits.capacity);
          lastRefill := now;
        }
      }
    }

    /** `try_acquire`, when calls do not interleave. */
    method TryAcquire(now: int) returns (granted: bool)
      requires Valid() && clock <= now
      modifies this
      ensures Valid() && clock == now && gaps == old(gaps) + [now - old(clock)]
      ensures grants == old(grants) + if granted then 1 else 0
    {
      ghost var full := Bucket(limits.capacity, 0);
      ghost var gap := now - clock;
      HistorySplits(limits, full, gaps, [gap]);
      assert After(limits, Bucket(tokens, clock - lastRefill), [gap]) == Called(limits, Bucket(tokens, clock - lastRefill), gap);
      Refill(now);
      granted := tokens > 0;
      if granted {
        tokens := tokens - 1;
        grants := grants + 1;
      }
      gaps := gaps + [gap];
      clock := now;
    }
  }
}
