/**
 * The fixed-window token counter of CrptApi, as values.
 *
 * A `Bucket` holds the four numeric fields of the limiter: the immutable
 * `requestLimit` and `timeWindowMillis`, and the mutable `tokens` and
 * `lastRefillTime`. Clock readings are plain integers (milliseconds) passed in
 * by the caller. The imperative class in RateLimitedApi is proved against the
 * functions and the `Step` relation defined here.
 */
module TokenBucket {

  datatype Result<+T, +E> = Success(value: T) | Failure(error: E)

  /** The IllegalArgumentException the constructor throws. */
  datatype ConfigError = RequestLimitNotPositive

  /** Java `int`, the declared type of the request limit. */
  type Int32 = x: int | -0x8000_0000 <= x < 0x8000_0000

  datatype Bucket = Bucket(
    requestLimit: int,
    timeWindowMillis: nat,
    tokens: int,
    lastRefillTime: int)

  /** The counter never goes negative and never exceeds the limit. */
  predicate WithinBounds(b: Bucket)
  {
    0 < b.requestLimit && 0 <= b.tokens <= b.requestLimit
  }

  function Max(a: int, b: int): int
  {
    if a >= b then a else b
  }

  /** Construction: rejects a non-positive limit, otherwise starts full at `now`. */
  function Create(timeWindowMillis: nat, requestLimit: Int32, now: int): (r: Result<Bucket, ConfigError>)
    ensures r.Failure? <==> requestLimit <= 0
    ensures r.Failure? ==> r.error == RequestLimitNotPositive
    ensures r.Success? ==>
      && WithinBounds(r.value)
      && r.value.requestLimit == requestLimit
      && r.value.timeWindowMillis == timeWindowMillis
      && r.value.tokens == requestLimit
      && r.value.lastRefillTime == now
  {
    if requestLimit <= 0 then Failure(RequestLimitNotPositive)
    else Success(Bucket(requestLimit, timeWindowMillis, requestLimit, now))
  }

  /** At least one window has elapsed since the last refill. */
  predicate RefillDue(b: Bucket, now: int)
  {
    now - b.lastRefillTime >= b.timeWindowMillis
  }

  /** refillTokens at clock reading `now`: a full reset once a window has elapsed. */
  function Refill(b: Bucket, now: int): (r: Bucket)
    ensures r.requestLimit == b.requestLimit && r.timeWindowMillis == b.timeWindowMillis
    ensures RefillDue(b, now) ==> r.tokens == b.requestLimit && r.lastRefillTime == now
    ensures !RefillDue(b, now) ==> r == b
    ensures WithinBounds(b) ==> WithinBounds(r) && r.tokens >= b.tokens
    ensures now >= b.lastRefillTime ==> r.lastRefillTime >= b.lastRefillTime
  {
    if RefillDue(b, now) then b.(tokens := b.requestLimit, lastRefillTime := now) else b
  }

  /** calculateWaitTime at clock reading `now`. */
  function WaitTime(b: Bucket, now: int): (w: int)
    ensures w >= 0
    ensures now >= b.lastRefillTime ==> w <= b.timeWindowMillis
    ensures w == 0 <==> RefillDue(b, now)
    ensures forall later :: later >= now + w ==> RefillDue(b, later)
  {
    var timeSinceLastRefill := now - b.lastRefillTime;
    Max(0, b.timeWindowMillis - timeSinceLastRefill)
  }

  /**
   * What one completed acquireToken does to the counter, whatever the clock
   * read during the call: with a token left it takes it; otherwise a refill at
   * least one window after the last one happened and one token of it was taken.
   */
  predicate Step(b: Bucket, b': Bucket)
  {
    && b'.requestLimit == b.requestLimit
    && b'.timeWindowMillis == b.timeWindowMillis
    && if b.tokens > 0 then
         b' == b.(tokens := b.tokens - 1)
       else
         && b'.tokens == b.requestLimit - 1
         && b'.lastRefillTime >= b.lastRefillTime + b.timeWindowMillis
  }

  /** A run of consecutive acquireToken calls. */
  predicate IsAdmissionTrace(s: seq<Bucket>)
  {
    forall i :: 0 <= i < |s| - 1 ==> Step(s[i], s[i + 1])
  }

  /** All states of the run share one refill time (with a positive window: no refill in between). */
  predicate SameWindow(s: seq<Bucket>)
  {
    forall i :: 0 <= i < |s| ==> s[i].lastRefillTime == s[0].lastRefillTime
  }

  /** An admission keeps the bounds and always leaves at most `requestLimit - 1` tokens. */
  lemma StepKeepsBounds(b: Bucket, b': Bucket)
    requires WithinBounds(b) && Step(b, b')
    ensures WithinBounds(b') && b'.tokens <= b'.requestLimit - 1
  {
  }

  /**
   * One pass of the wait loop of acquireToken, entered with no token left:
   * a refill at reading t1; if that fails, the wait computed at t2 and a
   * sleep of at least that long, then a second refill at t3. The pass always
   * ends with a full counter refilled at one of its readings, at least one
   * window after the old refill, so the loop never runs a second pass.
   * This is the argument the loop of RateLimitedApi.CrptApi.AcquireToken
   * makes on the object, stated here on values and clock readings.
   */
  lemma WaitLoopBodyRefills(b: Bucket, t1: int, t2: int, t3: int)
    requires WithinBounds(b) && b.tokens <= 0
    requires t1 <= t2 && t3 >= t2 + WaitTime(Refill(b, t1), t2)
    ensures
      var b1 := Refill(b, t1);
      var b3 := if b1.tokens <= 0 then Refill(b1, t3) else b1;
      && b3.tokens == b.requestLimit > 0
      && t1 <= b3.lastRefillTime <= t3
      && b3.lastRefillTime >= b.lastRefillTime + b.timeWindowMillis
  {
  }

  /**
   * With a positive window, a step that keeps the refill time is the fast
   * path: it took one token from a positive counter.
   */
  lemma SameRefillTimeIsFastPath(b: Bucket, b': Bucket)
    requires b.timeWindowMillis > 0 && Step(b, b')
    requires b'.lastRefillTime == b.lastRefillTime
    ensures b.tokens > 0 && b'.tokens == b.tokens - 1
  {
  }

  /** Within one window, the k-th state has k tokens fewer than the first. */
  lemma {:induction false} TokensAlongWindow(s: seq<Bucket>, k: nat)
    requires k < |s|
    requires s[0].timeWindowMillis > 0
    requires IsAdmissionTrace(s) && SameWindow(s)
    ensures s[k].timeWindowMillis == s[0].timeWindowMillis
    ensures s[k].tokens == s[0].tokens - k
    ensures k < |s| - 1 ==> s[k].tokens > 0
  {
    if k > 0 {
      TokensAlongWindow(s, k - 1);
      SameRefillTimeIsFastPath(s[k - 1], s[k]);
    }
    if k < |s| - 1 {
      assert Step(s[k], s[k + 1]);
      SameRefillTimeIsFastPath(s[k], s[k + 1]);
    }
  }

  /**
   * Between two refills (the refill time stays the same) at most
   * `requestLimit` calls complete, each taking one token.
   */
  lemma AdmissionsPerWindow(s: seq<Bucket>)
    requires |s| > 0 && WithinBounds(s[0]) && s[0].timeWindowMillis > 0
    requires IsAdmissionTrace(s) && SameWindow(s)
    ensures s[|s| - 1].tokens == s[0].tokens - (|s| - 1)
    ensures |s| - 1 <= s[0].tokens <= s[0].requestLimit
  {
    TokensAlongWindow(s, |s| - 1);
    if |s| > 1 {
      TokensAlongWindow(s, |s| - 2);
    }
  }

  /**
   * With a window of zero milliseconds (a sub-millisecond time unit) the
   * per-window bound does not hold: a limit of 1 admits two calls with the
   * refill time unchanged.
   */
  lemma ZeroWindowExceedsLimit(now: int)
    ensures
      var s := [Bucket(1, 0, 1, now), Bucket(1, 0, 0, now), Bucket(1, 0, 0, now)];
      && WithinBounds(s[0]) && IsAdmissionTrace(s) && SameWindow(s)
      && |s| - 1 > s[0].requestLimit
  {
  }

  /**
   * With a limit of one, every admission after the first refills: two
   * consecutive admissions are a full window apart.
   */
  lemma LimitOneSerializes(b0: Bucket, b1: Bucket, b2: Bucket)
    requires WithinBounds(b0) && b0.requestLimit == 1
    requires Step(b0, b1) && Step(b1, b2)
    ensures b1.tokens == 0 && b2.tokens == 0
    ensures b2.lastRefillTime >= b1.lastRefillTime + b1.timeWindowMillis
    ensures b2.lastRefillTime >= b0.lastRefillTime + b0.timeWindowMillis
  {
  }
}
