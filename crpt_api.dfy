/**
 * The CrptApi object with its token counter, updated in place.
 *
 * `Clock` stands for System.currentTimeMillis and Thread.sleep: each reading
 * is an arbitrary value no smaller than the previous one, and a sleep of `w`
 * milliseconds advances the clock by at least `w`. Each method of `CrptApi`
 * runs as one atomic step (the lock is held for the whole of acquireToken).
 */
module RateLimitedApi {
  import opened TokenBucket

  class Clock {
    var now: int

    constructor (start: int)
      ensures now == start
    {
      now := start;
    }

    /** System.currentTimeMillis: some time passes, then the clock is read. */
    method CurrentTimeMillis() returns (t: int)
      modifies this
      ensures old(now) <= now && t == now
    {
      var elapsed :| elapsed >= 0;
      now := now + elapsed;
      t := now;
    }

    /** Thread.sleep: returns no earlier than `millis` milliseconds later. */
    method Sleep(millis: int)
      requires millis >= 0
      modifies this
      ensures now >= old(now) + millis
    {
      var overshoot :| overshoot >= 0;
      now := now + millis + overshoot;
    }
  }

  class CrptApi {
    const requestLimit: int
    const timeWindowMillis: nat
    var tokens: int
    var lastRefillTime: int
    /** Calls of AcquireToken completed since the last refill. */
    ghost var admittedSinceRefill: nat

    ghost function State(): Bucket
      reads this
    {
      Bucket(requestLimit, timeWindowMillis, tokens, lastRefillTime)
    }

    /** The counter is within bounds and every missing token was taken by an admission. */
    ghost predicate Valid()
      reads this
    {
      && WithinBounds(State())
      && tokens + admittedSinceRefill == requestLimit
    }

    /** The field assignments of the constructor, once the limit has been checked. */
    constructor Init(timeWindowMillis: nat, requestLimit: Int32, now: int)
      requires requestLimit > 0
      ensures Valid() && admittedSinceRefill == 0
      ensures Create(timeWindowMillis, requestLimit, now) == Success(State())
    {
      this.requestLimit := requestLimit;
      this.timeWindowMillis := timeWindowMillis;
      this.tokens := requestLimit;
      this.lastRefillTime := now;
      this.admittedSinceRefill := 0;
    }

    /** The constructor: throws for a non-positive limit, reads the clock otherwise. */
    static method New(clock: Clock, timeWindowMillis: nat, requestLimit: Int32)
      returns (r: Result<CrptApi, ConfigError>)
      modifies clock
      ensures r.Failure? <==> requestLimit <= 0
      ensures r.Failure? ==>
        unchanged(clock) && Create(timeWindowMillis, requestLimit, clock.now) == Failure(r.error)
      ensures r.Success? ==>
        && fresh(r.value) && r.value.Valid() && r.value.admittedSinceRefill == 0
        && old(clock.now) <= clock.now
        && Create(timeWindowMillis, requestLimit, clock.now) == Success(r.value.State())
    {
      if requestLimit <= 0 {
        return Failure(RequestLimitNotPositive);
      }
      var now := clock.CurrentTimeMillis();
      var api := new CrptApi.Init(timeWindowMillis, requestLimit, now);
      r := Success(api);
    }

    /** refillTokens: reads the clock and resets the counter once a window has elapsed. */
    method RefillTokens(clock: Clock)
      requires Valid()
      modifies this, clock
      ensures Valid()
      ensures old(clock.now) <= clock.now
      ensures State() == Refill(old(State()), clock.now)
      ensures admittedSinceRefill ==
        if RefillDue(old(State()), clock.now) then 0 else old(admittedSinceRefill)
    {
      var currentTime := clock.CurrentTimeMillis();
      var timePassed := currentTime - lastRefillTime;
      if timePassed >= timeWindowMillis {
        tokens := requestLimit;
        lastRefillTime := currentTime;
        admittedSinceRefill := 0;
      }
    }

    /** calculateWaitTime: reads the clock, changes no field. */
    method CalculateWaitTime(clock: Clock) returns (waitTime: int)
      modifies clock
      ensures old(clock.now) <= clock.now
      ensures waitTime == WaitTime(State(), clock.now)
    {
      var currentTime := clock.CurrentTimeMillis();
      var timeSinceLastRefill := currentTime - lastRefillTime;
      waitTime := if timeWindowMillis - timeSinceLastRefill > 0
                  then timeWindowMillis - timeSinceLastRefill else 0;
    }

    /**
     * acquireToken: waits while no token is left, then takes one. The wait
     * loop runs its body at most once, because after sleeping for the
     * computed wait the second refill always succeeds.
     */
    method AcquireToken(clock: Clock)
      requires Valid()
      modifies this, clock
      ensures Valid()
      ensures Step(old(State()), State())
      ensures old(clock.now) <= clock.now
      ensures old(tokens) > 0 ==>
        && tokens == old(tokens) - 1 && lastRefillTime == old(lastRefillTime)
        && admittedSinceRefill == old(admittedSinceRefill) + 1
        && unchanged(clock)
      ensures old(tokens) <= 0 ==>
        && tokens == requestLimit - 1 && admittedSinceRefill == 1
        && old(clock.now) <= lastRefillTime == clock.now
        && lastRefillTime >= old(lastRefillTime) + timeWindowMillis
    {
      while tokens <= 0
        invariant Valid()
        invariant tokens <= 0 ==> State() == old(State()) && unchanged(clock)
        invariant old(tokens) > 0 ==> unchanged(this) && unchanged(clock)
        invariant old(tokens) <= 0 && tokens > 0 ==>
          && tokens == requestLimit && admittedSinceRefill == 0
          && old(clock.now) <= lastRefillTime == clock.now
          && lastRefillTime >= old(lastRefillTime) + timeWindowMillis
        decreases if tokens <= 0 then 1 else 0
      {
        RefillTokens(clock);
        if tokens <= 0 {
          var waitTime := CalculateWaitTime(clock);
          if waitTime > 0 {
            clock.Sleep(waitTime);
          }
          RefillTokens(clock);
        }
      }
      tokens := tokens - 1;
      admittedSinceRefill := admittedSinceRefill + 1;
    }
  }

  /**
   * A limit of 5 per second: five calls at once take every token without
   * waiting; a sixth waits for the next window, refills and leaves 4.
   */
  method FiveThenSixth() returns (afterFive: int, afterSix: int, waited: bool)
    ensures afterFive == 0 && afterSix == 4 && waited
  {
    var clock := new Clock(0);
    var r := CrptApi.New(clock, 1000, 5);
    var api := r.value;
    api.AcquireToken(clock);
    api.AcquireToken(clock);
    api.AcquireToken(clock);
    api.AcquireToken(clock);
    api.AcquireToken(clock);
    afterFive := api.tokens;
    var start := api.lastRefillTime;
    api.AcquireToken(clock);
    afterSix := api.tokens;
    waited := api.lastRefillTime >= start + 1000;
  }
}
