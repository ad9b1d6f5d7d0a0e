# CrptApi request limiter, modelled in Dafny

`CrptApi` is a client for a document-submission HTTP API. Before each
`createDocument` call it passes through `acquireToken`, a fixed-window token
counter guarded by a lock. The counter is full at construction. A call takes
one token when one is left. Otherwise `acquireToken` calls `refillTokens`,
which resets the counter to `requestLimit` once a window of one time unit has
elapsed since the last refill. If it has not, `acquireToken` sleeps for the
remaining time and calls `refillTokens` again. It then takes one token of the
refilled counter.

For time units of a millisecond or more, refills are at least one time unit
apart, and between two refills at most `requestLimit` calls are admitted.
Because each refill resets the counter to full, up to twice the limit can pass
within one time unit across a refill: `requestLimit` calls just before the
refill and `requestLimit` just after it.

This project models that counter and proves its properties.

- `token_bucket.dfy`, module `TokenBucket`, is the specification on values.
  `Bucket` holds the four numeric fields: `requestLimit`, `timeWindowMillis`,
  `tokens` and `lastRefillTime`. The functions `Create`, `Refill` and
  `WaitTime` give the constructor, `refillTokens` and `calculateWaitTime` at a
  given clock reading. The predicate `Step` says what one completed
  `acquireToken` does to the state, whatever the clock read during the call.
  The lemmas cover the bounds, refill semantics, the per-window bound on
  admissions and its failure for a zero-length window.
- `crpt_api.dfy`, module `RateLimitedApi`, is the object as the source has it.
  It holds the class `CrptApi`, whose `tokens` and `lastRefillTime` fields the
  methods update in place. It also holds a `Clock` class that stands for
  `System.currentTimeMillis` and `Thread.sleep`. Each clock reading is
  arbitrary but never smaller than the previous one. A sleep of `w` ms advances
  the clock by at least `w`. The methods are proved against the functions of
  `TokenBucket`. A ghost field `admittedSinceRefill` counts the admissions since
  the last refill. The invariant `tokens + admittedSinceRefill == requestLimit`
  keeps that count within `requestLimit`.

`AcquireToken` is proved to terminate. Its wait loop runs its body at most
once: after sleeping for the computed wait on a non-decreasing clock, the
second refill always succeeds.

The model follows the code in two places where a limiter might be expected
to behave otherwise:

- A limiter would be expected to reject a window that is not positive. The
  code checks only `requestLimit`. The window is `timeUnit.toMillis(1)`, which
  is 0 for microseconds and nanoseconds. With a zero window every exhausted
  counter refills at once, so the per-window bound does not hold
  (`ZeroWindowExceedsLimit`). `AdmissionsPerWindow` therefore requires a
  positive window.
- A limiter would be expected to release its lock while a caller sleeps. The
  code sleeps while holding the lock. The model runs each `acquireToken` as
  one atomic step, which is what holding the lock gives.

## Model

| member | source | states |
|---|---|---|
| `TokenBucket.Create` | src/main/java/ru/selsup/task/CrptApi.java:33-41 | fails exactly when `requestLimit <= 0`; otherwise the counter is within bounds, full (`tokens == requestLimit`) and last refilled at the construction reading |
| `TokenBucket.Refill` | src/main/java/ru/selsup/task/CrptApi.java:79-87 | once a window has elapsed, resets `tokens` to `requestLimit` and `lastRefillTime` to the reading; otherwise changes nothing; keeps the bounds, never lowers `tokens`, never moves the refill time back on a later reading |
| `TokenBucket.WaitTime` | src/main/java/ru/selsup/task/CrptApi.java:89-93 | is never negative; is at most one window when the reading is not before the last refill; is 0 exactly when a refill is due; every reading at least the wait later finds a refill due |
| `TokenBucket.StepKeepsBounds` | src/main/java/ru/selsup/task/CrptApi.java:63-73 | an admission keeps `0 <= tokens <= requestLimit` and leaves at most `requestLimit - 1` tokens |
| `TokenBucket.Step` | src/main/java/ru/selsup/task/CrptApi.java:60-77 | what one completed call does: with a token left, exactly one is taken and nothing else changes; otherwise `requestLimit - 1` tokens remain and the refill time is at least one window after the old one; limit and window never change |
| `TokenBucket.WaitLoopBodyRefills` | src/main/java/ru/selsup/task/CrptApi.java:63-71 | one pass of the wait loop entered with no token left (refill, wait computed later, sleep at least that long, refill) always ends with a full counter refilled at one of the pass's readings, at least one window after the old refill, so the loop never runs twice |
| `TokenBucket.SameRefillTimeIsFastPath` | src/main/java/ru/selsup/task/CrptApi.java:63-73 | with a positive window, an admission that keeps the refill time took the fast path: `tokens` was positive and dropped by exactly one |
| `TokenBucket.TokensAlongWindow` | src/main/java/ru/selsup/task/CrptApi.java:73 | along admissions sharing one refill time, the k-th state has exactly k tokens fewer than the first, and every state before the last has a token left |
| `TokenBucket.AdmissionsPerWindow` | src/main/java/ru/selsup/task/CrptApi.java:60-87 | with a positive window, between two refills at most `requestLimit` calls complete, each consuming one token of the counter |
| `TokenBucket.ZeroWindowExceedsLimit` | src/main/java/ru/selsup/task/CrptApi.java:39 | with a zero window and a limit of 1, two calls complete with the refill time unchanged |
| `TokenBucket.LimitOneSerializes` | src/main/java/ru/selsup/task/CrptApi.java:60-87 | with a limit of 1, consecutive admissions each leave 0 tokens, and the second refills at least one window after the first one's refill time (and after the refill the first started from) |
| `RateLimitedApi.Clock.CurrentTimeMillis` | src/main/java/ru/selsup/task/CrptApi.java:80 | a clock reading is never smaller than the previous one |
| `RateLimitedApi.Clock.Sleep` | src/main/java/ru/selsup/task/CrptApi.java:68 | sleeping `millis` advances the clock by at least `millis` |
| `RateLimitedApi.CrptApi.Init` | src/main/java/ru/selsup/task/CrptApi.java:38-41 | the fields are set as `Create` gives them: full counter, refill time the construction reading, no admissions yet |
| `RateLimitedApi.CrptApi.New` | src/main/java/ru/selsup/task/CrptApi.java:33-41 | fails exactly when `requestLimit <= 0`, without reading the clock; otherwise returns a fresh object in the state `Create` gives at a clock reading taken during the call |
| `RateLimitedApi.CrptApi.RefillTokens` | src/main/java/ru/selsup/task/CrptApi.java:79-87 | the new state is `Refill` of the old one at a fresh clock reading; the admission count restarts at 0 exactly when the refill happened |
| `RateLimitedApi.CrptApi.CalculateWaitTime` | src/main/java/ru/selsup/task/CrptApi.java:89-93 | returns `WaitTime` of the unchanged state at a fresh clock reading; changes no field |
| `RateLimitedApi.CrptApi.AcquireToken` | src/main/java/ru/selsup/task/CrptApi.java:60-77 | terminates; keeps `0 <= tokens <= requestLimit` and `admittedSinceRefill <= requestLimit`; with a token left it takes exactly one, keeps the refill time and reads no clock; otherwise it ends with `requestLimit - 1` tokens and a refill time equal to the clock on return, a reading taken during the call, at least one window after the old one |
| `RateLimitedApi.FiveThenSixth` | src/main/java/ru/selsup/task/CrptApi.java:60-77 | with a limit of 5 per second, five calls leave 0 tokens; a sixth refills at least a window later and leaves 4 |

## Left out

- `createDocument`, `prepareRequestBody` and `sendRequest` (CrptApi.java:54-123): JSON serialisation, Base64 encoding and the HTTP call are library code, not part of the counter.
- The `Document`, `Description`, `Product` and `CreateDocumentRequest` classes (CrptApi.java:126-384): plain data holders without logic.
- The `ReentrantLock` (CrptApi.java:27, 61, 75): one caller at a time is modelled, and each `acquireToken` is one atomic step.
- `InterruptedException` from `Thread.sleep`: interruption is not modelled, so every call completes.
- `RateLimitedApi.Clock.CurrentTimeMillis`: the wall clock is assumed never to go backwards. `System.currentTimeMillis` can go backwards, and then the wait loop may need more than one pass.
- `TimeUnit.toMillis(1)` (CrptApi.java:39): the window is a non-negative number of milliseconds given to the constructor. Microseconds and nanoseconds give 0, which the model covers.
- Java `long` overflow: clock readings and differences are unbounded integers. The `long` subtraction `currentTime - lastRefillTime` cannot overflow for real clock readings.
- The `apiUrl`, `authToken`, `HttpClient` and `ObjectMapper` fields and the three-argument constructor that supplies the default URL (CrptApi.java:29-31, 43-51): glue for the HTTP call.
