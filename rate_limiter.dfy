/** The weight-budgeted, retrying request gate of the token controller
    (`makeRateLimitedRequest` and the module-level `requestWeightCounter`).

    Time is explicit: the limiter state carries the wall clock `now` (what
    `Date.now()` would return) and the time of the next tick of the
    process-wide interval timer that clears the counter every `ResetInterval`
    ms. Every sleep moves the clock forward and fires the timer when one of
    its ticks falls inside the sleep. Each attempt of a request is an input: how long the call took
    and whether it returned or threw. */
module RateLimit {

  const WeightLimitPerMinute: nat := 1200
  const ResetInterval: nat := 60000
  const MaxRetries: nat := 5
  const BaseDelay: nat := 1000
  const TooManyRequests: int := 429

  /** What a failed call throws: an HTTP error carrying the response status,
      or any other error (no response, or an error thrown by the request
      function itself). */
  datatype Failure = HttpError(status: int) | OtherError

  /** What one invocation of the request function does. */
  datatype CallResult<T> = Returned(value: T) | Threw(failure: Failure)

  /** One attempt: its duration in ms and its result. */
  datatype Attempt<T> = Attempt(latency: nat, result: CallResult<T>)

  /** What the caller of the limiter receives: the value, or the rethrown error. */
  datatype Outcome<T> = Ok(value: T) | Err(failure: Failure)

  /** The limiter's state: the weight counter, the wall clock in ms, and the
      time of the reset timer's next tick. */
  datatype LimiterState = LimiterState(counter: nat, now: nat, nextTick: nat)

  /** What a request settled to, the limiter state after it, how many
      attempts it made, the weight it charged in all and how long it spent in
      retry back-off. */
  datatype Trace<T> = Trace(state: LimiterState, outcome: Outcome<T>, attempts: nat, charged: nat, backoff: nat)

  /** The timer's next tick is still to come, at most one interval ahead. */
  predicate Scheduled(s: LimiterState) {
    s.now < s.nextTick <= s.now + ResetInterval
  }

  /** The first tick after time `t` of a timer whose ticks fall every
      `ResetInterval` ms from `tick` on. */
  function NextTickAfter(tick: nat, t: nat): (r: nat)
    decreases if tick <= t then t + 1 - tick else 0
    ensures t < r && tick <= r
    ensures tick <= t ==> r <= t + ResetInterval
  {
    if t < tick then tick else NextTickAfter(tick + ResetInterval, t)
  }

  /** Ticks stay on the timer's grid. */
  lemma {:induction false} NextTickOnGrid(tick: nat, t: nat)
    decreases if tick <= t then t + 1 - tick else 0
    ensures (NextTickAfter(tick, t) - tick) % ResetInterval == 0
  {
    if tick <= t {
      NextTickOnGrid(tick + ResetInterval, t);
    }
  }

  /** Sleeping `ms` milliseconds (`await delay(ms)`): the clock advances and
      the counter is cleared if the interval timer fires meanwhile. A tick due
      exactly when the sleep ends counts as inside it: Node runs timers in
      order of due time, and the interval timer, created when the module was
      loaded, is due no later than a `delay` ending at the same instant.
      `AlignedTimerClearsBeforeAdmission` relies on this choice. */
  function Elapse(s: LimiterState, ms: nat): LimiterState {
    var t := s.now + ms;
    if s.nextTick <= t then LimiterState(0, t, NextTickAfter(s.nextTick, t))
    else LimiterState(s.counter, t, s.nextTick)
  }

  /** A sleep never raises the counter and keeps the timer scheduled; the
      counter survives exactly the sleeps that end before the next tick, so a
      sleep of a whole interval or more always clears it. */
  lemma ElapseClears(s: LimiterState, ms: nat)
    ensures Elapse(s, ms).now == s.now + ms
    ensures Elapse(s, ms).counter == 0 || Elapse(s, ms).counter == s.counter
    ensures s.now + ms < s.nextTick ==> Elapse(s, ms) == s.(now := s.now + ms)
    ensures s.nextTick <= s.now + ms ==> Elapse(s, ms).counter == 0
    ensures Scheduled(s) ==> Scheduled(Elapse(s, ms))
    ensures Scheduled(s) && ms >= ResetInterval ==> Elapse(s, ms).counter == 0
  {
  }

  /** How long admission sleeps before a call of the given weight: until the
      next wall-clock minute boundary when the budget would be exceeded. */
  function AdmissionWait(s: LimiterState, weight: nat): nat {
    if s.counter + weight > WeightLimitPerMinute then ResetInterval - s.now % ResetInterval else 0
  }

  /** A caller waits exactly when the weight would overflow the budget, never
      longer than one interval, and wakes on a minute boundary. */
  lemma AdmissionWaitBounds(s: LimiterState, weight: nat)
    ensures AdmissionWait(s, weight) > 0 <==> s.counter + weight > WeightLimitPerMinute
    ensures AdmissionWait(s, weight) <= ResetInterval
    ensures AdmissionWait(s, weight) > 0 ==> (s.now + AdmissionWait(s, weight)) % ResetInterval == 0
  {
  }

  /** Admission: the wait above, then the weight is charged unconditionally,
      without checking the budget again. */
  function Admission(s: LimiterState, weight: nat): LimiterState {
    var wait := AdmissionWait(s, weight);
    var waited := if wait > 0 then Elapse(s, wait) else s;
    waited.(counter := waited.counter + weight)
  }

  /** Admission charges the weight on top of the counter, or on top of zero
      when the reset timer fired during the wait. */
  lemma AdmissionCharges(s: LimiterState, weight: nat)
    ensures var r := Admission(s, weight);
      && r.now == s.now + AdmissionWait(s, weight)
      && (AdmissionWait(s, weight) == 0 ==> r == s.(counter := s.counter + weight))
      && (AdmissionWait(s, weight) > 0 && s.nextTick <= r.now ==> r.counter == weight)
      && r.counter <= s.counter + weight
      && (r.now < s.nextTick ==> r.counter == s.counter + weight && r.nextTick == s.nextTick)
      && (Scheduled(s) ==> Scheduled(r))
  {
  }

  /** `2^n`. */
  function Pow2(n: nat): (r: nat)
    ensures r >= 1
  {
    if n == 0 then 1 else 2 * Pow2(n - 1)
  }

  lemma {:induction false} Pow2Monotone(m: nat, n: nat)
    requires m <= n
    ensures Pow2(m) <= Pow2(n)
  {
    if m < n {
      Pow2Monotone(m, n - 1);
    }
  }

  /** Back-off before retry number `retryCount + 1`. */
  function Backoff(retryCount: nat): nat {
    BaseDelay * Pow2(retryCount)
  }

  /** Total back-off of `n` consecutive retries starting at retry count `k`. */
  function BackoffTotal(k: nat, n: nat): nat
    decreases n
  {
    if n == 0 then 0 else Backoff(k) + BackoffTotal(k + 1, n - 1)
  }

  /** The back-off schedule doubles from `BaseDelay`: its sum is geometric. */
  lemma {:induction false} BackoffTotalClosedForm(k: nat, n: nat)
    decreases n
    ensures BackoffTotal(k, n) == BaseDelay * (Pow2(k + n) - Pow2(k))
  {
    if n > 0 {
      BackoffTotalClosedForm(k + 1, n - 1);
    }
  }

  /** The retry rule: only a 429 is retried, and only while retries remain. */
  predicate Retries(f: Failure, retryCount: nat) {
    f == HttpError(TooManyRequests) && retryCount < MaxRetries
  }

  /** Attempt `k` of the script fails in a way that is retried. */
  predicate Retried<T>(script: nat -> Attempt<T>, k: nat) {
    script(k).result.Threw? && Retries(script(k).result.failure, k)
  }

  /** How many attempts a request starting at retry count `k` makes: up to and
      including the first attempt that is not retried. */
  function AttemptCount<T>(script: nat -> Attempt<T>, k: nat): (n: nat)
    decreases if k < MaxRetries then MaxRetries - k else 0
    ensures 1 <= n <= (if k < MaxRetries then MaxRetries + 1 - k else 1)
  {
    if Retried(script, k) then 1 + AttemptCount(script, k + 1) else 1
  }

  /** The time spent inside the request function by the attempts a request
      starting at retry count `k` makes. */
  function Latencies<T>(script: nat -> Attempt<T>, k: nat): nat
    decreases if k < MaxRetries then MaxRetries - k else 0
  {
    script(k).latency + (if Retried(script, k) then Latencies(script, k + 1) else 0)
  }

  /** The attempts a request makes are exactly a run of retried failures
      closed by one attempt that is not retried. */
  lemma {:induction false} AttemptsEndAtFirstSettled<T>(script: nat -> Attempt<T>, k: nat)
    decreases if k < MaxRetries then MaxRetries - k else 0
    ensures forall i | k <= i < k + AttemptCount(script, k) - 1 :: Retried(script, i)
    ensures !Retried(script, k + AttemptCount(script, k) - 1)
  {
    if Retried(script, k) {
      AttemptsEndAtFirstSettled(script, k + 1);
    }
  }

  /** A call's result as the caller sees it: a value is returned, a thrown
      error is rethrown as it is. */
  function OutcomeOf<T>(c: CallResult<T>): (r: Outcome<T>)
    ensures r.Ok? <==> c.Returned?
    ensures r.Ok? ==> r.value == c.value
    ensures r.Err? ==> r.failure == c.failure
  {
    match c
    case Returned(v) => Ok(v)
    case Threw(f) => Err(f)
  }

  /** What a request starting at retry count `k` settles to: the result of its
      last attempt. It depends on the script only, never on the limiter state. */
  function Settled<T>(script: nat -> Attempt<T>, k: nat): Outcome<T> {
    OutcomeOf(script(k + AttemptCount(script, k) - 1).result)
  }

  /** A 429 reaches the caller only from the attempt made with retry count
      `MaxRetries` or more, once the retries are used up. */
  lemma RejectionSettlesLast<T>(script: nat -> Attempt<T>, k: nat)
    ensures Settled(script, k) == Err(HttpError(TooManyRequests)) ==> k + AttemptCount(script, k) - 1 >= MaxRetries
  {
    AttemptsEndAtFirstSettled(script, k);
  }

  /** `makeRateLimitedRequest(requestFn, weight, retryCount)` as a function of
      the limiter state: admission, the attempt, and on a retried failure the
      back-off and a fresh pass through admission. */
  function Execute<T>(s: LimiterState, weight: nat, script: nat -> Attempt<T>, retryCount: nat): Trace<T>
    decreases if retryCount < MaxRetries then MaxRetries - retryCount else 0
  {
    var admitted := Admission(s, weight);
    var attempt := script(retryCount);
    var after := Elapse(admitted, attempt.latency);
    match attempt.result
    case Returned(v) => Trace(after, Ok(v), 1, weight, 0)
    case Threw(f) =>
      if Retries(f, retryCount) then
        var slept := Elapse(after, Backoff(retryCount));
        var rest := Execute(slept, weight, script, retryCount + 1);
        Trace(rest.state, rest.outcome, 1 + rest.attempts, weight + rest.charged, Backoff(retryCount) + rest.backoff)
      else
        Trace(after, Err(f), 1, weight, 0)
  }

  /** The retry policy: a request makes its attempts up to and including the
      first one that is not retried (see `AttemptsEndAtFirstSettled`), and
      backs off on the doubling schedule between them. */
  lemma {:induction false} ExecuteFollowsRetryPolicy<T>(s: LimiterState, weight: nat, script: nat -> Attempt<T>, retryCount: nat)
    decreases if retryCount < MaxRetries then MaxRetries - retryCount else 0
    ensures var r := Execute(s, weight, script, retryCount);
      && r.attempts == AttemptCount(script, retryCount)
      && r.backoff == BackoffTotal(retryCount, r.attempts - 1)
  {
    var r := Execute(s, weight, script, retryCount);
    var attempt := script(retryCount);
    if attempt.result.Threw? && Retries(attempt.result.failure, retryCount) {
      var slept := Elapse(Elapse(Admission(s, weight), attempt.latency), Backoff(retryCount));
      ExecuteFollowsRetryPolicy(slept, weight, script, retryCount + 1);
      var rest := Execute(slept, weight, script, retryCount + 1);
      assert r.attempts == 1 + rest.attempts && r.backoff == Backoff(retryCount) + rest.backoff;
    } else {
      assert r.attempts == 1 && r.backoff == 0;
    }
  }

  /** The caller receives the result of the last attempt, whatever the
      limiter state: the value returned, or the error thrown. */
  lemma {:induction false} ExecuteSettles<T>(s: LimiterState, weight: nat, script: nat -> Attempt<T>, retryCount: nat)
    decreases if retryCount < MaxRetries then MaxRetries - retryCount else 0
    ensures Execute(s, weight, script, retryCount).outcome == Settled(script, retryCount)
  {
    var r := Execute(s, weight, script, retryCount);
    var attempt := script(retryCount);
    match attempt.result
    case Returned(v) =>
      assert r.outcome == Ok(v);
    case Threw(f) =>
      if Retries(f, retryCount) {
        var slept := Elapse(Elapse(Admission(s, weight), attempt.latency), Backoff(retryCount));
        ExecuteSettles(slept, weight, script, retryCount + 1);
        assert AttemptCount(script, retryCount) == 1 + AttemptCount(script, retryCount + 1);
        assert r.outcome == Execute(slept, weight, script, retryCount + 1).outcome;
      } else {
        assert r.outcome == Err(f);
      }
  }

  /** `(1 + a) * w` distributes. */
  lemma MulSucc(a: nat, w: nat)
    ensures (1 + a) * w == w + a * w
  {
  }

  /** Each attempt charges the request's weight once. */
  lemma {:induction false} ChargedPerAttempt<T>(s: LimiterState, weight: nat, script: nat -> Attempt<T>, retryCount: nat)
    decreases if retryCount < MaxRetries then MaxRetries - retryCount else 0
    ensures Execute(s, weight, script, retryCount).charged == Execute(s, weight, script, retryCount).attempts * weight
  {
    var attempt := script(retryCount);
    if attempt.result.Threw? && Retries(attempt.result.failure, retryCount) {
      var after := Elapse(Admission(s, weight), attempt.latency);
      var slept := Elapse(after, Backoff(retryCount));
      var rest := Execute(slept, weight, script, retryCount + 1);
      ChargedPerAttempt(slept, weight, script, retryCount + 1);
      MulSucc(rest.attempts, weight);
    }
  }

  /** One attempt takes its own time, after an admission wait of at most
      one interval. */
  lemma AttemptTime(s: LimiterState, weight: nat, latency: nat)
    ensures s.now + latency <= Elapse(Admission(s, weight), latency).now <= s.now + latency + ResetInterval
  {
    AdmissionWaitBounds(s, weight);
    AdmissionCharges(s, weight);
  }

  /** A request takes the time of its attempts and of its back-offs, plus at
      most one admission wait of at most an interval per attempt. */
  lemma {:induction false} ExecuteTakesBackoff<T>(s: LimiterState, weight: nat, script: nat -> Attempt<T>, retryCount: nat)
    decreases if retryCount < MaxRetries then MaxRetries - retryCount else 0
    ensures var r := Execute(s, weight, script, retryCount);
      && r.state.now >= s.now + Latencies(script, retryCount) + r.backoff
      && r.state.now <= s.now + Latencies(script, retryCount) + r.backoff + r.attempts * ResetInterval
  {
    var r := Execute(s, weight, script, retryCount);
    var attempt := script(retryCount);
    var after := Elapse(Admission(s, weight), attempt.latency);
    AttemptTime(s, weight, attempt.latency);
    if Retried(script, retryCount) {
      var slept := Elapse(after, Backoff(retryCount));
      var rest := Execute(slept, weight, script, retryCount + 1);
      ExecuteTakesBackoff(slept, weight, script, retryCount + 1);
      MulSucc(rest.attempts, ResetInterval);
      assert r == Trace(rest.state, rest.outcome, 1 + rest.attempts, weight + rest.charged, Backoff(retryCount) + rest.backoff);
    } else {
      assert r.state == after && r.backoff == 0 && r.attempts == 1;
    }
  }

  /** An attempt whose weight fits in the budget is admitted at once: it
      takes exactly its own time and adds at most its weight. */
  lemma AttemptWithoutWait(s: LimiterState, weight: nat, latency: nat)
    requires s.counter + weight <= WeightLimitPerMinute
    ensures Elapse(Admission(s, weight), latency).now == s.now + latency
    ensures Elapse(Admission(s, weight), latency).counter <= s.counter + weight
  {
    assert Admission(s, weight) == s.(counter := s.counter + weight);
    ElapseClears(Admission(s, weight), latency);
  }

  /** The clock, exactly, for a request whose every attempt fits in the
      budget, so that admission never waits: the attempts' own time, then the
      back-offs of 1000, 2000, 4000 … ms between them. */
  lemma {:induction false} ExecuteClock<T>(s: LimiterState, weight: nat, script: nat -> Attempt<T>, retryCount: nat)
    decreases if retryCount < MaxRetries then MaxRetries - retryCount else 0
    requires s.counter + AttemptCount(script, retryCount) * weight <= WeightLimitPerMinute
    ensures Execute(s, weight, script, retryCount).state.now
      == s.now + Latencies(script, retryCount) + BackoffTotal(retryCount, AttemptCount(script, retryCount) - 1)
  {
    var attempt := script(retryCount);
    var after := Elapse(Admission(s, weight), attempt.latency);
    var n := AttemptCount(script, retryCount) - 1;
    MulSucc(n, weight);
    AttemptWithoutWait(s, weight, attempt.latency);
    if Retried(script, retryCount) {
      var slept := Elapse(after, Backoff(retryCount));
      ElapseClears(after, Backoff(retryCount));
      assert n == AttemptCount(script, retryCount + 1);
      ExecuteClock(slept, weight, script, retryCount + 1);
      assert Execute(s, weight, script, retryCount).state == Execute(slept, weight, script, retryCount + 1).state;
    } else {
      assert Execute(s, weight, script, retryCount).state == after;
    }
  }

  /** Every attempt, retries included, charges the full weight and nothing is
      refunded: until the next tick of the reset timer the counter grows by
      exactly `attempts * weight`, and it never grows by more. */
  lemma {:induction false} ExecuteCharges<T>(s: LimiterState, weight: nat, script: nat -> Attempt<T>, retryCount: nat)
    decreases if retryCount < MaxRetries then MaxRetries - retryCount else 0
    ensures var r := Execute(s, weight, script, retryCount);
      && r.state.counter <= s.counter + r.charged
      && (r.state.now < s.nextTick ==> r.state.counter == s.counter + r.charged)
  {
    var r := Execute(s, weight, script, retryCount);
    var attempt := script(retryCount);
    var after := Elapse(Admission(s, weight), attempt.latency);
    AttemptCharges(s, weight, attempt.latency);
    if attempt.result.Threw? && Retries(attempt.result.failure, retryCount) {
      var slept := Elapse(after, Backoff(retryCount));
      ElapseClears(after, Backoff(retryCount));
      var rest := Execute(slept, weight, script, retryCount + 1);
      ExecuteCharges(slept, weight, script, retryCount + 1);
      ExecuteTakesBackoff(slept, weight, script, retryCount + 1);
      assert r.state == rest.state && r.charged == weight + rest.charged;
      RetryCharges(s, after, slept, rest.state, weight, rest.charged);
    } else {
      assert r.state == after && r.charged == weight;
    }
  }

  /** The charge of an attempt followed by a back-off composes with the charge
      of the retry. */
  lemma RetryCharges(s: LimiterState, after: LimiterState, slept: LimiterState, last: LimiterState,
                     weight: nat, charged: nat)
    requires after.now >= s.now && after.counter <= s.counter + weight
    requires after.now < s.nextTick ==> after.counter == s.counter + weight && after.nextTick == s.nextTick
    requires slept.now >= after.now && slept.counter <= after.counter
    requires slept.now < after.nextTick ==> slept.counter == after.counter && slept.nextTick == after.nextTick
    requires last.now >= slept.now && last.counter <= slept.counter + charged
    requires last.now < slept.nextTick ==> last.counter == slept.counter + charged
    ensures last.counter <= s.counter + (weight + charged)
    ensures last.now < s.nextTick ==> last.counter == s.counter + (weight + charged)
  {
  }

  /** One attempt, admission and call together, charges the weight once. */
  lemma AttemptCharges(s: LimiterState, weight: nat, latency: nat)
    ensures var after := Elapse(Admission(s, weight), latency);
      && after.now >= s.now
      && after.counter <= s.counter + weight
      && (after.now < s.nextTick ==> after.counter == s.counter + weight && after.nextTick == s.nextTick)
      && (Scheduled(s) ==> Scheduled(after))
  {
    var admitted := Admission(s, weight);
    AdmissionCharges(s, weight);
    ElapseClears(admitted, latency);
  }

  /** A request leaves the timer scheduled. */
  lemma {:induction false} ExecuteKeepsSchedule<T>(s: LimiterState, weight: nat, script: nat -> Attempt<T>, retryCount: nat)
    decreases if retryCount < MaxRetries then MaxRetries - retryCount else 0
    requires Scheduled(s)
    ensures Scheduled(Execute(s, weight, script, retryCount).state)
  {
    var r := Execute(s, weight, script, retryCount);
    var attempt := script(retryCount);
    var after := Elapse(Admission(s, weight), attempt.latency);
    AttemptCharges(s, weight, attempt.latency);
    if attempt.result.Threw? && Retries(attempt.result.failure, retryCount) {
      var slept := Elapse(after, Backoff(retryCount));
      ElapseClears(after, Backoff(retryCount));
      ExecuteKeepsSchedule(slept, weight, script, retryCount + 1);
      assert r.state == Execute(slept, weight, script, retryCount + 1).state;
    } else {
      assert r.state == after;
    }
  }

  /** The limiter of the controller module: one counter shared by all callers,
      cleared by the interval timer. */
  class RateLimiter {
    var counter: nat
    var now: nat
    var nextTick: nat

    /** The module is loaded at wall-clock time `start`; the interval timer's
        first tick falls `ResetInterval` ms later. */
    constructor (start: nat)
      ensures counter == 0 && now == start && nextTick == start + ResetInterval
      ensures Scheduled(State())
    {
      counter := 0;
      now := start;
      nextTick := start + ResetInterval;
    }

    function State(): LimiterState
      reads this
    {
      LimiterState(counter, now, nextTick)
    }

    /** The interval timer's callback. */
    method Reset()
      modifies this
      ensures counter == 0 && now == old(now) && nextTick == old(nextTick)
    {
      counter := 0;
    }

    /** `await delay(ms)`, during which the interval timer may fire. */
    method Sleep(ms: nat)
      modifies this
      ensures State() == Elapse(old(State()), ms)
    {
      var t := now + ms;
      if nextTick <= t {
        Reset();
        nextTick := NextTickAfter(nextTick, t);
      }
      now := t;
    }

    /** Admission: wait for the next minute boundary if the weight does not
        fit in the budget, then charge it. */
    method Admit(weight: nat)
      modifies this
      ensures State() == Admission(old(State()), weight)
    {
      if counter + weight > WeightLimitPerMinute {
        Sleep(ResetInterval - now % ResetInterval);
      }
      counter := counter + weight;
    }

    /** `makeRateLimitedRequest`: `script(k)` is what the request function does
        on the attempt made with retry count `k`. */
    method Request<T>(weight: nat, script: nat -> Attempt<T>, retryCount: nat) returns (outcome: Outcome<T>)
      modifies this
      decreases if retryCount < MaxRetries then MaxRetries - retryCount else 0
      ensures State() == Execute(old(State()), weight, script, retryCount).state
      ensures outcome == Execute(old(State()), weight, script, retryCount).outcome
    {
      ghost var s0 := State();
      ghost var r := Execute(s0, weight, script, retryCount);
      Admit(weight);
      var attempt := script(retryCount);
      Sleep(attempt.latency);
      ghost var after := State();
      assert after == Elapse(Admission(s0, weight), attempt.latency);
      match attempt.result {
        case Returned(v) =>
          outcome := Ok(v);
          assert r == Trace(after, Ok(v), 1, weight, 0);
        case Threw(f) =>
          if Retries(f, retryCount) {
            Sleep(Backoff(retryCount));
            ghost var slept := State();
            assert slept == Elapse(after, Backoff(retryCount));
            outcome := Request(weight, script, retryCount + 1);
            ghost var rest := Execute(slept, weight, script, retryCount + 1);
            assert r.state == rest.state && r.outcome == rest.outcome;
          } else {
            outcome := Err(f);
            assert r == Trace(after, Err(f), 1, weight, 0);
          }
      }
    }
  }

  /** A request makes at most six attempts and backs off at most 31 s in all:
      besides its attempts' own time it sleeps at most 31 s, and at most six
      admission waits of an interval each. */
  lemma RetryBudget<T>(s: LimiterState, weight: nat, script: nat -> Attempt<T>)
    ensures Execute(s, weight, script, 0).attempts <= MaxRetries + 1
    ensures Execute(s, weight, script, 0).backoff <= 31000
    ensures Execute(s, weight, script, 0).state.now <= s.now + Latencies(script, 0) + 31000 + (MaxRetries + 1) * ResetInterval
    ensures s.counter + AttemptCount(script, 0) * weight <= WeightLimitPerMinute ==>
      Execute(s, weight, script, 0).state.now <= s.now + Latencies(script, 0) + 31000
  {
    var r := Execute(s, weight, script, 0);
    ExecuteFollowsRetryPolicy(s, weight, script, 0);
    var n := r.attempts - 1;
    assert n <= MaxRetries;
    BackoffBound(n);
    assert r.backoff == BackoffTotal(0, n);
    ExecuteTakesBackoff(s, weight, script, 0);
    assert r.attempts * ResetInterval <= (MaxRetries + 1) * ResetInterval;
    if s.counter + AttemptCount(script, 0) * weight <= WeightLimitPerMinute {
      ExecuteClock(s, weight, script, 0);
    }
  }

  /** Up to `MaxRetries` back-offs from retry count 0 add up to at most 31 s. */
  lemma BackoffBound(n: nat)
    requires n <= MaxRetries
    ensures BackoffTotal(0, n) <= 31000
  {
    BackoffTotalClosedForm(0, n);
    Pow2Monotone(n, MaxRetries);
    assert Pow2(MaxRetries) == 32;
  }

  /** A failure other than a retried 429 is rethrown after the one attempt,
      with no back-off: the request ends as soon as the call has thrown. */
  lemma OtherFailureRethrown<T>(s: LimiterState, weight: nat, script: nat -> Attempt<T>, k: nat)
    requires script(k).result.Threw? && !Retries(script(k).result.failure, k)
    ensures Execute(s, weight, script, k).attempts == 1
    ensures Execute(s, weight, script, k).backoff == 0
    ensures Execute(s, weight, script, k).outcome == Err(script(k).result.failure)
    ensures Execute(s, weight, script, k).state == Elapse(Admission(s, weight), script(k).latency)
  {
  }

  /** Three 429 rejections followed by a success: the request succeeds after
      four attempts and 1000 + 2000 + 4000 ms of back-off; when the four
      attempts fit in the budget, that is all the time it takes besides the
      four calls. */
  lemma ThreeRejectionsThenSuccess<T>(s: LimiterState, weight: nat, script: nat -> Attempt<T>, v: T)
    requires forall k | k < 3 :: script(k).result == Threw(HttpError(TooManyRequests))
    requires script(3).result == Returned(v)
    ensures Execute(s, weight, script, 0).outcome == Ok(v)
    ensures Execute(s, weight, script, 0).attempts == 4
    ensures Execute(s, weight, script, 0).backoff == 7000
    ensures s.counter + 4 * weight <= WeightLimitPerMinute ==>
      Execute(s, weight, script, 0).state.now
        == s.now + script(0).latency + script(1).latency + script(2).latency + script(3).latency + 7000
  {
    assert Retried(script, 0) && Retried(script, 1) && Retried(script, 2);
    assert !Retried(script, 3);
    ThreeRetriesSchedule(script);
    ExecuteFollowsRetryPolicy(s, weight, script, 0);
    ExecuteSettles(s, weight, script, 0);
    if s.counter + 4 * weight <= WeightLimitPerMinute {
      ExecuteClock(s, weight, script, 0);
    }
  }

  /** Three retried attempts and a fourth that is not: four attempts, the
      four calls' time and 7000 ms of back-off. */
  lemma ThreeRetriesSchedule<T>(script: nat -> Attempt<T>)
    requires Retried(script, 0) && Retried(script, 1) && Retried(script, 2) && !Retried(script, 3)
    ensures AttemptCount(script, 0) == 4
    ensures Latencies(script, 0) == script(0).latency + script(1).latency + script(2).latency + script(3).latency
    ensures BackoffTotal(0, 3) == 7000
  {
    assert Pow2(2) == 4;
  }

  /** When the timer ticks on wall-clock minute boundaries, a caller that
      has to wait is always admitted into a fresh budget: the wait ends exactly
      on the timer's next tick. */
  lemma AlignedTimerClearsBeforeAdmission(s: LimiterState, weight: nat)
    requires Scheduled(s) && s.nextTick % ResetInterval == 0
    requires AdmissionWait(s, weight) > 0
    ensures Admission(s, weight).counter == weight
  {
    AdmissionWaitBounds(s, weight);
    var t := s.now + AdmissionWait(s, weight);
    var q, k := s.now / ResetInterval, s.nextTick / ResetInterval;
    assert t == (q + 1) * ResetInterval;
    assert s.nextTick == k * ResetInterval;
    assert q * ResetInterval <= s.now < (q + 1) * ResetInterval;
    assert q < k < q + 2;
    assert s.nextTick == t;
    AdmissionCharges(s, weight);
  }

  /** The grid of an aligned timer stays on minute boundaries. */
  lemma AlignedTicksStayAligned(tick: nat, t: nat)
    requires tick % ResetInterval == 0
    ensures NextTickAfter(tick, t) % ResetInterval == 0
  {
    var r := NextTickAfter(tick, t);
    NextTickOnGrid(tick, t);
    var m := (r - tick) / ResetInterval;
    assert r == tick + m * ResetInterval;
    assert r == (tick / ResetInterval + m) * ResetInterval;
  }

  /** The limiter is scheduled on minute boundaries and within the budget. */
  predicate AlignedWithinBudget(s: LimiterState) {
    Scheduled(s) && s.nextTick % ResetInterval == 0 && s.counter <= WeightLimitPerMinute
  }

  /** A sleep keeps the limiter aligned and within the budget. */
  lemma ElapseKeepsAligned(s: LimiterState, ms: nat)
    requires AlignedWithinBudget(s)
    ensures AlignedWithinBudget(Elapse(s, ms))
  {
    ElapseClears(s, ms);
    AlignedTicksStayAligned(s.nextTick, s.now + ms);
  }

  /** With an aligned timer, admission of a weight that fits in the budget
      at all leaves the counter within the budget, whatever it was before. */
  lemma AlignedAdmissionWithinBudget(s: LimiterState, weight: nat)
    requires Scheduled(s) && s.nextTick % ResetInterval == 0
    requires weight <= WeightLimitPerMinute
    ensures Admission(s, weight).counter <= WeightLimitPerMinute
  {
    if AdmissionWait(s, weight) > 0 {
      AlignedTimerClearsBeforeAdmission(s, weight);
    }
  }

  /** One attempt with an aligned timer keeps the limiter aligned and within
      the budget. */
  lemma AlignedAttemptWithinBudget(s: LimiterState, weight: nat, latency: nat)
    requires AlignedWithinBudget(s) && weight <= WeightLimitPerMinute
    ensures AlignedWithinBudget(Elapse(Admission(s, weight), latency))
  {
    var admitted := Admission(s, weight);
    AlignedAdmissionWithinBudget(s, weight);
    AdmissionCharges(s, weight);
    if AdmissionWait(s, weight) > 0 {
      AlignedTicksStayAligned(s.nextTick, s.now + AdmissionWait(s, weight));
    }
    assert admitted.nextTick % ResetInterval == 0;
    ElapseKeepsAligned(admitted, latency);
  }

  /** With an aligned timer, a whole request, retries and back-offs
      included, never takes the counter over the budget. */
  lemma {:induction false} AlignedRequestWithinBudget<T>(s: LimiterState, weight: nat, script: nat -> Attempt<T>, retryCount: nat)
    decreases if retryCount < MaxRetries then MaxRetries - retryCount else 0
    requires AlignedWithinBudget(s) && weight <= WeightLimitPerMinute
    ensures AlignedWithinBudget(Execute(s, weight, script, retryCount).state)
  {
    var r := Execute(s, weight, script, retryCount);
    var attempt := script(retryCount);
    var after := Elapse(Admission(s, weight), attempt.latency);
    AlignedAttemptWithinBudget(s, weight, attempt.latency);
    if attempt.result.Threw? && Retries(attempt.result.failure, retryCount) {
      var slept := Elapse(after, Backoff(retryCount));
      ElapseKeepsAligned(after, Backoff(retryCount));
      AlignedRequestWithinBudget(slept, weight, script, retryCount + 1);
      assert r.state == Execute(slept, weight, script, retryCount + 1).state;
    } else {
      assert r.state == after;
    }
  }

  /** Nothing bounds the counter by the budget: with the timer out of phase
      with the wall clock (started at 30 s past a minute), the wait ends before
      the reset, and the weight is charged on top of a full budget. */
  lemma AdmissionCanOverrunBudget()
    ensures Scheduled(LimiterState(WeightLimitPerMinute, 59000, 90000))
    ensures Admission(LimiterState(WeightLimitPerMinute, 59000, 90000), 20).counter == WeightLimitPerMinute + 20
  {
    var s := LimiterState(WeightLimitPerMinute, 59000, 90000);
    assert AdmissionWait(s, 20) == 1000;
  }
}
