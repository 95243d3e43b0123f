/** The rate-limit guard of the tool server (pkg/github/server.go):
    `handleRateLimit` reads a response's quota triple and `withRateLimitRetry`
    calls a GitHub API function again while the quota is exhausted.

    Time is an integer count of nanoseconds (Go's `time.Duration` unit). The
    wrapped call `fn` is a script indexed by attempt, the clock starts at
    `start` and moves only while the loop waits, and whether the context is
    cancelled during the wait after attempt `i` is the oracle `cancelled(i)`. */
module RateLimit {
  import opened Wrappers

  /** `time.Second`. */
  const Second: int := 1_000_000_000

  /** `github.Rate`: the quota triple of a response; `reset` is an instant. */
  datatype Rate = Rate(limit: int, remaining: int, reset: int)

  /** The package's own `*RateLimitError`. */
  datatype RateLimitError = RateLimitError(reset: int)

  /** What handleRateLimit does: the error it returns and whether it prints the
      low-quota warning. */
  datatype QuotaCheck = QuotaCheck(err: Option<RateLimitError>, warned: bool)

  /** `float64(remaining)/float64(limit) < 0.1`, decided exactly on integers
      (IEEE rounding aside): a negative limit flips the comparison, and a zero
      limit gives an infinite quotient, below 0.1 only when negative. */
  predicate LowQuota(r: Rate)
  {
    if r.limit > 0 then r.remaining * 10 < r.limit
    else if r.limit < 0 then r.remaining * 10 > r.limit
    else r.remaining < 0
  }

  /** handleRateLimit: a nil response passes; an exhausted quota is a
      RateLimitError carrying the reset instant; any other quota passes, with a
      warning printed when it is low. */
  function HandleRateLimit(resp: Option<Rate>): (c: QuotaCheck)
    ensures c.err.Some? <==> resp.Some? && resp.value.remaining == 0
    ensures c.err.Some? ==> c.err.value.reset == resp.value.reset
    ensures c.warned <==> resp.Some? && resp.value.remaining != 0 && LowQuota(resp.value)
  {
    match resp
    case None => QuotaCheck(None, false)
    case Some(rate) =>
      if rate.remaining == 0 then QuotaCheck(Some(RateLimitError(rate.reset)), false)
      else QuotaCheck(None, LowQuota(rate))
  }

  /** One call of `fn`. */
  datatype Attempt =
    | Responded(resp: Option<Rate>)   // (resp, nil)
    | RateLimited(reset: int)         // (_, *github.RateLimitError) whose Rate.Reset is `reset`
    | Failed(msg: string)             // (_, any other error)

  /** The attempt exhausts the quota, by go-github's error or by the response. */
  predicate Exhausted(a: Attempt)
  {
    a.RateLimited? || (a.Responded? && HandleRateLimit(a.resp).err.Some?)
  }

  /** The errors withRateLimitRetry returns. */
  datatype RetryError =
    | RetriesExceeded(reset: int)       // "max retries exceeded waiting for rate limit: %w"
    | ResetRetriesExceeded(reset: int)  // "max retries exceeded waiting for rate limit reset: %w"
    | ContextDone                       // ctx.Err()
    | CallFailed(msg: string)           // the call's own error, returned as is

  /** What a run of the loop amounts to: the returned error, the number of
      calls of `fn`, and the durations handed to `time.After`, in order. */
  datatype Trace = Trace(err: Option<RetryError>, calls: nat, waits: seq<int>)

  function Pow2(n: nat): (p: nat)
    ensures p >= 1
  {
    if n == 0 then 1 else 2 * Pow2(n - 1)
  }

  /** The exponential backoff after attempt `i`: 2^i seconds. */
  function Backoff(i: nat): int
  {
    Second * Pow2(i)
  }

  /** The wait after go-github's rate-limit error on attempt `i` at time `now`:
      the time until reset, or the backoff when reset is already past. */
  function ErrorWait(reset: int, now: int, i: nat): (d: int)
    ensures d >= 0
  {
    if reset - now < 0 then Backoff(i) else reset - now
  }

  function Max0(d: int): nat
  {
    if d < 0 then 0 else d
  }

  /** The wait after exhausted attempt `i` at time `now`: go-github's error
      waits until its reset (or backs off when that is past); an exhausted
      response waits until its reset, however far in the past. */
  function Wait(a: Attempt, now: int, i: nat): int
    requires Exhausted(a)
  {
    if a.RateLimited? then ErrorWait(a.reset, now, i) else HandleRateLimit(a.resp).err.value.reset - now
  }

  /** The loop stops at attempt `i`: the attempt did not exhaust the quota,
      or it was the last one allowed, or the wait after it was cancelled. */
  predicate StopsHere(a: Attempt, i: nat, maxRetries: int, cancelled: nat -> bool)
  {
    !Exhausted(a) || i == maxRetries || cancelled(i)
  }

  /** The terminal error for an attempt that exhausts the last retry. */
  function Terminal(a: Attempt): RetryError
    requires Exhausted(a)
  {
    if a.RateLimited? then RetriesExceeded(a.reset) else ResetRetriesExceeded(a.resp.value.reset)
  }

  /** What the loop returns when it stops at attempt `i`. */
  function Final(a: Attempt, i: nat, maxRetries: int, now: int): Trace
    requires Exhausted(a) ==> i <= maxRetries
  {
    if a.Failed? then Trace(Some(CallFailed(a.msg)), 1, [])
    else if !Exhausted(a) then Trace(None, 1, [])
    else if i == maxRetries then Trace(Some(Terminal(a)), 1, [])
    else Trace(Some(ContextDone), 1, [Wait(a, now, i)])
  }

  /** The loop from attempt `i` on at time `now`: the specification of
      withRateLimitRetry. */
  function Retry(i: nat, maxRetries: int, now: int, fn: nat -> Attempt, cancelled: nat -> bool): Trace
    decreases if i <= maxRetries then maxRetries - i + 1 else 0
  {
    if i > maxRetries then Trace(None, 0, [])
    else if StopsHere(fn(i), i, maxRetries, cancelled) then Final(fn(i), i, maxRetries, now)
    else
      var d := Wait(fn(i), now, i);
      var rest := Retry(i + 1, maxRetries, now + Max0(d), fn, cancelled);
      Trace(rest.err, rest.calls + 1, [d] + rest.waits)
  }

  /** The first `k` attempts, counted from zero, were absorbed: `t` continues
      a run with those waits. */
  function Absorbed(k: nat, waits: seq<int>, t: Trace): Trace
  {
    Trace(t.err, t.calls + k, waits + t.waits)
  }

  /** Absorbing one more attempt, whose wait was `d`. */
  lemma AbsorbedStep(k: nat, waits: seq<int>, d: int, t: Trace)
    ensures Absorbed(k, waits, Trace(t.err, t.calls + 1, [d] + t.waits)) == Absorbed(k + 1, waits + [d], t)
  {
    assert waits + ([d] + t.waits) == (waits + [d]) + t.waits;
  }

  /** The run is over at attempt `k`, which ends it with `last`. */
  lemma AbsorbedFinal(k: nat, waits: seq<int>, last: Trace)
    requires last.calls == 1
    ensures Absorbed(k, waits, last) == Trace(last.err, k + 1, waits + last.waits)
  {
  }

  /** Attempt `i` ends the loop with `Final`. */
  lemma RetryStops(i: nat, maxRetries: int, now: int, fn: nat -> Attempt, cancelled: nat -> bool)
    requires i <= maxRetries && StopsHere(fn(i), i, maxRetries, cancelled)
    ensures Retry(i, maxRetries, now, fn, cancelled) == Final(fn(i), i, maxRetries, now)
  {
  }

  /** Attempt `i` is absorbed by its wait and the loop goes on. */
  lemma RetryContinues(i: nat, maxRetries: int, now: int, fn: nat -> Attempt, cancelled: nat -> bool)
    requires i <= maxRetries && !StopsHere(fn(i), i, maxRetries, cancelled)
    ensures var d := Wait(fn(i), now, i);
            var rest := Retry(i + 1, maxRetries, now + Max0(d), fn, cancelled);
            Retry(i, maxRetries, now, fn, cancelled) == Trace(rest.err, rest.calls + 1, [d] + rest.waits)
  {
  }

  /** One absorbed attempt carries the loop invariant from `i` to `i + 1`. */
  lemma AbsorbNext(i: nat, maxRetries: int, start: int, now: int, fn: nat -> Attempt, cancelled: nat -> bool,
                   waits: seq<int>, d: int)
    requires i <= maxRetries && !StopsHere(fn(i), i, maxRetries, cancelled) && d == Wait(fn(i), now, i)
    requires Retry(0, maxRetries, start, fn, cancelled) == Absorbed(i, waits, Retry(i, maxRetries, now, fn, cancelled))
    ensures Retry(0, maxRetries, start, fn, cancelled) ==
              Absorbed(i + 1, waits + [d], Retry(i + 1, maxRetries, now + Max0(d), fn, cancelled))
  {
    RetryContinues(i, maxRetries, now, fn, cancelled);
    AbsorbedStep(i, waits, d, Retry(i + 1, maxRetries, now + Max0(d), fn, cancelled));
  }

  /** How one pass of the loop body ends: the function returns `err` after
      handing `waited` to `time.After`, or the loop sleeps `sleep` and goes on. */
  datatype Step = Done(err: Option<RetryError>, waited: seq<int>) | Again(sleep: int)

  /** One pass of withRateLimitRetry's loop body: call `fn`, then decide. */
  method TryOnce(i: nat, maxRetries: int, now: int, fn: nat -> Attempt, cancelled: nat -> bool) returns (step: Step)
    requires i <= maxRetries
    ensures step.Again? <==> !StopsHere(fn(i), i, maxRetries, cancelled)
    ensures step.Again? ==> step.sleep == Wait(fn(i), now, i)
    ensures step.Done? ==> Final(fn(i), i, maxRetries, now) == Trace(step.err, 1, step.waited)
  {
    var attempt := fn(i);
    if attempt.RateLimited? {
      if i == maxRetries {
        return Done(Some(RetriesExceeded(attempt.reset)), []);
      }
      var sleep := attempt.reset - now;
      if sleep < 0 {
        sleep := Backoff(i);
      }
      if cancelled(i) {
        return Done(Some(ContextDone), [sleep]);
      }
      return Again(sleep);
    }
    if attempt.Failed? {
      return Done(Some(CallFailed(attempt.msg)), []);
    }
    var check := HandleRateLimit(attempt.resp);
    if check.err.Some? {
      if i == maxRetries {
        return Done(Some(ResetRetriesExceeded(check.err.value.reset)), []);
      }
      var sleep := check.err.value.reset - now;
      if cancelled(i) {
        return Done(Some(ContextDone), [sleep]);
      }
      return Again(sleep);
    }
    return Done(None, []);
  }

  /** withRateLimitRetry(ctx, maxRetries, fn): the loop over attempts; a
      negative `maxRetries` runs no attempt and returns nil. */
  method WithRateLimitRetry(start: int, maxRetries: int, fn: nat -> Attempt, cancelled: nat -> bool)
    returns (err: Option<RetryError>, ghost calls: nat, ghost waits: seq<int>)
    ensures err == Retry(0, maxRetries, start, fn, cancelled).err
    ensures calls == Retry(0, maxRetries, start, fn, cancelled).calls
    ensures waits == Retry(0, maxRetries, start, fn, cancelled).waits
  {
    var now := start;
    var i: nat := 0;
    calls, waits := 0, [];
    while i <= maxRetries
      invariant i == 0 || i <= maxRetries
      invariant calls == i && |waits| == i
      invariant Retry(0, maxRetries, start, fn, cancelled) == Absorbed(i, waits, Retry(i, maxRetries, now, fn, cancelled))
      decreases maxRetries - i
    {
      var step := TryOnce(i, maxRetries, now, fn, cancelled);
      calls := calls + 1;
      match step
      case Done(e, waited) =>
        RetryStops(i, maxRetries, now, fn, cancelled);
        AbsorbedFinal(i, waits, Final(fn(i), i, maxRetries, now));
        return e, calls, waits + waited;
      case Again(sleep) =>
        AbsorbNext(i, maxRetries, start, now, fn, cancelled, waits, sleep);
        waits := waits + [sleep];
        now := now + Max0(sleep);
        i := i + 1;
    }
    err := None;
  }

  // ---------------------------------------------------------------------
  // Properties of the loop
  // ---------------------------------------------------------------------

  /** `fn` runs at most maxRetries+1 times, and at least once unless the
      budget is negative, in which case nothing runs and nil is returned. */
  lemma {:induction false} CallsBounded(i: nat, maxRetries: int, now: int, fn: nat -> Attempt, cancelled: nat -> bool)
    ensures var t := Retry(i, maxRetries, now, fn, cancelled);
            (i <= maxRetries ==> 1 <= t.calls <= maxRetries - i + 1)
            && (i > maxRetries ==> t == Trace(None, 0, []))
    decreases if i <= maxRetries then maxRetries - i + 1 else 0
  {
    if i <= maxRetries && !StopsHere(fn(i), i, maxRetries, cancelled) {
      CallsBounded(i + 1, maxRetries, now + Max0(Wait(fn(i), now, i)), fn, cancelled);
    }
  }

  /** Every attempt but the last exhausted the quota and its wait was not
      cancelled; one wait follows each of them, and the last attempt waits
      only when that wait was cancelled. */
  lemma {:induction false} OnlyExhaustionRetries(i: nat, maxRetries: int, now: int, fn: nat -> Attempt, cancelled: nat -> bool)
    requires i <= maxRetries
    ensures var t := Retry(i, maxRetries, now, fn, cancelled);
            t.calls >= 1
            && (forall j :: i <= j < i + t.calls - 1 ==> Exhausted(fn(j)) && !cancelled(j))
            && |t.waits| == (if t.err == Some(ContextDone) then t.calls else t.calls - 1)
            && (t.err == Some(ContextDone) ==> Exhausted(fn(i + t.calls - 1)) && cancelled(i + t.calls - 1))
    decreases maxRetries - i
  {
    if !StopsHere(fn(i), i, maxRetries, cancelled) {
      OnlyExhaustionRetries(i + 1, maxRetries, now + Max0(Wait(fn(i), now, i)), fn, cancelled);
    }
  }

  /** A clean first attempt returns nil at once. */
  lemma CleanFirstAttempt(maxRetries: int, now: int, fn: nat -> Attempt, cancelled: nat -> bool)
    requires 0 <= maxRetries && fn(0).Responded? && HandleRateLimit(fn(0).resp).err.None?
    ensures Retry(0, maxRetries, now, fn, cancelled) == Trace(None, 1, [])
  {
  }

  /** Any error other than go-github's rate-limit error is returned after that
      one call, with no wait. */
  lemma OtherErrorNotRetried(i: nat, maxRetries: int, now: int, fn: nat -> Attempt, cancelled: nat -> bool)
    requires i <= maxRetries && fn(i).Failed?
    ensures Retry(i, maxRetries, now, fn, cancelled) == Trace(Some(CallFailed(fn(i).msg)), 1, [])
  {
  }

  /** If the first `k` attempts exhaust the quota, no wait is cancelled and
      attempt `k` is clean, the call succeeds after exactly `k` waits. */
  lemma {:induction false} SucceedsAfterWaits(i: nat, k: nat, maxRetries: int, now: int, fn: nat -> Attempt, cancelled: nat -> bool)
    requires i <= k <= maxRetries
    requires forall j :: i <= j < k ==> Exhausted(fn(j)) && !cancelled(j)
    requires fn(k).Responded? && HandleRateLimit(fn(k).resp).err.None?
    ensures var t := Retry(i, maxRetries, now, fn, cancelled);
            t.err == None && t.calls == k - i + 1 && |t.waits| == k - i
    decreases k - i
  {
    if i < k {
      SucceedsAfterWaits(i + 1, k, maxRetries, now + Max0(Wait(fn(i), now, i)), fn, cancelled);
    }
  }

  /** When every attempt exhausts the quota and no wait is cancelled, the
      budget runs out: maxRetries+1 calls, maxRetries waits, and the terminal
      "max retries exceeded" error for the last attempt's kind. */
  lemma {:induction false} ExhaustionIsTerminal(i: nat, maxRetries: int, now: int, fn: nat -> Attempt, cancelled: nat -> bool)
    requires i <= maxRetries
    requires forall j :: i <= j <= maxRetries ==> Exhausted(fn(j))
    requires forall j :: i <= j < maxRetries ==> !cancelled(j)
    ensures var t := Retry(i, maxRetries, now, fn, cancelled);
            t.calls == maxRetries - i + 1 && |t.waits| == maxRetries - i
            && t.err == Some(Terminal(fn(maxRetries)))
    decreases maxRetries - i
  {
    if i < maxRetries {
      ExhaustionIsTerminal(i + 1, maxRetries, now + Max0(Wait(fn(i), now, i)), fn, cancelled);
    }
  }

  /** Backoff: while go-github keeps reporting a reset instant already past,
      the j-th wait is 2^(i+j) seconds. */
  lemma {:induction false} PastResetBacksOff(i: nat, maxRetries: int, now: int, reset: int, fn: nat -> Attempt, cancelled: nat -> bool)
    requires reset < now
    requires forall j :: i <= j ==> fn(j) == RateLimited(reset)
    ensures forall j :: 0 <= j < |Retry(i, maxRetries, now, fn, cancelled).waits| ==>
                        Retry(i, maxRetries, now, fn, cancelled).waits[j] == Backoff(i + j)
    decreases if i <= maxRetries then maxRetries - i + 1 else 0
  {
    if i <= maxRetries && !StopsHere(fn(i), i, maxRetries, cancelled) {
      var d := ErrorWait(reset, now, i);
      assert d == Wait(fn(i), now, i) == Max0(d);
      PastResetBacksOff(i + 1, maxRetries, now + d, reset, fn, cancelled);
      var rest := Retry(i + 1, maxRetries, now + d, fn, cancelled);
      var t := Retry(i, maxRetries, now, fn, cancelled);
      assert t.waits == [d] + rest.waits;
      forall j | 0 <= j < |t.waits|
        ensures t.waits[j] == Backoff(i + j)
      {
        if j == 0 {
          assert t.waits[0] == d == Backoff(i);
        } else {
          assert t.waits[j] == rest.waits[j - 1] == Backoff(i + 1 + (j - 1));
        }
      }
    }
  }

  /** A future reset is waited for exactly: the first wait is the time left. */
  lemma FutureResetWaitsUntilReset(maxRetries: int, now: int, fn: nat -> Attempt, cancelled: nat -> bool)
    requires 0 < maxRetries && Exhausted(fn(0))
    requires fn(0).RateLimited? ==> fn(0).reset >= now
    ensures var t := Retry(0, maxRetries, now, fn, cancelled);
            |t.waits| >= 1 && t.waits[0] == (if fn(0).RateLimited? then fn(0).reset else fn(0).resp.value.reset) - now
  {
  }

  /** A cancelled wait ends the loop with the context's error, not a
      rate-limit error. */
  lemma CancelledWaitStops(i: nat, maxRetries: int, now: int, fn: nat -> Attempt, cancelled: nat -> bool)
    requires i < maxRetries && Exhausted(fn(i)) && cancelled(i)
    ensures Retry(i, maxRetries, now, fn, cancelled).err == Some(ContextDone)
    ensures Retry(i, maxRetries, now, fn, cancelled).calls == 1
  {
  }
}
