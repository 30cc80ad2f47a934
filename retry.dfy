/** The retrying request engine (`request_with_retry` in
    scraping/scraping_price.py). The network is replaced by the sequence of
    outcomes that successive requests meet, and `time.sleep` by a trace of
    the waits; `random.uniform(0.25, 0.75)` is one jitter factor per attempt. */
module Retry {
  import opened Common
  import opened Backoff

  /** What the server sent back for one request. */
  datatype Response = Response(status: int, retryAfter: Option<string>, text: string)

  /** What one request met: a response, or a transport-level exception. */
  datatype Outcome = Got(response: Response) | Fault(cause: string)

  /** The exception an attempt raised inside the `try` block. */
  datatype AttemptError =
    | TransportError(cause: string)        // raised by session.request
    | Unauthorized(snippet: string)        // the RuntimeError raised for a 401
    | HttpError(status: int)               // raised by raise_for_status
    | RetryAfterNotNumber(value: string)   // ValueError from float(retry_after)
    | SleepOverflow(value: string)         // OverflowError from time.sleep(float(retry_after))

  /** How one attempt ends. */
  datatype Step =
    | Return(response: Response)                   // `return r`
    | RateLimited(wait: real)                      // 429: sleep, `continue`
    | Failed(error: AttemptError, wait: real)      // `except`: record, sleep

  datatype RetryResult = Done(response: Response) | Exhausted(lastError: Option<AttemptError>)

  /** The observable run: its result, every sleep in order, and how many requests went out. */
  datatype Trace = Trace(result: RetryResult, waits: seq<real>, requests: nat)

  /** Characters for which Python's `str.isdigit()` holds among the
      ISO-8859-1 characters that a decoded header value is made of. */
  predicate IsDigitChar(c: char) {
    IsAsciiDigit(c) || c == '²' || c == '³' || c == '¹'
  }

  /** `s.isdigit()`: non-empty and every character a digit. */
  predicate IsDigitString(s: string) {
    s != [] && forall i :: 0 <= i < |s| ==> IsDigitChar(s[i])
  }

  /** Strings that `float()` reads as a whole number of seconds. */
  predicate IsDecimalString(s: string) {
    s != [] && forall i :: 0 <= i < |s| ==> IsAsciiDigit(s[i])
  }

  /** The fewest whole seconds that `time.sleep` refuses: it counts in signed
      64-bit nanoseconds, and 2^63 ns is 9223372036.854775808 s. A longer
      wait, or one that `float()` reads as infinity, raises OverflowError. */
  const SleepLimitSeconds: nat := 9223372037

  /** A Retry-After of plain digits that `time.sleep` can honour. */
  predicate SleepableRetryAfter(s: string) {
    IsDecimalString(s) && DecimalValue(s) < SleepLimitSeconds
  }

  /** `(r.text or "")[:n].replace("\n", " ")`: 300 characters for a 401, 500 for a
      body that is not JSON. */
  function Snippet(text: string, n: nat): (s: string)
    ensures |s| == Min(n, |text|)
    ensures forall i :: 0 <= i < |s| ==> s[i] != '\n'
    ensures forall i :: 0 <= i < |s| && text[i] != '\n' ==> s[i] == text[i]
  {
    seq(Min(n, |text|), i requires 0 <= i < Min(n, |text|) =>
      if text[i] == '\n' then ' ' else text[i])
  }

  /** `raise_for_status()` raises for client and server error statuses. */
  predicate IsErrorStatus(status: int) {
    400 <= status < 600
  }

  predicate JitterOk(u: real) {
    0.25 <= u <= 0.75
  }

  /** The body of the `for attempt` loop, for one attempt, jitter factor `u`. */
  function Classify(o: Outcome, attempt: int, u: real): (s: Step)
    requires JitterOk(u)
    // a response is handed back exactly when it is neither 429, 401 nor an error status
    ensures s.Return? <==> o.Got? && o.response.status !in {401, 429} && !IsErrorStatus(o.response.status)
    ensures s.Return? ==> s.response == o.response
    // only a 429 is rate limited; it waits the header's seconds when they are plain digits
    // that `time.sleep` accepts
    ensures s.RateLimited? ==> o.Got? && o.response.status == 429
    ensures o.Got? && o.response.status == 429 && o.response.retryAfter.Some? &&
            SleepableRetryAfter(o.response.retryAfter.value)
            ==> s == RateLimited(DecimalValue(o.response.retryAfter.value) as real)
    // a plain-digit wait too long for `time.sleep` raises, and a backoff follows instead
    ensures o.Got? && o.response.status == 429 && o.response.retryAfter.Some? &&
            IsDecimalString(o.response.retryAfter.value) && !SleepableRetryAfter(o.response.retryAfter.value)
            ==> s == Failed(SleepOverflow(o.response.retryAfter.value), ComputeBackoff(attempt, u))
    ensures o.Got? && o.response.status == 429 &&
            (o.response.retryAfter.None? || !IsDigitString(o.response.retryAfter.value))
            ==> s == RateLimited(ComputeBackoff(attempt, u))
    // every exception, a 401 included, is followed by a computed backoff
    ensures s.Failed? ==> s.wait == ComputeBackoff(attempt, u)
    ensures o.Got? && o.response.status == 401 ==> s == Failed(Unauthorized(Snippet(o.response.text, 300)), ComputeBackoff(attempt, u))
    ensures o.Fault? ==> s == Failed(TransportError(o.cause), ComputeBackoff(attempt, u))
    ensures o.Got? && IsErrorStatus(o.response.status) && o.response.status !in {401, 429}
            ==> s == Failed(HttpError(o.response.status), ComputeBackoff(attempt, u))
    // a header that `isdigit()` accepts but `float()` cannot read raises
    ensures o.Got? && o.response.status == 429 && o.response.retryAfter.Some? &&
            IsDigitString(o.response.retryAfter.value) && !IsDecimalString(o.response.retryAfter.value)
            ==> s == Failed(RetryAfterNotNumber(o.response.retryAfter.value), ComputeBackoff(attempt, u))
  {
    match o
    case Fault(cause) => Failed(TransportError(cause), ComputeBackoff(attempt, u))
    case Got(r) =>
      if r.status == 429 then
        if r.retryAfter.Some? && IsDigitString(r.retryAfter.value) then
          if SleepableRetryAfter(r.retryAfter.value) then
            RateLimited(DecimalValue(r.retryAfter.value) as real)
          else if IsDecimalString(r.retryAfter.value) then
            Failed(SleepOverflow(r.retryAfter.value), ComputeBackoff(attempt, u))
          else
            Failed(RetryAfterNotNumber(r.retryAfter.value), ComputeBackoff(attempt, u))
        else
          RateLimited(ComputeBackoff(attempt, u))
      else if r.status == 401 then
        Failed(Unauthorized(Snippet(r.text, 300)), ComputeBackoff(attempt, u))
      else if IsErrorStatus(r.status) then
        Failed(HttpError(r.status), ComputeBackoff(attempt, u))
      else
        Return(r)
  }

  predicate WellSupplied(outcomes: seq<Outcome>, jitters: seq<real>) {
    |outcomes| >= MaxRetries && |jitters| >= MaxRetries &&
    forall i :: 0 <= i < |jitters| ==> JitterOk(jitters[i])
  }

  /** The step each of the MAX_RETRIES attempts would take; entry k is attempt k + 1. */
  function Steps(outcomes: seq<Outcome>, jitters: seq<real>): (steps: seq<Step>)
    requires WellSupplied(outcomes, jitters)
    ensures |steps| == MaxRetries
    ensures forall k :: 0 <= k < MaxRetries ==> steps[k] == Classify(outcomes[k], k + 1, jitters[k])
  {
    seq(MaxRetries, k requires 0 <= k < MaxRetries => Classify(outcomes[k], k + 1, jitters[k]))
  }

  /** `last_err` after a step: only an exception replaces it. */
  function NextError(lastErr: Option<AttemptError>, s: Step): Option<AttemptError> {
    if s.Failed? then Some(s.error) else lastErr
  }

  /** The attempts that remain, given `last_err` so far. */
  function Replay(steps: seq<Step>, lastErr: Option<AttemptError>): Trace
    decreases |steps|
  {
    if steps == [] then Trace(Exhausted(lastErr), [], 0)
    else if steps[0].Return? then Trace(Done(steps[0].response), [], 1)
    else
      var t := Replay(steps[1..], NextError(lastErr, steps[0]));
      Trace(t.result, [steps[0].wait] + t.waits, t.requests + 1)
  }

  /** A whole call of `request_with_retry`. */
  function Run(outcomes: seq<Outcome>, jitters: seq<real>): Trace
    requires WellSupplied(outcomes, jitters)
  {
    Replay(Steps(outcomes, jitters), None)
  }

  function Prepend(waits: seq<real>, t: Trace): Trace {
    Trace(t.result, waits + t.waits, |waits| + t.requests)
  }

  /** One attempt that does not return moves the run on by one wait. */
  lemma Advance(steps: seq<Step>, lastErr: Option<AttemptError>, waits: seq<real>)
    requires steps != [] && !steps[0].Return?
    ensures Prepend(waits, Replay(steps, lastErr)) ==
            Prepend(waits + [steps[0].wait], Replay(steps[1..], NextError(lastErr, steps[0])))
  {
    var t := Replay(steps[1..], NextError(lastErr, steps[0]));
    assert waits + [steps[0].wait] + t.waits == waits + ([steps[0].wait] + t.waits);
  }

  /** The engine as the source runs it: a bounded loop that sleeps after every
      attempt that did not return. */
  method RequestWithRetry(outcomes: seq<Outcome>, jitters: seq<real>)
    returns (result: RetryResult, waits: seq<real>, requests: nat)
    requires WellSupplied(outcomes, jitters)
    ensures Trace(result, waits, requests) == Run(outcomes, jitters)
  {
    ghost var steps := Steps(outcomes, jitters);
    var lastErr: Option<AttemptError> := None;
    waits := [];
    var attempt := 1;
    while attempt <= MaxRetries
      invariant 1 <= attempt <= MaxRetries + 1
      invariant |waits| == attempt - 1
      invariant Prepend(waits, Replay(steps[attempt - 1..], lastErr)) == Run(outcomes, jitters)
      decreases MaxRetries + 1 - attempt
    {
      var step := Classify(outcomes[attempt - 1], attempt, jitters[attempt - 1]);
      assert steps[attempt - 1..][0] == step;
      if step.Return? {
        result, requests := Done(step.response), attempt;
        return;
      }
      Advance(steps[attempt - 1..], lastErr, waits);
      assert steps[attempt - 1..][1..] == steps[attempt..];
      lastErr := NextError(lastErr, step);
      waits := waits + [step.wait];
      attempt := attempt + 1;
    }
    assert steps[MaxRetries..] == [];
    result, requests := Exhausted(lastErr), MaxRetries;
  }

  // ---------------------------------------------------------------------------
  // Properties of a replay, whatever the steps

  /** At most one request per step; one wait after every step that did not
      return, the last one included. */
  lemma {:induction false} ReplayShape(steps: seq<Step>, lastErr: Option<AttemptError>)
    ensures var t := Replay(steps, lastErr);
      && t.requests <= |steps|
      && (t.result.Done? ==> 1 <= t.requests && |t.waits| == t.requests - 1)
      && (t.result.Exhausted? ==> t.requests == |t.waits| == |steps|)
    decreases |steps|
  {
    if steps != [] && !steps[0].Return? {
      ReplayShape(steps[1..], NextError(lastErr, steps[0]));
    }
  }

  /** Wait i is the wait of step i, a response comes from the first step that
      returns, and exhaustion means that no step returned. */
  lemma {:induction false} ReplaySteps(steps: seq<Step>, lastErr: Option<AttemptError>)
    ensures var t := Replay(steps, lastErr);
      && |t.waits| <= |steps|
      && (forall i :: 0 <= i < |t.waits| ==> !steps[i].Return? && t.waits[i] == steps[i].wait)
      && (t.result.Done? ==> |t.waits| < |steps| && steps[|t.waits|] == Return(t.result.response))
      && (t.result.Exhausted? ==> |t.waits| == |steps|)
    decreases |steps|
  {
    if steps != [] && !steps[0].Return? {
      ReplaySteps(steps[1..], NextError(lastErr, steps[0]));
    }
  }

  /** When every step raises, all of them are made and the last one's error is kept. */
  lemma {:induction false} ReplayAllFailed(steps: seq<Step>, lastErr: Option<AttemptError>)
    requires |steps| > 0
    requires forall k :: 0 <= k < |steps| ==> steps[k].Failed?
    ensures Replay(steps, lastErr).result == Exhausted(Some(steps[|steps| - 1].error))
    ensures Replay(steps, lastErr).requests == |steps|
    decreases |steps|
  {
    var rest := steps[1..];
    if |rest| > 0 {
      assert forall k :: 0 <= k < |rest| ==> rest[k] == steps[k + 1];
      ReplayAllFailed(rest, NextError(lastErr, steps[0]));
      assert rest[|rest| - 1] == steps[|steps| - 1];
    }
  }

  lemma {:induction false} ReplayLastError(steps: seq<Step>, lastErr: Option<AttemptError>)
    requires Replay(steps, lastErr).result.Exhausted?
    ensures var e := Replay(steps, lastErr).result.lastError;
      || (e == lastErr && forall k :: 0 <= k < |steps| ==> steps[k].RateLimited?)
      || (exists k :: 0 <= k < |steps| && steps[k].Failed? && e == Some(steps[k].error) &&
            forall m :: k < m < |steps| ==> steps[m].RateLimited?)
    decreases |steps|
  {
    if steps != [] {
      var rest := steps[1..];
      ReplayLastError(rest, NextError(lastErr, steps[0]));
      var e := Replay(steps, lastErr).result.lastError;
      if exists k :: 0 <= k < |rest| && rest[k].Failed? && e == Some(rest[k].error) &&
           forall m :: k < m < |rest| ==> rest[m].RateLimited? {
        var k :| 0 <= k < |rest| && rest[k].Failed? && e == Some(rest[k].error) &&
           forall m :: k < m < |rest| ==> rest[m].RateLimited?;
        assert steps[k + 1] == rest[k];
        forall m | k + 1 < m < |steps| ensures steps[m].RateLimited? {
          assert steps[m] == rest[m - 1];
        }
      } else if steps[0].Failed? {
        assert e == Some(steps[0].error);
        forall m | 0 < m < |steps| ensures steps[m].RateLimited? {
          assert steps[m] == rest[m - 1];
        }
      } else {
        forall m | 0 <= m < |steps| ensures steps[m].RateLimited? {
          if m > 0 { assert steps[m] == rest[m - 1]; }
        }
      }
    }
  }

  // ---------------------------------------------------------------------------
  // Properties of a call of the engine

  /** At most MAX_RETRIES requests; every failed attempt, the last one
      included, is followed by exactly one wait. */
  lemma RunShape(outcomes: seq<Outcome>, jitters: seq<real>)
    requires WellSupplied(outcomes, jitters)
    ensures var t := Run(outcomes, jitters);
      && 1 <= t.requests <= MaxRetries
      && (t.result.Done? ==> |t.waits| == t.requests - 1)
      && (t.result.Exhausted? ==> t.requests == MaxRetries && |t.waits| == MaxRetries)
  {
    ReplayShape(Steps(outcomes, jitters), None);
  }

  /** Wait i is what attempt i + 1 slept; the response is that of the first
      attempt that returns one; exhaustion means no attempt did. */
  lemma RunSteps(outcomes: seq<Outcome>, jitters: seq<real>)
    requires WellSupplied(outcomes, jitters)
    ensures var t := Run(outcomes, jitters);
      var steps := Steps(outcomes, jitters);
      && |t.waits| <= MaxRetries
      && (forall i :: 0 <= i < |t.waits| ==> !steps[i].Return? && t.waits[i] == steps[i].wait)
      && (t.result.Done? ==> |t.waits| < MaxRetries && t.requests == |t.waits| + 1 &&
                             steps[|t.waits|] == Return(t.result.response))
      && (t.result.Exhausted? ==> forall k :: 0 <= k < MaxRetries ==> !steps[k].Return?)
  {
    ReplaySteps(Steps(outcomes, jitters), None);
    ReplayShape(Steps(outcomes, jitters), None);
  }

  /** Exhaustion carries `last_err`: None exactly when every attempt was a 429,
      otherwise the exception of the last attempt that raised one. */
  lemma RunLastError(outcomes: seq<Outcome>, jitters: seq<real>)
    requires WellSupplied(outcomes, jitters)
    requires Run(outcomes, jitters).result.Exhausted?
    ensures var e := Run(outcomes, jitters).result.lastError;
      var steps := Steps(outcomes, jitters);
      && (e.None? <==> forall k :: 0 <= k < MaxRetries ==> steps[k].RateLimited?)
      && (e.Some? ==> exists k :: 0 <= k < MaxRetries && steps[k].Failed? && steps[k].error == e.value &&
                        forall m :: k < m < MaxRetries ==> steps[m].RateLimited?)
  {
    ReplayLastError(Steps(outcomes, jitters), None);
  }

  /** Every computed wait lies between that attempt's base delay and the ceiling;
      only an honoured Retry-After can fall outside. */
  lemma RunWaitBounds(outcomes: seq<Outcome>, jitters: seq<real>)
    requires WellSupplied(outcomes, jitters)
    ensures var t := Run(outcomes, jitters);
      |t.waits| <= MaxRetries &&
      forall i :: 0 <= i < |t.waits| ==>
        || BaseDelay(i + 1) <= t.waits[i] <= MaxBackoffSeconds
        || (outcomes[i].Got? && outcomes[i].response.status == 429 &&
            outcomes[i].response.retryAfter.Some? &&
            SleepableRetryAfter(outcomes[i].response.retryAfter.value) &&
            t.waits[i] == DecimalValue(outcomes[i].response.retryAfter.value) as real)
  {
    RunSteps(outcomes, jitters);
  }

  // ---------------------------------------------------------------------------
  // Scenarios

  /** A response that is neither 429 nor an error status is returned at once. */
  lemma FirstResponseReturned(outcomes: seq<Outcome>, jitters: seq<real>)
    requires WellSupplied(outcomes, jitters)
    requires outcomes[0].Got? && outcomes[0].response.status < 400 && outcomes[0].response.status != 429
    ensures Run(outcomes, jitters) == Trace(Done(outcomes[0].response), [], 1)
  {
    assert Steps(outcomes, jitters)[0] == Return(outcomes[0].response);
  }

  /** `[429, 429, 200]` without Retry-After: exactly two waits, then the 200. */
  lemma TwoRateLimitsThenSuccess(outcomes: seq<Outcome>, jitters: seq<real>)
    requires WellSupplied(outcomes, jitters)
    requires outcomes[0].Got? && outcomes[0].response.status == 429 && outcomes[0].response.retryAfter.None?
    requires outcomes[1].Got? && outcomes[1].response.status == 429 && outcomes[1].response.retryAfter.None?
    requires outcomes[2].Got? && outcomes[2].response.status == 200
    ensures Run(outcomes, jitters) ==
            Trace(Done(outcomes[2].response), [ComputeBackoff(1, jitters[0]), ComputeBackoff(2, jitters[1])], 3)
  {
    var steps := Steps(outcomes, jitters);
    var w1, w2 := ComputeBackoff(1, jitters[0]), ComputeBackoff(2, jitters[1]);
    assert steps[0] == RateLimited(w1);
    assert steps[1] == RateLimited(w2);
    assert steps[2] == Return(outcomes[2].response);
    assert steps[1..][1..] == steps[2..];
    assert Replay(steps[2..], None) == Trace(Done(outcomes[2].response), [], 1);
    assert Replay(steps[1..], None) == Trace(Done(outcomes[2].response), [w2], 2);
  }

  /** `Retry-After: 5` on a 429 is a wait of exactly five seconds, then a retry. */
  lemma RetryAfterFiveSeconds(outcomes: seq<Outcome>, jitters: seq<real>)
    requires WellSupplied(outcomes, jitters)
    requires outcomes[0].Got? && outcomes[0].response.status == 429 && outcomes[0].response.retryAfter == Some("5")
    ensures var t := Run(outcomes, jitters);
      t.requests >= 2 && |t.waits| >= 1 && t.waits[0] == 5.0
  {
    assert DecimalValue("5") == 5 by {
      assert "5"[..0] == "";
    }
    var steps := Steps(outcomes, jitters);
    assert steps[0] == RateLimited(5.0);
    ReplayShape(steps[1..], None);
  }

  /** A 401 is not final: the RuntimeError raised for it is caught by the same
      attempt's handler, so a backoff follows and the request is retried. */
  lemma UnauthorizedIsRetried(outcomes: seq<Outcome>, jitters: seq<real>)
    requires WellSupplied(outcomes, jitters)
    requires outcomes[0].Got? && outcomes[0].response.status == 401
    ensures var t := Run(outcomes, jitters);
      t.requests >= 2 && |t.waits| >= 1 && t.waits[0] == ComputeBackoff(1, jitters[0])
  {
    var steps := Steps(outcomes, jitters);
    assert steps[0].Failed?;
    ReplayShape(steps[1..], NextError(None, steps[0]));
  }

  /** When every request meets a 401, all six are made and the run ends
      exhausted, carrying the last 401's error. */
  lemma AlwaysUnauthorized(outcomes: seq<Outcome>, jitters: seq<real>)
    requires WellSupplied(outcomes, jitters)
    requires forall i :: 0 <= i < MaxRetries ==> outcomes[i].Got? && outcomes[i].response.status == 401
    ensures Run(outcomes, jitters).requests == MaxRetries
    ensures Run(outcomes, jitters).result == Exhausted(Some(Unauthorized(Snippet(outcomes[MaxRetries - 1].response.text, 300))))
  {
    var steps := Steps(outcomes, jitters);
    assert forall k :: 0 <= k < MaxRetries ==> steps[k].Failed?;
    ReplayAllFailed(steps, None);
  }

  /** A 429 whose Retry-After `time.sleep` can honour, or that `isdigit()` rejects. */
  predicate PlainRateLimit(o: Outcome) {
    o.Got? && o.response.status == 429 &&
    (o.response.retryAfter.None? || !IsDigitString(o.response.retryAfter.value) ||
     SleepableRetryAfter(o.response.retryAfter.value))
  }

  /** Six plain 429s in a row exhaust the engine with no recorded error. */
  lemma AllRateLimited(outcomes: seq<Outcome>, jitters: seq<real>)
    requires WellSupplied(outcomes, jitters)
    requires forall i :: 0 <= i < MaxRetries ==> PlainRateLimit(outcomes[i])
    ensures Run(outcomes, jitters).result == Exhausted(None)
    ensures |Run(outcomes, jitters).waits| == MaxRetries
  {
    var steps := Steps(outcomes, jitters);
    assert forall k :: 0 <= k < MaxRetries ==> steps[k].RateLimited? by {
      forall k | 0 <= k < MaxRetries ensures steps[k].RateLimited? {
        assert PlainRateLimit(outcomes[k]);
      }
    }
    RunShape(outcomes, jitters);
    RunSteps(outcomes, jitters);
    assert Run(outcomes, jitters).result.Exhausted?;
    RunLastError(outcomes, jitters);
  }

  /** Six 429s that all ask for a wait too long for `time.sleep` exhaust the
      engine with the last attempt's OverflowError recorded, after six backoffs. */
  lemma AllRetryAftersOverflow(outcomes: seq<Outcome>, jitters: seq<real>)
    requires WellSupplied(outcomes, jitters)
    requires forall i :: 0 <= i < MaxRetries ==>
      outcomes[i].Got? && outcomes[i].response.status == 429 && outcomes[i].response.retryAfter.Some? &&
      IsDecimalString(outcomes[i].response.retryAfter.value) &&
      DecimalValue(outcomes[i].response.retryAfter.value) >= SleepLimitSeconds
    ensures Run(outcomes, jitters).requests == MaxRetries
    ensures Run(outcomes, jitters).result ==
            Exhausted(Some(SleepOverflow(outcomes[MaxRetries - 1].response.retryAfter.value)))
    ensures |Run(outcomes, jitters).waits| == MaxRetries
    ensures forall i :: 0 <= i < MaxRetries ==> Run(outcomes, jitters).waits[i] == ComputeBackoff(i + 1, jitters[i])
  {
    var steps := Steps(outcomes, jitters);
    assert forall k :: 0 <= k < MaxRetries ==> steps[k].Failed?;
    ReplayAllFailed(steps, None);
    RunShape(outcomes, jitters);
    RunSteps(outcomes, jitters);
  }
}
