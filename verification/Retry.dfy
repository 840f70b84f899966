/** The retry loop with exponential backoff, and retries behind the breaker. */
module Retry {
  import opened Powers
  import opened Resilience

  /** How one invocation ends. */
  datatype Attempt = Succeeded | Failed(retryable: bool)

  /** The call returned, or the report of a failed run was thrown, or building that
      report failed because there was no last error to read. */
  datatype RetryOutcome = Returned | Exhausted(attempts: nat, totalDelayMs: nat) | NoLastError

  /** The invocation, counted from 0, after which the loop stops. */
  function StopFrom(call: nat -> Attempt, maxRetries: nat, k: nat): (stop: nat)
    requires k <= maxRetries
    ensures k <= stop <= maxRetries
    ensures forall i :: k <= i < stop ==> call(i) == Failed(true)
    ensures stop < maxRetries ==> call(stop) != Failed(true)
    decreases maxRetries - k
  {
    if k < maxRetries && call(k) == Failed(true) then StopFrom(call, maxRetries, k + 1) else k
  }

  /** `baseDelayMs * Math.pow(2, attempt)` */
  function Delay(base: nat, attempt: nat): nat {
    base * Pow2(attempt)
  }

  /** The waits between the first k + 1 invocations. */
  function Backoff(base: nat, k: nat): (delays: seq<nat>)
    ensures |delays| == k
  {
    if k == 0 then [] else Backoff(base, k - 1) + [Delay(base, k - 1)]
  }

  function Sum(s: seq<nat>): nat {
    if s == [] then 0 else Sum(s[..|s| - 1]) + s[|s| - 1]
  }

  lemma BackoffGrows(base: nat, k: nat)
    ensures Backoff(base, k + 1) == Backoff(base, k) + [Delay(base, k)]
    ensures Sum(Backoff(base, k + 1)) == Sum(Backoff(base, k)) + Delay(base, k)
  {
    assert Backoff(base, k + 1)[..k] == Backoff(base, k);
  }

  lemma Doubling(base: nat, p: nat)
    ensures base * (2 * p - 1) == base * (p - 1) + base * p
  {
  }

  /** The waits add up to base * (2^k - 1). */
  lemma {:induction false} BackoffSum(base: nat, k: nat)
    ensures Sum(Backoff(base, k)) == base * (Pow2(k) - 1)
  {
    if k == 0 {
    } else {
      BackoffSum(base, k - 1);
      BackoffGrows(base, k - 1);
      Doubling(base, Pow2(k - 1));
    }
  }

  /** The loop's result after it stopped at invocation k. */
  function OutcomeAt(call: nat -> Attempt, maxRetries: nat, base: nat, k: nat): RetryOutcome {
    if call(k) == Succeeded then Returned else Exhausted(maxRetries + 1, Sum(Backoff(base, k)))
  }

  /** What a whole run of the loop comes to, with its invocations and waits; with a
      negative retry count the loop makes no invocation. */
  datatype RetryRun = RetryRun(outcome: RetryOutcome, calls: nat, delays: seq<nat>)

  function RunRetries(call: nat -> Attempt, maxRetries: int, base: nat): RetryRun {
    if maxRetries < 0 then RetryRun(NoLastError, 0, [])
    else
      var k := StopFrom(call, maxRetries, 0);
      RetryRun(OutcomeAt(call, maxRetries, base, k), k + 1, Backoff(base, k))
  }

  class RetryHandler {
    const maxRetries: int
    const baseDelayMs: nat

    constructor (maxRetries: int, baseDelayMs: nat)
      ensures this.maxRetries == maxRetries && this.baseDelayMs == baseDelayMs
    {
      this.maxRetries := maxRetries;
      this.baseDelayMs := baseDelayMs;
    }

    method Execute(call: nat -> Attempt) returns (outcome: RetryOutcome, calls: nat, delays: seq<nat>)
      ensures RetryRun(outcome, calls, delays) == RunRetries(call, maxRetries, baseDelayMs)
    {
      var totalDelayMs: nat := 0;
      var hasLastError := false;
      calls, delays := 0, [];
      var attempt: nat := 0;
      while attempt <= maxRetries
        invariant maxRetries >= 0 ==> attempt <= maxRetries
        invariant maxRetries >= 0 ==> StopFrom(call, maxRetries, 0) == StopFrom(call, maxRetries, attempt)
        invariant maxRetries < 0 ==> attempt == 0
        invariant hasLastError <==> attempt > 0
        invariant calls == attempt && delays == Backoff(baseDelayMs, attempt)
        invariant totalDelayMs == Sum(Backoff(baseDelayMs, attempt))
        decreases maxRetries - attempt
      {
        var result := call(attempt);
        calls := calls + 1;
        if result == Succeeded {
          return Returned, calls, delays;
        }
        hasLastError := true;
        if attempt < maxRetries && result.retryable {
          var delayMs := Delay(baseDelayMs, attempt);
          BackoffGrows(baseDelayMs, attempt);
          totalDelayMs := totalDelayMs + delayMs;
          delays := delays + [delayMs];
        } else {
          break;
        }
        attempt := attempt + 1;
      }
      if !hasLastError {
        return NoLastError, calls, delays;
      }
      outcome := Exhausted(maxRetries + 1, totalDelayMs);
    }
  }

  /** With retries allowed a run fails iff no invocation that it gets to succeeds:
      the first that is not a retryable failure is no success, and if there is none
      among the retries, the last one fails too. */
  lemma FailsIff(call: nat -> Attempt, maxRetries: nat, base: nat)
    ensures !RunRetries(call, maxRetries, base).outcome.Returned?
       <==> exists k: nat :: k <= maxRetries && call(k) != Succeeded
                          && (forall i: nat :: i < k ==> call(i) == Failed(true))
                          && (k == maxRetries || call(k) == Failed(false))
  {
    var k := StopFrom(call, maxRetries, 0);
    assert call(k) != Succeeded && k < maxRetries ==> call(k) == Failed(false);
  }

  /** Exactly a negative retry count leaves a failed run without a report; a report
      says that the run slept base * (2^retries - 1) in total. The attempts it
      names are the invocations made iff every invocation before the last possible
      one failed with a retryable error. */
  lemma ExhaustedReport(call: nat -> Attempt, maxRetries: int, base: nat)
    ensures var r := RunRetries(call, maxRetries, base);
      && (r.outcome.NoLastError? <==> maxRetries < 0)
      && (r.outcome.NoLastError? ==> r.calls == 0)
      && (r.outcome.Exhausted? ==>
            && r.outcome.totalDelayMs == base * (Pow2(|r.delays|) - 1) && r.calls == |r.delays| + 1
            && (r.outcome.attempts == r.calls <==> forall i: nat :: i < maxRetries ==> call(i) == Failed(true)))
  {
    if maxRetries >= 0 {
      BackoffSum(base, StopFrom(call, maxRetries, 0));
    }
  }

  /** An error that is not retryable: one invocation, four attempts reported. */
  lemma EarlyStopOverReports(base: nat)
    ensures RunRetries(i => Failed(false), 3, base).calls == 1
    ensures RunRetries(i => Failed(false), 3, base).outcome == Exhausted(4, 0)
  {
    assert Backoff(base, 0) == [];
  }

  // ----- Retries behind the breaker -----

  datatype WrapperOutcome = CircuitOpen | Done(outcome: RetryOutcome)

  /** A call through the wrapper, from `start` to `end` if it gets through. */
  datatype WrapperCall = WrapperCall(call: nat -> Attempt, start: nat, end: nat)

  /** What it comes to: how many invocations it made, and the breaker afterwards. */
  datatype Wrapped = Wrapped(outcome: WrapperOutcome, calls: nat, breaker: Breaker)

  function Wrap(c: Config, maxRetries: int, base: nat, b: Breaker, run: WrapperCall): Wrapped {
    var checked := CheckRecovery(b, run.start);
    if checked.state == Open then Wrapped(CircuitOpen, 0, checked)
    else
      var retries := RunRetries(run.call, maxRetries, base);
      Wrapped(Done(retries.outcome), retries.calls,
              if retries.outcome == Returned then Succeed(c, checked, checked.state == HalfOpen)
              else Fail(c, checked, checked.state == HalfOpen, run.end))
  }

  class ResilienceWrapper {
    const circuitBreaker: CircuitBreaker
    const retryHandler: RetryHandler

    constructor (config: Config, maxRetries: int, baseDelayMs: nat)
      ensures fresh(circuitBreaker) && circuitBreaker.Settings() == config && circuitBreaker.View() == FRESH
      ensures retryHandler.maxRetries == maxRetries && retryHandler.baseDelayMs == baseDelayMs
    {
      circuitBreaker := new CircuitBreaker(config);
      retryHandler := new RetryHandler(maxRetries, baseDelayMs);
    }

    /** A call from `start` to `end`; `calls` counts the invocations. */
    method Execute(call: nat -> Attempt, start: nat, end: nat) returns (r: WrapperOutcome, calls: nat)
      modifies circuitBreaker
      ensures Wrapped(r, calls, circuitBreaker.View())
           == Wrap(circuitBreaker.Settings(), retryHandler.maxRetries, retryHandler.baseDelayMs,
                   old(circuitBreaker.View()), WrapperCall(call, start, end))
    {
      var admitted := circuitBreaker.Begin(start);
      if admitted.None? {
        return CircuitOpen, 0;
      }
      var outcome, invocations, _ := retryHandler.Execute(call);
      if outcome == Returned {
        circuitBreaker.OnSuccess(admitted.value);
      } else {
        circuitBreaker.OnFailure(admitted.value, end);
      }
      r, calls := Done(outcome), invocations;
    }
  }

  /** The breaker after a run of calls, one after another. */
  function AfterCalls(c: Config, maxRetries: int, base: nat, runs: seq<WrapperCall>): Breaker {
    if runs == [] then FRESH
    else Wrap(c, maxRetries, base, AfterCalls(c, maxRetries, base, runs[..|runs| - 1]), runs[|runs| - 1]).breaker
  }

  /** Invocations that reach the service. */
  function Invocations(c: Config, maxRetries: int, base: nat, runs: seq<WrapperCall>): nat {
    if runs == [] then 0
    else
      var run, before := runs[|runs| - 1], runs[..|runs| - 1];
      Invocations(c, maxRetries, base, before)
        + Wrap(c, maxRetries, base, AfterCalls(c, maxRetries, base, before), run).calls
  }

  /** The service never answers. */
  ghost predicate AlwaysFails(runs: seq<WrapperCall>) {
    forall i, k: nat :: 0 <= i < |runs| ==> runs[i].call(k) != Succeeded
  }

  /** No call starts after a recovery time has passed. */
  ghost predicate BeforeRecovery(c: Config, maxRetries: int, base: nat, runs: seq<WrapperCall>) {
    runs != [] ==>
      var before := runs[..|runs| - 1];
      && BeforeRecovery(c, maxRetries, base, before)
      && CheckRecovery(AfterCalls(c, maxRetries, base, before), runs[|runs| - 1].start).state != HalfOpen
  }

  /** Invocations if every call got through. */
  function TotalCalls(maxRetries: int, base: nat, runs: seq<WrapperCall>): nat {
    if runs == [] then 0
    else TotalCalls(maxRetries, base, runs[..|runs| - 1]) + RunRetries(runs[|runs| - 1].call, maxRetries, base).calls
  }

  /** Until recovery exactly the first failureThreshold calls to a service that
      never answers get through; after them the circuit is open. */
  lemma {:induction false} FailFast(c: Config, maxRetries: int, base: nat, runs: seq<WrapperCall>)
    requires c.failureThreshold >= 1 && AlwaysFails(runs) && BeforeRecovery(c, maxRetries, base, runs)
    ensures var b, n, most := AfterCalls(c, maxRetries, base, runs), |runs|, c.failureThreshold;
      && (n < most ==> b.state == Closed && b.failureCount == n)
      && (n >= most ==> b.state == Open)
      && Invocations(c, maxRetries, base, runs)
         == TotalCalls(maxRetries, base, if n < most then runs else runs[..most])
  {
    if runs == [] {
    } else {
      var before := runs[..|runs| - 1];
      FailFast(c, maxRetries, base, before);
      if |runs| == c.failureThreshold {
        assert runs[..c.failureThreshold] == runs;
      } else if |runs| > c.failureThreshold {
        assert before[..c.failureThreshold] == runs[..c.failureThreshold];
      }
    }
  }

  lemma OneMore(n: nat, most: nat)
    ensures (n + 1) * most == n * most + most
  {
  }

  lemma Monotone(m: nat, n: nat, most: nat)
    requires m <= n
    ensures m * most <= n * most
  {
  }

  /** The most invocations of one call. */
  function MostCalls(maxRetries: int): nat {
    if maxRetries < 0 then 0 else maxRetries + 1
  }

  lemma {:induction false} CallsBound(maxRetries: int, base: nat, runs: seq<WrapperCall>)
    ensures TotalCalls(maxRetries, base, runs) <= |runs| * MostCalls(maxRetries)
  {
    if runs == [] {
    } else {
      CallsBound(maxRetries, base, runs[..|runs| - 1]);
      OneMore(|runs| - 1, MostCalls(maxRetries));
    }
  }

  /** A service that never answers is invoked at most
      failureThreshold * (maxRetries + 1) times before calls fail fast. */
  lemma FailingServiceBound(c: Config, maxRetries: int, base: nat, runs: seq<WrapperCall>)
    requires c.failureThreshold >= 1 && AlwaysFails(runs) && BeforeRecovery(c, maxRetries, base, runs)
    ensures Invocations(c, maxRetries, base, runs) <= c.failureThreshold * MostCalls(maxRetries)
  {
    FailFast(c, maxRetries, base, runs);
    if |runs| < c.failureThreshold {
      CallsBound(maxRetries, base, runs);
      Monotone(|runs|, c.failureThreshold, MostCalls(maxRetries));
    } else {
      CallsBound(maxRetries, base, runs[..c.failureThreshold]);
    }
  }
}
