/** The circuit breaker, and calls through it one after another. */
module Resilience {
  import opened Wrappers

  datatype CircuitState = Closed | Open | HalfOpen

  datatype Config = Config(failureThreshold: nat, recoveryTimeoutMs: nat, successThreshold: nat)

  datatype Breaker = Breaker(
    state: CircuitState,
    failureCount: nat,
    successCount: nat,
    lastFailureTime: Option<nat>,
    nextAttemptTime: Option<nat>)

  const FRESH := Breaker(Closed, 0, 0, None, None)

  /** A set time that JavaScript counts as true: not null and not 0. */
  predicate TruthyTime(t: Option<nat>) {
    t.Some? && t.value != 0
  }

  function CheckRecovery(b: Breaker, now: nat): Breaker {
    if b.state == Open && TruthyTime(b.nextAttemptTime) && now >= b.nextAttemptTime.value
    then b.(state := HalfOpen, successCount := 0) else b
  }

  function OpenCircuit(c: Config, b: Breaker, now: nat): Breaker {
    b.(state := Open, nextAttemptTime := Some(now + c.recoveryTimeoutMs))
  }

  function CloseCircuit(b: Breaker): Breaker {
    b.(state := Closed, failureCount := 0, successCount := 0, nextAttemptTime := None)
  }

  function Succeed(c: Config, b: Breaker, wasHalfOpen: bool): Breaker {
    if wasHalfOpen then
      var b' := b.(successCount := b.successCount + 1);
      if b'.successCount >= c.successThreshold then CloseCircuit(b') else b'
    else b.(failureCount := 0)
  }

  function Fail(c: Config, b: Breaker, wasHalfOpen: bool, now: nat): Breaker {
    var b' := b.(failureCount := b.failureCount + 1, lastFailureTime := Some(now));
    if wasHalfOpen || b'.failureCount >= c.failureThreshold then OpenCircuit(c, b', now) else b'
  }

  /** An open circuit is left by the clock at some time iff its next attempt time
      is not 0, which counts as unset; it is 0 iff the circuit opens at time 0
      without a recovery timeout. */
  lemma ReopensIff(c: Config, b: Breaker)
    requires b.state == Open && b.nextAttemptTime.Some?
    ensures (exists now :: CheckRecovery(b, now).state != Open) <==> b.nextAttemptTime != Some(0)
    ensures forall now :: OpenCircuit(c, b, now).nextAttemptTime == Some(0) <==> now == 0 && c.recoveryTimeoutMs == 0
  {
    if b.nextAttemptTime != Some(0) {
      assert CheckRecovery(b, b.nextAttemptTime.value).state != Open;
    }
  }

  class CircuitBreaker {
    const failureThreshold: nat
    const recoveryTimeoutMs: nat
    const successThreshold: nat
    var state: CircuitState
    var failureCount: nat
    var successCount: nat
    var lastFailureTime: Option<nat>
    var nextAttemptTime: Option<nat>

    constructor (config: Config)
      ensures Settings() == config && View() == FRESH
    {
      failureThreshold := config.failureThreshold;
      recoveryTimeoutMs := config.recoveryTimeoutMs;
      successThreshold := config.successThreshold;
      state, failureCount, successCount := Closed, 0, 0;
      lastFailureTime, nextAttemptTime := None, None;
    }

    function Settings(): Config {
      Config(failureThreshold, recoveryTimeoutMs, successThreshold)
    }

    function View(): Breaker
      reads this
    {
      Breaker(state, failureCount, successCount, lastFailureTime, nextAttemptTime)
    }

    method CheckRecoveryTimeout(now: nat)
      modifies this
      ensures View() == CheckRecovery(old(View()), now)
    {
      if state == Open && nextAttemptTime.Some? && nextAttemptTime.value != 0 {
        if now >= nextAttemptTime.value {
          state := HalfOpen;
          successCount := 0;
        }
      }
    }

    /** The part of `execute` before the call: None when the circuit is open,
        otherwise whether the call is a half-open probe. */
    method Begin(now: nat) returns (admitted: Option<bool>)
      modifies this
      ensures View() == CheckRecovery(old(View()), now)
      ensures admitted == if View().state == Open then None else Some(View().state == HalfOpen)
    {
      CheckRecoveryTimeout(now);
      if state == Open {
        return None;
      }
      admitted := Some(state == HalfOpen);
    }

    method OnSuccess(wasHalfOpen: bool)
      modifies this
      ensures View() == Succeed(Settings(), old(View()), wasHalfOpen)
    {
      if wasHalfOpen {
        successCount := successCount + 1;
        if successCount >= successThreshold {
          Close();
        }
      } else {
        failureCount := 0;
      }
    }

    method OnFailure(wasHalfOpen: bool, now: nat)
      modifies this
      ensures View() == Fail(Settings(), old(View()), wasHalfOpen, now)
    {
      failureCount := failureCount + 1;
      lastFailureTime := Some(now);
      if wasHalfOpen {
        OpenAt(now);
      } else if failureCount >= failureThreshold {
        OpenAt(now);
      }
    }

    method OpenAt(now: nat)
      modifies this
      ensures View() == OpenCircuit(Settings(), old(View()), now)
    {
      state := Open;
      nextAttemptTime := Some(now + recoveryTimeoutMs);
    }

    method Close()
      modifies this
      ensures View() == CloseCircuit(old(View()))
    {
      state := Closed;
      failureCount := 0;
      successCount := 0;
      nextAttemptTime := None;
    }

    method Reset()
      modifies this
      ensures View() == FRESH
    {
      state, failureCount, successCount := Closed, 0, 0;
      lastFailureTime, nextAttemptTime := None, None;
    }
  }

  // ----- One call after another -----

  /** The counters stay below their thresholds, and a circuit that is not closed
      has a next attempt time. */
  ghost predicate Consistent(c: Config, b: Breaker) {
    match b.state
    case Closed => b.failureCount < c.failureThreshold && b.nextAttemptTime.None?
    case Open => b.nextAttemptTime.Some?
    case HalfOpen => b.successCount < c.successThreshold && b.nextAttemptTime.Some?
  }

  /** A call: when it starts, how it ends and when. */
  datatype Call = Call(start: nat, ok: bool, end: nat)

  datatype Mark = Started(at: nat) | Opened(at: nat)

  datatype Trace = Trace(breaker: Breaker, marks: seq<Mark>, clock: nat)

  function Execute(c: Config, t: Trace, call: Call): Trace {
    var b := CheckRecovery(t.breaker, call.start);
    if b.state == Open then Trace(b, t.marks, call.start)
    else
      var probe := b.state == HalfOpen;
      var done := if call.ok then Succeed(c, b, probe) else Fail(c, b, probe, call.end);
      var marks := t.marks + [Started(call.start)];
      Trace(done, if done.state == Open then marks + [Opened(call.end)] else marks, call.end)
  }

  function ExecuteAll(c: Config, calls: seq<Call>): Trace {
    if calls == [] then Trace(FRESH, [], 0)
    else Execute(c, ExecuteAll(c, calls[..|calls| - 1]), calls[|calls| - 1])
  }

  /** Calls do not overlap and the clock never runs back. */
  ghost predicate Sequential(calls: seq<Call>) {
    && (forall i :: 0 <= i < |calls| ==> calls[i].start <= calls[i].end)
    && (forall i :: 0 <= i < |calls| - 1 ==> calls[i].end <= calls[i + 1].start)
  }

  ghost predicate Respected(c: Config, marks: seq<Mark>) {
    forall i, j :: 0 <= i < j < |marks| && marks[i].Opened? && marks[j].Started? ==>
      marks[i].at + c.recoveryTimeoutMs <= marks[j].at
  }

  /** Every opening is either still in force or its recovery time has passed. */
  ghost predicate OpeningsCovered(c: Config, t: Trace) {
    forall i :: 0 <= i < |t.marks| && t.marks[i].Opened? ==>
      || t.marks[i].at + c.recoveryTimeoutMs <= t.clock
      || (t.breaker.state == Open && t.breaker.nextAttemptTime.Some?
          && t.marks[i].at + c.recoveryTimeoutMs <= t.breaker.nextAttemptTime.value)
  }

  lemma StartIsLate(c: Config, t: Trace, call: Call)
    requires Respected(c, t.marks) && OpeningsCovered(c, t) && t.clock <= call.start
    requires CheckRecovery(t.breaker, call.start).state != Open
    ensures Respected(c, t.marks + [Started(call.start)])
    ensures forall i :: 0 <= i < |t.marks| && t.marks[i].Opened? ==>
      t.marks[i].at + c.recoveryTimeoutMs <= call.start
  {
  }

  lemma ExecuteKeeps(c: Config, t: Trace, call: Call)
    requires Respected(c, t.marks) && OpeningsCovered(c, t) && t.clock <= call.start <= call.end
    requires Consistent(c, t.breaker) && c.failureThreshold >= 1 && c.successThreshold >= 1
    ensures var t' := Execute(c, t, call);
      && Respected(c, t'.marks) && OpeningsCovered(c, t') && t'.clock <= call.end
      && Consistent(c, t'.breaker)
  {
    var b := CheckRecovery(t.breaker, call.start);
    if b.state != Open {
      StartIsLate(c, t, call);
    }
  }

  lemma {:induction false} SequentialKeeps(c: Config, calls: seq<Call>)
    requires c.failureThreshold >= 1 && c.successThreshold >= 1 && Sequential(calls)
    ensures var t := ExecuteAll(c, calls);
      && Respected(c, t.marks) && OpeningsCovered(c, t) && Consistent(c, t.breaker)
      && (calls != [] ==> t.clock <= calls[|calls| - 1].end)
      && (calls == [] ==> t.clock == 0)
  {
    if calls == [] {
    } else {
      var n := |calls| - 1;
      SequentialKeeps(c, calls[..n]);
      assert n > 0 ==> calls[n - 1].end <= calls[n - 1 + 1].start;
      ExecuteKeeps(c, ExecuteAll(c, calls[..n]), calls[n]);
    }
  }

  /** Without overlap no call starts within the recovery time of an opening. */
  lemma NoEarlyStart(c: Config, calls: seq<Call>)
    requires c.failureThreshold >= 1 && c.successThreshold >= 1 && Sequential(calls)
    ensures Respected(c, ExecuteAll(c, calls).marks)
  {
    SequentialKeeps(c, calls);
  }
}
