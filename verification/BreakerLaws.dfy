/** When calls one after another open and close the circuit. */
module BreakerLaws {
  import opened Wrappers
  import opened Resilience

  // ----- Opening -----

  /** Failed calls at the end of the run. */
  function Trailing(calls: seq<Call>): nat {
    if calls == [] || calls[|calls| - 1].ok then 0 else 1 + Trailing(calls[..|calls| - 1])
  }

  /** The calls from i on are n failures in a row. */
  ghost predicate FailuresAt(calls: seq<Call>, i: int, n: nat) {
    0 <= i && i + n <= |calls| && forall j :: i <= j < i + n ==> !calls[j].ok
  }

  lemma {:induction false} TrailingIff(calls: seq<Call>, n: nat)
    ensures Trailing(calls) >= n <==> FailuresAt(calls, |calls| - n, n)
  {
    if calls != [] && n > 0 {
      var init := calls[..|calls| - 1];
      TrailingIff(init, n - 1);
      if FailuresAt(calls, |calls| - n, n) {
        assert !calls[|calls| - 1].ok;
        assert FailuresAt(init, |calls| - n, n - 1);
      }
    }
  }

  ghost predicate HasOpened(t: Trace) {
    exists i :: 0 <= i < |t.marks| && t.marks[i].Opened?
  }

  lemma ExecuteKeepsOpened(c: Config, t: Trace, call: Call)
    requires HasOpened(t)
    ensures HasOpened(Execute(c, t, call))
  {
    var i :| 0 <= i < |t.marks| && t.marks[i].Opened?;
    assert Execute(c, t, call).marks[i] == t.marks[i];
  }

  /** As long as the circuit has not opened it is closed and counts the failures
      since the last success. */
  ghost predicate Counting(t: Trace, n: nat) {
    !HasOpened(t) && t.breaker.state == Closed && t.breaker.failureCount == n
  }

  lemma ExecuteCounts(c: Config, t: Trace, call: Call, n: nat)
    requires Counting(t, n) && n < c.failureThreshold
    ensures call.ok ==> Counting(Execute(c, t, call), 0)
    ensures !call.ok && n + 1 < c.failureThreshold ==> Counting(Execute(c, t, call), n + 1)
    ensures !call.ok && n + 1 == c.failureThreshold ==> HasOpened(Execute(c, t, call))
  {
    var t' := Execute(c, t, call);
    if !call.ok && n + 1 == c.failureThreshold {
      assert t'.marks[|t'.marks| - 1].Opened?;
    }
  }

  lemma {:induction false} OpensOrCounts(c: Config, calls: seq<Call>)
    requires c.failureThreshold >= 1
    ensures var t := ExecuteAll(c, calls);
      if exists i :: FailuresAt(calls, i, c.failureThreshold) then HasOpened(t)
      else Counting(t, Trailing(calls)) && Trailing(calls) < c.failureThreshold
  {
    var most := c.failureThreshold;
    if calls == [] {
    } else {
      var init, last := calls[..|calls| - 1], calls[|calls| - 1];
      hide Execute, Counting, HasOpened;
      OpensOrCounts(c, init);
      TrailingIff(calls, most);
      if exists i :: FailuresAt(init, i, most) {
        var i :| FailuresAt(init, i, most);
        assert FailuresAt(calls, i, most);
        ExecuteKeepsOpened(c, ExecuteAll(c, init), last);
      } else {
        var n := Trailing(init);
        ExecuteCounts(c, ExecuteAll(c, init), last, n);
        LastRow(init, last, most);
        assert calls == init + [last];
      }
    }
  }

  /** A new row of failures ends the run. */
  lemma LastRow(init: seq<Call>, last: Call, n: nat)
    requires n > 0 && !exists i :: FailuresAt(init, i, n)
    ensures var calls := init + [last];
      (exists i :: FailuresAt(calls, i, n)) <==> FailuresAt(calls, |calls| - n, n)
  {
    var calls := init + [last];
    forall i | FailuresAt(calls, i, n)
      ensures i == |calls| - n
    {
      assert forall j :: 0 <= j < |init| ==> calls[j] == init[j];
      assert i + n < |calls| ==> FailuresAt(init, i, n);
    }
  }

  /** Calls one after another open the circuit iff failureThreshold of them fail in a
      row: a success in between starts the count again. */
  lemma OpensIff(c: Config, calls: seq<Call>)
    requires c.failureThreshold >= 1
    ensures HasOpened(ExecuteAll(c, calls)) <==> exists i :: FailuresAt(calls, i, c.failureThreshold)
  {
    OpensOrCounts(c, calls);
  }

  // ----- Closing -----

  function ExecuteFrom(c: Config, t: Trace, calls: seq<Call>): Trace {
    if calls == [] then t else Execute(c, ExecuteFrom(c, t, calls[..|calls| - 1]), calls[|calls| - 1])
  }

  /** A call that finds the recovery time over is a probe: a failure opens the circuit
      anew until a full recovery time later. */
  lemma FailedProbeOpens(c: Config, t: Trace, call: Call)
    requires CheckRecovery(t.breaker, call.start).state == HalfOpen && !call.ok
    ensures var b := Execute(c, t, call).breaker;
      b.state == Open && b.nextAttemptTime == Some(call.end + c.recoveryTimeoutMs)
  {
  }

  /** After the recovery time calls that succeed close the circuit with the
      successThreshold-th of them (at least one), and clear its counters. */
  lemma {:induction false} ProbesCloseIff(c: Config, t: Trace, calls: seq<Call>)
    requires c.failureThreshold >= 1
    requires t.breaker.state == Open && calls != [] && CheckRecovery(t.breaker, calls[0].start).state == HalfOpen
    requires forall i :: 0 <= i < |calls| ==> calls[i].ok
    ensures var b, n := ExecuteFrom(c, t, calls).breaker, |calls|;
      if n < c.successThreshold then b.state == HalfOpen && b.successCount == n
      else b.state == Closed && b.failureCount == 0 && b.successCount == 0 && b.nextAttemptTime == None
  {
    var init := calls[..|calls| - 1];
    if init == [] {
      assert ExecuteFrom(c, t, init) == t;
    } else {
      ProbesCloseIff(c, t, init);
    }
  }
}
