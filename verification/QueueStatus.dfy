/** What the counts of the queue's status mean. */
module QueueStatus {
  import opened Texts
  import opened LeaseQueue
  import opened LeaseQueueLaws

  // ----- Finished requests -----

  function FinishedCount(s: Store, status: Status): nat {
    |WithStatus(s, status)|
  }

  /** The call writes a result with the status. */
  ghost predicate Finishes(s: Store, c: Call, status: Status) {
    c.op.OpComplete? && SanitizeId(c.op.result.requestId) !in s.results && c.op.result.status == status
  }

  lemma CallResults(s: Store, leaseMs: nat, c: Call)
    ensures var t := Apply(s, leaseMs, c);
      t.results == if c.op.OpComplete? && SanitizeId(c.op.result.requestId) !in s.results
                   then s.results[SanitizeId(c.op.result.requestId) := c.op.result] else s.results
  {
    hide FirstClaimable, SanitizeId;
  }

  lemma NewResultCounts(s: Store, t: Store, key: Text, r: Result, status: Status)
    requires key !in s.results && t.results == s.results[key := r]
    ensures FinishedCount(t, status) == FinishedCount(s, status) + (if r.status == status then 1 else 0)
  {
    var before, after := WithStatus(s, status), WithStatus(t, status);
    assert key !in before;
    forall k
      ensures k in after <==> k in before || (k == key && r.status == status)
    {
      assert k != key && k in t.results ==> t.results[k] == s.results[k];
    }
    if r.status == status {
      assert after == before + {key};
    } else {
      assert after == before;
    }
  }

  lemma CallCounts(s: Store, leaseMs: nat, c: Call, status: Status)
    ensures FinishedCount(Apply(s, leaseMs, c), status)
         == FinishedCount(s, status) + (if Finishes(s, c, status) then 1 else 0)
  {
    hide Apply, SanitizeId;
    CallResults(s, leaseMs, c);
    var t := Apply(s, leaseMs, c);
    if c.op.OpComplete? && SanitizeId(c.op.result.requestId) !in s.results {
      NewResultCounts(s, t, SanitizeId(c.op.result.requestId), c.op.result, status);
    } else {
      assert WithStatus(t, status) == WithStatus(s, status);
    }
  }

  /** The three counts start at 0; a completion that is accepted raises the count of
      its own status by one, and nothing else changes any of them. */
  lemma StatusCounts(s: Store, leaseMs: nat, c: Call, now: nat, later: nat)
    ensures var start := CountsAt(EMPTY, now); start.completed == start.failed == start.refused == 0
    ensures var (a, b) := (CountsAt(s, now), CountsAt(Apply(s, leaseMs, c), later));
      && b.completed == a.completed + (if Finishes(s, c, Completed) then 1 else 0)
      && b.failed == a.failed + (if Finishes(s, c, Failed) then 1 else 0)
      && b.refused == a.refused + (if Finishes(s, c, Refused) then 1 else 0)
  {
    hide Apply;
    CallCounts(s, leaseMs, c, Completed);
    CallCounts(s, leaseMs, c, Failed);
    CallCounts(s, leaseMs, c, Refused);
    assert WithStatus(EMPTY, Completed) == WithStatus(EMPTY, Failed) == WithStatus(EMPTY, Refused) == {};
  }

  /** Terminal events with the status. */
  function FinishedEvents(events: seq<QueueEvent>, status: Status): nat {
    |set i | 0 <= i < |events| && events[i].kind.Finished? && events[i].kind.status == status|
  }

  lemma EventsSnoc(events: seq<QueueEvent>, e: QueueEvent, status: Status)
    ensures FinishedEvents(events + [e], status)
         == FinishedEvents(events, status) + (if e.kind.Finished? && e.kind.status == status then 1 else 0)
  {
    var n, longer := |events|, events + [e];
    var before := set i | 0 <= i < n && events[i].kind.Finished? && events[i].kind.status == status;
    var after := set i | 0 <= i < |longer| && longer[i].kind.Finished? && longer[i].kind.status == status;
    assert after == if e.kind.Finished? && e.kind.status == status then before + {n} else before;
  }

  /** What a call appends to the log. */
  lemma CallLogs(s: Store, leaseMs: nat, c: Call, status: Status)
    ensures FinishedEvents(Apply(s, leaseMs, c).events, status)
         == FinishedEvents(s.events, status) + (if Finishes(s, c, status) then 1 else 0)
  {
    hide FinishedEvents, FirstClaimable;
    var t := Apply(s, leaseMs, c);
    if t.events != s.events {
      var e := t.events[|s.events|];
      assert t.events == s.events + [e];
      EventsSnoc(s.events, e, status);
    }
  }

  /** Over every run each of the three counts is the number of terminal events with
      that status. */
  lemma {:induction false} CountsAreEvents(leaseMs: nat, calls: seq<Call>, now: nat)
    ensures var (s, c) := (Run(leaseMs, calls), CountsAt(Run(leaseMs, calls), now));
      && c.completed == FinishedEvents(s.events, Completed)
      && c.failed == FinishedEvents(s.events, Failed)
      && c.refused == FinishedEvents(s.events, Refused)
  {
    hide Apply;
    if calls == [] {
      StatusCounts(EMPTY, leaseMs, Call(OpClaim, [], 0), now, now);
    } else {
      var before, c := Run(leaseMs, calls[..|calls| - 1]), calls[|calls| - 1];
      CountsAreEvents(leaseMs, calls[..|calls| - 1], now);
      StatusCounts(before, leaseMs, c, now, now);
      CallLogs(before, leaseMs, c, Completed);
      CallLogs(before, leaseMs, c, Failed);
      CallLogs(before, leaseMs, c, Refused);
    }
  }

  // ----- Open requests -----

  function Positions(ids: seq<Text>, p: Text -> bool): set<int> {
    set i | 0 <= i < |ids| && p(ids[i])
  }

  lemma PositionsStep(ids: seq<Text>, p: Text -> bool)
    requires ids != []
    ensures var n := |ids| - 1;
      |Positions(ids, p)| == |Positions(ids[..n], p)| + (if p(ids[n]) then 1 else 0)
  {
    var n := |ids| - 1;
    var before := Positions(ids[..n], p);
    if p(ids[n]) {
      assert Positions(ids, p) == before + {n};
    } else {
      assert Positions(ids, p) == before;
    }
  }

  lemma {:induction false} CountIfIsSize(ids: seq<Text>, p: Text -> bool)
    ensures CountIf(ids, p) == |Positions(ids, p)|
  {
    if ids == [] {
    } else {
      hide Positions;
      CountIfIsSize(ids[..|ids| - 1], p);
      PositionsStep(ids, p);
    }
  }

  ghost predicate HasResult(s: Store, id: Text) {
    exists k :: k in s.results && s.results[k].requestId == id
  }

  ghost predicate HasLease(s: Store, id: Text, now: nat) {
    exists k :: k in s.claims && s.claims[k].requestId == id && now < s.claims[k].leaseExpiresAt
  }

  /** Claimed requests are those without a result that have a lease which has not
      run out; pending ones have neither. */
  lemma OpenCountsMean(s: Store, now: nat)
    ensures var c := CountsAt(s, now);
      && c.total == |s.requests|
      && c.claimed
         == |set i | 0 <= i < |s.requests| && !HasResult(s, s.requests[i]) && HasLease(s, s.requests[i], now)|
      && c.pending
         == |set i | 0 <= i < |s.requests| && !HasResult(s, s.requests[i]) && !HasLease(s, s.requests[i], now)|
  {
    var done, active := ResultIds(s), ActiveClaimIds(s, now);
    forall id
      ensures (id in done <==> HasResult(s, id)) && (id in active <==> HasLease(s, id, now))
    {
      IdsMean(s, id, now);
    }
    var p, q := id => id !in active && id !in done, id => id in active && id !in done;
    CountIfIsSize(s.requests, p);
    CountIfIsSize(s.requests, q);
    assert Positions(s.requests, q)
        == (set i | 0 <= i < |s.requests| && !HasResult(s, s.requests[i]) && HasLease(s, s.requests[i], now));
    assert Positions(s.requests, p)
        == (set i | 0 <= i < |s.requests| && !HasResult(s, s.requests[i]) && !HasLease(s, s.requests[i], now));
  }

  lemma IdsMean(s: Store, id: Text, now: nat)
    ensures id in ResultIds(s) <==> HasResult(s, id)
    ensures id in ActiveClaimIds(s, now) <==> HasLease(s, id, now)
  {
  }
}
