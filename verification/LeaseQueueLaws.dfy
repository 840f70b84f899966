/** Laws of the queue: which request is claimed, counts, leases over a run. */
module LeaseQueueLaws {
  import opened Wrappers
  import opened Sequences
  import opened Texts
  import opened LeaseQueue

  // ----- Reachable directories -----

  datatype Op = OpEnqueue(id: Text) | OpClaim | OpHeartbeat(id: Text) | OpComplete(result: Result)

  /** A method call by an actor at a time. */
  datatype Call = Call(op: Op, actor: Text, now: nat)

  function Apply(s: Store, leaseMs: nat, c: Call): Store {
    match c.op
    case OpEnqueue(id) => DoEnqueue(s, c.actor, id, c.now).0
    case OpClaim => DoClaim(s, c.actor, leaseMs, c.now).0
    case OpHeartbeat(id) => DoHeartbeat(s, c.actor, leaseMs, id, c.now).0
    case OpComplete(result) => DoComplete(s, c.actor, result, c.now).0
  }

  function Run(leaseMs: nat, calls: seq<Call>): Store {
    if calls == [] then EMPTY else Apply(Run(leaseMs, calls[..|calls| - 1]), leaseMs, calls[|calls| - 1])
  }

  /** Files lie where their request id puts them, claims belong to enqueued
      requests, and no id is enqueued twice. */
  ghost predicate WellFormed(s: Store) {
    && (forall k :: k in s.claims ==> SanitizeId(s.claims[k].requestId) == k && s.claims[k].requestId in s.requests)
    && (forall k :: k in s.results ==> SanitizeId(s.results[k].requestId) == k)
    && Distinct(s.requests)
  }

  lemma ApplyKeepsForm(s: Store, leaseMs: nat, c: Call)
    requires WellFormed(s)
    ensures WellFormed(Apply(s, leaseMs, c))
  {
  }

  lemma {:induction false} RunIsWellFormed(leaseMs: nat, calls: seq<Call>)
    ensures WellFormed(Run(leaseMs, calls))
  {
    if calls == [] {
    } else {
      RunIsWellFormed(leaseMs, calls[..|calls| - 1]);
      ApplyKeepsForm(Run(leaseMs, calls[..|calls| - 1]), leaseMs, calls[|calls| - 1]);
    }
  }

  // ----- Which request is claimed -----

  /** No two enqueued ids get the same file name. */
  ghost predicate NamesDistinct(s: Store) {
    forall a, b :: a in s.requests && b in s.requests && SanitizeId(a) == SanitizeId(b) ==> a == b
  }

  /** The request waits: no result, and no active claim made for it. */
  ghost predicate Waiting(s: Store, id: Text, now: nat) {
    id !in ResultIds(s) && id !in ActiveClaimIds(s, now)
  }

  lemma WaitingIsClaimable(s: Store, id: Text, now: nat)
    requires WellFormed(s) && NamesDistinct(s) && id in s.requests
    ensures Waiting(s, id, now) <==> Claimable(s, id, now)
  {
    var key := SanitizeId(id);
    if key in s.claims && Active(s.claims[key], now) {
      assert s.claims[key].requestId == id;
      assert s.claims[key].requestId in ActiveClaimIds(s, now);
    }
    if id in ActiveClaimIds(s, now) {
      var k :| k in s.claims && Active(s.claims[k], now) && s.claims[k].requestId == id;
    }
  }

  /** `claimNext` takes the earliest waiting request, first in first out. */
  lemma ClaimsEarliest(s: Store, actor: Text, leaseMs: nat, now: nat)
    requires WellFormed(s) && NamesDistinct(s)
    ensures var (s', r) := DoClaim(s, actor, leaseMs, now);
      && (r.None? <==> forall id :: id in s.requests ==> !Waiting(s, id, now))
      && (r.Some? ==> exists i :: 0 <= i < |s.requests| && s.requests[i] == r.value && Waiting(s, r.value, now)
                        && forall j :: 0 <= j < i ==> !Waiting(s, s.requests[j], now))
      && (r.Some? && leaseMs > 0 ==> r.value in ActiveClaimIds(s', now))
  {
    forall id | id in s.requests
      ensures Waiting(s, id, now) <==> Claimable(s, id, now)
    {
      WaitingIsClaimable(s, id, now);
    }
    var (s', r) := DoClaim(s, actor, leaseMs, now);
    if r.Some? {
      var key := SanitizeId(r.value);
      assert key in s'.claims && s'.claims[key].requestId == r.value;
    }
  }

  lemma {:induction false} CountNone(ids: seq<Text>, p: Text -> bool)
    ensures CountIf(ids, p) == 0 <==> forall id :: id in ids ==> !p(id)
  {
    if ids == [] {
    } else {
      var init, last := ids[..|ids| - 1], ids[|ids| - 1];
      CountNone(init, p);
      assert ids == init + [last];
    }
  }

  /** With distinct file names `claimNext` finds nothing iff nothing pends. */
  lemma NothingToClaimIff(s: Store, actor: Text, leaseMs: nat, now: nat)
    requires WellFormed(s) && NamesDistinct(s)
    ensures DoClaim(s, actor, leaseMs, now).1.None? <==> CountsAt(s, now).pending == 0
  {
    var done, active := ResultIds(s), ActiveClaimIds(s, now);
    var p := (id: Text) => id !in active && id !in done;
    ClaimsEarliest(s, actor, leaseMs, now);
    CountNone(s.requests, p);
    assert forall id :: p(id) <==> Waiting(s, id, now);
  }

  lemma RunSnoc(leaseMs: nat, calls: seq<Call>, c: Call)
    ensures Run(leaseMs, calls + [c]) == Apply(Run(leaseMs, calls), leaseMs, c)
  {
    assert (calls + [c])[..|calls|] == calls;
  }

  lemma TwoEnqueued(a: Text, b: Text, actor: Text, leaseMs: nat)
    requires a != b
    ensures var s := Run(leaseMs, [Call(OpEnqueue(a), actor, 0), Call(OpEnqueue(b), actor, 0)]);
      s.requests == [a, b] && s.claims == map[] && s.results == map[]
  {
    var c1, c2 := Call(OpEnqueue(a), actor, 0), Call(OpEnqueue(b), actor, 0);
    RunSnoc(leaseMs, [], c1);
    assert [] + [c1] == [c1];
    RunSnoc(leaseMs, [c1], c2);
    assert [c1] + [c2] == [c1, c2];
  }

  lemma CountPair(a: Text, b: Text, p: Text -> bool)
    ensures CountIf([a, b], p) == (if p(a) then 1 else 0) + (if p(b) then 1 else 0)
  {
    assert [a, b][..1] == [a] && [a][..0] == [];
    assert CountIf([a], p) == if p(a) then 1 else 0;
  }

  lemma ClaimFirst(s: Store, a: Text, b: Text, actor: Text, leaseMs: nat)
    requires s.requests == [a, b] && s.claims == map[] && s.results == map[]
    ensures var t := DoClaim(s, actor, leaseMs, 0).0;
      && t.requests == [a, b] && t.results == map[]
      && t.claims == map[SanitizeId(a) := Claim(a, actor, 0, 0, leaseMs)]
  {
    assert Claimable(s, a, 0);
    assert FirstClaimable(s, 0, 0) == Some(0);
  }

  /** Any two ids that share a file name break it: after both are enqueued and
      one is claimed, one still pends but nothing can be claimed. */
  lemma SharedNameBlocks(a: Text, b: Text, actor: Text, leaseMs: nat)
    requires a != b && SanitizeId(a) == SanitizeId(b) && leaseMs > 0
    ensures var calls := [Call(OpEnqueue(a), actor, 0), Call(OpEnqueue(b), actor, 0), Call(OpClaim, actor, 0)];
      var s := Run(leaseMs, calls);
      && DoClaim(s, actor, leaseMs, 0).1.None?
      && CountsAt(s, 0).pending == 1
  {
    var c1, c2, c3 := Call(OpEnqueue(a), actor, 0), Call(OpEnqueue(b), actor, 0), Call(OpClaim, actor, 0);
    TwoEnqueued(a, b, actor, leaseMs);
    RunSnoc(leaseMs, [c1, c2], c3);
    assert [c1, c2] + [c3] == [c1, c2, c3];
    ClaimFirst(Run(leaseMs, [c1, c2]), a, b, actor, leaseMs);
    var s := Run(leaseMs, [c1, c2, c3]);
    BlockedPair(s, a, b, actor, leaseMs);
  }

  lemma BlockedPair(s: Store, a: Text, b: Text, actor: Text, leaseMs: nat)
    requires a != b && SanitizeId(a) == SanitizeId(b) && leaseMs > 0
    requires s.requests == [a, b] && s.results == map[]
    requires s.claims == map[SanitizeId(a) := Claim(a, actor, 0, 0, leaseMs)]
    ensures DoClaim(s, actor, leaseMs, 0).1.None? && CountsAt(s, 0).pending == 1
  {
    assert !Claimable(s, a, 0) && !Claimable(s, b, 0);
    var done, active := ResultIds(s), ActiveClaimIds(s, 0);
    assert active == {a} by {
      assert SanitizeId(a) in s.claims;
    }
    CountPair(a, b, id => id !in active && id !in done);
  }

  /** `claimNext` finds nothing exactly when `status` counts nothing pending. */
  ghost predicate ClaimMeetsPending(s: Store, actor: Text, leaseMs: nat, now: nat) {
    DoClaim(s, actor, leaseMs, now).1.None? <==> CountsAt(s, now).pending == 0
  }

  ghost predicate EnqueuesFrom(calls: seq<Call>, ids: set<Text>) {
    forall i :: 0 <= i < |calls| && calls[i].op.OpEnqueue? ==> calls[i].op.id in ids
  }

  /** ... at every moment of every run that enqueues only these ids. */
  ghost predicate AlwaysMeetsPending(ids: set<Text>, leaseMs: nat) {
    forall calls: seq<Call>, actor: Text, now: nat
      {:trigger ClaimMeetsPending(Run(leaseMs, calls), actor, leaseMs, now)} ::
      EnqueuesFrom(calls, ids) ==> ClaimMeetsPending(Run(leaseMs, calls), actor, leaseMs, now)
  }

  lemma {:induction false} RequestsComeFrom(calls: seq<Call>, ids: set<Text>, leaseMs: nat)
    requires EnqueuesFrom(calls, ids)
    ensures forall id :: id in Run(leaseMs, calls).requests ==> id in ids
  {
    if calls == [] {
    } else {
      RequestsComeFrom(calls[..|calls| - 1], ids, leaseMs);
    }
  }

  /** It holds for a set of ids iff the file names of those ids are distinct. */
  lemma MeetsPendingIff(ids: set<Text>, leaseMs: nat)
    requires leaseMs > 0
    ensures AlwaysMeetsPending(ids, leaseMs)
       <==> forall a, b :: a in ids && b in ids && SanitizeId(a) == SanitizeId(b) ==> a == b
  {
    if forall a, b :: a in ids && b in ids && SanitizeId(a) == SanitizeId(b) ==> a == b {
      forall calls: seq<Call>, actor: Text, now: nat | EnqueuesFrom(calls, ids)
        ensures ClaimMeetsPending(Run(leaseMs, calls), actor, leaseMs, now)
      {
        RunIsWellFormed(leaseMs, calls);
        RequestsComeFrom(calls, ids, leaseMs);
        NothingToClaimIff(Run(leaseMs, calls), actor, leaseMs, now);
      }
    } else {
      var a, b :| a in ids && b in ids && SanitizeId(a) == SanitizeId(b) && a != b;
      var calls := [Call(OpEnqueue(a), [], 0), Call(OpEnqueue(b), [], 0), Call(OpClaim, [], 0)];
      SharedNameBlocks(a, b, [], leaseMs);
      assert EnqueuesFrom(calls, ids);
      assert !ClaimMeetsPending(Run(leaseMs, calls), [], leaseMs, 0);
    }
  }

  const REQUEST_PREFIX: Text := Ascii("AR-")

  /** Request ids that the queue accepts can share a file name: "AR-1.2" and
      "AR-1-2" do, and break it. */
  lemma AdmittedNamesCollide(leaseMs: nat)
    requires leaseMs > 0
    ensures var (a, b) := (Ascii("AR-1.2"), Ascii("AR-1-2"));
      && StartsWith(a, REQUEST_PREFIX) && StartsWith(b, REQUEST_PREFIX) && a != b
      && SanitizeId(a) == SanitizeId(b)
      && !AlwaysMeetsPending({a, b}, leaseMs)
  {
    var a, b := Ascii("AR-1.2"), Ascii("AR-1-2");
    assert a == [65, 82, 45, 49, 46, 50] && b == [65, 82, 45, 49, 45, 50];
    assert a[4] != b[4];
    assert SanitizeId(a) == SanitizeId(b);
    MeetsPendingIff({a, b}, leaseMs);
  }

  /** A heartbeat renews the claim of whoever holds it, in the caller's name, and
      whether it had run out or not. */
  lemma AnyoneRenews(s: Store, caller: Text, leaseMs: nat, id: Text, now: nat)
    requires SanitizeId(id) in s.claims
    ensures var (t, r) := DoHeartbeat(s, caller, leaseMs, id, now);
      var before, after := s.claims[SanitizeId(id)], t.claims[SanitizeId(id)];
      && r == Some(after) && after.actor == caller && after.heartbeatAt == now && after.leaseExpiresAt == now + leaseMs
      && after.requestId == before.requestId && after.claimedAt == before.claimedAt
      && t.claims == s.claims[SanitizeId(id) := after] && t.results == s.results && t.requests == s.requests
      && (leaseMs > 0 ==> !Claimable(t, id, now))
  {
  }

  // ----- Conservation of counts -----

  lemma {:induction false} CountSplits(ids: seq<Text>, p: Text -> bool, q: Text -> bool, r: Text -> bool)
    requires forall id :: r(id) <==> p(id) || q(id)
    requires forall id :: !(p(id) && q(id))
    ensures CountIf(ids, r) == CountIf(ids, p) + CountIf(ids, q)
  {
    if ids == [] {
    } else {
      CountSplits(ids[..|ids| - 1], p, q, r);
    }
  }

  lemma {:induction false} CountAll(ids: seq<Text>)
    ensures CountIf(ids, id => true) == |ids|
  {
    if ids == [] {
    } else {
      CountAll(ids[..|ids| - 1]);
    }
  }

  ghost function Elements(ids: seq<Text>): set<Text> {
    set id | id in ids
  }

  lemma ElementsSnoc(init: seq<Text>, last: Text)
    requires Distinct(init + [last])
    ensures Distinct(init) && Elements(init + [last]) == Elements(init) + {last} && last !in Elements(init)
  {
    var ids := init + [last];
    forall i, j | 0 <= i < j < |init|
      ensures init[i] != init[j]
    {
      assert ids[i] != ids[j];
    }
    forall i | 0 <= i < |init|
      ensures init[i] != last
    {
      assert ids[i] != ids[|init|];
    }
    assert forall id :: id in ids <==> id in init || id == last;
  }

  lemma MeetGrows(s: set<Text>, e: set<Text>, x: Text)
    requires x !in e
    ensures |s * (e + {x})| == |s * e| + (if x in s then 1 else 0)
  {
    assert s * (e + {x}) == if x in s then s * e + {x} else s * e;
  }

  lemma {:induction false} CountIn(ids: seq<Text>, s: set<Text>)
    requires Distinct(ids)
    ensures CountIf(ids, id => id in s) == |s * Elements(ids)|
  {
    if ids == [] {
      assert s * Elements(ids) == {};
    } else {
      var init, last := ids[..|ids| - 1], ids[|ids| - 1];
      assert ids == init + [last];
      ElementsSnoc(init, last);
      CountIn(init, s);
      MeetGrows(s, Elements(init), last);
    }
  }

  ghost function IdsOf(results: map<Text, Result>, keys: set<Text>): set<Text>
    requires keys <= results.Keys
  {
    set k | k in keys :: results[k].requestId
  }

  lemma {:induction false} IdsAreMany(results: map<Text, Result>, keys: set<Text>)
    requires keys <= results.Keys
    requires forall k :: k in results ==> SanitizeId(results[k].requestId) == k
    ensures |IdsOf(results, keys)| == |keys|
  {
    if keys == {} {
    } else {
      var k :| k in keys;
      IdsAreMany(results, keys - {k});
      assert IdsOf(results, keys) == IdsOf(results, keys - {k}) + {results[k].requestId};
    }
  }

  lemma StatusesPartition(s: Store)
    ensures |WithStatus(s, Completed)| + |WithStatus(s, Failed)| + |WithStatus(s, Refused)| == |s.results.Keys|
  {
    var a, b, c := WithStatus(s, Completed), WithStatus(s, Failed), WithStatus(s, Refused);
    assert a !! b && a + b !! c && a + b + c == s.results.Keys;
  }

  lemma SubsetBySize(a: set<Text>, b: set<Text>)
    ensures |a * b| == |a| <==> a <= b
  {
    assert a == a * b + (a - b);
    assert |a| == |a * b| + |a - b|;
    if a <= b {
      assert a * b == a;
    }
  }

  /** Requests without a result, by what the status calls them. */
  lemma OpenRequests(s: Store, now: nat)
    requires WellFormed(s)
    ensures CountsAt(s, now).pending + CountsAt(s, now).claimed + |ResultIds(s) * Elements(s.requests)| == |s.requests|
  {
    var done, active := ResultIds(s), ActiveClaimIds(s, now);
    CountSplits(s.requests, id => id !in active && id !in done, id => id in active && id !in done, id => id !in done);
    CountSplits(s.requests, id => id in done, id => id !in done, id => true);
    CountAll(s.requests);
    CountIn(s.requests, done);
  }

  /** The five states add up to the total iff every result belongs to an
      enqueued request. */
  lemma CountsAddUpIff(s: Store, now: nat)
    requires WellFormed(s)
    ensures var c := CountsAt(s, now);
      c.total == c.pending + c.claimed + c.completed + c.failed + c.refused <==>
        forall k :: k in s.results ==> s.results[k].requestId in s.requests
  {
    OpenRequests(s, now);
    StatusesPartition(s);
    IdsAreMany(s.results, s.results.Keys);
    assert IdsOf(s.results, s.results.Keys) == ResultIds(s);
    SubsetBySize(ResultIds(s), Elements(s.requests));
    assert ResultIds(s) <= Elements(s.requests)
      <==> forall k :: k in s.results ==> s.results[k].requestId in s.requests by {
      assert forall k :: k in s.results ==> s.results[k].requestId in ResultIds(s);
    }
  }

  /** A file name keeps letters, digits, underscores and dashes, and has a dash for
      everything else. */
  lemma SanitizedUnits(id: Text, i: nat)
    requires i < |id|
    ensures |SanitizeId(id)| == |id|
    ensures var (u, kept) := (id[i], SanitizeId(id)[i]);
      if ('A' as int) <= u <= ('Z' as int) || ('a' as int) <= u <= ('z' as int) || ('0' as int) <= u <= ('9' as int)
         || u == ('_' as int) || u == ('-' as int)
      then kept == u else kept == ('-' as int)
  {
  }

  // ----- Leases over a run -----

  ghost predicate Monotone(calls: seq<Call>) {
    forall i, j :: 0 <= i < j < |calls| ==> calls[i].now <= calls[j].now
  }

  predicate TakesLease(e: QueueEvent) {
    e.kind.Claimed? || e.kind.Heartbeat?
  }

  /** Every lease ever taken is covered by the claim file's expiry, no expiry is
      further away than one lease, and finished requests have their result. */
  ghost predicate LeasesHold(s: Store, leaseMs: nat, now: nat) {
    && (forall k :: k in s.claims ==> s.claims[k].leaseExpiresAt <= now + leaseMs)
    && (forall i :: 0 <= i < |s.events| && TakesLease(s.events[i]) ==>
          var key := SanitizeId(s.events[i].requestId);
          key in s.claims && s.events[i].at + leaseMs <= s.claims[key].leaseExpiresAt)
    && (forall i :: 0 <= i < |s.events| && s.events[i].kind.Finished? ==>
          var key := SanitizeId(s.events[i].requestId);
          key in s.results && s.results[key].requestId == s.events[i].requestId)
  }

  /** A claim comes a full lease after every earlier claim or heartbeat of the
      same request, and never after its result. */
  ghost predicate ClaimsApart(events: seq<QueueEvent>, leaseMs: nat) {
    forall i, j :: 0 <= i < j < |events| && events[j].kind.Claimed? && events[i].requestId == events[j].requestId ==>
      && (TakesLease(events[i]) ==> events[i].at + leaseMs <= events[j].at)
      && !events[i].kind.Finished?
  }

  lemma ClaimsApartSnoc(s: Store, leaseMs: nat, e: QueueEvent)
    requires ClaimsApart(s.events, leaseMs)
    requires e.kind.Claimed? ==>
      forall i :: 0 <= i < |s.events| && s.events[i].requestId == e.requestId ==>
        && (TakesLease(s.events[i]) ==> s.events[i].at + leaseMs <= e.at)
        && !s.events[i].kind.Finished?
    ensures ClaimsApart(s.events + [e], leaseMs)
  {
  }

  lemma FinishedHasResult(s: Store, leaseMs: nat, before: nat)
    requires LeasesHold(s, leaseMs, before)
    ensures forall i :: 0 <= i < |s.events| && s.events[i].kind.Finished? ==> s.events[i].requestId in ResultIds(s)
  {
    forall i | 0 <= i < |s.events| && s.events[i].kind.Finished?
      ensures s.events[i].requestId in ResultIds(s)
    {
      assert s.results[SanitizeId(s.events[i].requestId)].requestId == s.events[i].requestId;
    }
  }

  lemma ClaimIsLate(s: Store, leaseMs: nat, before: nat, id: Text, now: nat)
    requires LeasesHold(s, leaseMs, before) && Claimable(s, id, now)
    ensures forall i :: 0 <= i < |s.events| && s.events[i].requestId == id ==>
      && (TakesLease(s.events[i]) ==> s.events[i].at + leaseMs <= now)
      && !s.events[i].kind.Finished?
  {
    FinishedHasResult(s, leaseMs, before);
  }

  /** No claim's expiry ever moves back. */
  lemma ExpiryNeverDecreases(s: Store, leaseMs: nat, before: nat, c: Call)
    requires LeasesHold(s, leaseMs, before) && before <= c.now
    ensures forall k :: k in s.claims ==>
      k in Apply(s, leaseMs, c).claims && s.claims[k].leaseExpiresAt <= Apply(s, leaseMs, c).claims[k].leaseExpiresAt
  {
  }

  lemma EventKeeps(s: Store, claims: map<Text, Claim>, results: map<Text, Result>, leaseMs: nat,
                   before: nat, e: QueueEvent)
    requires LeasesHold(s, leaseMs, before) && before <= e.at
    requires forall k :: k in s.claims ==> k in claims && s.claims[k].leaseExpiresAt <= claims[k].leaseExpiresAt
    requires forall k :: k in claims ==> claims[k].leaseExpiresAt <= e.at + leaseMs
    requires forall k :: k in s.results ==> k in results && results[k] == s.results[k]
    requires TakesLease(e) ==>
      SanitizeId(e.requestId) in claims && e.at + leaseMs <= claims[SanitizeId(e.requestId)].leaseExpiresAt
    requires e.kind.Finished? ==>
      SanitizeId(e.requestId) in results && results[SanitizeId(e.requestId)].requestId == e.requestId
    ensures LeasesHold(Store(s.requests, claims, results, s.events + [e]), leaseMs, e.at)
  {
  }

  lemma RequestsDoNotMatter(s: Store, requests: seq<Text>, leaseMs: nat, before: nat, now: nat)
    requires LeasesHold(s, leaseMs, before) && before <= now
    ensures LeasesHold(s.(requests := requests), leaseMs, now)
  {
  }

  lemma ClaimKeepsLeases(s: Store, leaseMs: nat, before: nat, actor: Text, now: nat)
    requires LeasesHold(s, leaseMs, before) && ClaimsApart(s.events, leaseMs) && before <= now
    ensures var t := DoClaim(s, actor, leaseMs, now).0;
      LeasesHold(t, leaseMs, now) && ClaimsApart(t.events, leaseMs)
  {
    var r := FirstClaimable(s, now, 0);
    if r.Some? {
      var id := s.requests[r.value];
      var key := SanitizeId(id);
      var claims := s.claims[key := Claim(id, actor, now, now, now + leaseMs)];
      var e := QueueEvent(Claimed(key in s.claims), id, now, actor);
      EventKeeps(s, claims, s.results, leaseMs, before, e);
      ClaimIsLate(s, leaseMs, before, id, now);
      ClaimsApartSnoc(s, leaseMs, e);
    } else {
      RequestsDoNotMatter(s, s.requests, leaseMs, before, now);
    }
  }

  lemma HeartbeatKeepsLeases(s: Store, leaseMs: nat, before: nat, actor: Text, id: Text, now: nat)
    requires LeasesHold(s, leaseMs, before) && ClaimsApart(s.events, leaseMs) && before <= now
    ensures var t := DoHeartbeat(s, actor, leaseMs, id, now).0;
      LeasesHold(t, leaseMs, now) && ClaimsApart(t.events, leaseMs)
  {
    var key := SanitizeId(id);
    if key in s.claims {
      var updated := s.claims[key].(actor := actor, heartbeatAt := now, leaseExpiresAt := now + leaseMs);
      var e := QueueEvent(Heartbeat(now + leaseMs), id, now, actor);
      EventKeeps(s, s.claims[key := updated], s.results, leaseMs, before, e);
      ClaimsApartSnoc(s, leaseMs, e);
    } else {
      RequestsDoNotMatter(s, s.requests, leaseMs, before, now);
    }
  }

  lemma CompleteKeepsLeases(s: Store, leaseMs: nat, before: nat, actor: Text, result: Result, now: nat)
    requires LeasesHold(s, leaseMs, before) && ClaimsApart(s.events, leaseMs) && before <= now
    ensures var t := DoComplete(s, actor, result, now).0;
      LeasesHold(t, leaseMs, now) && ClaimsApart(t.events, leaseMs)
  {
    var key := SanitizeId(result.requestId);
    if key !in s.results {
      var e := QueueEvent(Finished(result.id, result.status), result.requestId, now, actor);
      EventKeeps(s, s.claims, s.results[key := result], leaseMs, before, e);
      ClaimsApartSnoc(s, leaseMs, e);
    } else {
      RequestsDoNotMatter(s, s.requests, leaseMs, before, now);
    }
  }

  lemma EnqueueKeepsLeases(s: Store, leaseMs: nat, before: nat, actor: Text, id: Text, now: nat)
    requires LeasesHold(s, leaseMs, before) && ClaimsApart(s.events, leaseMs) && before <= now
    ensures var t := DoEnqueue(s, actor, id, now).0;
      LeasesHold(t, leaseMs, now) && ClaimsApart(t.events, leaseMs)
  {
    if id !in s.requests {
      var e := QueueEvent(Enqueued, id, now, actor);
      EventKeeps(s, s.claims, s.results, leaseMs, before, e);
      ClaimsApartSnoc(s, leaseMs, e);
      RequestsDoNotMatter(s.(events := s.events + [e]), s.requests + [id], leaseMs, now, now);
    } else {
      RequestsDoNotMatter(s, s.requests, leaseMs, before, now);
    }
  }

  lemma ApplyKeepsLeases(s: Store, leaseMs: nat, before: nat, c: Call)
    requires LeasesHold(s, leaseMs, before) && ClaimsApart(s.events, leaseMs) && before <= c.now
    ensures LeasesHold(Apply(s, leaseMs, c), leaseMs, c.now)
    ensures ClaimsApart(Apply(s, leaseMs, c).events, leaseMs)
  {
    match c.op
    case OpEnqueue(id) => EnqueueKeepsLeases(s, leaseMs, before, c.actor, id, c.now);
    case OpClaim => ClaimKeepsLeases(s, leaseMs, before, c.actor, c.now);
    case OpHeartbeat(id) => HeartbeatKeepsLeases(s, leaseMs, before, c.actor, id, c.now);
    case OpComplete(result) => CompleteKeepsLeases(s, leaseMs, before, c.actor, result, c.now);
  }

  lemma {:induction false} RunKeepsLeases(leaseMs: nat, calls: seq<Call>)
    requires Monotone(calls)
    ensures LeasesHold(Run(leaseMs, calls), leaseMs, if calls == [] then 0 else calls[|calls| - 1].now)
    ensures ClaimsApart(Run(leaseMs, calls).events, leaseMs)
  {
    if calls == [] {
    } else {
      var init, last := calls[..|calls| - 1], calls[|calls| - 1];
      RunKeepsLeases(leaseMs, init);
      ApplyKeepsLeases(Run(leaseMs, init), leaseMs, if init == [] then 0 else init[|init| - 1].now, last);
    }
  }

  /** Over every run of calls with a monotone clock and one lease time: claims
      of a request are a lease apart and a lease after its last heartbeat, and
      a request with a result is never claimed again. */
  lemma LeasesExclude(leaseMs: nat, calls: seq<Call>)
    requires Monotone(calls)
    ensures ClaimsApart(Run(leaseMs, calls).events, leaseMs)
  {
    RunKeepsLeases(leaseMs, calls);
  }
}
