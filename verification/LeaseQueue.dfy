/** The file-backed request queue with leases, one method call at a time. */
module LeaseQueue {
  import opened Wrappers
  import opened Texts

  datatype Status = Completed | Failed | Refused

  datatype Claim = Claim(requestId: Text, actor: Text, claimedAt: nat, heartbeatAt: nat, leaseExpiresAt: nat)

  datatype Result = Result(id: Text, requestId: Text, status: Status)

  datatype EventKind =
    | Enqueued
    | Claimed(reclaimed: bool)
    | Heartbeat(leaseExpiresAt: nat)
    | Finished(resultId: Text, status: Status)

  datatype QueueEvent = QueueEvent(kind: EventKind, requestId: Text, at: nat, actor: Text)

  /** The queue directory: request lines, claim and result files by file name,
      event lines. */
  datatype Store = Store(
    requests: seq<Text>, claims: map<Text, Claim>, results: map<Text, Result>, events: seq<QueueEvent>)

  const EMPTY := Store([], map[], map[], [])

  predicate IsNameUnit(u: CodeUnit) {
    48 <= u < 58 || 65 <= u < 91 || 97 <= u < 123 || u == 95 || u == 45
  }

  /** `id.replace(/[^A-Za-z0-9_-]/g, '-')` */
  function SanitizeId(id: Text): Text {
    seq(|id|, i requires 0 <= i < |id| => if IsNameUnit(id[i]) then id[i] else 45)
  }

  predicate Active(c: Claim, now: nat) {
    c.leaseExpiresAt > now
  }

  /** Ids of the requests that have a result. */
  function ResultIds(s: Store): set<Text> {
    set k | k in s.results :: s.results[k].requestId
  }

  function ActiveClaimIds(s: Store, now: nat): set<Text> {
    set k | k in s.claims && Active(s.claims[k], now) :: s.claims[k].requestId
  }

  /** No result, and no active lease in the request's claim file. */
  predicate Claimable(s: Store, id: Text, now: nat) {
    id !in ResultIds(s) && !(SanitizeId(id) in s.claims && Active(s.claims[SanitizeId(id)], now))
  }

  /** The first claimable request from position i on. */
  function FirstClaimable(s: Store, now: nat, i: nat): (r: Option<nat>)
    requires i <= |s.requests|
    ensures r.Some? ==> i <= r.value < |s.requests| && Claimable(s, s.requests[r.value], now)
    ensures r.Some? ==> forall j :: i <= j < r.value ==> !Claimable(s, s.requests[j], now)
    ensures r.None? ==> forall j :: i <= j < |s.requests| ==> !Claimable(s, s.requests[j], now)
    decreases |s.requests| - i
  {
    if i == |s.requests| then None
    else if Claimable(s, s.requests[i], now) then Some(i)
    else FirstClaimable(s, now, i + 1)
  }

  function Log(s: Store, kind: EventKind, id: Text, now: nat, actor: Text): Store {
    s.(events := s.events + [QueueEvent(kind, id, now, actor)])
  }

  // ----- What each method does to the directory -----

  function DoEnqueue(s: Store, actor: Text, id: Text, now: nat): (Store, bool) {
    if id in s.requests then (s, false)
    else (Log(s.(requests := s.requests + [id]), Enqueued, id, now, actor), true)
  }

  function DoClaim(s: Store, actor: Text, leaseMs: nat, now: nat): (Store, Option<Text>) {
    match FirstClaimable(s, now, 0)
    case None => (s, None)
    case Some(i) =>
      var id := s.requests[i];
      var key := SanitizeId(id);
      (Log(s.(claims := s.claims[key := Claim(id, actor, now, now, now + leaseMs)]),
           Claimed(key in s.claims), id, now, actor), Some(id))
  }

  /** A heartbeat renews whatever claim the file holds, in the caller's name. */
  function DoHeartbeat(s: Store, actor: Text, leaseMs: nat, id: Text, now: nat): (Store, Option<Claim>) {
    var key := SanitizeId(id);
    if key !in s.claims then (s, None)
    else
      var updated := s.claims[key].(actor := actor, heartbeatAt := now, leaseExpiresAt := now + leaseMs);
      (Log(s.(claims := s.claims[key := updated]), Heartbeat(now + leaseMs), id, now, actor), Some(updated))
  }

  function DoComplete(s: Store, actor: Text, result: Result, now: nat): (Store, bool) {
    var key := SanitizeId(result.requestId);
    if key in s.results then (s, false)
    else
      var written := s.(results := s.results[key := result]);
      (Log(written, Finished(result.id, result.status), result.requestId, now, actor), true)
  }

  // ----- Counting -----

  function CountIf(ids: seq<Text>, p: Text -> bool): (n: nat)
    ensures n <= |ids|
  {
    if ids == [] then 0 else CountIf(ids[..|ids| - 1], p) + (if p(ids[|ids| - 1]) then 1 else 0)
  }

  function WithStatus(s: Store, status: Status): set<Text> {
    set k | k in s.results && s.results[k].status == status
  }

  datatype Counts = Counts(total: nat, pending: nat, claimed: nat, completed: nat, failed: nat, refused: nat)

  function CountsAt(s: Store, now: nat): Counts {
    var done, active := ResultIds(s), ActiveClaimIds(s, now);
    Counts(|s.requests|,
           CountIf(s.requests, id => id !in active && id !in done),
           CountIf(s.requests, id => id in active && id !in done),
           |WithStatus(s, Completed)|, |WithStatus(s, Failed)|, |WithStatus(s, Refused)|)
  }

  // ----- The queue -----

  class QueueDir {
    var requests: seq<Text>
    var claims: map<Text, Claim>
    var results: map<Text, Result>
    var events: seq<QueueEvent>

    constructor ()
      ensures View() == EMPTY
    {
      requests, claims, results, events := [], map[], map[], [];
    }

    function View(): Store
      reads this
    {
      Store(requests, claims, results, events)
    }
  }

  /** A worker's handle on a queue directory. */
  class JsonlAgentQueue {
    const dir: QueueDir
    const actor: Text
    const leaseMs: nat

    constructor (dir: QueueDir, actor: Text, leaseMs: nat)
      ensures this.dir == dir && this.actor == actor && this.leaseMs == leaseMs
    {
      this.dir, this.actor, this.leaseMs := dir, actor, leaseMs;
    }

    method AppendEvent(kind: EventKind, id: Text, now: nat)
      modifies dir`events
      ensures dir.View() == Log(old(dir.View()), kind, id, now, actor)
    {
      dir.events := dir.events + [QueueEvent(kind, id, now, actor)];
    }

    method Enqueue(id: Text, now: nat) returns (ok: bool)
      modifies dir
      ensures (dir.View(), ok) == DoEnqueue(old(dir.View()), actor, id, now)
    {
      if id in dir.requests {
        return false;
      }
      dir.requests := dir.requests + [id];
      AppendEvent(Enqueued, id, now);
      ok := true;
    }

    method ClaimNext(now: nat) returns (r: Option<Text>)
      modifies dir
      ensures (dir.View(), r) == DoClaim(old(dir.View()), actor, leaseMs, now)
    {
      var completed := ResultIds(dir.View());
      for i := 0 to |dir.requests|
        invariant dir.View() == old(dir.View())
        invariant FirstClaimable(dir.View(), now, 0) == FirstClaimable(dir.View(), now, i)
      {
        var id := dir.requests[i];
        if id !in completed {
          var key := SanitizeId(id);
          var claim := Claim(id, actor, now, now, now + leaseMs);
          if key !in dir.claims {
            dir.claims := dir.claims[key := claim];
            AppendEvent(Claimed(false), id, now);
            return Some(id);
          }
          var existing := dir.claims[key];
          if !Active(existing, now) {
            dir.claims := dir.claims[key := claim];
            AppendEvent(Claimed(true), id, now);
            return Some(id);
          }
        }
      }
      r := None;
    }

    method SendHeartbeat(id: Text, now: nat) returns (r: Option<Claim>)
      modifies dir
      ensures (dir.View(), r) == DoHeartbeat(old(dir.View()), actor, leaseMs, id, now)
    {
      var key := SanitizeId(id);
      if key !in dir.claims {
        return None;
      }
      var updated := dir.claims[key].(actor := actor, heartbeatAt := now, leaseExpiresAt := now + leaseMs);
      dir.claims := dir.claims[key := updated];
      AppendEvent(Heartbeat(now + leaseMs), id, now);
      r := Some(updated);
    }

    method Complete(result: Result, now: nat) returns (ok: bool)
      modifies dir
      ensures (dir.View(), ok) == DoComplete(old(dir.View()), actor, result, now)
    {
      var key := SanitizeId(result.requestId);
      if key in dir.results {
        return false;
      }
      dir.results := dir.results[key := result];
      AppendEvent(Finished(result.id, result.status), result.requestId, now);
      ok := true;
    }

    method GetStatus(now: nat) returns (counts: Counts)
      ensures counts == CountsAt(dir.View(), now)
    {
      var resultRequestIds := ResultIds(dir.View());
      var activeClaimIds := ActiveClaimIds(dir.View(), now);
      var claimed, pending: nat := 0, 0;
      ghost var s := dir.View();
      for i := 0 to |dir.requests|
        invariant claimed == CountIf(s.requests[..i], id => id in activeClaimIds && id !in resultRequestIds)
        invariant pending == CountIf(s.requests[..i], id => id !in activeClaimIds && id !in resultRequestIds)
      {
        var id := dir.requests[i];
        assert s.requests[..i + 1][..i] == s.requests[..i];
        if id !in resultRequestIds {
          if id in activeClaimIds {
            claimed := claimed + 1;
          } else {
            pending := pending + 1;
          }
        }
      }
      assert s.requests[..|s.requests|] == s.requests;
      counts := Counts(|dir.requests|, pending, claimed,
                       |WithStatus(dir.View(), Completed)|,
                       |WithStatus(dir.View(), Failed)|,
                       |WithStatus(dir.View(), Refused)|);
    }
  }
}
