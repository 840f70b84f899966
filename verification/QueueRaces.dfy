/** The queue directory shared by workers whose file operations interleave. */
module QueueRaces {
  import opened Wrappers
  import opened Texts
  import opened LeaseQueue
  import opened LeaseQueueLaws

  /** Where a worker stands inside a method: what it has read, from the files and
      from its clock, and what it will do next. */
  datatype Pc =
    | Idle
    | AppendRequest(id: Text)
    | ListResults(requests: seq<Text>)
    | Scan(requests: seq<Text>, done: set<Text>, i: nat)
    | CreateClaim(requests: seq<Text>, done: set<Text>, i: nat, claim: Claim)
    | ReadClaim(requests: seq<Text>, done: set<Text>, i: nat, claim: Claim)
    | CheckClaim(requests: seq<Text>, done: set<Text>, i: nat, claim: Claim, seen: Option<Claim>)
    | Overwrite(claim: Claim, seen: Option<Claim>, checkedAt: nat)
    | RenewClaim(id: Text, existing: Claim)
    | WriteHeartbeat(id: Text, updated: Claim)
    | StampEvent(kind: EventKind, id: Text)
    | AppendEvent(event: QueueEvent)

  /** What surrounds one step: the method an idle worker calls next, its clock,
      its identity, and the results its listing caught. */
  datatype Env = Env(op: Op, now: nat, actor: Text, leaseMs: nat, seen: set<Text>)

  function ClaimFile(s: Store, key: Text): Option<Claim> {
    if key in s.claims then Some(s.claims[key]) else None
  }

  function PutClaim(s: Store, id: Text, claim: Claim): Store {
    s.(claims := s.claims[SanitizeId(id) := claim])
  }

  /** One file operation, or one reading of the clock. */
  function Step(s: Store, pc: Pc, e: Env): (Store, Pc) {
    match pc
    case Idle => Begin(s, e)
    case AppendRequest(id) => (s.(requests := s.requests + [id]), StampEvent(Enqueued, id))
    case ListResults(requests) => (s, Scan(requests, e.seen * ResultIds(s), 0))
    case Scan(requests, done, i) => (s, ScanStep(requests, done, i, e))
    case CreateClaim(requests, done, i, claim) =>
      if SanitizeId(claim.requestId) in s.claims then (s, ReadClaim(requests, done, i, claim))
      else (PutClaim(s, claim.requestId, claim), StampEvent(Claimed(false), claim.requestId))
    case ReadClaim(requests, done, i, claim) =>
      (s, CheckClaim(requests, done, i, claim, ClaimFile(s, SanitizeId(claim.requestId))))
    case CheckClaim(requests, done, i, claim, seen) =>
      if seen.Some? && Active(seen.value, e.now) then (s, Scan(requests, done, i + 1))
      else (s, Overwrite(claim, seen, e.now))
    case Overwrite(claim, _, _) =>
      (PutClaim(s, claim.requestId, claim), StampEvent(Claimed(true), claim.requestId))
    case RenewClaim(id, existing) =>
      (s, WriteHeartbeat(id, existing.(
        actor := e.actor, heartbeatAt := e.now, leaseExpiresAt := e.now + e.leaseMs)))
    case WriteHeartbeat(id, updated) =>
      (PutClaim(s, id, updated), StampEvent(Heartbeat(updated.leaseExpiresAt), id))
    case StampEvent(kind, id) => (s, AppendEvent(QueueEvent(kind, id, e.now, e.actor)))
    case AppendEvent(event) => (s.(events := s.events + [event]), Idle)
  }

  /** The first file operation of a method. */
  function Begin(s: Store, e: Env): (Store, Pc) {
    match e.op
    case OpEnqueue(id) => if id in s.requests then (s, Idle) else (s, AppendRequest(id))
    case OpClaim => (s, ListResults(s.requests))
    case OpHeartbeat(id) =>
      if SanitizeId(id) in s.claims then (s, RenewClaim(id, s.claims[SanitizeId(id)])) else (s, Idle)
    case OpComplete(r) =>
      var key := SanitizeId(r.requestId);
      if key in s.results then (s, Idle)
      else (s.(results := s.results[key := r]), StampEvent(Finished(r.id, r.status), r.requestId))
  }

  /** The next request of the list is skipped, or the clock is read for a claim of
      it. */
  function ScanStep(requests: seq<Text>, done: set<Text>, i: nat, e: Env): Pc {
    if i >= |requests| then Idle
    else if requests[i] in done then Scan(requests, done, i + 1)
    else CreateClaim(requests, done, i, Claim(requests[i], e.actor, e.now, e.now, e.now + e.leaseMs))
  }

  /** The files and where each worker stands. */
  datatype System = System(files: Store, workers: seq<Pc>)

  /** Worker w does its next step. */
  datatype Turn = Turn(w: nat, e: Env)

  function Next(y: System, t: Turn): System {
    if t.w >= |y.workers| then y
    else
      var (s, pc) := Step(y.files, y.workers[t.w], t.e);
      System(s, y.workers[t.w := pc])
  }

  function Start(n: nat): System {
    System(EMPTY, seq(n, i => Idle))
  }

  /** The system after a schedule: any workers, any calls, in any order. */
  function RunAll(n: nat, turns: seq<Turn>): System {
    if turns == [] then Start(n) else Next(RunAll(n, turns[..|turns| - 1]), turns[|turns| - 1])
  }

  // ----- A worker alone is the atomic method -----

  function Left(pc: Pc): nat {
    match pc
    case Idle => 0
    case AppendRequest(_) => 3
    case ListResults(requests) => 8 + 4 * |requests|
    case Scan(requests, _, i) => if i >= |requests| then 1 else 7 + 4 * (|requests| - i)
    case CreateClaim(requests, _, i, _) => if i >= |requests| then 7 else 6 + 4 * (|requests| - i)
    case ReadClaim(requests, _, i, _) => if i >= |requests| then 6 else 5 + 4 * (|requests| - i)
    case CheckClaim(requests, _, i, _, _) => if i >= |requests| then 5 else 4 + 4 * (|requests| - i)
    case Overwrite(_, _, _) => 3
    case RenewClaim(_, _) => 4
    case WriteHeartbeat(_, _) => 3
    case StampEvent(_, _) => 2
    case AppendEvent(_) => 1
  }

  lemma StepGetsCloser(s: Store, pc: Pc, e: Env)
    requires !pc.Idle?
    ensures Left(Step(s, pc, e).1) < Left(pc)
  {
  }

  /** The files once a worker has finished its method without interruption. */
  function Alone(s: Store, pc: Pc, e: Env): Store
    decreases Left(pc)
  {
    if pc.Idle? then s
    else
      StepGetsCloser(s, pc, e);
      var (s', pc') := Step(s, pc, e);
      Alone(s', pc', e)
  }

  function ClaimFrom(s: Store, e: Env, i: nat): Store
    requires i <= |s.requests|
  {
    match FirstClaimable(s, e.now, i)
    case None => s
    case Some(j) =>
      var id := s.requests[j];
      var key := SanitizeId(id);
      Log(s.(claims := s.claims[key := Claim(id, e.actor, e.now, e.now, e.now + e.leaseMs)]),
          Claimed(key in s.claims), id, e.now, e.actor)
  }

  lemma LogAlone(s: Store, e: Env, kind: EventKind, id: Text)
    ensures Alone(s, StampEvent(kind, id), e) == Log(s, kind, id, e.now, e.actor)
  {
    assert Alone(Log(s, kind, id, e.now, e.actor), Idle, e) == Log(s, kind, id, e.now, e.actor);
    assert Alone(s, AppendEvent(QueueEvent(kind, id, e.now, e.actor)), e) == Log(s, kind, id, e.now, e.actor);
  }

  lemma {:induction false} ScanAlone(s: Store, e: Env, i: nat)
    requires i <= |s.requests|
    ensures Alone(s, Scan(s.requests, ResultIds(s), i), e) == ClaimFrom(s, e, i)
    decreases |s.requests| - i
  {
    if i == |s.requests| {
    } else {
      var id, done := s.requests[i], ResultIds(s);
      var key := SanitizeId(id);
      var claim := Claim(id, e.actor, e.now, e.now, e.now + e.leaseMs);
      ScanAlone(s, e, i + 1);
      if id !in done {
        var create := CreateClaim(s.requests, done, i, claim);
        assert Alone(s, Scan(s.requests, done, i), e) == Alone(s, create, e);
        if key in s.claims {
          var check := CheckClaim(s.requests, done, i, claim, Some(s.claims[key]));
          assert Alone(s, create, e) == Alone(s, ReadClaim(s.requests, done, i, claim), e) == Alone(s, check, e);
          if Active(s.claims[key], e.now) {
            assert Alone(s, check, e) == Alone(s, Scan(s.requests, done, i + 1), e);
          } else {
            assert Alone(s, check, e) == Alone(s, Overwrite(claim, Some(s.claims[key]), e.now), e);
            LogAlone(PutClaim(s, id, claim), e, Claimed(true), id);
          }
        } else {
          LogAlone(PutClaim(s, id, claim), e, Claimed(false), id);
        }
      }
    }
  }

  /** A method whose file operations nobody interrupts does what the atomic
      method does. */
  lemma AloneIsAtomic(s: Store, e: Env)
    requires ResultIds(s) <= e.seen
    ensures var (s', pc) := Step(s, Idle, e);
      Alone(s', pc, e) == Apply(s, e.leaseMs, Call(e.op, e.actor, e.now))
  {
    match e.op
    case OpEnqueue(id) =>
      LogAlone(s.(requests := s.requests + [id]), e, Enqueued, id);
    case OpClaim =>
      assert e.seen * ResultIds(s) == ResultIds(s);
      ScanAlone(s, e, 0);
    case OpHeartbeat(id) =>
      var key := SanitizeId(id);
      if key in s.claims {
        var updated := s.claims[key].(actor := e.actor, heartbeatAt := e.now, leaseExpiresAt := e.now + e.leaseMs);
        assert Alone(s, RenewClaim(id, s.claims[key]), e) == Alone(s, WriteHeartbeat(id, updated), e);
        LogAlone(PutClaim(s, id, updated), e, Heartbeat(updated.leaseExpiresAt), id);
      }
    case OpComplete(r) =>
      var key := SanitizeId(r.requestId);
      LogAlone(s.(results := s.results[key := r]), e, Finished(r.id, r.status), r.requestId);
  }

  // ----- What happens at most once -----

  /** The two kinds of event that follow an exclusive file creation. */
  datatype Once = FreshClaim | Terminal

  /** The file name an event stands for if it is of the kind. */
  function KeyOf(kind: Once, event: EventKind, id: Text): Option<Text> {
    if kind == FreshClaim && event == Claimed(false) then Some(SanitizeId(id))
    else if kind == Terminal && event.Finished? then Some(SanitizeId(id))
    else None
  }

  function EventKey(kind: Once, e: QueueEvent): Option<Text> {
    KeyOf(kind, e.kind, e.requestId)
  }

  /** The file name a worker has created and not yet logged. */
  function PcKey(kind: Once, pc: Pc): Option<Text> {
    match pc
    case StampEvent(event, id) => KeyOf(kind, event, id)
    case AppendEvent(event) => EventKey(kind, event)
    case _ => None
  }

  function Made(kind: Once, s: Store): set<Text> {
    if kind == FreshClaim then s.claims.Keys else s.results.Keys
  }

  ghost predicate EventsOnce(kind: Once, events: seq<QueueEvent>) {
    forall i, j :: 0 <= i < j < |events| && EventKey(kind, events[i]).Some? ==>
      EventKey(kind, events[i]) != EventKey(kind, events[j])
  }

  ghost predicate WorkersOnce(kind: Once, workers: seq<Pc>) {
    forall v, w :: 0 <= v < w < |workers| && PcKey(kind, workers[v]).Some? ==>
      PcKey(kind, workers[v]) != PcKey(kind, workers[w])
  }

  ghost predicate NotYetLogged(kind: Once, events: seq<QueueEvent>, workers: seq<Pc>) {
    forall i, w :: 0 <= i < |events| && 0 <= w < |workers| && EventKey(kind, events[i]).Some? ==>
      EventKey(kind, events[i]) != PcKey(kind, workers[w])
  }

  ghost predicate Backed(kind: Once, y: System) {
    && (forall i :: 0 <= i < |y.files.events| && EventKey(kind, y.files.events[i]).Some? ==>
          EventKey(kind, y.files.events[i]).value in Made(kind, y.files))
    && (forall w :: 0 <= w < |y.workers| && PcKey(kind, y.workers[w]).Some? ==>
          PcKey(kind, y.workers[w]).value in Made(kind, y.files))
  }

  ghost predicate OnceHolds(kind: Once, y: System) {
    && EventsOnce(kind, y.files.events) && WorkersOnce(kind, y.workers)
    && NotYetLogged(kind, y.files.events, y.workers) && Backed(kind, y)
  }

  /** The step creates a file that did not exist. */
  ghost predicate Creates(kind: Once, s: Store, pc: Pc, s': Store, pc': Pc) {
    && s'.events == s.events && PcKey(kind, pc).None?
    && PcKey(kind, pc').Some? && PcKey(kind, pc').value !in Made(kind, s)
    && Made(kind, s') == Made(kind, s) + {PcKey(kind, pc').value}
  }

  /** The step appends the event its worker owes, if it owes one. */
  ghost predicate Logs(kind: Once, s: Store, pc: Pc, s': Store, pc': Pc) {
    && |s'.events| == |s.events| + 1 && s'.events == s.events + [s'.events[|s.events|]]
    && EventKey(kind, s'.events[|s.events|]) == PcKey(kind, pc)
    && PcKey(kind, pc').None? && Made(kind, s') == Made(kind, s)
  }

  /** The step logs nothing and leaves what its worker owes as it is. */
  ghost predicate Quiet(kind: Once, s: Store, pc: Pc, s': Store, pc': Pc) {
    s'.events == s.events && PcKey(kind, pc') == PcKey(kind, pc) && Made(kind, s) <= Made(kind, s')
  }

  lemma StepKinds(kind: Once, s: Store, pc: Pc, e: Env)
    ensures var (s', pc') := Step(s, pc, e);
      Creates(kind, s, pc, s', pc') || Logs(kind, s, pc, s', pc') || Quiet(kind, s, pc, s', pc')
  {
  }

  lemma CreateKeepsOnce(kind: Once, y: System, w: nat, s': Store, pc': Pc)
    requires OnceHolds(kind, y) && w < |y.workers| && Creates(kind, y.files, y.workers[w], s', pc')
    ensures OnceHolds(kind, System(s', y.workers[w := pc']))
  {
  }

  lemma LogKeepsOnce(kind: Once, y: System, w: nat, s': Store, pc': Pc)
    requires OnceHolds(kind, y) && w < |y.workers| && Logs(kind, y.files, y.workers[w], s', pc')
    ensures OnceHolds(kind, System(s', y.workers[w := pc']))
  {
  }

  lemma QuietKeepsOnce(kind: Once, y: System, w: nat, s': Store, pc': Pc)
    requires OnceHolds(kind, y) && w < |y.workers| && Quiet(kind, y.files, y.workers[w], s', pc')
    ensures OnceHolds(kind, System(s', y.workers[w := pc']))
  {
  }

  lemma {:induction false} RunKeepsOnce(kind: Once, n: nat, turns: seq<Turn>)
    ensures OnceHolds(kind, RunAll(n, turns))
  {
    if turns == [] {
    } else {
      var y, t := RunAll(n, turns[..|turns| - 1]), turns[|turns| - 1];
      RunKeepsOnce(kind, n, turns[..|turns| - 1]);
      if t.w < |y.workers| {
        var (s', pc') := Step(y.files, y.workers[t.w], t.e);
        StepKinds(kind, y.files, y.workers[t.w], t.e);
        if Creates(kind, y.files, y.workers[t.w], s', pc') {
          CreateKeepsOnce(kind, y, t.w, s', pc');
        } else if Logs(kind, y.files, y.workers[t.w], s', pc') {
          LogKeepsOnce(kind, y, t.w, s', pc');
        } else {
          QuietKeepsOnce(kind, y, t.w, s', pc');
        }
      }
    }
  }

  /** However the workers interleave, a request is claimed afresh at most once
      and has at most one terminal event. */
  lemma AtMostOnce(n: nat, turns: seq<Turn>, i: nat, j: nat)
    requires var events := RunAll(n, turns).files.events;
      i < j < |events| && events[i].requestId == events[j].requestId
    ensures var events := RunAll(n, turns).files.events;
      && !(events[i].kind == Claimed(false) && events[j].kind == Claimed(false))
      && !(events[i].kind.Finished? && events[j].kind.Finished?)
  {
    RunKeepsOnce(FreshClaim, n, turns);
    RunKeepsOnce(Terminal, n, turns);
  }

  // ----- Results -----

  ghost predicate ResultsKept(s: Store, t: Store) {
    forall k :: k in s.results ==> k in t.results && t.results[k] == s.results[k]
  }

  lemma StepKeepsResults(y: System, t: Turn)
    ensures ResultsKept(y.files, Next(y, t).files)
  {
  }

  /** A result file is written at most once: after it appears, no schedule
      changes it. */
  lemma {:induction false} ResultsNeverChange(n: nat, turns: seq<Turn>, more: seq<Turn>)
    ensures ResultsKept(RunAll(n, turns).files, RunAll(n, turns + more).files)
  {
    if more == [] {
      assert turns + more == turns;
    } else {
      var init, last := more[..|more| - 1], more[|more| - 1];
      ResultsNeverChange(n, turns, init);
      assert (turns + more)[..|turns + more| - 1] == turns + init;
      StepKeepsResults(RunAll(n, turns + init), last);
    }
  }

  /** A terminal event of the kind names a result already written. */
  ghost predicate FinishMatches(s: Store, kind: EventKind, id: Text) {
    kind.Finished? ==>
      var key := SanitizeId(id);
      key in s.results && s.results[key] == Result(kind.resultId, id, kind.status)
  }

  ghost predicate EventMatches(s: Store, e: QueueEvent) {
    FinishMatches(s, e.kind, e.requestId)
  }

  ghost predicate PcMatches(s: Store, pc: Pc) {
    match pc
    case StampEvent(kind, id) => FinishMatches(s, kind, id)
    case AppendEvent(event) => EventMatches(s, event)
    case _ => true
  }

  ghost predicate FinishesMatch(y: System) {
    && (forall i :: 0 <= i < |y.files.events| ==> EventMatches(y.files, y.files.events[i]))
    && (forall w :: 0 <= w < |y.workers| ==> PcMatches(y.files, y.workers[w]))
  }

  lemma StepMatches(s: Store, pc: Pc, e: Env)
    requires PcMatches(s, pc)
    ensures var (s', pc') := Step(s, pc, e);
      && PcMatches(s', pc') && ResultsKept(s, s')
      && (s'.events == s.events
          || exists ev :: s'.events == s.events + [ev] && EventMatches(s', ev))
  {
    var (s', pc') := Step(s, pc, e);
    if s'.events != s.events {
      var ev := s'.events[|s.events|];
      assert s'.events == s.events + [ev] && EventMatches(s', ev);
    }
  }

  /** Every terminal event names a result already written, with its id and
      status. */
  lemma {:induction false} RunMatches(n: nat, turns: seq<Turn>)
    ensures FinishesMatch(RunAll(n, turns))
  {
    if turns == [] {
    } else {
      var y, t := RunAll(n, turns[..|turns| - 1]), turns[|turns| - 1];
      RunMatches(n, turns[..|turns| - 1]);
      if t.w < |y.workers| {
        StepMatches(y.files, y.workers[t.w], t.e);
        var (s', pc') := Step(y.files, y.workers[t.w], t.e);
        KeptMatches(y, t.w, s', pc');
      }
    }
  }

  lemma KeptMatches(y: System, w: nat, s': Store, pc': Pc)
    requires FinishesMatch(y) && w < |y.workers| && ResultsKept(y.files, s') && PcMatches(s', pc')
    requires s'.events == y.files.events
      || exists ev :: s'.events == y.files.events + [ev] && EventMatches(s', ev)
    ensures FinishesMatch(System(s', y.workers[w := pc']))
  {
    var y' := System(s', y.workers[w := pc']);
    forall i | 0 <= i < |s'.events|
      ensures EventMatches(s', s'.events[i])
    {
      if i < |y.files.events| {
        assert s'.events[i] == y.files.events[i];
        assert EventMatches(y.files, y.files.events[i]);
      }
    }
    forall v | 0 <= v < |y'.workers|
      ensures PcMatches(s', y'.workers[v])
    {
      assert v != w ==> PcMatches(y.files, y.workers[v]);
    }
  }

  // ----- What interleaving breaks -----

  ghost predicate Reachable(n: nat, y: System) {
    exists turns :: y == RunAll(n, turns)
  }

  lemma NextReachable(n: nat, y: System, t: Turn)
    requires Reachable(n, y)
    ensures Reachable(n, Next(y, t))
  {
    var turns :| y == RunAll(n, turns);
    assert (turns + [t])[..|turns|] == turns;
    assert Next(y, t) == RunAll(n, turns + [t]);
  }

  /** A worker reads its clock and appends the event it owes. */
  lemma LogReached(y: System, w: nat, e: Env) returns (z: System)
    requires Reachable(2, y) && w < |y.workers| && y.workers[w].StampEvent?
    ensures Reachable(2, z)
    ensures z == System(Log(y.files, y.workers[w].kind, y.workers[w].id, e.now, e.actor), y.workers[w := Idle])
  {
    z := Do(2, y, w, e);
    assert z == System(y.files,
      y.workers[w := AppendEvent(QueueEvent(y.workers[w].kind, y.workers[w].id, e.now, e.actor))]);
    z := Do(2, z, w, e);
  }

  /** Worker 0 enqueues a request. */
  lemma OneEnqueued(id: Text, a: Text) returns (y: System)
    ensures Reachable(2, y)
    ensures y == System(Store([id], map[], map[], [QueueEvent(Enqueued, id, 0, a)]), [Idle, Idle])
  {
    y := Start(2);
    assert RunAll(2, []) == y;
    var e := Env(OpEnqueue(id), 0, a, 0, {});
    y := AppendReached(id, y, 0, e);
    y := Do(2, y, 0, e);
    assert y == System(Store([id], map[], map[], []), [StampEvent(Enqueued, id), Idle]);
    y := LogReached(y, 0, e);
  }

  /** A worker has found that the id is new. */
  lemma AppendReached(id: Text, y: System, w: nat, e: Env) returns (z: System)
    requires Reachable(2, y) && w < |y.workers| && y.workers[w] == Idle
    requires e.op == OpEnqueue(id) && id !in y.files.requests
    ensures Reachable(2, z) && z == System(y.files, y.workers[w := AppendRequest(id)])
  {
    z := Do(2, y, w, e);
  }

  /** Then it claims it, at time 0. */
  lemma OneClaimed(id: Text, a: Text, leaseMs: nat) returns (y: System)
    ensures Reachable(2, y) && y.workers == [Idle, Idle]
    ensures y.files.requests == [id] && y.files.results == map[]
    ensures y.files.claims == map[SanitizeId(id) := Claim(id, a, 0, 0, leaseMs)]
  {
    y := OneEnqueued(id, a);
    var e := Env(OpClaim, 0, a, leaseMs, {});
    y := CreateReached(id, y, 0, e);
    y := Do(2, y, 0, e);
    assert y.workers == [StampEvent(Claimed(false), id), Idle];
    y := LogReached(y, 0, e);
  }

  /** A worker has read its clock for a claim of the only request. */
  lemma CreateReached(id: Text, y: System, w: nat, e: Env) returns (z: System)
    requires Reachable(2, y) && |y.workers| == 2 && w < 2 && y.workers[w] == Idle
    requires e.op == OpClaim && e.seen == {} && y.files.requests == [id]
    ensures Reachable(2, z)
    ensures z == System(y.files, y.workers[w :=
      CreateClaim([id], {}, 0, Claim(id, e.actor, e.now, e.now, e.now + e.leaseMs))])
  {
    z := Do(2, y, w, e);
    assert z == System(y.files, y.workers[w := ListResults([id])]);
    assert e.seen * ResultIds(y.files) == {};
    z := Do(2, z, w, e);
    assert z == System(y.files, y.workers[w := Scan([id], {}, 0)]);
    z := Do(2, z, w, e);
  }

  lemma Do(n: nat, y: System, w: nat, e: Env) returns (z: System)
    requires Reachable(n, y) && w < |y.workers|
    ensures Reachable(n, z) && z == Next(y, Turn(w, e))
  {
    z := Next(y, Turn(w, e));
    NextReachable(n, y, Turn(w, e));
  }

  /** A worker reads the expired claim and is about to overwrite it. */
  lemma AboutToReclaim(id: Text, leaseMs: nat, y: System, w: nat, a: Text, b: Text) returns (z: System)
    requires Reachable(2, y) && w < 2 && |y.workers| == 2 && y.workers[w] == Idle
    requires y.files.requests == [id] && y.files.results == map[]
    requires y.files.claims == map[SanitizeId(id) := Claim(id, a, 0, 0, leaseMs)]
    ensures Reachable(2, z)
    ensures var (seen, claim) := (Claim(id, a, 0, 0, leaseMs), Claim(id, b, leaseMs, leaseMs, leaseMs + leaseMs));
      z == System(y.files, y.workers[w := Overwrite(claim, Some(seen), leaseMs)])
  {
    var e := Env(OpClaim, leaseMs, b, leaseMs, {});
    var claim, seen := Claim(id, b, leaseMs, leaseMs, leaseMs + leaseMs), Claim(id, a, 0, 0, leaseMs);
    z := CreateReached(id, y, w, e);
    z := Do(2, z, w, e);
    assert z.workers[w] == ReadClaim([id], {}, 0, claim);
    z := Do(2, z, w, e);
    assert z.workers[w] == CheckClaim([id], {}, 0, claim, Some(seen));
    z := Do(2, z, w, e);
    assert z == System(y.files, y.workers[w := Overwrite(claim, Some(seen), leaseMs)]);
  }

  lemma OverwriteReached(y: System, w: nat, e: Env) returns (z: System)
    requires Reachable(2, y) && w < |y.workers| && y.workers[w].Overwrite?
    ensures var claim := y.workers[w].claim;
      z == System(PutClaim(y.files, claim.requestId, claim),
                  y.workers[w := StampEvent(Claimed(true), claim.requestId)])
    ensures Reachable(2, z)
  {
    z := Do(2, y, w, e);
  }

  /** Reclaims do not exclude each other: for every request and lease there is a
      schedule in which both workers take over the same expired claim at the
      same moment. */
  lemma TwoReclaims(id: Text, a: Text, b: Text, leaseMs: nat) returns (y: System)
    ensures Reachable(2, y)
    ensures var n := |y.files.events|;
      && n >= 2
      && y.files.events[n - 2] == QueueEvent(Claimed(true), id, leaseMs, a)
      && y.files.events[n - 1] == QueueEvent(Claimed(true), id, leaseMs, b)
  {
    y := OneClaimed(id, a, leaseMs);
    y := AboutToReclaim(id, leaseMs, y, 0, a, a);
    y := AboutToReclaim(id, leaseMs, y, 1, a, b);
    var e, f := Env(OpClaim, leaseMs, a, leaseMs, {}), Env(OpClaim, leaseMs, b, leaseMs, {});
    y := OverwriteReached(y, 0, e);
    y := OverwriteReached(y, 1, f);
    y := LogReached(y, 0, e);
    y := LogReached(y, 1, f);
  }

  /** The duplicate check of `enqueue` is not atomic with its append: two
      workers can enqueue the same id twice. */
  lemma EnqueuedTwice(id: Text, a: Text) returns (y: System)
    ensures Reachable(2, y) && y.files.requests == [id, id] && y.workers == [Idle, Idle]
  {
    y := Start(2);
    assert RunAll(2, []) == y;
    var e := Env(OpEnqueue(id), 0, a, 0, {});
    y := AppendReached(id, y, 0, e);
    y := AppendReached(id, y, 1, e);
    assert y == System(EMPTY, [AppendRequest(id), AppendRequest(id)]);
    y := Do(2, y, 0, e);
    assert y == System(Store([id], map[], map[], []), [StampEvent(Enqueued, id), AppendRequest(id)]);
    y := Do(2, y, 1, e);
    assert y == System(Store([id, id], map[], map[], []), [StampEvent(Enqueued, id), StampEvent(Enqueued, id)]);
    y := LogReached(y, 0, e);
    y := LogReached(y, 1, e);
  }
}
