/** A claimed request from heartbeat to result, on the queue. */
module RunnerQueue {
  import opened Wrappers
  import opened Texts
  import opened LeaseQueue
  import opened RunnerPipeline
  import opened RunnerLaws

  datatype Outcome =
    | RequestRejected
    | NotEnqueued
    | NotClaimed(other: Option<Text>)
    | NoClaimToRenew
    | PlanRejected
    | ResultInvalid(execution: Execution)
    | ResultExists(execution: Execution)
    | Delivered(execution: Execution)

  const RESULT_PREFIX: Text := Ascii("ARES-")
  const RUN_PREFIX: Text := Ascii("RUN-")

  /** What the caller gave for the result passes the result check: ids with their
      prefixes, a time, and no blank changed file. */
  predicate OptionsValid(opts: Options) {
    && StartsWith(opts.resultId, RESULT_PREFIX) && StartsWith(opts.agentRunId, RUN_PREFIX) && opts.completedAt.Some?
    && (opts.changedFiles.Some? ==>
          forall i :: 0 <= i < |opts.changedFiles.value| ==> Trim(opts.changedFiles.value[i]) != [])
  }

  predicate ListsFiles(opts: Options) {
    opts.changedFiles.Some? && opts.changedFiles.value != []
  }

  /** The result check; a completed result must also list changed files. */
  predicate ResultValid(e: Execution, opts: Options) {
    OptionsValid(opts) && (e.status == Completed ==> ListsFiles(opts))
  }

  /** The times a run reads from the clock. */
  datatype Times = Times(enqueue: nat, claim: nat, heartbeat: nat, complete: nat)

  function RunClaimed(s: Store, actor: Text, leaseMs: nat, w: World, req: AgentRequest, opts: Options, at: Times)
    : (Store, Outcome)
  {
    var (renewed, claim) := DoHeartbeat(s, actor, leaseMs, req.id, at.heartbeat);
    if !RequestValid(req) then (s, RequestRejected)
    else if claim.None? then (s, NoClaimToRenew)
    else if !PlanAccepted(req) then (renewed, PlanRejected)
    else
      var e := Pipeline(w, req, opts);
      if !ResultValid(e, opts) then (renewed, ResultInvalid(e))
      else
        var (t, ok) := DoComplete(renewed, actor, Result(opts.resultId, req.id, e.status), at.complete);
        (t, if ok then Delivered(e) else ResultExists(e))
  }

  method RunClaimedAgentRequest(queue: JsonlAgentQueue, w: World, req: AgentRequest, opts: Options, at: Times)
    returns (outcome: Outcome)
    modifies queue.dir
    ensures (queue.dir.View(), outcome)
        == RunClaimed(old(queue.dir.View()), queue.actor, queue.leaseMs, w, req, opts, at)
  {
    if !RequestValid(req) {
      return RequestRejected;
    }
    var claim := queue.SendHeartbeat(req.id, at.heartbeat);
    if claim.None? {
      return NoClaimToRenew;
    }
    if !PlanAccepted(req) {
      return PlanRejected;
    }
    var e := ExecutePipeline(w, req, opts);
    if !ResultValid(e, opts) {
      return ResultInvalid(e);
    }
    var ok := queue.Complete(Result(opts.resultId, req.id, e.status), at.complete);
    outcome := if ok then Delivered(e) else ResultExists(e);
  }

  function RunSingle(s: Store, actor: Text, leaseMs: nat, w: World, req: AgentRequest, opts: Options, at: Times)
    : (Store, Outcome)
  {
    var (enqueued, isNew) := DoEnqueue(s, actor, req.id, at.enqueue);
    if !RequestValid(req) then (s, RequestRejected)
    else if !isNew then (s, NotEnqueued)
    else
      var (t, claimed) := DoClaim(enqueued, actor, leaseMs, at.claim);
      if claimed != Some(req.id) then (t, NotClaimed(claimed))
      else RunClaimed(t, actor, leaseMs, w, req, opts, at)
  }

  method RunSingleAgentRequest(queue: JsonlAgentQueue, w: World, req: AgentRequest, opts: Options, at: Times)
    returns (outcome: Outcome)
    modifies queue.dir
    ensures (queue.dir.View(), outcome)
        == RunSingle(old(queue.dir.View()), queue.actor, queue.leaseMs, w, req, opts, at)
  {
    if !RequestValid(req) {
      return RequestRejected;
    }
    var isNew := queue.Enqueue(req.id, at.enqueue);
    if !isNew {
      return NotEnqueued;
    }
    var claimed := queue.ClaimNext(at.claim);
    if claimed != Some(req.id) {
      return NotClaimed(claimed);
    }
    outcome := RunClaimedAgentRequest(queue, w, req, opts, at);
  }

  // ----- Exactly one result -----

  /** The script ran to its end, passed, and gave an address. */
  predicate RanInFull(req: AgentRequest, e: Execution) {
    && |e.ran| == 10 + |req.requiredCommands| && e.ran[|e.ran| - 1].result.exitCode == 0
    && PrUrl(e.ran[|e.ran| - 1].result.stdout).Some?
  }

  lemma CompletedIff(w: World, req: AgentRequest, opts: Options)
    ensures Pipeline(w, req, opts).status == Completed <==> RanInFull(req, Pipeline(w, req, opts))
  {
    PipelineFollowsScript(w, req, opts);
  }

  /** A claimed request without a result gets exactly one, whatever the
      executors answer, iff it is valid, its plan is accepted, what the caller gave
      for the result is valid, and it does not complete without changed files;
      otherwise the results stay as they were. */
  lemma OneResultIff(s: Store, actor: Text, leaseMs: nat, w: World, req: AgentRequest, opts: Options, at: Times)
    requires SanitizeId(req.id) in s.claims && SanitizeId(req.id) !in s.results
    ensures var (t, outcome) := RunClaimed(s, actor, leaseMs, w, req, opts, at);
      var e := Pipeline(w, req, opts);
      && (outcome.Delivered? <==>
            RequestValid(req) && PlanAccepted(req) && OptionsValid(opts) && (RanInFull(req, e) ==> ListsFiles(opts)))
      && t.results == (if outcome.Delivered?
            then s.results[SanitizeId(req.id) := Result(opts.resultId, req.id, e.status)] else s.results)
      && t.events == s.events
          + (if RequestValid(req)
             then [QueueEvent(Heartbeat(at.heartbeat + leaseMs), req.id, at.heartbeat, actor)] else [])
          + (if outcome.Delivered?
             then [QueueEvent(Finished(opts.resultId, e.status), req.id, at.complete, actor)] else [])
  {
    hide PrUrl, Trim, RequestValid, PlanAccepted, OptionsValid, Pipeline, IsRun, StatusFits;
    CompletedIff(w, req, opts);
    var (renewed, claim) := DoHeartbeat(s, actor, leaseMs, req.id, at.heartbeat);
    assert renewed.results == s.results;
  }

  /** The result check leaves a request without a result iff it was valid and its plan
      accepted, and either what the caller gave is invalid, or every command passed and
      the pull request was opened, but no changed files were listed. */
  lemma LeftWithoutResultIff(s: Store, actor: Text, leaseMs: nat, w: World, req: AgentRequest, opts: Options, at: Times)
    requires SanitizeId(req.id) in s.claims
    ensures var (t, outcome) := RunClaimed(s, actor, leaseMs, w, req, opts, at);
      && (outcome.ResultInvalid? <==>
            && RequestValid(req) && PlanAccepted(req)
            && (!OptionsValid(opts) || (Opened(w, req, opts) && !ListsFiles(opts))))
      && (outcome.ResultInvalid? ==> t.results == s.results)
  {
    OpenedIffCompleted(w, req, opts);
  }

  /** The branch was pushed, and the last command opened a pull request and gave
      its address. */
  ghost predicate Opened(w: World, req: AgentRequest, opts: Options) {
    var ran := Pipeline(w, req, opts).ran;
    && Pushes(ran) && ran != [] && ran[|ran| - 1].command == GhPrCreate(req.base, req.branch)
    && ran[|ran| - 1].result.exitCode == 0 && PrUrl(ran[|ran| - 1].result.stdout).Some?
  }

  lemma OpenedIffCompleted(w: World, req: AgentRequest, opts: Options)
    ensures Opened(w, req, opts) <==> Pipeline(w, req, opts).status == Completed
  {
    PipelineFollowsScript(w, req, opts);
    var ran := Pipeline(w, req, opts).ran;
    var paths := PathsOf(w, req, opts, ran);
    var last := 9 + |req.requiredCommands|;
    PushPosition(req, paths);
    CreatePosition(req, paths);
    if |ran| == last + 1 {
      assert ran[last - 1].command == GitPush(req.branch);
    }
    if Opened(w, req, opts) {
      assert ran[|ran| - 1].command == Script(req, paths)[|ran| - 1];
    }
  }

  lemma CreatePosition(req: AgentRequest, paths: seq<Text>)
    ensures forall i :: 0 <= i < 10 + |req.requiredCommands| ==>
      (Script(req, paths)[i].GhPrCreate? <==> i == 9 + |req.requiredCommands|)
    ensures Script(req, paths)[9 + |req.requiredCommands|] == GhPrCreate(req.base, req.branch)
  {
  }

  /** When nothing fails or refuses and the changed paths are allowed, the run is
      full. */
  lemma NothingStops(w: World, req: AgentRequest, opts: Options)
    requires forall n: nat, c: Command :: w.codex(n, c).exitCode == 0
    requires forall n: nat, c: Command :: w.repo(n, c).exitCode == 0
    requires !CodexRefused(w, w.codex(3, Codex(req.prompt)))
    requires PathsAllowed(req, ChangedPaths(w, req, opts, w.repo(4, GitStatusPorcelain).stdout))
    requires PrUrl(w.repo(9 + |req.requiredCommands|, GhPrCreate(req.base, req.branch)).stdout).Some?
    ensures Pipeline(w, req, opts).status == Completed
  {
    PipelineFollowsScript(w, req, opts);
    var ran := Pipeline(w, req, opts).ran;
    var paths := PathsOf(w, req, opts, ran);
    var script := Script(req, paths);
    ScriptSlices(req, paths);
    CreatePosition(req, paths);
    assert script[0 + 3] == CodexPlan(req)[3] && script[4 + 0] == [GitStatusPorcelain][0];
    assert !StopsAfter(w, req, opts, ran, |ran| - 1);
  }

  /** Every command passes and prints an address; the given path has changed. */
  function PassingWorld(path: Text): World {
    var passing := (n: nat, c: Command) => CommandResult(0, HTTPS, []);
    World(passing, passing, r => None, t => [path])
  }

  const NO_FILES := Options(None, RESULT_PREFIX, RUN_PREFIX, Some(0))

  lemma PassingChanges(req: AgentRequest)
    requires req.allowedPaths != []
    ensures var w := PassingWorld(req.allowedPaths[0]);
      PathsAllowed(req, ChangedPaths(w, req, NO_FILES, w.repo(4, GitStatusPorcelain).stdout))
  {
    AllowsItself(req.allowedPaths[0], req.allowedPaths);
  }

  /** For every request that is accepted: when all its commands pass and no files
      are listed, the pull request is opened and no result is written. */
  lemma OpensWithoutResult(s: Store, actor: Text, leaseMs: nat, at: Times, req: AgentRequest)
    requires RequestValid(req) && PlanAccepted(req)
    ensures OptionsValid(NO_FILES)
    ensures Opened(PassingWorld(req.allowedPaths[0]), req, NO_FILES)
    ensures SanitizeId(req.id) in s.claims ==>
      var (t, outcome) := RunClaimed(s, actor, leaseMs, PassingWorld(req.allowedPaths[0]), req, NO_FILES, at);
      outcome.ResultInvalid? && t.results == s.results
  {
    assert req.allowedPaths != [];
    hide *;
    OpensAnyway(req);
    NoFilesAreValid();
    if SanitizeId(req.id) in s.claims {
      LeftWithoutResultIff(s, actor, leaseMs, PassingWorld(req.allowedPaths[0]), req, NO_FILES, at);
    }
  }

  lemma NoFilesAreValid()
    ensures OptionsValid(NO_FILES) && !ListsFiles(NO_FILES)
  {
  }

  lemma OpensAnyway(req: AgentRequest)
    requires req.allowedPaths != []
    ensures Opened(PassingWorld(req.allowedPaths[0]), req, NO_FILES)
  {
    hide PrUrl, Trim, Pipeline, PathsAllowed, Opened, ChangedPaths;
    var w := PassingWorld(req.allowedPaths[0]);
    HttpsIsUrl();
    PassingChanges(req);
    NothingStops(w, req, NO_FILES);
    OpenedIffCompleted(w, req, NO_FILES);
  }

  /** Such a request: AR-1 on main may change README and must pass ls. */
  const PLAIN := AgentRequest(Ascii("AR-1"), Ascii("main"), Ascii("work/AR-1"), NewPrBranch, BranchPr, Ascii("go"),
                              [Ascii("README")], [Ascii("ls")], [])

  lemma PlainIsAccepted()
    ensures RequestValid(PLAIN) && PlanAccepted(PLAIN) && PlanAccepted(PLAIN.(autonomyMode := MultiAgentPr))
    ensures forall name :: !PlanAccepted(PLAIN.(autonomyMode := OtherAutonomyMode(name)))
                        && !PlanAccepted(PLAIN.(branchMode := OtherBranchMode(name)))
  {
    hide Blank, IsRelative, Ascii;
    PlainPath();
    PlainTexts();
  }

  lemma PlainTexts()
    ensures StartsWith(Ascii("AR-1"), REQUEST_PREFIX)
    ensures !Blank(Ascii("main")) && !Blank(Ascii("go")) && !Blank(Ascii("ls"))
  {
    hide Trim;
    assert Ascii("AR-1")[..3] == REQUEST_PREFIX;
    TrimKeeps(Ascii("main"));
    TrimKeeps(Ascii("go"));
    TrimKeeps(Ascii("ls"));
  }

  lemma PlainPath()
    ensures var path := Ascii("README"); !Blank(path) && path !in BROAD_PATHS && IsRelative(path)
  {
    hide Trim, Occurrences;
    var path := Ascii("README");
    assert path == [82, 69, 65, 68, 77, 69];
    TrimKeeps(path);
    assert forall broad :: broad in BROAD_PATHS ==> |broad| < |path|;
    NoDots(path);
  }

  lemma BlankTexts()
    ensures Blank([]) && Blank(Ascii(" ")) && Blank(Ascii("\t\r\n"))
  {
    assert Ascii(" ")[1..] == [] && Ascii("\t\r\n")[1..][1..][1..] == [];
  }

  /** With a wrong id, a blank base, prompt or command, no paths or no commands, or a
      path that is blank, too broad, absolute or climbs up, it is rejected. */
  lemma VariantsAreRejected()
    ensures !RequestValid(PLAIN.(id := Ascii("BR-1"))) && !RequestValid(PLAIN.(base := []))
    ensures !RequestValid(PLAIN.(prompt := Ascii(" "))) && !RequestValid(PLAIN.(requiredCommands := []))
    ensures !RequestValid(PLAIN.(requiredCommands := [Ascii("ls"), Ascii("\t\r\n")]))
    ensures !RequestValid(PLAIN.(allowedPaths := [])) && !RequestValid(PLAIN.(allowedPaths := [Ascii(" ")]))
    ensures forall path :: path in [Ascii("."), Ascii("./"), Ascii("*"), Ascii("**"), Ascii("**/*")] ==>
      !RequestValid(PLAIN.(allowedPaths := [path]))
    ensures !RequestValid(PLAIN.(allowedPaths := [Ascii("/a")]))
    ensures !RequestValid(PLAIN.(allowedPaths := [Ascii("a..")]))
    ensures !RequestValid(PLAIN.(expectedArtifacts := [[]]))
    ensures !RequestValid(PLAIN.(expectedArtifacts := [Ascii("/a")]))
    ensures !RequestValid(PLAIN.(expectedArtifacts := [Ascii("a..")]))
  {
    hide Blank;
    BlankTexts();
    assert Ascii("BR-1")[..3][0] == 66 && REQUEST_PREFIX[0] == 65;
    assert Ascii("/a")[..1] == [SLASH] && StartsWith(Ascii("/a"), [SLASH]);
    assert Ascii("a..")[1..3] == [DOT, DOT] && 1 in Occurrences(Ascii("a.."), [DOT, DOT]);
    RejectedPath(Ascii("/a"));
    RejectedPath(Ascii("a.."));
    RejectedPath([]);
    assert Ascii("\t\r\n") in [Ascii("ls"), Ascii("\t\r\n")];
    assert Ascii(" ") in [Ascii(" ")];
    forall path | path in BROAD_PATHS
      ensures !RequestValid(PLAIN.(allowedPaths := [path]))
    {
      assert path in [path];
    }
  }

  lemma RejectedPath(path: Text)
    requires Blank(path) || !IsRelative(path)
    ensures !RequestValid(PLAIN.(allowedPaths := [path])) && !RequestValid(PLAIN.(expectedArtifacts := [path]))
  {
    assert path in [path];
  }

  /** What a valid request lets a worker change is never an absolute path. */
  lemma AllowedPathsAreRelative(req: AgentRequest, path: Text)
    requires RequestValid(req) && IsAllowedWorkerPath(path, req.allowedPaths) && path != []
    ensures path[0] != SLASH
  {
    AllowedIffListed(path, req.allowedPaths);
    forall pattern | pattern in req.allowedPaths
      ensures pattern != [] ==> pattern[0] != SLASH
    {
      assert IsRelative(pattern);
      assert pattern != [] ==> pattern[..1] == [pattern[0]];
    }
    if path !in req.allowedPaths {
      if dir: Text, name: Text :|
        dir + [SLASH, STAR] in req.allowedPaths && path == dir + [SLASH] + name && SLASH !in name {
        assert (dir + [SLASH, STAR])[0] != SLASH;
      } else {
        var dir: Text, tail: Text :| dir + [SLASH, STAR, STAR] in req.allowedPaths && path == dir + tail;
        assert (dir + [SLASH, STAR, STAR])[0] != SLASH;
      }
    }
  }

  /** What is given for a result is valid with both prefixes, a time and a named file,
      and not otherwise. */
  lemma OptionsAreChecked()
    ensures var good := Options(Some([Ascii("README")]), Ascii("ARES-1"), Ascii("RUN-1"), Some(0));
      && OptionsValid(good) && OptionsValid(good.(changedFiles := None))
      && !OptionsValid(good.(resultId := Ascii("AR-1"))) && !OptionsValid(good.(agentRunId := Ascii("R-1")))
      && !OptionsValid(good.(completedAt := None))
      && !OptionsValid(good.(changedFiles := Some([Ascii("README"), Ascii(" ")])))
  {
    BlankTexts();
    PlainPath();
    hide Trim;
    assert Ascii("ARES-1")[..5] == RESULT_PREFIX && Ascii("RUN-1")[..4] == RUN_PREFIX;
    assert Ascii("R-1")[1] == 45;
    var files := [Ascii("README"), Ascii(" ")];
    assert Trim(files[1]) == [];
  }

  lemma NoDots(t: Text)
    requires DOT !in t
    ensures Occurrences(t, [DOT, DOT]) == {}
  {
    forall p
      ensures !OccursAt(t, [DOT, DOT], p)
    {
      if 0 <= p <= |t| - 2 {
        assert t[p] in t && t[p..p + 2][0] == t[p];
      }
    }
  }

  lemma TrimKeeps(t: Text)
    requires t != [] && !IsSpace(t[0]) && !IsSpace(t[|t| - 1])
    ensures Trim(t) == t
  {
  }

  lemma SingleLine(t: Text)
    requires NoLf(t)
    ensures ToDoc(t) == Last(t)
  {
  }

  lemma HttpsIsUrl()
    ensures PrUrl(HTTPS).Some?
  {
    hide Trim, ToDoc, FirstUrl, LineSeq;
    assert HTTPS == [104, 116, 116, 112, 115, 58, 47, 47];
    TrimKeeps(HTTPS);
    SingleLine(HTTPS);
    assert HTTPS in LineSeq(Last(HTTPS));
  }

  // ----- Running a single request -----

  /** The request just enqueued is the one that gets claimed iff it is valid, was not
      enqueued before, can be claimed, and nothing enqueued earlier can. */
  lemma SingleStartsIff(s: Store, actor: Text, leaseMs: nat, w: World, req: AgentRequest, opts: Options, at: Times)
    ensures var outcome := RunSingle(s, actor, leaseMs, w, req, opts, at).1;
      !outcome.RequestRejected? && !outcome.NotEnqueued? && !outcome.NotClaimed? <==>
        && RequestValid(req) && req.id !in s.requests && Claimable(s, req.id, at.claim)
        && forall id :: id in s.requests ==> !Claimable(s, id, at.claim)
  {
    hide FirstClaimable, SanitizeId, RequestValid;
    ClaimedNeverNotClaimed(DoClaim(DoEnqueue(s, actor, req.id, at.enqueue).0, actor, leaseMs, at.claim).0,
                           actor, leaseMs, w, req, opts, at);
    if req.id !in s.requests {
      hide RunClaimed;
      var t := DoEnqueue(s, actor, req.id, at.enqueue).0;
      assert t.requests == s.requests + [req.id];
      assert forall id :: Claimable(t, id, at.claim) <==> Claimable(s, id, at.claim);
      assert t.requests[|s.requests|] == req.id;
      assert forall i :: 0 <= i < |s.requests| ==> t.requests[i] == s.requests[i];
      FindsNew(s, t, req.id, at.claim);
    }
  }

  lemma ClaimedNeverNotClaimed(s: Store, actor: Text, leaseMs: nat, w: World, req: AgentRequest, opts: Options,
                               at: Times)
    ensures var o := RunClaimed(s, actor, leaseMs, w, req, opts, at).1;
      !o.NotEnqueued? && !o.NotClaimed? && (o.RequestRejected? <==> !RequestValid(req))
  {
  }

  lemma FindsNew(s: Store, t: Store, id: Text, now: nat)
    requires t.requests == s.requests + [id] && id !in s.requests
    requires forall a :: Claimable(t, a, now) <==> Claimable(s, a, now)
    ensures var r := FirstClaimable(t, now, 0);
      r.Some? && t.requests[r.value] == id <==>
        Claimable(s, id, now) && forall a :: a in s.requests ==> !Claimable(s, a, now)
  {
    var r := FirstClaimable(t, now, 0);
    if r.Some? && t.requests[r.value] == id {
      assert r.value == |s.requests|;
      forall a | a in s.requests
        ensures !Claimable(s, a, now)
      {
        var i :| 0 <= i < |s.requests| && s.requests[i] == a;
        assert t.requests[i] == a;
      }
    }
    if Claimable(s, id, now) && forall a :: a in s.requests ==> !Claimable(s, a, now) {
      assert t.requests[|s.requests|] == id;
      assert forall i :: 0 <= i < |s.requests| ==> !Claimable(t, t.requests[i], now);
    }
  }

  /** When it is not, the worker is left with the lease of another request that
      it does not work on. */
  lemma StrayLease(s: Store, actor: Text, leaseMs: nat, w: World, req: AgentRequest, opts: Options, at: Times)
    requires leaseMs > 0
    requires var o := RunSingle(s, actor, leaseMs, w, req, opts, at).1; o.NotClaimed? && o.other.Some?
    ensures var (t, o) := RunSingle(s, actor, leaseMs, w, req, opts, at);
      && o.other.value in s.requests && o.other.value != req.id
      && SanitizeId(o.other.value) in t.claims
      && t.claims[SanitizeId(o.other.value)] == Claim(o.other.value, actor, at.claim, at.claim, at.claim + leaseMs)
      && !Claimable(t, o.other.value, at.claim)
      && t.results == s.results
  {
    var enqueued := DoEnqueue(s, actor, req.id, at.enqueue).0;
    assert enqueued.requests == s.requests + [req.id];
    var r := FirstClaimable(enqueued, at.claim, 0);
    assert enqueued.requests[r.value] != req.id;
    assert enqueued.requests[r.value] in s.requests;
  }
}
