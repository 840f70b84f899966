/** Which commands the pipeline runs, and what its end says. */
module RunnerLaws {
  import opened Wrappers
  import opened Texts
  import opened LeaseQueue
  import opened RunnerPipeline

  // ----- The script -----

  /** All commands of a full run, for the paths that get committed. */
  function Script(req: AgentRequest, paths: seq<Text>): (cs: seq<Command>)
    ensures |cs| == 10 + |req.requiredCommands|
  {
    [GitFetch(req.base), GitSwitch(req.branch, req.base), GitStatusShort, Codex(req.prompt),
     GitStatusPorcelain, GitAdd(paths), GitCommit(req.id), GitShowHead]
    + seq(|req.requiredCommands|, i requires 0 <= i < |req.requiredCommands| => Shell(req.requiredCommands[i]))
    + [GitPush(req.branch), GhPrCreate(req.base, req.branch)]
  }

  /** The paths that a run's fifth command reported. */
  function PathsOf(w: World, req: AgentRequest, opts: Options, ran: seq<Ran>): seq<Text> {
    if |ran| < 5 then [] else ChangedPaths(w, req, opts, ran[4].result.stdout)
  }

  /** The executor of the i-th command. */
  function ExecutorOf(w: World, i: nat): Executor {
    if i < 4 then w.codex else w.repo
  }

  /** The run ends after its i-th command: that command failed, or codex
      refused, or the changed paths are none or not all allowed. */
  predicate StopsAfter(w: World, req: AgentRequest, opts: Options, ran: seq<Ran>, i: nat)
    requires i < |ran|
  {
    || ran[i].result.exitCode != 0
    || (i == 3 && CodexRefused(w, ran[3].result))
    || (i == 4 && !PathsAllowed(req, ChangedPaths(w, req, opts, ran[4].result.stdout)))
  }

  /** The commands are a prefix of the script, answered in turn, and nothing
      but the last of them stops the run; a run that is not stopped is full. */
  ghost predicate IsRun(w: World, req: AgentRequest, opts: Options, ran: seq<Ran>) {
    var script := Script(req, PathsOf(w, req, opts, ran));
    && 0 < |ran| <= |script|
    && (forall i :: 0 <= i < |ran| ==> ran[i] == Ran(script[i], ExecutorOf(w, i)(i, script[i])))
    && (forall i :: 0 <= i < |ran| - 1 ==> !StopsAfter(w, req, opts, ran, i))
    && (|ran| == |script| || StopsAfter(w, req, opts, ran, |ran| - 1))
  }

  // ----- The pipeline follows the script -----

  /** A stretch of a run: commands cs from position n on. */
  ghost predicate Stretch(x: Executor, n: nat, cs: seq<Command>, ran: seq<Ran>) {
    && |ran| <= |cs|
    && (forall i :: 0 <= i < |ran| ==> ran[i] == Ran(cs[i], x(n + i, cs[i])))
    && (forall i :: 0 <= i < |ran| - 1 ==> ran[i].result.exitCode == 0)
    && (|ran| < |cs| ==> 0 < |ran| && ran[|ran| - 1].result.exitCode != 0)
  }

  lemma {:induction false} RunUntilStretch(x: Executor, n: nat, cs: seq<Command>, i: nat)
    requires i <= |cs|
    ensures Stretch(x, n + i, cs[i..], RunUntil(x, n, cs, i))
    decreases |cs| - i
  {
    if i == |cs| {
    } else {
      RunUntilStretch(x, n, cs, i + 1);
      var rest := RunUntil(x, n, cs, i + 1);
      var ran := RunUntil(x, n, cs, i);
      if ran[0].result.exitCode == 0 {
        assert ran == [ran[0]] + rest;
        forall k | 0 <= k < |ran|
          ensures ran[k] == Ran(cs[i..][k], x(n + i + k, cs[i..][k]))
        {
          assert k > 0 ==> ran[k] == rest[k - 1] && cs[i + 1..][k - 1] == cs[i..][k];
        }
        assert forall k :: 0 < k < |ran| ==> ran[k] == rest[k - 1];
      }
    }
  }

  lemma RunsStretch(x: Executor, n: nat, cs: seq<Command>)
    ensures Stretch(x, n, cs, RunUntil(x, n, cs, 0))
  {
    RunUntilStretch(x, n, cs, 0);
    assert cs[0..] == cs;
  }

  /** The commands at a position of the script. */
  ghost predicate Along(w: World, script: seq<Command>, n: nat, ran: seq<Ran>) {
    && n + |ran| <= |script|
    && forall i :: 0 <= i < |ran| ==> ran[i] == Ran(script[n + i], ExecutorOf(w, n + i)(n + i, script[n + i]))
  }

  ghost predicate SliceOf(script: seq<Command>, n: nat, cs: seq<Command>) {
    n + |cs| <= |script| && forall i :: 0 <= i < |cs| ==> script[n + i] == cs[i]
  }

  lemma StretchAlong(w: World, script: seq<Command>, x: Executor, n: nat, cs: seq<Command>, ran: seq<Ran>)
    requires SliceOf(script, n, cs) && Stretch(x, n, cs, ran)
    requires forall i :: n <= i < n + |cs| ==> ExecutorOf(w, i) == x
    ensures Along(w, script, n, ran)
  {
  }

  lemma AlongAppend(w: World, script: seq<Command>, a: seq<Ran>, b: seq<Ran>)
    requires Along(w, script, 0, a) && Along(w, script, |a|, b)
    ensures Along(w, script, 0, a + b)
  {
    forall i | 0 <= i < |a + b|
      ensures (a + b)[i] == Ran(script[i], ExecutorOf(w, i)(i, script[i]))
    {
      if i >= |a| {
        assert (a + b)[i] == b[i - |a|];
        assert script[|a| + (i - |a|)] == script[i];
      }
    }
  }

  lemma ScriptSlices(req: AgentRequest, paths: seq<Text>)
    ensures var s := Script(req, paths);
      && SliceOf(s, 0, CodexPlan(req)) && SliceOf(s, 4, [GitStatusPorcelain])
      && SliceOf(s, 5, CommitPlan(req, paths)) && SliceOf(s, 8, RequiredPlan(req))
      && SliceOf(s, 8 + |req.requiredCommands|, PrPlan(req))
  {
  }

  /** A run at most whose last command failed or stopped it. */
  ghost predicate PassedButLast(ran: seq<Ran>) {
    forall i :: 0 <= i < |ran| - 1 ==> ran[i].result.exitCode == 0
  }

  lemma IsRunFrom(w: World, req: AgentRequest, opts: Options, ran: seq<Ran>)
    requires ran != [] && Along(w, Script(req, PathsOf(w, req, opts, ran)), 0, ran) && PassedButLast(ran)
    requires |ran| > 4 ==> !CodexRefused(w, ran[3].result)
    requires |ran| > 5 ==> PathsAllowed(req, ChangedPaths(w, req, opts, ran[4].result.stdout))
    requires |ran| == 10 + |req.requiredCommands| || StopsAfter(w, req, opts, ran, |ran| - 1)
    ensures IsRun(w, req, opts, ran)
  {
  }

  predicate LastFailed(ran: seq<Ran>) {
    ran != [] && ran[|ran| - 1].result.exitCode != 0
  }

  lemma StretchEnds(x: Executor, n: nat, cs: seq<Command>, ran: seq<Ran>)
    requires Stretch(x, n, cs, ran)
    ensures PassedButLast(ran)
    ensures AllPassed(ran) ==> |ran| == |cs|
    ensures !AllPassed(ran) ==> LastFailed(ran)
  {
  }

  lemma CodexPart(w: World, req: AgentRequest, paths: seq<Text>)
    ensures var c := CodexRun(w, req);
      && Along(w, Script(req, paths), 0, c.ran) && PassedButLast(c.ran) && 0 < |c.ran| <= 4
      && (c.status == Failed ==> LastFailed(c.ran))
      && (c.status != Failed ==> |c.ran| == 4 && AllPassed(c.ran))
      && (c.status != Failed ==> (c.status == Status.Refused <==> CodexRefused(w, c.ran[3].result)))
  {
    var plan, script := CodexPlan(req), Script(req, paths);
    RunsStretch(w.codex, 0, plan);
    ScriptSlices(req, paths);
    StretchAlong(w, script, w.codex, 0, plan, RunUntil(w.codex, 0, plan, 0));
    StretchEnds(w.codex, 0, plan, RunUntil(w.codex, 0, plan, 0));
  }

  lemma CommitPart(w: World, req: AgentRequest, opts: Options)
    ensures var c := CommitRun(w, 4, req, opts);
      && 0 < |c.ran| <= 4
      && var paths := ChangedPaths(w, req, opts, c.ran[0].result.stdout);
         && Along(w, Script(req, paths), 4, c.ran) && PassedButLast(c.ran)
         && (|c.ran| > 1 ==> PathsAllowed(req, paths))
         && (c.status == Completed ==> |c.ran| == 4 && AllPassed(c.ran))
         && (c.status != Completed ==> LastFailed(c.ran) || (|c.ran| == 1 && !PathsAllowed(req, paths)))
  {
    var status := Ran(GitStatusPorcelain, w.repo(4, GitStatusPorcelain));
    var paths := ChangedPaths(w, req, opts, status.result.stdout);
    var script := Script(req, paths);
    ScriptSlices(req, paths);
    assert script[4 + 0] == GitStatusPorcelain;
    assert Along(w, script, 4, [status]);
    if status.result.exitCode == 0 && PathsAllowed(req, paths) {
      var plan := CommitPlan(req, paths);
      var ran := RunUntil(w.repo, 5, plan, 0);
      RunsStretch(w.repo, 5, plan);
      StretchAlong(w, script, w.repo, 5, plan, ran);
      StretchEnds(w.repo, 5, plan, ran);
      AlongShift(w, script, 4, status, ran);
      PassedAppend([status], ran);
    }
  }

  lemma AlongShift(w: World, script: seq<Command>, n: nat, r: Ran, ran: seq<Ran>)
    requires Along(w, script, n, [r]) && Along(w, script, n + 1, ran)
    ensures Along(w, script, n, [r] + ran)
  {
    assert [r][0] == r;
    forall i | 0 <= i < |ran| + 1
      ensures ([r] + ran)[i] == Ran(script[n + i], ExecutorOf(w, n + i)(n + i, script[n + i]))
    {
      if i > 0 {
        assert ([r] + ran)[i] == ran[i - 1] && n + 1 + (i - 1) == n + i;
      }
    }
  }

  lemma PassedAppend(a: seq<Ran>, b: seq<Ran>)
    requires AllPassed(a) && PassedButLast(b)
    ensures PassedButLast(a + b)
    ensures AllPassed(b) ==> AllPassed(a + b)
    ensures LastFailed(b) ==> LastFailed(a + b)
  {
  }

  lemma TailPart(w: World, req: AgentRequest, paths: seq<Text>, n: nat, cs: seq<Command>)
    requires n >= 4 && SliceOf(Script(req, paths), n, cs)
    ensures var ran := RunUntil(w.repo, n, cs, 0);
      && Along(w, Script(req, paths), n, ran) && PassedButLast(ran)
      && (AllPassed(ran) ==> |ran| == |cs|) && (!AllPassed(ran) ==> LastFailed(ran))
  {
    var ran := RunUntil(w.repo, n, cs, 0);
    RunsStretch(w.repo, n, cs);
    StretchAlong(w, Script(req, paths), w.repo, n, cs, ran);
    StretchEnds(w.repo, n, cs, ran);
  }

  /** The status that a run ends with. */
  predicate StatusFits(w: World, req: AgentRequest, e: Execution) {
    var n := |e.ran|;
    && (e.status == Status.Refused <==> n == 4 && e.ran[3].result.exitCode == 0 && CodexRefused(w, e.ran[3].result))
    && (e.status == Completed <==>
          && n == 10 + |req.requiredCommands|
          && e.ran[n - 1].result.exitCode == 0
          && PrUrl(e.ran[n - 1].result.stdout).Some?)
  }

  lemma CommittedPart(w: World, req: AgentRequest, opts: Options)
    requires CodexRun(w, req).status == Completed
    ensures var done := CodexRun(w, req).ran + CommitRun(w, 4, req, opts).ran;
      && 4 < |done| <= 8
      && var paths := PathsOf(w, req, opts, done);
         && Along(w, Script(req, paths), 0, done) && PassedButLast(done)
         && !CodexRefused(w, done[3].result)
         && (|done| > 5 ==> PathsAllowed(req, paths))
         && (CommitRun(w, 4, req, opts).status == Completed ==> |done| == 8 && AllPassed(done))
         && (CommitRun(w, 4, req, opts).status != Completed ==> StopsAfter(w, req, opts, done, |done| - 1))
  {
    var a, b := CodexRun(w, req).ran, CommitRun(w, 4, req, opts).ran;
    CommitPart(w, req, opts);
    var paths := ChangedPaths(w, req, opts, b[0].result.stdout);
    CodexPart(w, req, paths);
    assert (a + b)[4] == b[0] && (a + b)[3] == a[3];
    AlongAppend(w, Script(req, paths), a, b);
    PassedAppend(a, b);
  }

  /** A run of which the first n commands all passed, with committed paths. */
  ghost predicate GoodStart(w: World, req: AgentRequest, opts: Options, done: seq<Ran>) {
    && |done| >= 8 && AllPassed(done)
    && Along(w, Script(req, PathsOf(w, req, opts, done)), 0, done)
    && !CodexRefused(w, done[3].result)
    && PathsAllowed(req, PathsOf(w, req, opts, done))
  }

  /** It goes on with the next stretch of the script. */
  lemma GoesOn(w: World, req: AgentRequest, opts: Options, done: seq<Ran>, cs: seq<Command>)
    requires GoodStart(w, req, opts, done)
    requires SliceOf(Script(req, PathsOf(w, req, opts, done)), |done|, cs)
    ensures var ran := RunUntil(w.repo, |done|, cs, 0);
      && (AllPassed(ran) ==> GoodStart(w, req, opts, done + ran) && |ran| == |cs|)
      && (!AllPassed(ran) ==> IsRun(w, req, opts, done + ran) && LastFailed(done + ran))
      && PathsOf(w, req, opts, done + ran) == PathsOf(w, req, opts, done)
      && |done + ran| <= 10 + |req.requiredCommands|
  {
    var ran := RunUntil(w.repo, |done|, cs, 0);
    var paths := PathsOf(w, req, opts, done);
    TailPart(w, req, paths, |done|, cs);
    AlongAppend(w, Script(req, paths), done, ran);
    PassedAppend(done, ran);
    assert (done + ran)[3] == done[3] && (done + ran)[4] == done[4];
    if !AllPassed(ran) {
      IsRunFrom(w, req, opts, done + ran);
    }
  }

  lemma FailedStatus(w: World, req: AgentRequest, ran: seq<Ran>)
    requires LastFailed(ran) && |ran| <= 10 + |req.requiredCommands|
    ensures StatusFits(w, req, Execution(Failed, ran))
  {
  }

  lemma FollowsAfterCommit(w: World, req: AgentRequest, opts: Options, done: seq<Ran>)
    requires GoodStart(w, req, opts, done) && |done| == 8
    requires CodexRun(w, req).status == Completed && CommitRun(w, 4, req, opts).status == Completed
    requires done == CodexRun(w, req).ran + CommitRun(w, 4, req, opts).ran && |CodexRun(w, req).ran| == 4
    ensures IsRun(w, req, opts, Pipeline(w, req, opts).ran) && StatusFits(w, req, Pipeline(w, req, opts))
  {
    ScriptSlices(req, PathsOf(w, req, opts, done));
    GoesOn(w, req, opts, done, RequiredPlan(req));
    var checked := done + RunUntil(w.repo, 8, RequiredPlan(req), 0);
    if AllPassed(RunUntil(w.repo, 8, RequiredPlan(req), 0)) {
      GoesOn(w, req, opts, checked, PrPlan(req));
      PrPart(w, req, opts, checked);
    } else {
      FailedStatus(w, req, checked);
    }
  }

  lemma PrPart(w: World, req: AgentRequest, opts: Options, checked: seq<Ran>)
    requires GoodStart(w, req, opts, checked) && |checked| == 8 + |req.requiredCommands|
    requires SliceOf(Script(req, PathsOf(w, req, opts, checked)), |checked|, PrPlan(req))
    ensures var (pr, url) := PrRun(w.repo, |checked|, req);
      && IsRun(w, req, opts, checked + pr)
      && StatusFits(w, req, Execution(if url.Some? then Completed else Failed, checked + pr))
  {
    var (pr, url) := PrRun(w.repo, |checked|, req);
    GoesOn(w, req, opts, checked, PrPlan(req));
    if AllPassed(pr) {
      assert (checked + pr)[|checked + pr| - 1] == pr[1];
      IsRunFrom(w, req, opts, checked + pr);
    } else {
      FailedStatus(w, req, checked + pr);
    }
  }

  lemma FollowsAfterCodex(w: World, req: AgentRequest, opts: Options)
    requires CodexRun(w, req).status == Completed
    ensures IsRun(w, req, opts, Pipeline(w, req, opts).ran) && StatusFits(w, req, Pipeline(w, req, opts))
  {
    CodexPart(w, req, []);
    CommittedPart(w, req, opts);
    var done := CodexRun(w, req).ran + CommitRun(w, 4, req, opts).ran;
    if CommitRun(w, 4, req, opts).status == Completed {
      FollowsAfterCommit(w, req, opts, done);
    } else {
      IsRunFrom(w, req, opts, done);
    }
  }

  /** For every total executor, the commands the pipeline runs are a run of the
      script, and its status says how that run ended. */
  lemma PipelineFollowsScript(w: World, req: AgentRequest, opts: Options)
    ensures IsRun(w, req, opts, Pipeline(w, req, opts).ran)
    ensures StatusFits(w, req, Pipeline(w, req, opts))
  {
    var c := CodexRun(w, req);
    if c.status == Completed {
      FollowsAfterCodex(w, req, opts);
    } else {
      CodexPart(w, req, PathsOf(w, req, opts, c.ran));
      IsRunFrom(w, req, opts, c.ran);
    }
  }

  // ----- What the run tells -----

  lemma SamePrefix(w: World, req: AgentRequest, opts: Options, a: seq<Ran>, b: seq<Ran>, i: nat)
    requires IsRun(w, req, opts, a) && IsRun(w, req, opts, b) && i < |a| && i < |b|
    requires i < 5 || a[4] == b[4]
    ensures a[i] == b[i]
  {
    var p, q := PathsOf(w, req, opts, a), PathsOf(w, req, opts, b);
    ScriptSlices(req, p);
    ScriptSlices(req, q);
    assert i < 4 ==> Script(req, p)[0 + i] == Script(req, q)[0 + i];
    assert Script(req, p)[4 + 0] == Script(req, q)[4 + 0];
  }

  /** There is one such run: the pipeline's. */
  lemma RunIsUnique(w: World, req: AgentRequest, opts: Options, ran: seq<Ran>)
    ensures IsRun(w, req, opts, ran) <==> ran == Pipeline(w, req, opts).ran
  {
    PipelineFollowsScript(w, req, opts);
    var own := Pipeline(w, req, opts).ran;
    if IsRun(w, req, opts, ran) {
      forall i | 0 <= i < |own| && i < |ran|
        ensures own[i] == ran[i]
      {
        if i >= 5 {
          SamePrefix(w, req, opts, own, ran, 4);
        }
        SamePrefix(w, req, opts, own, ran, i);
      }
      SameLength(w, req, opts, own, ran);
    }
  }

  lemma NotShorter(w: World, req: AgentRequest, opts: Options, a: seq<Ran>, b: seq<Ran>)
    requires IsRun(w, req, opts, a) && IsRun(w, req, opts, b)
    requires forall i :: 0 <= i < |a| && i < |b| ==> a[i] == b[i]
    ensures |a| >= |b|
  {
    var last := |a| - 1;
    if last < |b| && StopsAfter(w, req, opts, a, last) {
      assert StopsAfter(w, req, opts, b, last);
    }
  }

  lemma SameLength(w: World, req: AgentRequest, opts: Options, a: seq<Ran>, b: seq<Ran>)
    requires IsRun(w, req, opts, a) && IsRun(w, req, opts, b)
    requires forall i :: 0 <= i < |a| && i < |b| ==> a[i] == b[i]
    ensures a == b
  {
    NotShorter(w, req, opts, a, b);
    NotShorter(w, req, opts, b, a);
  }

  ghost predicate Pushes(ran: seq<Ran>) {
    exists i :: 0 <= i < |ran| && ran[i].command.GitPush?
  }

  /** The branch is pushed iff codex did not refuse, the changed paths are some
      and all allowed, and every command before the push passed, among them
      all required ones. */
  lemma PushIsGuarded(w: World, req: AgentRequest, opts: Options)
    ensures var ran := Pipeline(w, req, opts).ran;
      var before := 8 + |req.requiredCommands|;
      Pushes(ran) <==>
        && |ran| >= before && AllPassed(ran[..before])
        && !CodexRefused(w, ran[3].result)
        && PathsAllowed(req, PathsOf(w, req, opts, ran))
  {
    PipelineFollowsScript(w, req, opts);
    var ran := Pipeline(w, req, opts).ran;
    var before := 8 + |req.requiredCommands|;
    var paths := PathsOf(w, req, opts, ran);
    PushPosition(req, paths);
    if Pushes(ran) {
      var i :| 0 <= i < |ran| && ran[i].command.GitPush?;
      assert i == before;
      assert !StopsAfter(w, req, opts, ran, 3) && !StopsAfter(w, req, opts, ran, 4);
      forall k | 0 <= k < before
        ensures ran[k].result.exitCode == 0
      {
        assert !StopsAfter(w, req, opts, ran, k);
      }
    }
    if |ran| >= before && AllPassed(ran[..before]) && !CodexRefused(w, ran[3].result) && PathsAllowed(req, paths) {
      assert ran[before - 1] == ran[..before][before - 1];
      assert !StopsAfter(w, req, opts, ran, before - 1);
      assert ran[before].command == GitPush(req.branch);
    }
  }

  lemma PushPosition(req: AgentRequest, paths: seq<Text>)
    ensures forall i :: 0 <= i < 10 + |req.requiredCommands| ==>
      (Script(req, paths)[i].GitPush? <==> i == 8 + |req.requiredCommands|)
    ensures Script(req, paths)[8 + |req.requiredCommands|] == GitPush(req.branch)
  {
  }

  /** In a run that pushes, exactly the committed paths were added: each is listed by
      the request, and was reported by git status; only when a dry run reports none
      are they the declared files. */
  lemma PushedPathsAreListed(w: World, req: AgentRequest, opts: Options)
    requires Pushes(Pipeline(w, req, opts).ran)
    ensures var ran := Pipeline(w, req, opts).ran;
      && |ran| > 5 && ran[4].command == GitStatusPorcelain && ran[5].command.GitAdd? && ran[5].command.paths != []
      && (forall path :: path in ran[5].command.paths ==> IsListed(path, req.allowedPaths))
      && var reported := w.changedPaths(ran[4].result.stdout);
         && (reported != [] ==> ran[5].command.paths == reported)
         && (reported == [] ==>
               && StartsWith(ran[4].result.stdout, Ascii("dry-run:"))
               && ran[5].command.paths == GetOr(opts.changedFiles, req.expectedArtifacts))
  {
    hide IsListed, IsAllowedWorkerPath, Pipeline, StatusFits, CodexRefused, Pushes;
    PushIsGuarded(w, req, opts);
    PipelineFollowsScript(w, req, opts);
    var ran := Pipeline(w, req, opts).ran;
    var paths := PathsOf(w, req, opts, ran);
    assert Script(req, paths)[4] == GitStatusPorcelain && Script(req, paths)[5] == GitAdd(paths);
    forall path | path in paths
      ensures IsListed(path, req.allowedPaths)
    {
      AllowedIffListed(path, req.allowedPaths);
    }
  }
}
