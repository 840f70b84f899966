/** The pipeline that turns a claimed request into a pull request. */
module RunnerPipeline {
  import opened Wrappers
  import opened Texts
  import opened LeaseQueue

  // ----- Requests, commands, executors -----

  datatype BranchMode = NewPrBranch | OtherBranchMode(name: Text)

  datatype AutonomyMode = BranchPr | MultiAgentPr | OtherAutonomyMode(name: Text)

  datatype AgentRequest = AgentRequest(
    id: Text, base: Text, branch: Text, branchMode: BranchMode, autonomyMode: AutonomyMode, prompt: Text,
    allowedPaths: seq<Text>, requiredCommands: seq<Text>, expectedArtifacts: seq<Text>)

  datatype Command =
    | GitFetch(base: Text)
    | GitSwitch(branch: Text, base: Text)
    | GitStatusShort
    | Codex(prompt: Text)
    | GitStatusPorcelain
    | GitAdd(paths: seq<Text>)
    | GitCommit(requestId: Text)
    | GitShowHead
    | Shell(text: Text)
    | GitPush(branch: Text)
    | GhPrCreate(base: Text, branch: Text)

  datatype CommandResult = CommandResult(exitCode: int, stdout: Text, stderr: Text)

  /** Runs a command; the first argument counts the commands run before, so the
      answer may depend on everything that has happened. */
  type Executor = (nat, Command) -> CommandResult

  datatype Ran = Ran(command: Command, result: CommandResult)

  /** What the pipeline meets: two executors and the two text readers that work
      with regular expressions. */
  datatype World = World(
    codex: Executor, repo: Executor,
    refusalReason: CommandResult -> Option<Text>, changedPaths: Text -> seq<Text>)

  /** What the caller passes for the result; the time is missing when it cannot
      be read as one. */
  datatype Options = Options(
    changedFiles: Option<seq<Text>>, resultId: Text, agentRunId: Text, completedAt: Option<nat>)

  // ----- Path policy -----

  predicate EndsWith(t: Text, suffix: Text) {
    |suffix| <= |t| && t[|t| - |suffix|..] == suffix
  }

  const SLASH: CodeUnit := 47
  const STAR: CodeUnit := 42

  predicate PatternAllows(pattern: Text, path: Text) {
    if EndsWith(pattern, [SLASH, STAR, STAR]) then StartsWith(path, pattern[..|pattern| - 3])
    else if EndsWith(pattern, [SLASH, STAR]) then
      var prefix := pattern[..|pattern| - 1];
      StartsWith(path, prefix) && SLASH !in path[|prefix|..]
    else path == pattern
  }

  predicate IsAllowedWorkerPath(path: Text, allowedPaths: seq<Text>) {
    exists pattern :: pattern in allowedPaths && PatternAllows(pattern, path)
  }

  // The directory, a slash and a star allow exactly the files of the directory.
  lemma StarAllowsFiles(dir: Text, path: Text)
    ensures PatternAllows(dir + [SLASH, STAR], path)
       <==> exists name: Text :: path == dir + [SLASH] + name && SLASH !in name
  {
    var pattern := dir + [SLASH, STAR];
    var prefix := dir + [SLASH];
    assert pattern[|dir|..] == [SLASH, STAR] && pattern[..|pattern| - 1] == prefix;
    assert pattern[|pattern| - 2] == SLASH;
    if PatternAllows(pattern, path) {
      assert path == dir + [SLASH] + path[|prefix|..];
    }
    if name: Text :| path == dir + [SLASH] + name && SLASH !in name {
      assert path[..|prefix|] == prefix && path[|prefix|..] == name;
    }
  }

  // The directory, a slash and two stars allow every path that begins with the
  // directory's text; such a path is the directory or lies in it iff nothing or
  // a slash comes next.
  lemma DoubleStarAllows(dir: Text, rest: Text, path: Text)
    ensures PatternAllows(dir + [SLASH, STAR, STAR], path) <==> exists tail: Text :: path == dir + tail
    ensures PatternAllows(dir + [SLASH, STAR, STAR], dir + rest)
    ensures (dir + rest == dir || StartsWith(dir + rest, dir + [SLASH])) <==> (rest == [] || rest[0] == SLASH)
  {
    var pattern := dir + [SLASH, STAR, STAR];
    assert pattern[|dir|..] == [SLASH, STAR, STAR] && pattern[..|pattern| - 3] == dir;
    if PatternAllows(pattern, path) {
      assert path == dir + path[|dir|..];
    }
    if tail: Text :| path == dir + tail {
      assert path[..|dir|] == dir;
    }
    assert (dir + rest)[..|dir|] == dir;
    if rest != [] {
      assert |dir + rest| >= |dir| + 1;
      assert (dir + rest)[..|dir| + 1] == dir + [rest[0]];
      assert (dir + [SLASH])[|dir|] == SLASH && (dir + [rest[0]])[|dir|] == rest[0];
    }
  }

  /** The path is a listed one, a file of a directory listed with a star, or begins
      with the text of a directory listed with two. */
  ghost predicate IsListed(path: Text, allowedPaths: seq<Text>) {
    || path in allowedPaths
    || (exists dir: Text, name: Text ::
          dir + [SLASH, STAR] in allowedPaths && path == dir + [SLASH] + name && SLASH !in name)
    || (exists dir: Text, tail: Text :: dir + [SLASH, STAR, STAR] in allowedPaths && path == dir + tail)
  }

  lemma AllowsItself(path: Text, allowedPaths: seq<Text>)
    requires path in allowedPaths
    ensures IsAllowedWorkerPath(path, allowedPaths)
  {
    if EndsWith(path, [SLASH, STAR, STAR]) {
    } else if EndsWith(path, [SLASH, STAR]) {
      var prefix := path[..|path| - 1];
      assert path[|prefix|..] == path[|path| - 2..][1..];
    }
    assert PatternAllows(path, path);
  }

  lemma ListedByPattern(path: Text, pattern: Text, allowedPaths: seq<Text>)
    requires pattern in allowedPaths && PatternAllows(pattern, path)
    ensures IsListed(path, allowedPaths)
  {
    if EndsWith(pattern, [SLASH, STAR, STAR]) {
      var dir := pattern[..|pattern| - 3];
      assert pattern == dir + [SLASH, STAR, STAR];
      DoubleStarAllows(dir, [], path);
    } else if EndsWith(pattern, [SLASH, STAR]) {
      var dir := pattern[..|pattern| - 2];
      assert pattern == dir + [SLASH, STAR];
      StarAllowsFiles(dir, path);
    }
  }

  /** A worker may change exactly the listed paths. */
  lemma AllowedIffListed(path: Text, allowedPaths: seq<Text>)
    ensures IsAllowedWorkerPath(path, allowedPaths) <==> IsListed(path, allowedPaths)
  {
    if IsAllowedWorkerPath(path, allowedPaths) {
      var pattern :| pattern in allowedPaths && PatternAllows(pattern, path);
      ListedByPattern(path, pattern, allowedPaths);
    } else {
      if path in allowedPaths {
        AllowsItself(path, allowedPaths);
      }
      if dir: Text, name: Text :|
        dir + [SLASH, STAR] in allowedPaths && path == dir + [SLASH] + name && SLASH !in name {
        StarAllowsFiles(dir, path);
      }
      if dir: Text, tail: Text :| dir + [SLASH, STAR, STAR] in allowedPaths && path == dir + tail {
        DoubleStarAllows(dir, [], path);
      }
    }
  }

  /** Without stars that is the listed paths themselves. */
  lemma PlainPathsAreExact(path: Text, allowedPaths: seq<Text>)
    requires forall pattern :: pattern in allowedPaths ==>
      !EndsWith(pattern, [SLASH, STAR]) && !EndsWith(pattern, [SLASH, STAR, STAR])
    ensures IsAllowedWorkerPath(path, allowedPaths) <==> path in allowedPaths
  {
    if path in allowedPaths {
      AllowsItself(path, allowedPaths);
    }
  }

  // ----- Validation -----

  const DOT: CodeUnit := 46

  const REQUEST_PREFIX: Text := Ascii("AR-")
  const BROAD_PATHS: seq<Text> := [Ascii("."), Ascii("./"), Ascii("*"), Ascii("**"), Ascii("**/*")]

  predicate Blank(t: Text) {
    Trim(t) == []
  }

  /** Neither absolute nor with two dots in a row. */
  predicate IsRelative(path: Text) {
    !StartsWith(path, [SLASH]) && Occurrences(path, [DOT, DOT]) == {}
  }

  /** The fields held here pass the request check; there are allowed paths and
      required commands. */
  predicate RequestValid(req: AgentRequest) {
    && StartsWith(req.id, REQUEST_PREFIX) && !Blank(req.base) && !Blank(req.prompt)
    && req.allowedPaths != [] && req.requiredCommands != []
    && (forall path :: path in req.allowedPaths ==> !Blank(path) && path !in BROAD_PATHS && IsRelative(path))
    && (forall command :: command in req.requiredCommands ==> !Blank(command))
    && (forall path :: path in req.expectedArtifacts ==> !Blank(path) && IsRelative(path))
  }

  // ----- Running commands -----

  /** Runs commands from position i on, up to the first that fails. */
  function RunUntil(x: Executor, n: nat, cs: seq<Command>, i: nat): (ran: seq<Ran>)
    requires i <= |cs|
    ensures |ran| <= |cs| - i
    decreases |cs| - i
  {
    if i == |cs| then []
    else
      var r := Ran(cs[i], x(n + i, cs[i]));
      if r.result.exitCode != 0 then [r] else [r] + RunUntil(x, n, cs, i + 1)
  }

  predicate AllPassed(ran: seq<Ran>) {
    forall i :: 0 <= i < |ran| ==> ran[i].result.exitCode == 0
  }

  function CodexPlan(req: AgentRequest): (plan: seq<Command>)
    ensures |plan| == 4
  {
    [GitFetch(req.base), GitSwitch(req.branch, req.base), GitStatusShort, Codex(req.prompt)]
  }

  predicate PlanAccepted(req: AgentRequest) {
    req.branchMode.NewPrBranch? && (req.autonomyMode.BranchPr? || req.autonomyMode.MultiAgentPr?)
  }

  /** The output gives a reason for a refusal that is not blank. */
  predicate CodexRefused(w: World, r: CommandResult) {
    w.refusalReason(r).Some? && Trim(w.refusalReason(r).value) != []
  }

  /** A reason refuses iff some character of it is no space. */
  lemma RefusedIff(w: World, r: CommandResult)
    ensures CodexRefused(w, r) <==>
      && w.refusalReason(r).Some?
      && exists i :: 0 <= i < |w.refusalReason(r).value| && !IsSpace(w.refusalReason(r).value[i])
  {
    if w.refusalReason(r).Some? {
      var reason := w.refusalReason(r).value;
      var i, j := TrimDropsSpaces(reason);
      assert i < j ==> !IsSpace(reason[i]);
    }
  }

  /** Outcome of a part of the pipeline. */
  datatype Execution = Execution(status: Status, ran: seq<Ran>)

  function CodexRun(w: World, req: AgentRequest): Execution {
    var ran := RunUntil(w.codex, 0, CodexPlan(req), 0);
    if !AllPassed(ran) then Execution(Failed, ran)
    else if |ran| == 4 && CodexRefused(w, ran[3].result) then Execution(Status.Refused, ran)
    else Execution(Completed, ran)
  }

  /** Two sequences of commands run one after the other. */
  lemma RunFrom(x: Executor, n: nat, cs: seq<Command>, i: nat)
    requires i < |cs|
    ensures var r := Ran(cs[i], x(n + i, cs[i]));
      RunUntil(x, n, cs, i) == if r.result.exitCode != 0 then [r] else [r] + RunUntil(x, n, cs, i + 1)
  {
  }

  /** One round of a loop that runs commands and stops at a failure. */
  lemma LoopStep(x: Executor, n: nat, cs: seq<Command>, i: nat, before: seq<Ran>)
    requires i < |cs| && before + RunUntil(x, n, cs, i) == RunUntil(x, n, cs, 0)
    ensures var r := Ran(cs[i], x(n + i, cs[i]));
      if r.result.exitCode != 0 then before + [r] == RunUntil(x, n, cs, 0)
      else (before + [r]) + RunUntil(x, n, cs, i + 1) == RunUntil(x, n, cs, 0)
  {
    var r := Ran(cs[i], x(n + i, cs[i]));
    assert before + ([r] + RunUntil(x, n, cs, i + 1)) == (before + [r]) + RunUntil(x, n, cs, i + 1);
  }

  lemma LoopEnd(x: Executor, n: nat, cs: seq<Command>, ran: seq<Ran>)
    requires ran + RunUntil(x, n, cs, |cs|) == RunUntil(x, n, cs, 0)
    ensures ran == RunUntil(x, n, cs, 0)
  {
  }

  lemma CodexRunIs(w: World, req: AgentRequest, ran: seq<Ran>)
    requires ran == RunUntil(w.codex, 0, CodexPlan(req), 0)
    ensures !AllPassed(ran) ==> CodexRun(w, req) == Execution(Failed, ran)
    ensures AllPassed(ran) && |ran| == 4 ==>
      CodexRun(w, req) == Execution(if CodexRefused(w, ran[3].result) then Status.Refused else Completed, ran)
  {
  }

  method ExecuteCodexRunnerPlan(w: World, req: AgentRequest) returns (e: Execution)
    ensures e == CodexRun(w, req)
  {
    hide *;
    var plan := CodexPlan(req);
    var commands: seq<Ran> := [];
    for i := 0 to |plan|
      invariant |commands| == i && forall j :: 0 <= j < i ==> commands[j].result.exitCode == 0
      invariant commands + RunUntil(w.codex, 0, plan, i) == RunUntil(w.codex, 0, plan, 0)
      invariant i == 4 ==> !CodexRefused(w, commands[3].result)
    {
      var result := w.codex(i, plan[i]);
      LoopStep(w.codex, 0, plan, i, commands);
      commands := commands + [Ran(plan[i], result)];
      if result.exitCode != 0 {
        CodexRunIs(w, req, commands);
        assert !AllPassed(commands) by {
          NotPassed(commands, i);
        }
        return Execution(Failed, commands);
      }
      if i == 3 && CodexRefused(w, result) {
        LoopEnd(w.codex, 0, plan, commands);
        CodexRunIs(w, req, commands);
        Passed(commands);
        return Execution(Status.Refused, commands);
      }
    }
    LoopEnd(w.codex, 0, plan, commands);
    CodexRunIs(w, req, commands);
    Passed(commands);
    e := Execution(Completed, commands);
  }

  lemma NotPassed(ran: seq<Ran>, i: nat)
    requires i < |ran| && ran[i].result.exitCode != 0
    ensures !AllPassed(ran)
  {
  }

  lemma Passed(ran: seq<Ran>)
    requires forall i :: 0 <= i < |ran| ==> ran[i].result.exitCode == 0
    ensures AllPassed(ran)
  {
  }

  // ----- Worker commit -----

  const DRY_RUN: Text := Ascii("dry-run:")

  /** The paths that `git status` reports; a dry run falls back on the declared
      ones. */
  function ChangedPaths(w: World, req: AgentRequest, opts: Options, stdout: Text): seq<Text> {
    var paths := w.changedPaths(stdout);
    if paths == [] && StartsWith(stdout, DRY_RUN) then
      match opts.changedFiles
      case Some(files) => files
      case None => req.expectedArtifacts
    else paths
  }

  predicate PathsAllowed(req: AgentRequest, paths: seq<Text>) {
    paths != [] && forall i :: 0 <= i < |paths| ==> IsAllowedWorkerPath(paths[i], req.allowedPaths)
  }

  function CommitPlan(req: AgentRequest, paths: seq<Text>): (plan: seq<Command>)
    ensures |plan| == 3
  {
    [GitAdd(paths), GitCommit(req.id), GitShowHead]
  }

  function CommitRun(w: World, n: nat, req: AgentRequest, opts: Options): Execution {
    var status := Ran(GitStatusPorcelain, w.repo(n, GitStatusPorcelain));
    var paths := ChangedPaths(w, req, opts, status.result.stdout);
    if status.result.exitCode != 0 || !PathsAllowed(req, paths) then Execution(Failed, [status])
    else
      var ran := RunUntil(w.repo, n + 1, CommitPlan(req, paths), 0);
      Execution(if AllPassed(ran) then Completed else Failed, [status] + ran)
  }

  lemma RunThree(x: Executor, n: nat, a: Command, b: Command, c: Command)
    ensures var (ra, rb, rc) := (Ran(a, x(n, a)), Ran(b, x(n + 1, b)), Ran(c, x(n + 2, c)));
      RunUntil(x, n, [a, b, c], 0) ==
        if ra.result.exitCode != 0 then [ra]
        else if rb.result.exitCode != 0 then [ra, rb]
        else [ra, rb, rc]
  {
    RunFrom(x, n, [a, b, c], 0);
    RunFrom(x, n, [a, b, c], 1);
    RunFrom(x, n, [a, b, c], 2);
  }

  method ExecuteWorkerCommit(w: World, n: nat, req: AgentRequest, opts: Options) returns (e: Execution)
    ensures e == CommitRun(w, n, req, opts)
  {
    var status := w.repo(n, GitStatusPorcelain);
    var commands := [Ran(GitStatusPorcelain, status)];
    if status.exitCode != 0 {
      return Execution(Failed, commands);
    }
    var paths := w.changedPaths(status.stdout);
    if |paths| == 0 && StartsWith(status.stdout, DRY_RUN) {
      paths := match opts.changedFiles { case Some(files) => files case None => req.expectedArtifacts };
    }
    assert paths == ChangedPaths(w, req, opts, status.stdout);
    if |paths| == 0 {
      return Execution(Failed, commands);
    }
    if exists i :: 0 <= i < |paths| && !IsAllowedWorkerPath(paths[i], req.allowedPaths) {
      return Execution(Failed, commands);
    }
    RunThree(w.repo, n + 1, GitAdd(paths), GitCommit(req.id), GitShowHead);
    ghost var plan := RunUntil(w.repo, n + 1, CommitPlan(req, paths), 0);
    var add := w.repo(n + 1, GitAdd(paths));
    commands := commands + [Ran(GitAdd(paths), add)];
    if add.exitCode != 0 {
      assert plan[0].result.exitCode != 0;
      return Execution(Failed, commands);
    }
    var commit := w.repo(n + 2, GitCommit(req.id));
    commands := commands + [Ran(GitCommit(req.id), commit)];
    if commit.exitCode != 0 {
      assert plan[1].result.exitCode != 0;
      return Execution(Failed, commands);
    }
    var diff := w.repo(n + 3, GitShowHead);
    commands := commands + [Ran(GitShowHead, diff)];
    if diff.exitCode != 0 {
      assert plan[2].result.exitCode != 0;
      return Execution(Failed, commands);
    }
    e := Execution(Completed, commands);
  }

  // ----- Required commands -----

  function RequiredPlan(req: AgentRequest): (plan: seq<Command>)
    ensures |plan| == |req.requiredCommands|
  {
    seq(|req.requiredCommands|, i requires 0 <= i < |req.requiredCommands| => Shell(req.requiredCommands[i]))
  }

  method ExecuteRequiredCommands(x: Executor, n: nat, req: AgentRequest) returns (commands: seq<Ran>)
    ensures commands == RunUntil(x, n, RequiredPlan(req), 0)
  {
    var plan := RequiredPlan(req);
    commands := [];
    for i := 0 to |req.requiredCommands|
      invariant commands + RunUntil(x, n, plan, i) == RunUntil(x, n, plan, 0)
    {
      LoopStep(x, n, plan, i, commands);
      var command := Shell(req.requiredCommands[i]);
      var result := x(n + i, command);
      commands := commands + [Ran(command, result)];
      if result.exitCode != 0 {
        return;
      }
    }
    LoopEnd(x, n, plan, commands);
  }

  // ----- Pull request -----

  const HTTPS: Text := Ascii("https://")

  /** The first line that starts with https, if there is one. */
  function FirstUrl(d: Doc): (url: Option<Text>)
    ensures url.Some? <==> exists line :: line in LineSeq(d) && StartsWith(line, HTTPS)
    ensures url.Some? ==> url.value in LineSeq(d) && StartsWith(url.value, HTTPS)
  {
    if StartsWith(d.line, HTTPS) then Some(d.line)
    else match d
      case Last(_) => None
      case More(_, rest) => FirstUrl(rest)
  }

  /** The pull request's address in what `gh pr create` printed. */
  function PrUrl(stdout: Text): Option<Text> {
    FirstUrl(ToDoc(Trim(stdout)))
  }

  lemma {:induction false} FirstUrlIsFirst(d: Doc, k: nat)
    requires k < |LineSeq(d)| && StartsWith(LineSeq(d)[k], HTTPS)
    requires forall i :: 0 <= i < k ==> !StartsWith(LineSeq(d)[i], HTTPS)
    ensures FirstUrl(d) == Some(LineSeq(d)[k])
  {
    if k > 0 {
      var rest := LineSeq(d.rest);
      assert forall i :: 0 <= i < |rest| ==> LineSeq(d)[i + 1] == rest[i];
      assert !StartsWith(LineSeq(d)[0], HTTPS);
      FirstUrlIsFirst(d.rest, k - 1);
    }
  }

  /** The address is the first line of the trimmed output that starts with https; there
      is none iff no line does. */
  lemma PrUrlIs(stdout: Text, k: nat)
    ensures HTTPS == Ascii("https://")
    ensures var lines := LineSeq(ToDoc(Trim(stdout)));
      && (PrUrl(stdout).Some? <==> exists i :: 0 <= i < |lines| && StartsWith(lines[i], HTTPS))
      && (k < |lines| && StartsWith(lines[k], HTTPS) && (forall i :: 0 <= i < k ==> !StartsWith(lines[i], HTTPS)) ==>
            PrUrl(stdout) == Some(lines[k]))
  {
    var d := ToDoc(Trim(stdout));
    var lines := LineSeq(d);
    if PrUrl(stdout).Some? {
      var i :| 0 <= i < |lines| && lines[i] == PrUrl(stdout).value;
    }
    if k < |lines| && StartsWith(lines[k], HTTPS) && forall i :: 0 <= i < k ==> !StartsWith(lines[i], HTTPS) {
      FirstUrlIsFirst(d, k);
    }
  }

  function PrPlan(req: AgentRequest): (plan: seq<Command>)
    ensures |plan| == 2
  {
    [GitPush(req.branch), GhPrCreate(req.base, req.branch)]
  }

  function PrRun(x: Executor, n: nat, req: AgentRequest): (seq<Ran>, Option<Text>) {
    var ran := RunUntil(x, n, PrPlan(req), 0);
    (ran, if AllPassed(ran) && |ran| == 2 then PrUrl(ran[1].result.stdout) else None)
  }

  lemma RunTwo(x: Executor, n: nat, a: Command, b: Command)
    ensures var (ra, rb) := (Ran(a, x(n, a)), Ran(b, x(n + 1, b)));
      RunUntil(x, n, [a, b], 0) == if ra.result.exitCode != 0 then [ra] else [ra, rb]
  {
    RunFrom(x, n, [a, b], 0);
    RunFrom(x, n, [a, b], 1);
  }

  method ExecutePullRequestPlan(x: Executor, n: nat, req: AgentRequest)
    returns (commands: seq<Ran>, prUrl: Option<Text>)
    ensures (commands, prUrl) == PrRun(x, n, req)
  {
    RunTwo(x, n, GitPush(req.branch), GhPrCreate(req.base, req.branch));
    ghost var plan := RunUntil(x, n, PrPlan(req), 0);
    var push := x(n, GitPush(req.branch));
    commands := [Ran(GitPush(req.branch), push)];
    if push.exitCode != 0 {
      NotPassed(commands, 0);
      return commands, None;
    }
    var create := x(n + 1, GhPrCreate(req.base, req.branch));
    commands := commands + [Ran(GhPrCreate(req.base, req.branch), create)];
    if create.exitCode != 0 {
      NotPassed(commands, 1);
      return commands, None;
    }
    assert plan == commands && |plan| == 2 && AllPassed(plan);
    prUrl := PrUrl(create.stdout);
  }

  // ----- The whole pipeline -----

  function Pipeline(w: World, req: AgentRequest, opts: Options): Execution {
    var codex := CodexRun(w, req);
    if codex.status != Completed then codex
    else
      var commit := CommitRun(w, |codex.ran|, req, opts);
      var done := codex.ran + commit.ran;
      if commit.status != Completed then Execution(Failed, done)
      else
        var checks := RunUntil(w.repo, |done|, RequiredPlan(req), 0);
        if !AllPassed(checks) then Execution(Failed, done + checks)
        else
          var (pr, url) := PrRun(w.repo, |done + checks|, req);
          Execution(if url.Some? then Completed else Failed, done + checks + pr)
  }

  method ExecutePipeline(w: World, req: AgentRequest, opts: Options) returns (e: Execution)
    ensures e == Pipeline(w, req, opts)
  {
    e := ExecuteCodexRunnerPlan(w, req);
    if e.status == Completed {
      var commit := ExecuteWorkerCommit(w, |e.ran|, req, opts);
      e := Execution(commit.status, e.ran + commit.ran);
      if e.status != Completed {
        return;
      }
      var checks := ExecuteRequiredCommands(w.repo, |e.ran|, req);
      if exists i :: 0 <= i < |checks| && checks[i].result.exitCode != 0 {
        return Execution(Failed, e.ran + checks);
      }
      e := Execution(Completed, e.ran + checks);
      var pr, url := ExecutePullRequestPlan(w.repo, |e.ran|, req);
      e := Execution(if url.Some? then Completed else Failed, e.ran + pr);
    }
  }
}
