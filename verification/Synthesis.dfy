/** The bounded synthesis loop and its decision algebra. */
module Synthesis {
  import opened Wrappers

  datatype VerifierDecision = Pass | Patch | Resample | Interrupt | Fail

  datatype TerminalVerdict = VerdictPass | PatchExhausted | ResampleExhausted | VerdictInterrupt | VerdictFail

  datatype Lifecycle = InProgress | Implemented | LifecycleFailed

  datatype DecisionState = DecisionState(
    repairLoopCount: nat,
    resampleBranchCount: nat,
    maxRepairLoops: nat,
    maxResampleBranches: nat,
    lifecycle: Lifecycle)

  function CreateDecisionState(maxRepairLoops: nat, maxResampleBranches: nat): DecisionState {
    DecisionState(0, 0, maxRepairLoops, maxResampleBranches, InProgress)
  }

  function AvailableDecisions(s: DecisionState): set<VerifierDecision> {
    {Pass, Interrupt, Fail}
    + (if s.repairLoopCount < s.maxRepairLoops then {Patch} else {})
    + (if s.resampleBranchCount < s.maxResampleBranches then {Resample} else {})
  }

  function ApplyDecision(s: DecisionState, d: VerifierDecision): (DecisionState, Option<TerminalVerdict>) {
    match d
    case Pass => (s.(lifecycle := Implemented), Some(VerdictPass))
    case Patch =>
      if Patch !in AvailableDecisions(s) then (s, Some(PatchExhausted))
      else (s.(repairLoopCount := s.repairLoopCount + 1), None)
    case Resample =>
      if Resample !in AvailableDecisions(s) then (s, Some(ResampleExhausted))
      else (s.(resampleBranchCount := s.resampleBranchCount + 1), None)
    case Interrupt => (s.(lifecycle := LifecycleFailed), Some(VerdictInterrupt))
    case Fail => (s.(lifecycle := LifecycleFailed), Some(VerdictFail))
  }

  /** What the loop applies when the verifier asks for `wanted`. */
  function Clamp(s: DecisionState, wanted: VerifierDecision): VerifierDecision {
    if wanted !in AvailableDecisions(s) && (wanted == Patch || wanted == Resample) then Fail else wanted
  }

  // ----- The binding mode, one call per iteration -----

  type PatchProposal = nat
  type RoleRecord = nat

  datatype Context = Context(
    repairLoopCount: nat, maxRepairLoops: nat, resampleBranchCount: nat, maxResampleBranches: nat,
    previousPatches: Option<seq<PatchProposal>>)

  datatype Output = Output(
    patches: seq<PatchProposal>, decision: VerifierDecision, roles: seq<RoleRecord>, requiresHumanApproval: bool)

  /** The output of the i-th execution in a given context. */
  type BindingMode = (nat, Context) -> Output

  datatype Branch = Branch(index: int, roles: seq<RoleRecord>)

  /** The loop's variables, with the number of finished iterations. */
  datatype Progress = Progress(
    iterations: nat,
    state: DecisionState,
    verdict: Option<TerminalVerdict>,
    patches: seq<PatchProposal>,
    roles: seq<RoleRecord>,
    branches: seq<Branch>,
    requiresHumanApproval: bool)

  function Start(maxRepairLoops: nat, maxResampleBranches: nat): Progress {
    Progress(0, CreateDecisionState(maxRepairLoops, maxResampleBranches), None, [], [], [], false)
  }

  function ContextOf(p: Progress): Context {
    Context(p.state.repairLoopCount, p.state.maxRepairLoops, p.state.resampleBranchCount, p.state.maxResampleBranches,
            if |p.patches| > 0 then Some(p.patches) else None)
  }

  function Iterate(binding: BindingMode, p: Progress): Progress {
    var output := binding(p.iterations, ContextOf(p));
    var decision := Clamp(p.state, output.decision);
    var (state, terminal) := ApplyDecision(p.state, decision);
    Progress(
      p.iterations + 1, state, terminal, output.patches, p.roles + output.roles,
      if decision == Resample then p.branches + [Branch(state.resampleBranchCount - 1, output.roles)] else p.branches,
      p.requiresHumanApproval || output.requiresHumanApproval)
  }

  /** Repairs and resamples still allowed, and whether the loop still runs. */
  function Budget(p: Progress): int {
    if p.verdict.Some? then 0
    else
      1 + p.state.maxRepairLoops - p.state.repairLoopCount
      + p.state.maxResampleBranches - p.state.resampleBranchCount
  }

  ghost predicate WithinBounds(p: Progress) {
    p.state.repairLoopCount <= p.state.maxRepairLoops && p.state.resampleBranchCount <= p.state.maxResampleBranches
  }

  lemma IterateShrinksBudget(binding: BindingMode, p: Progress)
    requires WithinBounds(p) && p.verdict.None?
    ensures WithinBounds(Iterate(binding, p)) && 0 <= Budget(Iterate(binding, p)) < Budget(p)
  {
  }

  ghost function Complete(binding: BindingMode, p: Progress): (done: Progress)
    requires WithinBounds(p)
    ensures done.verdict.Some?
    decreases Budget(p)
  {
    if p.verdict.Some? then p
    else
      IterateShrinksBudget(binding, p);
      Complete(binding, Iterate(binding, p))
  }

  datatype SynthesisRun = SynthesisRun(
    verdict: TerminalVerdict,
    repairLoopCount: nat,
    resampleBranchCount: nat,
    iterations: nat,
    branches: seq<Branch>,
    roles: seq<RoleRecord>,
    emitted: Option<seq<PatchProposal>>,
    requiresHumanApproval: bool)

  /** The result record; patches are handed to the emitter only on a pass. */
  function Summarize(p: Progress): SynthesisRun
    requires p.verdict.Some?
  {
    SynthesisRun(
      p.verdict.value, p.state.repairLoopCount, p.state.resampleBranchCount, p.iterations, p.branches, p.roles,
      if p.verdict.value == VerdictPass then Some(p.patches) else None, p.requiresHumanApproval)
  }

  method Orchestrate(maxRepairLoops: nat, maxResampleBranches: nat, binding: BindingMode) returns (r: SynthesisRun)
    ensures r == Summarize(Complete(binding, Start(maxRepairLoops, maxResampleBranches)))
  {
    var decisionState := CreateDecisionState(maxRepairLoops, maxResampleBranches);
    var allRoleIterations: seq<RoleRecord> := [];
    var allResampleBranches: seq<Branch> := [];
    var latestPatchProposals: seq<PatchProposal> := [];
    var terminalVerdict: Option<TerminalVerdict> := None;
    var requiresHumanApproval := false;
    var iterations: nat := 0;
    ghost var goal := Complete(binding, Start(maxRepairLoops, maxResampleBranches));
    ghost var p := Start(maxRepairLoops, maxResampleBranches);
    while terminalVerdict == None
      invariant p == Progress(iterations, decisionState, terminalVerdict, latestPatchProposals,
                              allRoleIterations, allResampleBranches, requiresHumanApproval)
      invariant WithinBounds(p) && Budget(p) >= 0 && Complete(binding, p) == goal
      decreases Budget(p)
    {
      IterateShrinksBudget(binding, p);
      p := Iterate(binding, p);
      var available := AvailableDecisions(decisionState);
      var output := binding(iterations, Context(
        decisionState.repairLoopCount, decisionState.maxRepairLoops,
        decisionState.resampleBranchCount, decisionState.maxResampleBranches,
        if |latestPatchProposals| > 0 then Some(latestPatchProposals) else None));
      allRoleIterations := allRoleIterations + output.roles;
      latestPatchProposals := output.patches;
      if output.requiresHumanApproval {
        requiresHumanApproval := true;
      }
      var decision := output.decision;
      if decision !in available {
        if decision == Patch {
          decision := Fail;
        } else if decision == Resample {
          decision := Fail;
        }
      }
      var (state, terminal) := ApplyDecision(decisionState, decision);
      decisionState, terminalVerdict := state, terminal;
      if decision == Resample {
        allResampleBranches := allResampleBranches + [Branch(decisionState.resampleBranchCount - 1, output.roles)];
      }
      iterations := iterations + 1;
    }
    var emitted := None;
    if terminalVerdict.value == VerdictPass {
      emitted := Some(latestPatchProposals);
    }
    r := SynthesisRun(terminalVerdict.value, decisionState.repairLoopCount, decisionState.resampleBranchCount,
                      iterations, allResampleBranches, allRoleIterations, emitted, requiresHumanApproval);
  }

  // ----- What every run has in common -----

  /** Loop invariant: iterations so far are the repairs and resamples taken,
      plus the one that ended the loop; branches are numbered in order. */
  ghost predicate Accounted(p: Progress) {
    && WithinBounds(p)
    && p.iterations == p.state.repairLoopCount + p.state.resampleBranchCount + (if p.verdict.Some? then 1 else 0)
    && |p.branches| == p.state.resampleBranchCount
    && (forall i :: 0 <= i < |p.branches| ==> p.branches[i].index == i)
    && (p.verdict.Some? ==> p.verdict.value in {VerdictPass, VerdictInterrupt, VerdictFail})
  }

  lemma IterateAccounts(binding: BindingMode, p: Progress)
    requires Accounted(p) && p.verdict.None?
    ensures Accounted(Iterate(binding, p))
  {
  }

  lemma {:induction false} CompleteAccounts(binding: BindingMode, p: Progress)
    requires Accounted(p)
    ensures Accounted(Complete(binding, p))
    ensures Complete(binding, p).state.maxRepairLoops == p.state.maxRepairLoops
    ensures Complete(binding, p).state.maxResampleBranches == p.state.maxResampleBranches
    decreases Budget(p)
  {
    if p.verdict.Some? {
    } else {
      IterateAccounts(binding, p);
      IterateShrinksBudget(binding, p);
      CompleteAccounts(binding, Iterate(binding, p));
    }
  }

  /** For every binding mode: the number of iterations, the reachable verdicts,
      the numbering of resample branches, and code only on a pass. */
  lemma OrchestrateTerminates(maxRepairLoops: nat, maxResampleBranches: nat, binding: BindingMode)
    ensures var r := Summarize(Complete(binding, Start(maxRepairLoops, maxResampleBranches)));
      && r.iterations == r.repairLoopCount + r.resampleBranchCount + 1
      && r.repairLoopCount <= maxRepairLoops && r.resampleBranchCount <= maxResampleBranches
      && r.verdict != PatchExhausted && r.verdict != ResampleExhausted
      && |r.branches| == r.resampleBranchCount
      && (forall i :: 0 <= i < |r.branches| ==> r.branches[i].index == i)
      && (r.emitted.Some? <==> r.verdict == VerdictPass)
  {
    CompleteAccounts(binding, Start(maxRepairLoops, maxResampleBranches));
  }

  /** The loop's variables after n iterations. */
  ghost function IterateTimes(binding: BindingMode, p: Progress, n: nat): Progress {
    if n == 0 then p else Iterate(binding, IterateTimes(binding, p, n - 1))
  }

  lemma IterateCounts(binding: BindingMode, p: Progress)
    ensures Iterate(binding, p).iterations == p.iterations + 1
  {
  }

  lemma {:induction false} IterateFirst(binding: BindingMode, p: Progress, n: nat)
    ensures IterateTimes(binding, Iterate(binding, p), n) == IterateTimes(binding, p, n + 1)
    ensures IterateTimes(binding, p, n).iterations == p.iterations + n
  {
    hide Iterate;
    if n == 0 {
      assert IterateTimes(binding, p, 0 + 1) == Iterate(binding, IterateTimes(binding, p, 0));
    } else {
      IterateFirst(binding, p, n - 1);
      IterateCounts(binding, IterateTimes(binding, p, n - 1));
    }
  }

  /** A whole run is the iterate that its number of iterations counts, and the
      loop was still running after each smaller number. */
  lemma {:induction false} CompleteIsIterated(binding: BindingMode, p: Progress)
    requires WithinBounds(p)
    ensures var done := Complete(binding, p);
      && p.iterations <= done.iterations
      && done == IterateTimes(binding, p, done.iterations - p.iterations)
      && forall n: nat :: n < done.iterations - p.iterations ==> IterateTimes(binding, p, n).verdict.None?
    decreases Budget(p)
  {
    hide Iterate, WithinBounds, Budget;
    if p.verdict.Some? {
    } else {
      var next := Iterate(binding, p);
      IterateCounts(binding, p);
      IterateShrinksBudget(binding, p);
      CompleteIsIterated(binding, next);
      var done := Complete(binding, p);
      IterateFirst(binding, p, done.iterations - next.iterations);
      forall n: nat | n < done.iterations - p.iterations
        ensures IterateTimes(binding, p, n).verdict.None?
      {
        if n > 0 {
          IterateFirst(binding, p, n - 1);
        }
      }
    }
  }

  /** Before a run ended its counts were within their bounds. */
  lemma {:induction false} IteratesStayWithin(binding: BindingMode, p: Progress, n: nat)
    requires WithinBounds(p) && forall m: nat :: m < n ==> IterateTimes(binding, p, m).verdict.None?
    ensures WithinBounds(IterateTimes(binding, p, n))
    ensures IterateTimes(binding, p, n).state.maxRepairLoops == p.state.maxRepairLoops
    ensures IterateTimes(binding, p, n).state.maxResampleBranches == p.state.maxResampleBranches
  {
    if n == 0 {
    } else {
      IteratesStayWithin(binding, p, n - 1);
      IterateShrinksBudget(binding, IterateTimes(binding, p, n - 1));
    }
  }

  /** The run's state before its last iteration. */
  ghost function BeforeLast(maxRepairLoops: nat, maxResampleBranches: nat, binding: BindingMode): Progress {
    var start := Start(maxRepairLoops, maxResampleBranches);
    var n := Complete(binding, start).iterations;
    IterateTimes(binding, start, if n == 0 then 0 else n - 1)
  }

  lemma LastIteration(binding: BindingMode, before: Progress)
    requires WithinBounds(before)
    ensures var (done, last) := (Iterate(binding, before), binding(before.iterations, ContextOf(before)));
      && (done.verdict == Some(VerdictPass) <==> last.decision == Pass)
      && (done.verdict == Some(VerdictInterrupt) <==> last.decision == Interrupt)
      && (done.verdict == Some(VerdictFail) <==>
            || last.decision == Fail
            || (last.decision == Patch && before.state.repairLoopCount == before.state.maxRepairLoops)
            || (last.decision == Resample && before.state.resampleBranchCount == before.state.maxResampleBranches))
      && done.patches == last.patches
  {
  }

  /** Why a run ended: the verifier's last decision passes, interrupts, or
      either fails or asks for a repair or resample that is used up; the code
      emitted on a pass is the last iteration's. */
  lemma VerdictExplained(maxRepairLoops: nat, maxResampleBranches: nat, binding: BindingMode)
    ensures var done := Complete(binding, Start(maxRepairLoops, maxResampleBranches));
      var before := BeforeLast(maxRepairLoops, maxResampleBranches, binding);
      var last := binding(before.iterations, ContextOf(before));
      && done == Iterate(binding, before) && before.verdict.None? && done.iterations == before.iterations + 1
      && (done.verdict == Some(VerdictPass) <==> last.decision == Pass)
      && (done.verdict == Some(VerdictInterrupt) <==> last.decision == Interrupt)
      && (done.verdict == Some(VerdictFail) <==>
            || last.decision == Fail
            || (last.decision == Patch && before.state.repairLoopCount == maxRepairLoops)
            || (last.decision == Resample && before.state.resampleBranchCount == maxResampleBranches))
      && done.patches == last.patches
  {
    hide Iterate, Complete, ContextOf;
    var start := Start(maxRepairLoops, maxResampleBranches);
    var n := Complete(binding, start).iterations;
    CompleteIsIterated(binding, start);
    IterateFirst(binding, start, n - 1);
    IteratesStayWithin(binding, start, n - 1);
    LastIteration(binding, IterateTimes(binding, start, n - 1));
  }

  /** Unclamped decisions do reach the exhausted verdicts. */
  lemma ExhaustedIff(s: DecisionState, d: VerifierDecision)
    ensures ApplyDecision(s, d).1 == Some(PatchExhausted) <==> d == Patch && s.repairLoopCount >= s.maxRepairLoops
    ensures ApplyDecision(s, d).1 == Some(ResampleExhausted)
       <==> d == Resample && s.resampleBranchCount >= s.maxResampleBranches
    ensures ApplyDecision(s, Clamp(s, d)).1 !in {Some(PatchExhausted), Some(ResampleExhausted)}
  {
  }
}
