/** What a synthesis run tells the binding mode, and what it records of its
    iterations. */
module SynthesisLaws {
  import opened Wrappers
  import opened Synthesis

  /** What the binding mode gives in iteration k. */
  ghost function OutputAt(binding: BindingMode, start: Progress, k: nat): Output {
    var p := IterateTimes(binding, start, k);
    binding(p.iterations, ContextOf(p))
  }

  /** The roles of the first n iterations, in order. */
  ghost function RolesOf(binding: BindingMode, start: Progress, n: nat): seq<RoleRecord> {
    if n == 0 then [] else RolesOf(binding, start, n - 1) + OutputAt(binding, start, n - 1).roles
  }

  /** Some of the first n iterations required approval. */
  ghost predicate ApprovalAsked(binding: BindingMode, start: Progress, n: nat) {
    exists k: nat :: k < n && OutputAt(binding, start, k).requiresHumanApproval
  }

  lemma NoApproval(binding: BindingMode, start: Progress)
    ensures !ApprovalAsked(binding, start, 0)
  {
  }

  lemma ApprovalStep(binding: BindingMode, start: Progress, n: nat)
    ensures ApprovalAsked(binding, start, n + 1)
       <==> ApprovalAsked(binding, start, n) || OutputAt(binding, start, n).requiresHumanApproval
  {
    if OutputAt(binding, start, n).requiresHumanApproval {
      assert ApprovalAsked(binding, start, n + 1);
    }
  }

  lemma IterationRecords(binding: BindingMode, start: Progress, n: nat)
    ensures var (p, q) := (IterateTimes(binding, start, n), IterateTimes(binding, start, n + 1));
      var output := OutputAt(binding, start, n);
      && (q.requiresHumanApproval <==> p.requiresHumanApproval || output.requiresHumanApproval)
      && q.roles == p.roles + output.roles && q.patches == output.patches
  {
  }

  /** After n iterations: approval is required iff some of them required it, the roles
      are those of all of them in order, and the patches are those of the last. */
  lemma {:induction false} IterationsRecorded(binding: BindingMode, start: Progress, n: nat)
    requires !start.requiresHumanApproval && start.roles == [] && start.patches == []
    ensures var p := IterateTimes(binding, start, n);
      && (p.requiresHumanApproval <==> ApprovalAsked(binding, start, n))
      && p.roles == RolesOf(binding, start, n)
      && p.patches == (if n == 0 then [] else OutputAt(binding, start, n - 1).patches)
  {
    hide Iterate, ApprovalAsked, OutputAt;
    if n == 0 {
      NoApproval(binding, start);
    } else {
      IterationsRecorded(binding, start, n - 1);
      ApprovalStep(binding, start, n - 1);
      IterationRecords(binding, start, n - 1);
    }
  }

  /** The run is not over after n iterations. */
  ghost predicate GoesOn(binding: BindingMode, start: Progress, n: nat) {
    forall k: nat :: k <= n ==> IterateTimes(binding, start, k).verdict.None?
  }

  lemma WentOn(binding: BindingMode, start: Progress, n: nat)
    requires GoesOn(binding, start, n + 1)
    ensures GoesOn(binding, start, n) && Iterate(binding, IterateTimes(binding, start, n)).verdict.None?
    ensures IterateTimes(binding, start, n + 1) == Iterate(binding, IterateTimes(binding, start, n))
  {
    hide Iterate;
    assert IterateTimes(binding, start, n + 1).verdict.None?;
  }

  /** The iterations below n in which the verifier asked for d. */
  ghost function Asked(binding: BindingMode, start: Progress, n: nat, d: VerifierDecision): set<nat> {
    set k: nat | k < n && OutputAt(binding, start, k).decision == d
  }

  lemma AskedStep(binding: BindingMode, start: Progress, n: nat, d: VerifierDecision)
    ensures |Asked(binding, start, n + 1, d)|
         == |Asked(binding, start, n, d)| + (if OutputAt(binding, start, n).decision == d then 1 else 0)
  {
    var before := Asked(binding, start, n, d);
    if OutputAt(binding, start, n).decision == d {
      assert Asked(binding, start, n + 1, d) == before + {n};
    } else {
      assert Asked(binding, start, n + 1, d) == before;
    }
  }

  /** One more iteration of a run that goes on. */
  lemma OneIteration(binding: BindingMode, start: Progress, n: nat)
    requires GoesOn(binding, start, n + 1)
    ensures var (p, q) := (IterateTimes(binding, start, n), IterateTimes(binding, start, n + 1));
      var output := OutputAt(binding, start, n);
      && GoesOn(binding, start, n)
      && (output.decision == Patch || output.decision == Resample)
      && q.state == p.state.(
           repairLoopCount := p.state.repairLoopCount + (if output.decision == Patch then 1 else 0),
           resampleBranchCount := p.state.resampleBranchCount + (if output.decision == Resample then 1 else 0))
      && q.branches == p.branches
           + (if output.decision == Resample then [Branch(p.state.resampleBranchCount, output.roles)] else [])
  {
    WentOn(binding, start, n);
  }

  /** As long as a run goes on, every iteration asked for a repair or a resample, and
      the counts are how often each was asked for. */
  lemma {:induction false} CountsAreDecisions(binding: BindingMode, maxRepairLoops: nat, maxResampleBranches: nat,
                                              n: nat)
    requires GoesOn(binding, Start(maxRepairLoops, maxResampleBranches), n)
    ensures var start := Start(maxRepairLoops, maxResampleBranches);
      var state := IterateTimes(binding, start, n).state;
      && state.repairLoopCount == |Asked(binding, start, n, Patch)|
      && state.resampleBranchCount == |Asked(binding, start, n, Resample)|
      && state.repairLoopCount + state.resampleBranchCount == n
      && state.maxRepairLoops == maxRepairLoops && state.maxResampleBranches == maxResampleBranches
  {
    hide Iterate, GoesOn, Asked, OutputAt;
    var start := Start(maxRepairLoops, maxResampleBranches);
    if n == 0 {
      NoneAsked(binding, start);
    } else {
      hide IterateTimes;
      OneIteration(binding, start, n - 1);
      CountsAreDecisions(binding, maxRepairLoops, maxResampleBranches, n - 1);
      AskedStep(binding, start, n - 1, Patch);
      AskedStep(binding, start, n - 1, Resample);
    }
  }

  lemma NoneAsked(binding: BindingMode, start: Progress)
    ensures forall d :: Asked(binding, start, 0, d) == {}
  {
  }

  /** What the binding mode is told in iteration n of a run that still goes on: its
      number, how often repairs and resamples were asked for, both bounds, and the
      patches of the iteration before if there were any. */
  lemma ContextTells(binding: BindingMode, maxRepairLoops: nat, maxResampleBranches: nat, n: nat)
    requires GoesOn(binding, Start(maxRepairLoops, maxResampleBranches), n)
    ensures var start := Start(maxRepairLoops, maxResampleBranches);
      var previous := if n == 0 then [] else OutputAt(binding, start, n - 1).patches;
      OutputAt(binding, start, n) ==
        binding(n, Context(|Asked(binding, start, n, Patch)|, maxRepairLoops,
                           |Asked(binding, start, n, Resample)|, maxResampleBranches,
                           if previous == [] then None else Some(previous)))
  {
    hide Iterate, IterateTimes, GoesOn, Asked;
    var start := Start(maxRepairLoops, maxResampleBranches);
    CountsAreDecisions(binding, maxRepairLoops, maxResampleBranches, n);
    IterationsRecorded(binding, start, n);
    IterateFirst(binding, start, n);
  }

  /** The branches are the resamples, in order, each with the roles of its
      iteration. */
  ghost predicate BranchesAreResamples(binding: BindingMode, start: Progress, n: nat, branches: seq<Branch>) {
    forall k: nat :: k < n && OutputAt(binding, start, k).decision == Resample ==> IsBranch(binding, start, k, branches)
  }

  ghost predicate IsBranch(binding: BindingMode, start: Progress, k: nat, branches: seq<Branch>) {
    var i := |Asked(binding, start, k, Resample)|;
    i < |branches| && branches[i] == Branch(i, OutputAt(binding, start, k).roles)
  }

  lemma {:induction false} BranchesRecorded(binding: BindingMode, maxRepairLoops: nat, maxResampleBranches: nat,
                                            n: nat)
    requires GoesOn(binding, Start(maxRepairLoops, maxResampleBranches), n)
    ensures var start := Start(maxRepairLoops, maxResampleBranches);
      var p := IterateTimes(binding, start, n);
      |p.branches| == p.state.resampleBranchCount && BranchesAreResamples(binding, start, n, p.branches)
  {
    hide Iterate, GoesOn, Asked, OutputAt, BranchesAreResamples;
    var start := Start(maxRepairLoops, maxResampleBranches);
    if n == 0 {
      NoBranches(binding, start);
    } else {
      hide IterateTimes;
      OneIteration(binding, start, n - 1);
      BranchesRecorded(binding, maxRepairLoops, maxResampleBranches, n - 1);
      CountsAreDecisions(binding, maxRepairLoops, maxResampleBranches, n - 1);
      var before, after := IterateTimes(binding, start, n - 1), IterateTimes(binding, start, n);
      BranchStep(binding, start, n - 1, before.branches, after.branches);
    }
  }

  lemma NoBranches(binding: BindingMode, start: Progress)
    ensures BranchesAreResamples(binding, start, 0, [])
  {
  }

  lemma BranchStep(binding: BindingMode, start: Progress, n: nat, before: seq<Branch>, after: seq<Branch>)
    requires BranchesAreResamples(binding, start, n, before) && |before| == |Asked(binding, start, n, Resample)|
    requires var output := OutputAt(binding, start, n);
      after == before + (if output.decision == Resample then [Branch(|before|, output.roles)] else [])
    ensures BranchesAreResamples(binding, start, n + 1, after)
  {
    hide Asked, OutputAt;
    forall k: nat | k < n + 1 && OutputAt(binding, start, k).decision == Resample
      ensures IsBranch(binding, start, k, after)
    {
      if k < n {
        assert IsBranch(binding, start, k, before);
      }
    }
  }

  /** The record of a whole run: approval iff some iteration required it, and the
      roles of all iterations in order. */
  lemma RunRecorded(maxRepairLoops: nat, maxResampleBranches: nat, binding: BindingMode)
    ensures var start := Start(maxRepairLoops, maxResampleBranches);
      var r := Summarize(Complete(binding, start));
      && (r.requiresHumanApproval <==> ApprovalAsked(binding, start, r.iterations))
      && r.roles == RolesOf(binding, start, r.iterations)
      && (r.verdict == VerdictPass ==>
            r.iterations > 0 && r.emitted == Some(OutputAt(binding, start, r.iterations - 1).patches))
  {
    hide Iterate, Complete, ContextOf, OutputAt, ApprovalAsked, RolesOf;
    var start := Start(maxRepairLoops, maxResampleBranches);
    CompleteIsIterated(binding, start);
    CompleteAccounts(binding, start);
    IterationsRecorded(binding, start, Complete(binding, start).iterations);
  }

  /** The lifecycle says where the verdict stands: implemented after a pass, failed after
      an interrupt or a failure, and in progress without a verdict. */
  predicate LifecycleFits(p: Progress) {
    match p.verdict
    case None => p.state.lifecycle == InProgress
    case Some(VerdictPass) => p.state.lifecycle == Implemented
    case Some(_) => p.state.lifecycle == LifecycleFailed
  }

  lemma IterateFits(binding: BindingMode, p: Progress)
    requires LifecycleFits(p) && p.verdict.None?
    ensures LifecycleFits(Iterate(binding, p))
  {
  }

  /** Every run ends with the lifecycle of its verdict. */
  lemma {:induction false} RunFitsLifecycle(binding: BindingMode, p: Progress)
    requires WithinBounds(p) && LifecycleFits(p)
    ensures LifecycleFits(Complete(binding, p))
    decreases Budget(p)
  {
    if p.verdict.None? {
      IterateShrinksBudget(binding, p);
      IterateFits(binding, p);
      RunFitsLifecycle(binding, Iterate(binding, p));
    }
  }
}
