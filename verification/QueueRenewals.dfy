/** Heartbeats of interleaved workers: when none of them moves an expiry back. */
module QueueRenewals {
  import opened Wrappers
  import opened LeaseQueue
  import opened LeaseQueueLaws
  import opened QueueRaces
  import opened QueueDiscipline

  ghost predicate MonotoneTurns(turns: seq<Turn>) {
    forall i, j :: 0 <= i < j < |turns| ==> turns[i].e.now <= turns[j].e.now
  }

  ghost predicate OneLease(turns: seq<Turn>, leaseMs: nat) {
    forall i :: 0 <= i < |turns| ==> turns[i].e.leaseMs == leaseMs
  }

  function LastNow(turns: seq<Turn>): nat {
    if turns == [] then 0 else turns[|turns| - 1].e.now
  }

  // ----- No expiry is further away than one lease -----

  ghost predicate ClaimsNear(s: Store, now: nat, leaseMs: nat) {
    forall k :: k in s.claims ==> s.claims[k].leaseExpiresAt <= now + leaseMs
  }

  /** The claim that a worker has made for a file, from an earlier reading of its
      clock. */
  function MadeClaim(pc: Pc): Option<Claim> {
    match pc
    case CreateClaim(_, _, _, claim) => Some(claim)
    case ReadClaim(_, _, _, claim) => Some(claim)
    case CheckClaim(_, _, _, claim, _) => Some(claim)
    case Overwrite(claim, _, _) => Some(claim)
    case WriteHeartbeat(_, updated) => Some(updated)
    case _ => None
  }

  ghost predicate PcNear(pc: Pc, now: nat, leaseMs: nat) {
    && (MadeClaim(pc).Some? ==> MadeClaim(pc).value.leaseExpiresAt <= now + leaseMs)
    && (pc.Overwrite? ==> pc.checkedAt <= now)
  }

  ghost predicate AllNear(y: System, now: nat, leaseMs: nat) {
    ClaimsNear(y.files, now, leaseMs) && forall w :: 0 <= w < |y.workers| ==> PcNear(y.workers[w], now, leaseMs)
  }

  lemma StepNear(s: Store, pc: Pc, e: Env, before: nat)
    requires ClaimsNear(s, before, e.leaseMs) && PcNear(pc, before, e.leaseMs) && before <= e.now
    ensures var (s', pc') := Step(s, pc, e); ClaimsNear(s', e.now, e.leaseMs) && PcNear(pc', e.now, e.leaseMs)
  {
  }

  lemma NextNear(y: System, t: Turn, before: nat)
    requires AllNear(y, before, t.e.leaseMs) && before <= t.e.now
    ensures AllNear(Next(y, t), t.e.now, t.e.leaseMs)
  {
    if t.w < |y.workers| {
      hide Step;
      StepNear(y.files, y.workers[t.w], t.e, before);
    }
  }

  lemma {:induction false} RunIsNear(n: nat, turns: seq<Turn>, leaseMs: nat)
    requires MonotoneTurns(turns) && OneLease(turns, leaseMs)
    ensures AllNear(RunAll(n, turns), LastNow(turns), leaseMs)
  {
    if turns == [] {
    } else {
      var init := turns[..|turns| - 1];
      RunIsNear(n, init, leaseMs);
      NextNear(RunAll(n, init), turns[|turns| - 1], LastNow(init));
    }
  }

  // ----- Racing renewals -----

  /** One worker is about to write a claim that runs out later than the one that
      another is about to write to the same file as a heartbeat. */
  predicate Overtakes(p: Pc, q: Pc) {
    && q.WriteHeartbeat? && WriteDue(p).Some? && WriteDue(p).value.key == SanitizeId(q.id)
    && WriteDue(p).value.claim.leaseExpiresAt > q.updated.leaseExpiresAt
  }

  ghost predicate RivalRenewals(y: System) {
    exists v, w :: 0 <= v < |y.workers| && 0 <= w < |y.workers| && v != w && Overtakes(y.workers[v], y.workers[w])
  }

  /** The heartbeat that a worker is about to write does not move the expiry back. */
  ghost predicate Prolongs(s: Store, pc: Pc) {
    pc.WriteHeartbeat? && SanitizeId(pc.id) in s.claims ==>
      s.claims[SanitizeId(pc.id)].leaseExpiresAt <= pc.updated.leaseExpiresAt
  }

  ghost predicate RenewalsProlong(y: System) {
    forall w :: 0 <= w < |y.workers| ==> Prolongs(y.files, y.workers[w])
  }

  lemma StepProlongs(s: Store, pc: Pc, e: Env)
    requires ClaimsNear(s, e.now, e.leaseMs)
    ensures var (s', pc') := Step(s, pc, e); Prolongs(s', pc')
  {
  }

  lemma OthersStillProlong(y: System, t: Turn, w: nat)
    requires RenewalsProlong(y) && FilesStay(y) && !RivalRenewals(y)
    requires t.w < |y.workers| && w < |y.workers| && w != t.w
    ensures Prolongs(Next(y, t).files, y.workers[w])
  {
    hide Step;
    var p, q := y.workers[t.w], y.workers[w];
    StepClaims(y.files, p, t.e);
    assert Prolongs(y.files, q) && FileStays(y.files, q);
    assert !Overtakes(p, q);
  }

  lemma NextProlongs(y: System, t: Turn)
    requires RenewalsProlong(y) && FilesStay(y) && !RivalRenewals(y) && ClaimsNear(y.files, t.e.now, t.e.leaseMs)
    ensures RenewalsProlong(Next(y, t))
  {
    if t.w < |y.workers| {
      hide Step, Prolongs, ClaimsNear;
      var y' := Next(y, t);
      StepProlongs(y.files, y.workers[t.w], t.e);
      forall w | 0 <= w < |y'.workers|
        ensures Prolongs(y'.files, y'.workers[w])
      {
        if w != t.w {
          OthersStillProlong(y, t, w);
        }
      }
    }
  }

  ghost predicate NoRivalRenewals(n: nat, turns: seq<Turn>) {
    forall k :: 0 <= k <= |turns| ==> !RivalRenewals(RunAll(n, turns[..k]))
  }

  /** With a monotone clock and one lease time, and while no such pair of writes is
      due, no heartbeat moves an expiry back. */
  lemma {:induction false} HeartbeatsProlong(n: nat, turns: seq<Turn>, leaseMs: nat)
    requires forall k :: 0 <= k < |turns| ==> !RivalRenewals(RunAll(n, turns[..k]))
    requires MonotoneTurns(turns) && OneLease(turns, leaseMs)
    ensures RenewalsProlong(RunAll(n, turns))
  {
    if turns == [] {
    } else {
      var init, t := turns[..|turns| - 1], turns[|turns| - 1];
      forall k | 0 <= k < |init|
        ensures !RivalRenewals(RunAll(n, init[..k]))
      {
        assert init[..k] == turns[..k];
      }
      HeartbeatsProlong(n, init, leaseMs);
      FilesAlwaysStay(n, init);
      RunIsNear(n, init, leaseMs);
      assert !RivalRenewals(RunAll(n, turns[..|turns| - 1]));
      NextProlongs(RunAll(n, init), t);
    }
  }

  /** From every state with such a pair due, the later claim can be written first;
      then the heartbeat will move its expiry back. */
  lemma RenewalOvertaken(y: System, v: nat, w: nat, t: Turn)
    requires v < |y.workers| && w < |y.workers| && v != w && Overtakes(y.workers[v], y.workers[w]) && t.w == v
    ensures !Prolongs(Next(y, t).files, Next(y, t).workers[w])
  {
    StepClaims(y.files, y.workers[v], t.e);
  }

  ghost predicate ProlongAfter(n: nat, turns: seq<Turn>, t: Turn) {
    RenewalsProlong(RunAll(n, turns + [t]))
  }

  /** At no moment of a schedule is such a pair of writes due iff at no moment any
      further step leaves a heartbeat that would move an expiry back. */
  lemma RenewalSafeIff(n: nat, turns: seq<Turn>, leaseMs: nat)
    requires MonotoneTurns(turns) && OneLease(turns, leaseMs)
    ensures NoRivalRenewals(n, turns) <==>
      forall k, t: Turn :: 0 <= k <= |turns| && LastNow(turns[..k]) <= t.e.now && t.e.leaseMs == leaseMs ==>
        ProlongAfter(n, turns[..k], t)
  {
    if NoRivalRenewals(n, turns) {
      forall k, t: Turn | 0 <= k <= |turns| && LastNow(turns[..k]) <= t.e.now && t.e.leaseMs == leaseMs
        ensures ProlongAfter(n, turns[..k], t)
      {
        StepStillProlongs(n, turns, k, t);
      }
    } else {
      var k :| 0 <= k <= |turns| && RivalRenewals(RunAll(n, turns[..k]));
      var y := RunAll(n, turns[..k]);
      var v, w :| 0 <= v < |y.workers| && 0 <= w < |y.workers| && v != w && Overtakes(y.workers[v], y.workers[w]);
      var t := Turn(v, Env(OpClaim, LastNow(turns[..k]), [], leaseMs, {}));
      RenewalOvertaken(y, v, w, t);
      RunAllSnoc(n, turns[..k], t);
      assert !ProlongAfter(n, turns[..k], t);
    }
  }

  lemma StepStillProlongs(n: nat, turns: seq<Turn>, k: nat, t: Turn)
    requires MonotoneTurns(turns) && NoRivalRenewals(n, turns) && k <= |turns|
    requires OneLease(turns, t.e.leaseMs) && LastNow(turns[..k]) <= t.e.now
    ensures ProlongAfter(n, turns[..k], t)
  {
    forall j | 0 <= j < k
      ensures !RivalRenewals(RunAll(n, turns[..k][..j]))
    {
      assert turns[..k][..j] == turns[..j];
    }
    HeartbeatsProlong(n, turns[..k], t.e.leaseMs);
    FilesAlwaysStay(n, turns[..k]);
    RunIsNear(n, turns[..k], t.e.leaseMs);
    RunAllSnoc(n, turns[..k], t);
    NextProlongs(RunAll(n, turns[..k]), t);
  }
}
