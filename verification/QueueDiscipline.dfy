/** When interleaved workers keep what the atomic queue promises: the exact
    conditions on a schedule. */
module QueueDiscipline {
  import opened Wrappers
  import opened Sequences
  import opened Texts
  import opened LeaseQueue
  import opened LeaseQueueLaws
  import opened QueueRaces

  lemma RunAllSnoc(n: nat, turns: seq<Turn>, t: Turn)
    ensures RunAll(n, turns + [t]) == Next(RunAll(n, turns), t)
  {
    assert (turns + [t])[..|turns|] == turns;
  }

  lemma {:induction false} WorkersStay(n: nat, turns: seq<Turn>)
    ensures |RunAll(n, turns).workers| == n
  {
    if turns == [] {
    } else {
      WorkersStay(n, turns[..|turns| - 1]);
    }
  }

  // ----- Enqueuing -----

  /** Two workers are about to append the same id. */
  ghost predicate RivalAppends(y: System) {
    exists v, w :: 0 <= v < w < |y.workers| && y.workers[v].AppendRequest? && y.workers[w] == y.workers[v]
  }

  /** The enqueued ids are distinct, and those about to be appended are new. */
  ghost predicate AppendsNew(y: System) {
    && Distinct(y.files.requests)
    && forall w :: 0 <= w < |y.workers| && y.workers[w].AppendRequest? ==> y.workers[w].id !in y.files.requests
  }

  lemma StepRequests(s: Store, pc: Pc, e: Env)
    ensures var (s', pc') := Step(s, pc, e);
      && s'.requests == (if pc.AppendRequest? then s.requests + [pc.id] else s.requests)
      && (pc'.AppendRequest? ==> !pc.AppendRequest? && pc'.id !in s.requests)
  {
  }

  lemma NextDistinct(y: System, t: Turn)
    requires AppendsNew(y)
    ensures Distinct(Next(y, t).files.requests)
  {
    if t.w < |y.workers| {
      hide Step;
      var pc := y.workers[t.w];
      StepRequests(y.files, pc, t.e);
      if pc.AppendRequest? {
        DistinctSnoc(y.files.requests, pc.id);
      }
    }
  }

  lemma NextAppendsNew(y: System, t: Turn)
    requires AppendsNew(y) && !RivalAppends(y)
    ensures AppendsNew(Next(y, t))
  {
    NextDistinct(y, t);
    if t.w < |y.workers| {
      hide Step;
      var pc, y' := y.workers[t.w], Next(y, t);
      StepRequests(y.files, pc, t.e);
      forall w | 0 <= w < |y'.workers| && y'.workers[w].AppendRequest?
        ensures y'.workers[w].id !in y'.files.requests
      {
        if w != t.w && pc.AppendRequest? {
          NotRivals(y, w, t.w);
        }
      }
    }
  }

  lemma NotRivals(y: System, v: nat, w: nat)
    requires !RivalAppends(y) && v < |y.workers| && w < |y.workers| && v != w
    requires y.workers[v].AppendRequest? && y.workers[w].AppendRequest?
    ensures y.workers[v].id != y.workers[w].id
  {
    var a, b := if v < w then v else w, if v < w then w else v;
    assert !(y.workers[a].AppendRequest? && y.workers[b] == y.workers[a]);
  }

  ghost predicate NoRivalAppends(n: nat, turns: seq<Turn>) {
    forall k :: 0 <= k <= |turns| ==> !RivalAppends(RunAll(n, turns[..k]))
  }

  lemma {:induction false} AppendsStayNew(n: nat, turns: seq<Turn>)
    requires forall k :: 0 <= k < |turns| ==> !RivalAppends(RunAll(n, turns[..k]))
    ensures AppendsNew(RunAll(n, turns))
  {
    if turns == [] {
    } else {
      var init := turns[..|turns| - 1];
      forall k | 0 <= k < |init|
        ensures !RivalAppends(RunAll(n, init[..k]))
      {
        assert init[..k] == turns[..k];
      }
      AppendsStayNew(n, init);
      assert !RivalAppends(RunAll(n, turns[..|turns| - 1]));
      NextAppendsNew(RunAll(n, init), turns[|turns| - 1]);
    }
  }

  /** While no two workers are about to append one id, no id is enqueued twice. */
  lemma RequestsStayDistinct(n: nat, turns: seq<Turn>)
    requires NoRivalAppends(n, turns)
    ensures Distinct(RunAll(n, turns).files.requests)
  {
    AppendsStayNew(n, turns);
  }

  /** From every reachable state where two are, the schedule can go on so that the
      id is enqueued twice. */
  lemma RivalsEnqueueTwice(n: nat, turns: seq<Turn>, v: nat, w: nat, e: Env)
    requires var y := RunAll(n, turns);
      v < w < |y.workers| && y.workers[v].AppendRequest? && y.workers[w] == y.workers[v]
    ensures var y := RunAll(n, turns);
      RunAll(n, turns + [Turn(v, e)] + [Turn(w, e)]).files.requests
          == y.files.requests + [y.workers[v].id] + [y.workers[v].id]
  {
    RunAllSnoc(n, turns, Turn(v, e));
    RunAllSnoc(n, turns + [Turn(v, e)], Turn(w, e));
  }

  /** Two more steps leave no id enqueued twice. */
  ghost predicate StaysDistinct(n: nat, turns: seq<Turn>, a: Turn, b: Turn) {
    Distinct(RunAll(n, turns + [a] + [b]).files.requests)
  }

  /** At no moment of a schedule are two workers about to append one id iff at no
      moment any two further steps leave an id enqueued twice. */
  lemma EnqueueSafeIff(n: nat, turns: seq<Turn>)
    ensures NoRivalAppends(n, turns) <==>
      forall k, a, b :: 0 <= k <= |turns| ==> StaysDistinct(n, turns[..k], a, b)
  {
    if NoRivalAppends(n, turns) {
      forall k, a, b | 0 <= k <= |turns|
        ensures StaysDistinct(n, turns[..k], a, b)
      {
        TwoStepsDistinct(n, turns, k, a, b);
      }
    } else {
      var k :| 0 <= k <= |turns| && RivalAppends(RunAll(n, turns[..k]));
      var y := RunAll(n, turns[..k]);
      var v, w :| 0 <= v < w < |y.workers| && y.workers[v].AppendRequest? && y.workers[w] == y.workers[v];
      var e := Env(OpClaim, 0, [], 0, {});
      RivalsEnqueueTwice(n, turns[..k], v, w, e);
      DistinctSnoc(y.files.requests + [y.workers[v].id], y.workers[v].id);
      assert !StaysDistinct(n, turns[..k], Turn(v, e), Turn(w, e));
    }
  }

  lemma TwoStepsDistinct(n: nat, turns: seq<Turn>, k: nat, a: Turn, b: Turn)
    requires NoRivalAppends(n, turns) && k <= |turns|
    ensures StaysDistinct(n, turns[..k], a, b)
  {
    forall j | 0 <= j < k
      ensures !RivalAppends(RunAll(n, turns[..k][..j]))
    {
      assert turns[..k][..j] == turns[..j];
    }
    AppendsStayNew(n, turns[..k]);
    RunAllSnoc(n, turns[..k], a);
    RunAllSnoc(n, turns[..k] + [a], b);
    NextAppendsNew(RunAll(n, turns[..k]), a);
    NextDistinct(RunAll(n, turns[..k] + [a]), b);
  }

  // ----- Taking over an expired claim -----

  /** A claim and the file it is written to. */
  datatype Write = Write(key: Text, claim: Claim)

  /** The claim that a worker is about to write, whatever the file holds. */
  function WriteDue(pc: Pc): Option<Write> {
    match pc
    case Overwrite(claim, _, _) => Some(Write(SanitizeId(claim.requestId), claim))
    case WriteHeartbeat(id, updated) => Some(Write(SanitizeId(id), updated))
    case _ => None
  }

  /** One worker is about to write a file, with other contents, that another has
      read and may take over. */
  predicate Spoils(p: Pc, q: Pc) {
    && WriteDue(p).Some? && (q.CheckClaim? || q.Overwrite?)
    && WriteDue(p).value.key == SanitizeId(q.claim.requestId) && q.seen != Some(WriteDue(p).value.claim)
  }

  ghost predicate RivalWrites(y: System) {
    exists v, w :: 0 <= v < |y.workers| && 0 <= w < |y.workers| && v != w && Spoils(y.workers[v], y.workers[w])
  }

  /** A worker that has read a claim file and may take it over would still read the
      same; if it is about to overwrite, that claim had run out when it looked at
      its clock. */
  ghost predicate SeesFile(s: Store, pc: Pc) {
    && (pc.CheckClaim? || pc.Overwrite? ==>
          var key := SanitizeId(pc.claim.requestId); key in s.claims && pc.seen == Some(s.claims[key]))
    && (pc.Overwrite? && pc.seen.Some? ==> !Active(pc.seen.value, pc.checkedAt))
  }

  ghost predicate TakesWhatItSaw(y: System) {
    forall w :: 0 <= w < |y.workers| ==> SeesFile(y.files, y.workers[w])
  }

  /** A worker that found a claim file finds one again. */
  ghost predicate FileStays(s: Store, pc: Pc) {
    match pc
    case ReadClaim(_, _, _, claim) => SanitizeId(claim.requestId) in s.claims
    case RenewClaim(id, _) => SanitizeId(id) in s.claims
    case WriteHeartbeat(id, _) => SanitizeId(id) in s.claims
    case _ => true
  }

  ghost predicate FilesStay(y: System) {
    forall w :: 0 <= w < |y.workers| ==> FileStays(y.files, y.workers[w])
  }

  /** What a step does to the claim files. */
  lemma StepClaims(s: Store, pc: Pc, e: Env)
    ensures var s' := Step(s, pc, e).0;
      && (WriteDue(pc).Some? ==> s'.claims == s.claims[WriteDue(pc).value.key := WriteDue(pc).value.claim])
      && (WriteDue(pc).None? && s'.claims != s.claims ==>
            && pc.CreateClaim? && SanitizeId(pc.claim.requestId) !in s.claims
            && s'.claims == s.claims[SanitizeId(pc.claim.requestId) := pc.claim])
      && s.claims.Keys <= s'.claims.Keys
  {
  }

  lemma StepSees(s: Store, pc: Pc, e: Env)
    requires FileStays(s, pc)
    ensures var (s', pc') := Step(s, pc, e);
      FileStays(s', pc') && (SeesFile(s, pc) ==> SeesFile(s', pc'))
  {
  }

  lemma OthersStillSee(y: System, t: Turn, w: nat)
    requires TakesWhatItSaw(y) && !RivalWrites(y) && t.w < |y.workers| && w < |y.workers| && w != t.w
    ensures SeesFile(Next(y, t).files, y.workers[w])
  {
    hide Step;
    var p, q := y.workers[t.w], y.workers[w];
    StepClaims(y.files, p, t.e);
    assert SeesFile(y.files, q);
    assert !Spoils(p, q);
  }

  lemma NextTakesWhatItSaw(y: System, t: Turn)
    requires TakesWhatItSaw(y) && FilesStay(y) && !RivalWrites(y)
    ensures TakesWhatItSaw(Next(y, t))
  {
    if t.w < |y.workers| {
      hide Step, SeesFile, FileStays;
      var y' := Next(y, t);
      assert SeesFile(y.files, y.workers[t.w]) && FileStays(y.files, y.workers[t.w]);
      StepSees(y.files, y.workers[t.w], t.e);
      forall w | 0 <= w < |y'.workers|
        ensures SeesFile(y'.files, y'.workers[w])
      {
        if w != t.w {
          OthersStillSee(y, t, w);
        }
      }
    }
  }

  lemma NextFilesStay(y: System, t: Turn)
    requires FilesStay(y)
    ensures FilesStay(Next(y, t))
  {
    if t.w < |y.workers| {
      hide Step;
      var y' := Next(y, t);
      assert FileStays(y.files, y.workers[t.w]);
      StepSees(y.files, y.workers[t.w], t.e);
      StepClaims(y.files, y.workers[t.w], t.e);
      forall w | 0 <= w < |y'.workers|
        ensures FileStays(y'.files, y'.workers[w])
      {
        assert w != t.w ==> FileStays(y.files, y.workers[w]);
      }
    }
  }

  lemma {:induction false} FilesAlwaysStay(n: nat, turns: seq<Turn>)
    ensures FilesStay(RunAll(n, turns))
  {
    if turns == [] {
    } else {
      FilesAlwaysStay(n, turns[..|turns| - 1]);
      NextFilesStay(RunAll(n, turns[..|turns| - 1]), turns[|turns| - 1]);
    }
  }

  ghost predicate NoRivalWrites(n: nat, turns: seq<Turn>) {
    forall k :: 0 <= k <= |turns| ==> !RivalWrites(RunAll(n, turns[..k]))
  }

  /** While no rival write is due, every takeover replaces the claim that its
      worker read and saw run out. */
  lemma {:induction false} TakeoversReplaceWhatTheySaw(n: nat, turns: seq<Turn>)
    requires forall k :: 0 <= k < |turns| ==> !RivalWrites(RunAll(n, turns[..k]))
    ensures TakesWhatItSaw(RunAll(n, turns))
  {
    if turns == [] {
    } else {
      var init := turns[..|turns| - 1];
      forall k | 0 <= k < |init|
        ensures !RivalWrites(RunAll(n, init[..k]))
      {
        assert init[..k] == turns[..k];
      }
      TakeoversReplaceWhatTheySaw(n, init);
      FilesAlwaysStay(n, init);
      assert !RivalWrites(RunAll(n, turns[..|turns| - 1]));
      NextTakesWhatItSaw(RunAll(n, init), turns[|turns| - 1]);
    }
  }

  /** From every state with a rival write due there is a step after which a worker
      that may take a file over has not seen what it holds. */
  lemma SpoiledTakeover(y: System, v: nat, w: nat, t: Turn)
    requires v < |y.workers| && w < |y.workers| && v != w && Spoils(y.workers[v], y.workers[w]) && t.w == v
    ensures !SeesFile(Next(y, t).files, Next(y, t).workers[w])
  {
    StepClaims(y.files, y.workers[v], t.e);
  }

  ghost predicate SawAfter(n: nat, turns: seq<Turn>, t: Turn) {
    TakesWhatItSaw(RunAll(n, turns + [t]))
  }

  /** At no moment of a schedule is a rival write due iff at no moment any further
      step leaves a worker that may take a file over without having seen what it
      holds. */
  lemma TakeoverSafeIff(n: nat, turns: seq<Turn>)
    ensures NoRivalWrites(n, turns) <==> forall k, t :: 0 <= k <= |turns| ==> SawAfter(n, turns[..k], t)
  {
    if NoRivalWrites(n, turns) {
      forall k, t | 0 <= k <= |turns|
        ensures SawAfter(n, turns[..k], t)
      {
        StepSaw(n, turns, k, t);
      }
    } else {
      var k :| 0 <= k <= |turns| && RivalWrites(RunAll(n, turns[..k]));
      var y := RunAll(n, turns[..k]);
      var v, w :| 0 <= v < |y.workers| && 0 <= w < |y.workers| && v != w && Spoils(y.workers[v], y.workers[w]);
      var t := Turn(v, Env(OpClaim, 0, [], 0, {}));
      SpoiledTakeover(y, v, w, t);
      RunAllSnoc(n, turns[..k], t);
      assert !SawAfter(n, turns[..k], t);
    }
  }

  lemma StepSaw(n: nat, turns: seq<Turn>, k: nat, t: Turn)
    requires NoRivalWrites(n, turns) && k <= |turns|
    ensures SawAfter(n, turns[..k], t)
  {
    forall j | 0 <= j < k
      ensures !RivalWrites(RunAll(n, turns[..k][..j]))
    {
      assert turns[..k][..j] == turns[..j];
    }
    TakeoversReplaceWhatTheySaw(n, turns[..k]);
    FilesAlwaysStay(n, turns[..k]);
    RunAllSnoc(n, turns[..k], t);
    NextTakesWhatItSaw(RunAll(n, turns[..k]), t);
  }
}
