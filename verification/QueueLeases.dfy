/** Leases over interleaved schedules, and atomic runs as schedules. */
module QueueLeases {
  import opened Wrappers
  import opened Texts
  import opened LeaseQueue
  import opened QueueRaces
  import opened QueueDiscipline
  import opened QueueRenewals

  // ----- Every claim ever written -----

  /** The claim that the next step of a worker writes, if it writes one. */
  function WriteOf(s: Store, pc: Pc): seq<Write> {
    if WriteDue(pc).Some? then [WriteDue(pc).value]
    else if pc.CreateClaim? && SanitizeId(pc.claim.requestId) !in s.claims
    then [Write(SanitizeId(pc.claim.requestId), pc.claim)]
    else []
  }

  function WriteBy(y: System, t: Turn): seq<Write> {
    if t.w >= |y.workers| then [] else WriteOf(y.files, y.workers[t.w])
  }

  function History(n: nat, turns: seq<Turn>): seq<Write> {
    if turns == [] then []
    else
      var init := turns[..|turns| - 1];
      History(n, init) + WriteBy(RunAll(n, init), turns[|turns| - 1])
  }

  /** Every claim written so far has run out or is covered by its file. */
  ghost predicate HistoryCovered(s: Store, history: seq<Write>, now: nat) {
    forall i :: 0 <= i < |history| ==>
      && history[i].key in s.claims
      && (history[i].claim.leaseExpiresAt <= now
          || history[i].claim.leaseExpiresAt <= s.claims[history[i].key].leaseExpiresAt)
  }

  /** Every claim ever written to the file has run out. */
  ghost predicate AllOver(history: seq<Write>, key: Text, now: nat) {
    forall i :: 0 <= i < |history| && history[i].key == key ==> history[i].claim.leaseExpiresAt <= now
  }

  ghost predicate CoveredAfter(n: nat, turns: seq<Turn>) {
    HistoryCovered(RunAll(n, turns).files, History(n, turns), LastNow(turns))
  }

  /** If the turn takes a claim file over, every claim ever written to it, heartbeats
      included, has run out. */
  ghost predicate TakeoverIsDue(n: nat, turns: seq<Turn>, t: Turn) {
    var y := RunAll(n, turns);
    t.w < |y.workers| && y.workers[t.w].Overwrite? ==>
      AllOver(History(n, turns), SanitizeId(y.workers[t.w].claim.requestId), t.e.now)
  }

  /** At every moment each claim ever written has run out or is covered by its
      file, and takeovers wait for all claims ever written to theirs. */
  ghost predicate HoldThroughout(n: nat, turns: seq<Turn>) {
    && (forall k :: 0 <= k <= |turns| ==> CoveredAfter(n, turns[..k]))
    && (forall k :: 0 <= k < |turns| ==> TakeoverIsDue(n, turns[..k], turns[k]))
  }

  // ----- The exact condition on the writes of a run -----

  /** A takeover replaces a claim that has run out, and a heartbeat one that has run
      out or runs out no later than its own. */
  predicate Honours(s: Store, pc: Pc, now: nat) {
    WriteDue(pc).Some? && WriteDue(pc).value.key in s.claims ==>
      var held := s.claims[WriteDue(pc).value.key];
      !Active(held, now) || (pc.WriteHeartbeat? && held.leaseExpiresAt <= pc.updated.leaseExpiresAt)
  }

  ghost predicate TurnHonours(n: nat, turns: seq<Turn>, t: Turn) {
    var y := RunAll(n, turns);
    t.w < |y.workers| ==> Honours(y.files, y.workers[t.w], t.e.now)
  }

  lemma WriteCovers(s: Store, history: seq<Write>, write: Write, now: nat)
    requires HistoryCovered(s, history, now)
    requires write.key in s.claims ==>
      !Active(s.claims[write.key], now) || s.claims[write.key].leaseExpiresAt <= write.claim.leaseExpiresAt
    ensures HistoryCovered(s.(claims := s.claims[write.key := write.claim]), history + [write], now)
  {
  }

  lemma OnlyClaimsMatter(s: Store, t: Store, history: seq<Write>, now: nat)
    requires HistoryCovered(s, history, now) && t.claims == s.claims
    ensures HistoryCovered(t, history, now)
  {
  }

  /** A step writes what the history records. */
  lemma StepWrites(s: Store, pc: Pc, e: Env)
    ensures var (s', writes) := (Step(s, pc, e).0, WriteOf(s, pc));
      && |writes| <= 1
      && (writes == [] ==> s'.claims == s.claims)
      && (writes != [] ==> s'.claims == s.claims[writes[0].key := writes[0].claim])
      && (writes != [] && WriteDue(pc).None? ==> writes[0].key !in s.claims)
  {
    StepClaims(s, pc, e);
  }

  lemma StepCovers(s: Store, pc: Pc, e: Env, history: seq<Write>, before: nat)
    requires HistoryCovered(s, history, before) && before <= e.now && Honours(s, pc, e.now)
    ensures HistoryCovered(Step(s, pc, e).0, history + WriteOf(s, pc), e.now)
  {
    StepWrites(s, pc, e);
    var (s', writes) := (Step(s, pc, e).0, WriteOf(s, pc));
    assert HistoryCovered(s, history, e.now);
    hide Step, HistoryCovered;
    if writes == [] {
      assert history + writes == history;
      OnlyClaimsMatter(s, s', history, e.now);
    } else {
      var t := s.(claims := s.claims[writes[0].key := writes[0].claim]);
      WriteCovers(s, history, writes[0], e.now);
      assert writes == [writes[0]];
      OnlyClaimsMatter(t, s', history + writes, e.now);
    }
  }

  lemma {:induction false} HonouredIsCovered(n: nat, turns: seq<Turn>)
    requires MonotoneTurns(turns) && forall k :: 0 <= k < |turns| ==> TurnHonours(n, turns[..k], turns[k])
    ensures CoveredAfter(n, turns)
  {
    if turns == [] {
    } else {
      var init, t := turns[..|turns| - 1], turns[|turns| - 1];
      forall k | 0 <= k < |init|
        ensures TurnHonours(n, init[..k], init[k])
      {
        assert init[..k] == turns[..k];
        assert TurnHonours(n, turns[..k], turns[k]);
      }
      HonouredIsCovered(n, init);
      assert TurnHonours(n, turns[..|init|], turns[|init|]);
      TurnCovers(n, init, t);
      assert turns == init + [t];
    }
  }

  lemma TurnCovers(n: nat, turns: seq<Turn>, t: Turn)
    requires CoveredAfter(n, turns) && TurnHonours(n, turns, t) && LastNow(turns) <= t.e.now
    ensures CoveredAfter(n, turns + [t])
  {
    hide Step, HistoryCovered, Honours;
    RunAllSnoc(n, turns, t);
    HistorySnoc(n, turns, t);
    var y := RunAll(n, turns);
    if t.w < |y.workers| {
      StepCovers(y.files, y.workers[t.w], t.e, History(n, turns), LastNow(turns));
    } else {
      assert History(n, turns) + [] == History(n, turns);
      LaterCovered(y.files, History(n, turns), LastNow(turns), t.e.now);
    }
  }

  lemma HistorySnoc(n: nat, turns: seq<Turn>, t: Turn)
    ensures History(n, turns + [t]) == History(n, turns) + WriteBy(RunAll(n, turns), t)
  {
    assert (turns + [t])[..|turns|] == turns;
  }

  lemma LaterCovered(s: Store, history: seq<Write>, before: nat, now: nat)
    requires HistoryCovered(s, history, before) && before <= now
    ensures HistoryCovered(s, history, now)
  {
  }

  /** What a claim file holds was written to it. */
  ghost predicate FilesAreWritten(s: Store, history: seq<Write>) {
    forall k :: k in s.claims ==> Write(k, s.claims[k]) in history
  }

  lemma {:induction false} FilesHaveHistory(n: nat, turns: seq<Turn>)
    ensures FilesAreWritten(RunAll(n, turns).files, History(n, turns))
  {
    if turns == [] {
    } else {
      var init, t := turns[..|turns| - 1], turns[|turns| - 1];
      FilesHaveHistory(n, init);
      var y := RunAll(n, init);
      if t.w < |y.workers| {
        hide Step;
        StepWrites(y.files, y.workers[t.w], t.e);
      }
    }
  }

  lemma CoveredIsDue(n: nat, turns: seq<Turn>, t: Turn)
    requires CoveredAfter(n, turns) && TurnHonours(n, turns, t) && LastNow(turns) <= t.e.now
    ensures TakeoverIsDue(n, turns, t)
  {
  }

  lemma HoldsHonours(n: nat, turns: seq<Turn>, t: Turn)
    requires CoveredAfter(n, turns + [t]) && TakeoverIsDue(n, turns, t)
    ensures TurnHonours(n, turns, t)
  {
    var y := RunAll(n, turns);
    FilesHaveHistory(n, turns);
    RunAllSnoc(n, turns, t);
    HistorySnoc(n, turns, t);
    if t.w < |y.workers| && WriteDue(y.workers[t.w]).Some? && WriteDue(y.workers[t.w]).value.key in y.files.claims {
      hide Step;
      var (pc, key) := (y.workers[t.w], WriteDue(y.workers[t.w]).value.key);
      StepClaims(y.files, pc, t.e);
      var held := Write(key, y.files.claims[key]);
      var i :| 0 <= i < |History(n, turns)| && History(n, turns)[i] == held;
      assert History(n, turns + [t])[i] == held;
      assert (turns + [t])[|turns|] == t;
    }
  }

  lemma PrefixNow(turns: seq<Turn>, k: nat)
    requires MonotoneTurns(turns) && k < |turns|
    ensures LastNow(turns[..k]) <= turns[k].e.now && MonotoneTurns(turns[..k])
  {
  }

  /** With a monotone clock, at every moment of a schedule each claim ever written
      has run out or is covered by its file and takeovers wait for all of them, iff
      every takeover replaces a claim that has run out and no heartbeat moves the
      expiry of an active claim back. */
  lemma LeasesHoldIff(n: nat, turns: seq<Turn>)
    requires MonotoneTurns(turns)
    ensures HoldThroughout(n, turns) <==> forall k :: 0 <= k < |turns| ==> TurnHonours(n, turns[..k], turns[k])
  {
    hide CoveredAfter, TakeoverIsDue, TurnHonours;
    if HoldThroughout(n, turns) {
      forall k | 0 <= k < |turns|
        ensures TurnHonours(n, turns[..k], turns[k])
      {
        assert turns[..k + 1] == turns[..k] + [turns[k]];
        assert CoveredAfter(n, turns[..k + 1]);
        HoldsHonours(n, turns[..k], turns[k]);
      }
    }
    if forall k :: 0 <= k < |turns| ==> TurnHonours(n, turns[..k], turns[k]) {
      forall k | 0 <= k <= |turns|
        ensures CoveredAfter(n, turns[..k])
      {
        PrefixHonoured(n, turns, k);
      }
      forall k | 0 <= k < |turns|
        ensures TakeoverIsDue(n, turns[..k], turns[k])
      {
        PrefixNow(turns, k);
        CoveredIsDue(n, turns[..k], turns[k]);
      }
    }
  }

  lemma PrefixHonoured(n: nat, turns: seq<Turn>, k: nat)
    requires MonotoneTurns(turns) && k <= |turns|
    requires forall i :: 0 <= i < |turns| ==> TurnHonours(n, turns[..i], turns[i])
    ensures CoveredAfter(n, turns[..k])
  {
    hide CoveredAfter, TurnHonours;
    forall i | 0 <= i < k
      ensures TurnHonours(n, turns[..k][..i], turns[..k][i])
    {
      assert turns[..k][..i] == turns[..i];
    }
    HonouredIsCovered(n, turns[..k]);
  }

  // ----- Schedules without rivals -----

  /** With a monotone clock and one lease time, and while no rival write and no
      rival renewal is due, all leases hold: a claim is taken over only after every
      claim ever written to its file, heartbeats included, has run out. */
  lemma TakeoversWaitForLeases(n: nat, turns: seq<Turn>, leaseMs: nat)
    requires NoRivalWrites(n, turns) && NoRivalRenewals(n, turns)
    requires MonotoneTurns(turns) && OneLease(turns, leaseMs)
    ensures HoldThroughout(n, turns)
  {
    forall k | 0 <= k < |turns|
      ensures TurnHonours(n, turns[..k], turns[k])
    {
      CalmTurnHonours(n, turns, leaseMs, k);
    }
    LeasesHoldIff(n, turns);
  }

  lemma CalmTurnHonours(n: nat, turns: seq<Turn>, leaseMs: nat, k: nat)
    requires NoRivalWrites(n, turns) && NoRivalRenewals(n, turns) && k < |turns|
    requires MonotoneTurns(turns) && OneLease(turns, leaseMs)
    ensures TurnHonours(n, turns[..k], turns[k])
  {
    hide RivalWrites, RivalRenewals;
    var init, t := turns[..k], turns[k];
    forall j | 0 <= j < k
      ensures !RivalWrites(RunAll(n, init[..j])) && !RivalRenewals(RunAll(n, init[..j]))
    {
      assert init[..j] == turns[..j];
    }
    PrefixNow(turns, k);
    TakeoversReplaceWhatTheySaw(n, init);
    HeartbeatsProlong(n, init, leaseMs);
    RunIsNear(n, init, leaseMs);
    var y := RunAll(n, init);
    if t.w < |y.workers| {
      assert SeesFile(y.files, y.workers[t.w]) && Prolongs(y.files, y.workers[t.w]);
      assert PcNear(y.workers[t.w], LastNow(init), leaseMs);
    }
  }

  // ----- What rivals lead to -----

  /** From every state with two workers about to take over one file, both do: the
      second replaces the first's claim, and both takeovers are logged. */
  lemma DoubleReclaim(y: System, v: nat, w: nat, e: Env, f: Env)
    requires v < |y.workers| && w < |y.workers| && v != w
    requires y.workers[v].Overwrite? && y.workers[w].Overwrite?
    requires SanitizeId(y.workers[v].claim.requestId) == SanitizeId(y.workers[w].claim.requestId)
    ensures var (p, q, key) := (y.workers[v], y.workers[w], SanitizeId(y.workers[w].claim.requestId));
      var (first, second) := (Next(y, Turn(v, e)), Next(Next(y, Turn(v, e)), Turn(w, f)));
      var logged := Next(Next(Next(Next(second, Turn(v, e)), Turn(v, e)), Turn(w, f)), Turn(w, f));
      && ClaimFile(first.files, key) == Some(p.claim)
      && ClaimFile(second.files, key) == ClaimFile(logged.files, key) == Some(q.claim)
      && logged.files.events == y.files.events
           + [QueueEvent(Claimed(true), p.claim.requestId, e.now, e.actor)]
           + [QueueEvent(Claimed(true), q.claim.requestId, f.now, f.actor)]
  {
    var second := Next(Next(y, Turn(v, e)), Turn(w, f));
    LogsAtOnce(second, v, e);
    LogsAtOnce(Next(Next(second, Turn(v, e)), Turn(v, e)), w, f);
  }

  lemma LogsAtOnce(y: System, w: nat, e: Env)
    requires w < |y.workers| && y.workers[w].StampEvent?
    ensures Next(Next(y, Turn(w, e)), Turn(w, e))
         == System(Log(y.files, y.workers[w].kind, y.workers[w].id, e.now, e.actor), y.workers[w := Idle])
  {
    var stamped := AppendEvent(QueueEvent(y.workers[w].kind, y.workers[w].id, e.now, e.actor));
    assert y.workers[w := stamped][w := Idle] == y.workers[w := Idle];
  }

  /** From every state with a takeover and a heartbeat due for one file, the
      takeover can replace a claim that has just been renewed. */
  lemma RenewedClaimIsLost(y: System, v: nat, w: nat, e: Env, f: Env)
    requires v < |y.workers| && w < |y.workers| && v != w
    requires y.workers[v].WriteHeartbeat? && y.workers[w].Overwrite?
    requires SanitizeId(y.workers[v].id) == SanitizeId(y.workers[w].claim.requestId)
    requires Active(y.workers[v].updated, f.now)
    ensures var (p, q, key) := (y.workers[v], y.workers[w], SanitizeId(y.workers[v].id));
      var renewed := Next(y, Turn(v, e));
      && ClaimFile(renewed.files, key) == Some(p.updated)
      && ClaimFile(Next(renewed, Turn(w, f)).files, key) == Some(q.claim)
      && !Honours(renewed.files, renewed.workers[w], f.now)
  {
  }

  /** From every state with a heartbeat due that a later claim can overtake, the
      file can lose that claim: it then counts as run out while the claim written
      to it has not. */
  lemma RenewalIsLost(y: System, v: nat, w: nat, e: Env, f: Env, now: nat)
    requires v < |y.workers| && w < |y.workers| && v != w && Overtakes(y.workers[v], y.workers[w])
    requires !Active(y.workers[w].updated, now) && Active(WriteDue(y.workers[v]).value.claim, now)
    ensures var (p, q, key) := (y.workers[v], y.workers[w], SanitizeId(y.workers[w].id));
      var written := Next(y, Turn(v, e));
      && ClaimFile(written.files, key) == Some(WriteDue(p).value.claim)
      && ClaimFile(Next(written, Turn(w, f)).files, key) == Some(q.updated)
  {
    StepClaims(y.files, y.workers[v], e);
  }
}
