/** Two heartbeats of one claim, of which the earlier is written last. */
module HeartbeatRace {
  import opened Wrappers
  import opened Texts
  import opened LeaseQueue
  import opened LeaseQueueLaws
  import opened QueueRaces
  import opened QueueDiscipline
  import opened QueueRenewals
  import opened QueueLeases
  import opened QueueSchedules

  /** A schedule of two workers with a monotone clock, a lease time of 10 and no
      rival write at any moment. */
  ghost predicate Trail(turns: seq<Turn>, y: System, now: nat) {
    && RunAll(2, turns) == y && |y.workers| == 2 && LastNow(turns) <= now
    && MonotoneTurns(turns) && OneLease(turns, 10) && NoRivalWrites(2, turns)
  }

  lemma NoSpoiler(y: System)
    requires |y.workers| == 2 && !Spoils(y.workers[0], y.workers[1]) && !Spoils(y.workers[1], y.workers[0])
    ensures !RivalWrites(y)
  {
  }

  lemma Go(turns: seq<Turn>, y: System, now: nat, w: nat, e: Env) returns (longer: seq<Turn>, z: System)
    requires Trail(turns, y, now) && now <= e.now && e.leaseMs == 10 && w < 2
    requires var z := Next(y, Turn(w, e));
      !Spoils(z.workers[0], z.workers[1]) && !Spoils(z.workers[1], z.workers[0])
    ensures longer == turns + [Turn(w, e)] && z == Next(y, Turn(w, e)) && Trail(longer, z, e.now)
    ensures forall x :: x in History(2, turns) + WriteBy(y, Turn(w, e)) ==> x in History(2, longer)
  {
    var t := Turn(w, e);
    longer, z := turns + [t], Next(y, t);
    HistorySnoc(2, turns, t);
    hide Spoils, Next, History, WriteBy;
    NoSpoiler(Next(y, t));
    TrailGoesOn(turns, y, now, t);
  }

  lemma TrailGoesOn(turns: seq<Turn>, y: System, now: nat, t: Turn)
    requires Trail(turns, y, now) && now <= t.e.now && t.e.leaseMs == 10
    requires |Next(y, t).workers| == 2 && !RivalWrites(Next(y, t))
    ensures Trail(turns + [t], Next(y, t), t.e.now)
  {
    var longer := turns + [t];
    RunAllSnoc(2, turns, t);
    hide RunAll, RivalWrites, Next;
    forall k | 0 <= k <= |longer|
      ensures !RivalWrites(RunAll(2, longer[..k]))
    {
      if k <= |turns| {
        assert longer[..k] == turns[..k];
      } else {
        assert longer[..k] == longer;
      }
    }
  }

  /** Worker 0 enqueues the request and claims it at time 0. */
  lemma Claimed10(id: Text, a: Text) returns (turns: seq<Turn>, y: System)
    ensures Trail(turns, y, 0) && y.workers == [Idle, Idle]
    ensures y.files.requests == [id] && y.files.results == map[]
    ensures y.files.claims == map[SanitizeId(id) := Claim(id, a, 0, 0, 10)]
  {
    var calls := [Call(OpEnqueue(id), a, 0), Call(OpClaim, a, 0)];
    turns := CallsTurns(2, 10, calls, [0, 0]);
    y := RunAll(2, turns);
    AtomicRunIsSchedule(2, 10, calls, [0, 0]);
    AtomicRunIsCalm(2, 10, calls, [0, 0]);
    assert y.workers == [Idle, Idle];
    assert calls[..1][..0] == [];
    assert Run(10, calls[..1]) == DoEnqueue(EMPTY, a, id, 0).0;
    var s := Run(10, calls[..1]);
    assert s.requests == [id] && s.claims == map[] && s.results == map[];
    assert Claimable(s, s.requests[0], 0);
    assert FirstClaimable(s, 0, 0) == Some(0);
  }

  /** Worker 0 begins a heartbeat, reads its clock at 5 and does not write yet. */
  lemma FirstPending(id: Text, a: Text) returns (turns: seq<Turn>, y: System)
    ensures Trail(turns, y, 5)
    ensures y.workers == [WriteHeartbeat(id, Claim(id, a, 0, 5, 15)), Idle]
    ensures y.files.requests == [id] && y.files.results == map[]
    ensures y.files.claims == map[SanitizeId(id) := Claim(id, a, 0, 0, 10)]
  {
    hide Trail, History, RunAll, SanitizeId;
    var e := Env(OpHeartbeat(id), 5, a, 10, {});
    turns, y := Claimed10(id, a);
    turns, y := Go(turns, y, 0, 0, e);
    assert y.workers == [RenewClaim(id, Claim(id, a, 0, 0, 10)), Idle];
    turns, y := Go(turns, y, 5, 0, e);
  }

  /** Worker 1 sends a heartbeat at 8. */
  lemma SecondWritten(id: Text, a: Text, b: Text) returns (turns: seq<Turn>, y: System)
    ensures Trail(turns, y, 8)
    ensures y.workers == [WriteHeartbeat(id, Claim(id, a, 0, 5, 15)), Idle]
    ensures y.files.requests == [id] && y.files.results == map[]
    ensures y.files.claims == map[SanitizeId(id) := Claim(id, b, 0, 8, 18)]
    ensures Write(SanitizeId(id), Claim(id, b, 0, 8, 18)) in History(2, turns)
  {
    hide Trail, History, RunAll, SanitizeId;
    var e, later := Env(OpHeartbeat(id), 8, b, 10, {}), Claim(id, b, 0, 8, 18);
    turns, y := FirstPending(id, a);
    var pending := y.workers[0];
    turns, y := Go(turns, y, 5, 1, e);
    assert y.workers == [pending, RenewClaim(id, Claim(id, a, 0, 0, 10))];
    turns, y := Go(turns, y, 8, 1, e);
    assert y.workers == [pending, WriteHeartbeat(id, later)];
    assert Write(SanitizeId(id), later) in WriteBy(y, Turn(1, e));
    turns, y := Go(turns, y, 8, 1, e);
    assert y.workers == [pending, StampEvent(Heartbeat(18), id)];
    turns, y := Finish(turns, y, 8, 1, e);
  }

  /** A worker logs its event. */
  lemma Finish(turns: seq<Turn>, y: System, now: nat, w: nat, e: Env) returns (longer: seq<Turn>, z: System)
    requires Trail(turns, y, now) && now <= e.now && e.leaseMs == 10 && w < 2 && y.workers[w].StampEvent?
    requires |y.workers| == 2 && (y.workers[1 - w].Idle? || y.workers[1 - w].WriteHeartbeat?)
    ensures Trail(longer, z, e.now) && z.workers == y.workers[w := Idle]
    ensures z.files.(events := []) == y.files.(events := [])
    ensures forall x :: x in History(2, turns) ==> x in History(2, longer)
  {
    hide Trail, History, RunAll, SanitizeId;
    longer, z := Go(turns, y, now, w, e);
    var stamped := z.workers[w];
    longer, z := Go(longer, z, e.now, w, e);
    assert y.workers[w := stamped][w := Idle] == y.workers[w := Idle];
  }

  /** Then worker 0 writes the claim that it made at 5. */
  lemma FirstLands(id: Text, a: Text, b: Text) returns (turns: seq<Turn>, y: System)
    ensures Trail(turns, y, 9) && y.workers == [Idle, Idle]
    ensures y.files.requests == [id] && y.files.results == map[]
    ensures y.files.claims == map[SanitizeId(id) := Claim(id, a, 0, 5, 15)]
    ensures Write(SanitizeId(id), Claim(id, b, 0, 8, 18)) in History(2, turns)
  {
    hide Trail, History, RunAll, SanitizeId;
    var e := Env(OpHeartbeat(id), 9, a, 10, {});
    turns, y := SecondWritten(id, a, b);
    turns, y := Go(turns, y, 8, 0, e);
    assert y.workers == [StampEvent(Heartbeat(15), id), Idle];
    turns, y := Finish(turns, y, 9, 0, e);
  }

  /** At 16 worker 1 finds that claim run out and is about to take it over. */
  lemma TakesOver(id: Text, a: Text, b: Text) returns (turns: seq<Turn>, y: System)
    ensures Trail(turns, y, 16)
    ensures y.workers == [Idle, Overwrite(Claim(id, b, 16, 16, 26), Some(Claim(id, a, 0, 5, 15)), 16)]
    ensures y.files.claims == map[SanitizeId(id) := Claim(id, a, 0, 5, 15)]
    ensures Write(SanitizeId(id), Claim(id, b, 0, 8, 18)) in History(2, turns)
  {
    hide Trail, History, RunAll, SanitizeId;
    var e, mine, held := Env(OpClaim, 16, b, 10, {}), Claim(id, b, 16, 16, 26), Claim(id, a, 0, 5, 15);
    turns, y := FirstLands(id, a, b);
    turns, y := Go(turns, y, 9, 1, e);
    assert y.workers == [Idle, ListResults([id])];
    assert e.seen * ResultIds(y.files) == {};
    turns, y := Go(turns, y, 16, 1, e);
    assert y.workers == [Idle, Scan([id], {}, 0)];
    turns, y := Go(turns, y, 16, 1, e);
    assert y.workers == [Idle, CreateClaim([id], {}, 0, mine)];
    turns, y := Go(turns, y, 16, 1, e);
    assert y.workers == [Idle, ReadClaim([id], {}, 0, mine)];
    turns, y := Go(turns, y, 16, 1, e);
    assert y.workers == [Idle, CheckClaim([id], {}, 0, mine, Some(held))];
    turns, y := Go(turns, y, 16, 1, e);
  }

  lemma NotDue(turns: seq<Turn>, t: Turn, write: Write)
    requires var y := RunAll(2, turns); t.w < |y.workers| && y.workers[t.w].Overwrite?
    requires write.key == SanitizeId(RunAll(2, turns).workers[t.w].claim.requestId)
    requires write in History(2, turns) && Active(write.claim, t.e.now)
    ensures !HoldThroughout(2, turns + [t])
  {
    var longer := turns + [t];
    assert longer[..|turns|] == turns && longer[|turns|] == t;
    assert !TakeoverIsDue(2, turns, t);
  }

  /** For every request a schedule with a monotone clock, one lease time and no
      rival write at any moment, in which two heartbeats race: the claim is taken
      over at 16 although one that runs out at 18 was written to its file. */
  lemma RacingHeartbeats(id: Text, a: Text, b: Text) returns (turns: seq<Turn>, t: Turn)
    ensures MonotoneTurns(turns + [t]) && OneLease(turns + [t], 10) && NoRivalWrites(2, turns + [t])
    ensures var y := RunAll(2, turns);
      t.e.now == 16 && t.w < |y.workers| && y.workers[t.w].Overwrite? && y.workers[t.w].claim.requestId == id
    ensures Write(SanitizeId(id), Claim(id, b, 0, 8, 18)) in History(2, turns)
    ensures !HoldThroughout(2, turns + [t])
  {
    var y;
    turns, y := TakesOver(id, a, b);
    t := Turn(1, Env(OpClaim, 16, b, 10, {}));
    hide History, RunAll, HoldThroughout, SanitizeId, MonotoneTurns, OneLease, NoRivalWrites;
    assert RunAll(2, turns) == y;
    LastTurn(turns, y, t);
    NotDue(turns, t, Write(SanitizeId(id), Claim(id, b, 0, 8, 18)));
  }

  lemma LastTurn(turns: seq<Turn>, y: System, t: Turn)
    requires Trail(turns, y, t.e.now) && t.e.leaseMs == 10 && t.w == 1
    requires |y.workers| == 2 && y.workers[0] == Idle && y.workers[1].Overwrite?
    ensures MonotoneTurns(turns + [t]) && OneLease(turns + [t], 10) && NoRivalWrites(2, turns + [t])
  {
    hide RunAll;
    var longer, z := Go(turns, y, t.e.now, 1, t.e);
  }
}
