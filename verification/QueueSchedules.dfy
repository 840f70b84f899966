/** Runs of atomic calls as schedules of workers that nobody interrupts. */
module QueueSchedules {
  import opened LeaseQueue
  import opened LeaseQueueLaws
  import opened QueueRaces
  import opened QueueDiscipline
  import opened QueueRenewals
  import opened QueueLeases

  /** The schedule goes on with one worker until it has finished its method. */
  function AloneTurns(n: nat, turns: seq<Turn>, w: nat, e: Env): seq<Turn>
    requires w < n
    decreases (WorkersStay(n, turns); Left(RunAll(n, turns).workers[w]))
  {
    WorkersStay(n, turns);
    if RunAll(n, turns).workers[w].Idle? then turns
    else
      TurnGetsCloser(n, turns, w, e);
      AloneTurns(n, turns + [Turn(w, e)], w, e)
  }

  lemma TurnGetsCloser(n: nat, turns: seq<Turn>, w: nat, e: Env)
    requires |RunAll(n, turns).workers| == n && w < n && !RunAll(n, turns).workers[w].Idle?
    ensures |RunAll(n, turns + [Turn(w, e)]).workers| == n
    ensures Left(RunAll(n, turns + [Turn(w, e)]).workers[w]) < Left(RunAll(n, turns).workers[w])
  {
    hide Step, Left;
    RunAllSnoc(n, turns, Turn(w, e));
    StepGetsCloser(RunAll(n, turns).files, RunAll(n, turns).workers[w], e);
  }

  /** A worker that nobody interrupts finishes its method. */
  lemma {:induction false} AloneIsSchedule(n: nat, turns: seq<Turn>, w: nat, e: Env)
    requires w < n && |RunAll(n, turns).workers| == n
    ensures var y := RunAll(n, turns);
      RunAll(n, AloneTurns(n, turns, w, e)) == System(Alone(y.files, y.workers[w], e), y.workers[w := Idle])
    decreases Left(RunAll(n, turns).workers[w])
  {
    var y := RunAll(n, turns);
    var pc := y.workers[w];
    if pc.Idle? {
      assert y.workers[w := Idle] == y.workers;
    } else {
      hide Step;
      RunAllSnoc(n, turns, Turn(w, e));
      StepGetsCloser(y.files, pc, e);
      AloneIsSchedule(n, turns + [Turn(w, e)], w, e);
      var (s', pc') := Step(y.files, pc, e);
      assert y.workers[w := pc'][w := Idle] == y.workers[w := Idle];
    }
  }

  ghost predicate OthersIdle(workers: seq<Pc>, w: nat) {
    forall v :: 0 <= v < |workers| && v != w ==> workers[v] == Idle
  }

  /** A monotone clock, one lease time, and no rivals at any moment. */
  ghost predicate Calm(n: nat, turns: seq<Turn>, leaseMs: nat) {
    MonotoneTurns(turns) && OneLease(turns, leaseMs) && NoRivalWrites(n, turns) && NoRivalRenewals(n, turns)
  }

  lemma NoRivals(y: System, w: nat)
    requires OthersIdle(y.workers, w)
    ensures !RivalWrites(y) && !RivalRenewals(y)
  {
  }

  lemma TurnIsCalm(n: nat, turns: seq<Turn>, t: Turn, leaseMs: nat)
    requires Calm(n, turns, leaseMs) && LastNow(turns) <= t.e.now && t.e.leaseMs == leaseMs
    requires OthersIdle(RunAll(n, turns).workers, t.w)
    ensures Calm(n, turns + [t], leaseMs) && OthersIdle(RunAll(n, turns + [t]).workers, t.w)
  {
    var longer := turns + [t];
    RunAllSnoc(n, turns, t);
    hide RunAll, RivalWrites, RivalRenewals, Step;
    NoRivals(RunAll(n, longer), t.w);
    forall k | 0 <= k <= |longer|
      ensures !RivalWrites(RunAll(n, longer[..k])) && !RivalRenewals(RunAll(n, longer[..k]))
    {
      if k <= |turns| {
        assert longer[..k] == turns[..k];
      } else {
        assert longer[..k] == longer;
      }
    }
  }

  lemma {:induction false} AloneIsCalm(n: nat, turns: seq<Turn>, w: nat, e: Env)
    requires w < n && |RunAll(n, turns).workers| == n && OthersIdle(RunAll(n, turns).workers, w)
    requires Calm(n, turns, e.leaseMs) && LastNow(turns) <= e.now
    ensures Calm(n, AloneTurns(n, turns, w, e), e.leaseMs) && LastNow(AloneTurns(n, turns, w, e)) <= e.now
    decreases Left(RunAll(n, turns).workers[w])
  {
    if !RunAll(n, turns).workers[w].Idle? {
      hide Calm, RunAll, Left;
      TurnIsCalm(n, turns, Turn(w, e), e.leaseMs);
      TurnGetsCloser(n, turns, w, e);
      AloneIsCalm(n, turns + [Turn(w, e)], w, e);
    }
  }

  ghost predicate AllIdle(workers: seq<Pc>) {
    forall w :: 0 <= w < |workers| ==> workers[w] == Idle
  }

  function CallEnv(s: Store, leaseMs: nat, c: Call): Env {
    Env(c.op, c.now, c.actor, leaseMs, ResultIds(s))
  }

  /** The schedule goes on with one call of a method. */
  function CallTurns(n: nat, leaseMs: nat, turns: seq<Turn>, w: nat, c: Call): seq<Turn>
    requires w < n
  {
    var e := CallEnv(RunAll(n, turns).files, leaseMs, c);
    AloneTurns(n, turns + [Turn(w, e)], w, e)
  }

  /** Worker who[i] makes call i. */
  function CallsTurns(n: nat, leaseMs: nat, calls: seq<Call>, who: seq<nat>): seq<Turn>
    requires |who| == |calls| && forall i :: 0 <= i < |who| ==> who[i] < n
  {
    if calls == [] then []
    else
      var m := |calls| - 1;
      CallTurns(n, leaseMs, CallsTurns(n, leaseMs, calls[..m], who[..m]), who[m], calls[m])
  }

  lemma CallIsSchedule(n: nat, leaseMs: nat, turns: seq<Turn>, w: nat, c: Call)
    requires var y := RunAll(n, turns); |y.workers| == n && AllIdle(y.workers) && w < n
    ensures var y := RunAll(n, CallTurns(n, leaseMs, turns, w, c));
      && y.files == Apply(RunAll(n, turns).files, leaseMs, c)
      && |y.workers| == n && AllIdle(y.workers)
  {
    hide Step, Apply;
    var y := RunAll(n, turns);
    var e := CallEnv(y.files, leaseMs, c);
    RunAllSnoc(n, turns, Turn(w, e));
    AloneIsAtomic(y.files, e);
    AloneIsSchedule(n, turns + [Turn(w, e)], w, e);
  }

  lemma CallIsCalm(n: nat, leaseMs: nat, turns: seq<Turn>, w: nat, c: Call)
    requires var y := RunAll(n, turns); |y.workers| == n && AllIdle(y.workers) && w < n
    requires Calm(n, turns, leaseMs) && LastNow(turns) <= c.now
    ensures Calm(n, CallTurns(n, leaseMs, turns, w, c), leaseMs)
    ensures LastNow(CallTurns(n, leaseMs, turns, w, c)) <= c.now
  {
    hide Calm, RunAll;
    var e := CallEnv(RunAll(n, turns).files, leaseMs, c);
    WorkersStay(n, turns + [Turn(w, e)]);
    TurnIsCalm(n, turns, Turn(w, e), leaseMs);
    AloneIsCalm(n, turns + [Turn(w, e)], w, e);
  }

  /** Every run of atomic calls is what some schedule of workers does, whichever
      worker makes which call. */
  lemma {:induction false} AtomicRunIsSchedule(n: nat, leaseMs: nat, calls: seq<Call>, who: seq<nat>)
    requires |who| == |calls| && forall i :: 0 <= i < |who| ==> who[i] < n
    ensures var y := RunAll(n, CallsTurns(n, leaseMs, calls, who));
      y.files == Run(leaseMs, calls) && |y.workers| == n && AllIdle(y.workers)
  {
    if calls == [] {
    } else {
      var m := |calls| - 1;
      AtomicRunIsSchedule(n, leaseMs, calls[..m], who[..m]);
      CallIsSchedule(n, leaseMs, CallsTurns(n, leaseMs, calls[..m], who[..m]), who[m], calls[m]);
    }
  }

  function LastCall(calls: seq<Call>): nat {
    if calls == [] then 0 else calls[|calls| - 1].now
  }

  lemma {:induction false} AtomicRunIsCalm(n: nat, leaseMs: nat, calls: seq<Call>, who: seq<nat>)
    requires |who| == |calls| && forall i :: 0 <= i < |who| ==> who[i] < n
    requires Monotone(calls)
    ensures Calm(n, CallsTurns(n, leaseMs, calls, who), leaseMs)
    ensures LastNow(CallsTurns(n, leaseMs, calls, who)) <= LastCall(calls)
  {
    if calls == [] {
      NoRivals(Start(n), n);
    } else {
      hide Calm, CallTurns;
      var m := |calls| - 1;
      AtomicRunIsCalm(n, leaseMs, calls[..m], who[..m]);
      AtomicRunIsSchedule(n, leaseMs, calls[..m], who[..m]);
      CallIsCalm(n, leaseMs, CallsTurns(n, leaseMs, calls[..m], who[..m]), who[m], calls[m]);
    }
  }

  /** Schedules whose methods do not interleave keep the leases, in their files at
      every moment and in the event log. */
  lemma SerialSchedulesExclude(n: nat, leaseMs: nat, calls: seq<Call>, who: seq<nat>)
    requires |who| == |calls| && (forall i :: 0 <= i < |who| ==> who[i] < n) && Monotone(calls)
    ensures var turns := CallsTurns(n, leaseMs, calls, who);
      && HoldThroughout(n, turns)
      && RunAll(n, turns).files == Run(leaseMs, calls) && ClaimsApart(RunAll(n, turns).files.events, leaseMs)
  {
    AtomicRunIsSchedule(n, leaseMs, calls, who);
    AtomicRunIsCalm(n, leaseMs, calls, who);
    TakeoversWaitForLeases(n, CallsTurns(n, leaseMs, calls, who), leaseMs);
    LeasesExclude(leaseMs, calls);
  }
}
