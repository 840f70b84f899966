/** Calls through one breaker that overlap: each finish belongs to a begin. */
module BreakerRuns {
  import opened Wrappers
  import opened Resilience

  /** A call that runs: whether it was let through as a probe, and which mark its
      start left. */
  datatype Flight = Flight(probe: bool, mark: nat)

  /** The breaker, the calls in flight by number, and the marks of all starts and
      openings so far. */
  datatype Live = Live(breaker: Breaker, inFlight: map<nat, Flight>, begun: nat, marks: seq<Mark>)

  datatype Move = Start(now: nat) | Finish(id: nat, ok: bool, now: nat) | Clear(now: nat)

  /** The failure opens the circuit, or opens it anew. */
  predicate Opens(c: Config, b: Breaker, probe: bool) {
    probe || b.failureCount + 1 >= c.failureThreshold
  }

  function MoveOn(c: Config, l: Live, m: Move): Live {
    match m
    case Start(now) =>
      var b := CheckRecovery(l.breaker, now);
      if b.state == Open then l.(breaker := b)
      else Live(b, l.inFlight[l.begun := Flight(b.state == HalfOpen, |l.marks|)], l.begun + 1, l.marks + [Started(now)])
    case Finish(id, ok, now) =>
      if id !in l.inFlight then l
      else
        var probe := l.inFlight[id].probe;
        Live(if ok then Succeed(c, l.breaker, probe) else Fail(c, l.breaker, probe, now),
             l.inFlight - {id}, l.begun,
             if !ok && Opens(c, l.breaker, probe) then l.marks + [Opened(now)] else l.marks)
    case Clear(_) => l.(breaker := FRESH)
  }

  function RunLive(c: Config, moves: seq<Move>): Live {
    if moves == [] then Live(FRESH, map[], 0, []) else MoveOn(c, RunLive(c, moves[..|moves| - 1]), moves[|moves| - 1])
  }

  lemma RunSnoc(c: Config, moves: seq<Move>, m: Move)
    ensures RunLive(c, moves + [m]) == MoveOn(c, RunLive(c, moves), m)
  {
    assert (moves + [m])[..|moves|] == moves;
  }

  /** Whatever calls overlap and however they end, the counters stay below their
      thresholds. */
  lemma {:induction false} RunStaysConsistent(c: Config, moves: seq<Move>)
    requires c.failureThreshold >= 1 && c.successThreshold >= 1
    ensures Consistent(c, RunLive(c, moves).breaker)
  {
    if moves == [] {
    } else {
      RunStaysConsistent(c, moves[..|moves| - 1]);
    }
  }

  // ----- Probes -----

  ghost predicate ProbeFlies(l: Live) {
    exists id :: id in l.inFlight && l.inFlight[id].probe
  }

  ghost predicate AtMostOneProbe(l: Live) {
    forall i, j :: i in l.inFlight && j in l.inFlight && l.inFlight[i].probe && l.inFlight[j].probe ==> i == j
  }

  /** A call starts that finds the circuit half-open while a probe flies. */
  ghost predicate SecondProbe(l: Live, m: Move) {
    m.Start? && CheckRecovery(l.breaker, m.now).state == HalfOpen && ProbeFlies(l)
  }

  lemma {:induction false} FlightsAreNumbered(c: Config, moves: seq<Move>)
    ensures forall id :: id in RunLive(c, moves).inFlight ==> id < RunLive(c, moves).begun
  {
    if moves == [] {
    } else {
      FlightsAreNumbered(c, moves[..|moves| - 1]);
    }
  }

  lemma MoveKeepsOneProbe(c: Config, l: Live, m: Move)
    requires AtMostOneProbe(l) && forall id :: id in l.inFlight ==> id < l.begun
    ensures AtMostOneProbe(MoveOn(c, l, m)) <==> !SecondProbe(l, m)
  {
    var l' := MoveOn(c, l, m);
    if SecondProbe(l, m) {
      var id :| id in l.inFlight && l.inFlight[id].probe;
      assert id in l'.inFlight && l'.inFlight[id].probe && l'.inFlight[l.begun].probe;
    }
  }

  ghost predicate OneProbeThroughout(c: Config, moves: seq<Move>) {
    forall k :: 0 <= k <= |moves| ==> AtMostOneProbe(RunLive(c, moves[..k]))
  }

  /** At every moment of a run at most one probe is in flight iff no call starts
      that finds the circuit half-open while a probe flies. */
  lemma OneProbeIff(c: Config, moves: seq<Move>)
    ensures OneProbeThroughout(c, moves) <==>
      forall k :: 0 <= k < |moves| ==> !SecondProbe(RunLive(c, moves[..k]), moves[k])
  {
    hide MoveOn, AtMostOneProbe, SecondProbe;
    if OneProbeThroughout(c, moves) {
      forall k | 0 <= k < |moves|
        ensures !SecondProbe(RunLive(c, moves[..k]), moves[k])
      {
        assert moves[..k + 1] == moves[..k] + [moves[k]];
        RunSnoc(c, moves[..k], moves[k]);
        FlightsAreNumbered(c, moves[..k]);
        MoveKeepsOneProbe(c, RunLive(c, moves[..k]), moves[k]);
        assert AtMostOneProbe(RunLive(c, moves[..k])) && AtMostOneProbe(RunLive(c, moves[..k + 1]));
      }
    }
    if forall k :: 0 <= k < |moves| ==> !SecondProbe(RunLive(c, moves[..k]), moves[k]) {
      forall k | 0 <= k <= |moves|
        ensures AtMostOneProbe(RunLive(c, moves[..k]))
      {
        StaysOneProbe(c, moves, k);
      }
    }
  }

  lemma {:induction false} StaysOneProbe(c: Config, moves: seq<Move>, k: nat)
    requires k <= |moves| && forall i :: 0 <= i < |moves| ==> !SecondProbe(RunLive(c, moves[..i]), moves[i])
    ensures AtMostOneProbe(RunLive(c, moves[..k]))
  {
    if k == 0 {
    } else {
      hide MoveOn, SecondProbe, AtMostOneProbe;
      StaysOneProbe(c, moves, k - 1);
      assert moves[..k] == moves[..k - 1] + [moves[k - 1]];
      RunSnoc(c, moves[..k - 1], moves[k - 1]);
      FlightsAreNumbered(c, moves[..k - 1]);
      MoveKeepsOneProbe(c, RunLive(c, moves[..k - 1]), moves[k - 1]);
    }
  }

  // ----- Leaving open before the time -----

  /** While the circuit is open its opening is the last mark and sets the next
      attempt; every call in flight started at its mark. */
  ghost predicate Marked(c: Config, l: Live) {
    && (l.breaker.state == Open ==>
          && l.marks != [] && l.marks[|l.marks| - 1].Opened?
          && l.breaker.nextAttemptTime == Some(l.marks[|l.marks| - 1].at + c.recoveryTimeoutMs))
    && (forall id :: id in l.inFlight ==> l.inFlight[id].mark < |l.marks| && l.marks[l.inFlight[id].mark].Started?)
  }

  lemma MoveKeepsMarked(c: Config, l: Live, m: Move)
    requires Marked(c, l)
    ensures Marked(c, MoveOn(c, l, m))
  {
  }

  lemma {:induction false} RunIsMarked(c: Config, moves: seq<Move>)
    ensures Marked(c, RunLive(c, moves))
  {
    if moves == [] {
    } else {
      RunIsMarked(c, moves[..|moves| - 1]);
      MoveKeepsMarked(c, RunLive(c, moves[..|moves| - 1]), moves[|moves| - 1]);
    }
  }

  /** The circuit is open at the move's time and stays so until later. */
  predicate WaitsAt(l: Live, now: nat) {
    l.breaker.state == Open && TruthyTime(l.breaker.nextAttemptTime) && now < l.breaker.nextAttemptTime.value
  }

  predicate LeavesEarly(c: Config, l: Live, m: Move) {
    WaitsAt(l, m.now) && MoveOn(c, l, m).breaker.state != Open
  }

  /** The finished call is a probe from before the last opening whose success
      completes the success count. */
  ghost predicate StaleSuccess(c: Config, l: Live, m: Move) {
    && m.Finish? && m.ok && m.id in l.inFlight && l.inFlight[m.id].probe
    && l.breaker.successCount + 1 >= c.successThreshold
    && exists j :: l.inFlight[m.id].mark < j < |l.marks| && l.marks[j].Opened?
  }

  /** At every moment of every run: a move takes the circuit out of open before
      its time iff the circuit waits and the move is a reset or the completing
      success of a probe that started before the circuit opened again. */
  lemma EarlyExitIff(c: Config, moves: seq<Move>, m: Move)
    ensures var l := RunLive(c, moves);
      LeavesEarly(c, l, m) <==> WaitsAt(l, m.now) && (m.Clear? || StaleSuccess(c, l, m))
  {
    RunIsMarked(c, moves);
    var l := RunLive(c, moves);
    if LeavesEarly(c, l, m) && m.Finish? {
      assert l.marks[|l.marks| - 1].Opened?;
    }
  }

  // ----- Starting before the time -----

  ghost predicate MonotoneMoves(moves: seq<Move>) {
    forall i, j :: 0 <= i < j < |moves| ==> moves[i].now <= moves[j].now
  }

  /** The run never leaves open before its time. */
  ghost predicate NoEarlyExit(c: Config, moves: seq<Move>) {
    forall k :: 0 <= k < |moves| ==> !LeavesEarly(c, RunLive(c, moves[..k]), moves[k])
  }

  /** Marks lie in the past, and every opening is still in force or over. */
  ghost predicate Covered(c: Config, l: Live, clock: nat) {
    && (forall i :: 0 <= i < |l.marks| ==> l.marks[i].at <= clock)
    && (forall i :: 0 <= i < |l.marks| && l.marks[i].Opened? ==>
          || l.marks[i].at + c.recoveryTimeoutMs <= clock
          || (l.breaker.state == Open && l.breaker.nextAttemptTime.Some?
              && l.marks[i].at + c.recoveryTimeoutMs <= l.breaker.nextAttemptTime.value))
  }

  /** No opening reaches beyond `now`. */
  ghost predicate AllOver(c: Config, marks: seq<Mark>, now: nat) {
    forall i :: 0 <= i < |marks| && marks[i].Opened? ==> marks[i].at + c.recoveryTimeoutMs <= now
  }

  lemma AddStarted(c: Config, marks: seq<Mark>, now: nat)
    requires Respected(c, marks) && AllOver(c, marks, now)
    ensures Respected(c, marks + [Started(now)]) && AllOver(c, marks + [Started(now)], now)
  {
  }

  lemma AddOpened(c: Config, marks: seq<Mark>, now: nat)
    requires Respected(c, marks)
    ensures Respected(c, marks + [Opened(now)])
  {
  }

  lemma NotWaiting(c: Config, l: Live, clock: nat, now: nat)
    requires Covered(c, l, clock) && clock <= now && !WaitsAt(l, now)
    requires l.breaker.state == Open ==> l.breaker.nextAttemptTime.Some?
    ensures AllOver(c, l.marks, now)
  {
  }

  lemma OverIsCovered(c: Config, l: Live, now: nat)
    requires AllOver(c, l.marks, now) && forall i :: 0 <= i < |l.marks| ==> l.marks[i].at <= now
    ensures Covered(c, l, now)
  {
  }

  lemma StaysCovered(c: Config, l: Live, b: Breaker, flights: map<nat, Flight>, clock: nat, now: nat)
    requires Covered(c, l, clock) && clock <= now && WaitsAt(l, now)
    requires b.state == Open && b.nextAttemptTime == l.breaker.nextAttemptTime
    ensures Covered(c, Live(b, flights, l.begun, l.marks), now)
  {
  }

  lemma StartKeepsCovered(c: Config, l: Live, clock: nat, now: nat)
    requires Marked(c, l) && Covered(c, l, clock) && Respected(c, l.marks) && clock <= now
    ensures Covered(c, MoveOn(c, l, Start(now)), now) && Respected(c, MoveOn(c, l, Start(now)).marks)
  {
    hide Respected, Covered, AllOver;
    if WaitsAt(l, now) {
      StaysCovered(c, l, l.breaker, l.inFlight, clock, now);
    } else {
      NotWaiting(c, l, clock, now);
      CoveredTimes(c, l, clock, now);
      AddStarted(c, l.marks, now);
      OverIsCovered(c, MoveOn(c, l, Start(now)), now);
    }
  }

  lemma CoveredTimes(c: Config, l: Live, clock: nat, now: nat)
    requires Covered(c, l, clock) && clock <= now
    ensures forall i :: 0 <= i < |l.marks| ==> l.marks[i].at <= now
  {
  }

  lemma OpeningCovers(c: Config, l: Live, b: Breaker, flights: map<nat, Flight>, now: nat)
    requires forall i :: 0 <= i < |l.marks| ==> l.marks[i].at <= now
    requires b.state == Open && b.nextAttemptTime == Some(now + c.recoveryTimeoutMs)
    ensures Covered(c, Live(b, flights, l.begun, l.marks + [Opened(now)]), now)
  {
  }

  lemma FinishKeepsCovered(c: Config, l: Live, id: nat, ok: bool, clock: nat, now: nat)
    requires Marked(c, l) && Covered(c, l, clock) && Respected(c, l.marks) && clock <= now
    requires !LeavesEarly(c, l, Finish(id, ok, now))
    ensures Covered(c, MoveOn(c, l, Finish(id, ok, now)), now)
    ensures Respected(c, MoveOn(c, l, Finish(id, ok, now)).marks)
  {
    hide Respected, Covered, AllOver;
    var l' := MoveOn(c, l, Finish(id, ok, now));
    CoveredTimes(c, l, clock, now);
    if l'.marks != l.marks {
      AddOpened(c, l.marks, now);
      OpeningCovers(c, l, l'.breaker, l'.inFlight, now);
    } else if WaitsAt(l, now) {
      StaysCovered(c, l, l'.breaker, l'.inFlight, clock, now);
    } else {
      NotWaiting(c, l, clock, now);
      OverIsCovered(c, l', now);
    }
  }

  lemma MoveKeepsCovered(c: Config, l: Live, m: Move, clock: nat)
    requires Marked(c, l) && Covered(c, l, clock) && Respected(c, l.marks) && clock <= m.now
    requires !LeavesEarly(c, l, m)
    ensures Covered(c, MoveOn(c, l, m), m.now) && Respected(c, MoveOn(c, l, m).marks)
  {
    match m
    case Start(now) => StartKeepsCovered(c, l, clock, now);
    case Finish(id, ok, now) => FinishKeepsCovered(c, l, id, ok, clock, now);
    case Clear(now) =>
      NotWaiting(c, l, clock, now);
      CoveredTimes(c, l, clock, now);
      OverIsCovered(c, MoveOn(c, l, m), now);
  }

  function LastTime(moves: seq<Move>): nat {
    if moves == [] then 0 else moves[|moves| - 1].now
  }

  lemma {:induction false} RunIsCovered(c: Config, moves: seq<Move>)
    requires MonotoneMoves(moves) && NoEarlyExit(c, moves)
    ensures Covered(c, RunLive(c, moves), LastTime(moves)) && Respected(c, RunLive(c, moves).marks)
  {
    if moves == [] {
    } else {
      var init, last := moves[..|moves| - 1], moves[|moves| - 1];
      forall k | 0 <= k < |init|
        ensures !LeavesEarly(c, RunLive(c, init[..k]), init[k])
      {
        assert init[..k] == moves[..k];
        assert !LeavesEarly(c, RunLive(c, moves[..k]), moves[k]);
      }
      RunIsCovered(c, init);
      RunIsMarked(c, init);
      assert !LeavesEarly(c, RunLive(c, moves[..|init|]), moves[|init|]);
      MoveKeepsCovered(c, RunLive(c, init), last, LastTime(init));
    }
  }

  /** A start never takes the circuit out before its time. */
  lemma StartWaits(c: Config, moves: seq<Move>, now: nat)
    requires NoEarlyExit(c, moves)
    ensures NoEarlyExit(c, moves + [Start(now)])
  {
    var longer := moves + [Start(now)];
    forall k | 0 <= k < |longer|
      ensures !LeavesEarly(c, RunLive(c, longer[..k]), longer[k])
    {
      if k < |moves| {
        assert longer[..k] == moves[..k] && longer[k] == moves[k];
      }
    }
  }

  /** A start at the moment of an early exit is too early. */
  lemma ExitAdmits(c: Config, moves: seq<Move>, m: Move)
    requires LeavesEarly(c, RunLive(c, moves), m)
    ensures !Respected(c, RunLive(c, moves + [m] + [Start(m.now)]).marks)
  {
    var l := RunLive(c, moves);
    RunIsMarked(c, moves);
    RunSnoc(c, moves, m);
    RunSnoc(c, moves + [m], Start(m.now));
    var marks := l.marks + [Started(m.now)];
    assert RunLive(c, moves + [m] + [Start(m.now)]).marks == marks;
    assert marks[|l.marks| - 1].Opened? && marks[|l.marks|].Started?;
  }

  ghost predicate StartsRespected(c: Config, moves: seq<Move>) {
    Respected(c, RunLive(c, moves).marks)
  }

  /** Overlapping calls never start within the recovery time of an opening,
      neither in the run nor at any of its moments, iff the run never leaves
      open before its time. */
  lemma EarlyStartIff(c: Config, moves: seq<Move>)
    requires MonotoneMoves(moves)
    ensures NoEarlyExit(c, moves) <==>
      forall k :: 0 < k <= |moves| ==> StartsRespected(c, moves[..k] + [Start(moves[k - 1].now)])
  {
    hide *;
    if NoEarlyExit(c, moves) {
      forall k | 0 < k <= |moves|
        ensures StartsRespected(c, moves[..k] + [Start(moves[k - 1].now)])
      {
        MomentIsRespected(c, moves, k);
      }
    } else {
      var k := ExitFound(c, moves);
      assert !StartsRespected(c, moves[..k] + [Start(moves[k - 1].now)]);
    }
  }

  /** The moment after an early exit. */
  lemma ExitFound(c: Config, moves: seq<Move>) returns (k: nat)
    requires !NoEarlyExit(c, moves)
    ensures 0 < k <= |moves| && !StartsRespected(c, moves[..k] + [Start(moves[k - 1].now)])
  {
    hide LeavesEarly, RunLive, Respected;
    var i :| 0 <= i < |moves| && LeavesEarly(c, RunLive(c, moves[..i]), moves[i]);
    ExitAdmits(c, moves[..i], moves[i]);
    k := i + 1;
    assert moves[..k] == moves[..i] + [moves[i]];
  }

  lemma MomentIsRespected(c: Config, moves: seq<Move>, k: nat)
    requires MonotoneMoves(moves) && NoEarlyExit(c, moves) && 0 < k <= |moves|
    ensures StartsRespected(c, moves[..k] + [Start(moves[k - 1].now)])
  {
    hide NoEarlyExit, RunLive, Respected;
    PrefixHasNone(c, moves, k);
    StartWaits(c, moves[..k], moves[k - 1].now);
    RunIsCovered(c, moves[..k] + [Start(moves[k - 1].now)]);
  }

  lemma PrefixHasNone(c: Config, moves: seq<Move>, k: nat)
    requires k <= |moves| && NoEarlyExit(c, moves)
    ensures NoEarlyExit(c, moves[..k])
  {
    forall i | 0 <= i < k
      ensures !LeavesEarly(c, RunLive(c, moves[..k][..i]), moves[..k][i])
    {
      assert moves[..k][..i] == moves[..i];
    }
  }

  /** It happens: two probes, one fails and opens the circuit until 202, the other
      succeeds at 103 and closes it, and the next call starts at 104. */
  lemma EarlyStartHappens()
    ensures var c := Config(1, 100, 1);
      var overlap := [Start(1), Finish(0, false, 1), Start(101), Start(101),
                      Finish(1, false, 102), Finish(2, true, 103), Start(104)];
      && MonotoneMoves(overlap)
      && RunLive(c, overlap).marks ==
           [Started(1), Opened(1), Started(101), Started(101), Opened(102), Started(104)]
      && !StartsRespected(c, overlap)
  {
    var c := Config(1, 100, 1);
    var before := LateSuccess();
    RunSnoc(c, before, Start(104));
    assert before + [Start(104)] ==
      [Start(1), Finish(0, false, 1), Start(101), Start(101), Finish(1, false, 102), Finish(2, true, 103), Start(104)];
    var marks := RunLive(c, before + [Start(104)]).marks;
    assert marks[4].Opened? && marks[5].Started?;
  }

  /** It happens: two calls start at 101 and both are probes. */
  lemma TwoProbesFly()
    ensures !OneProbeThroughout(Config(1, 100, 1), [Start(1), Finish(0, false, 1), Start(101), Start(101)])
  {
    var c := Config(1, 100, 1);
    var s3 := FirstProbe();
    var moves := [Start(1), Finish(0, false, 1), Start(101), Start(101)];
    assert moves[..3] == s3 && s3 + [Start(101)] == moves;
    assert RunLive(c, s3).inFlight[1].probe;
    assert SecondProbe(RunLive(c, moves[..3]), moves[3]);
    OneProbeIff(c, moves);
  }

  /** The second probe has closed the circuit. */
  lemma LateSuccess() returns (moves: seq<Move>)
    ensures moves ==
      [Start(1), Finish(0, false, 1), Start(101), Start(101), Finish(1, false, 102), Finish(2, true, 103)]
    ensures var l := RunLive(Config(1, 100, 1), moves);
      l.breaker.state == Closed && l.marks == [Started(1), Opened(1), Started(101), Started(101), Opened(102)]
  {
    var c := Config(1, 100, 1);
    var s3 := FirstProbe();
    var s4 := s3 + [Start(101)];
    var s5 := s4 + [Finish(1, false, 102)];
    moves := s5 + [Finish(2, true, 103)];
    RunSnoc(c, s3, Start(101));
    RunSnoc(c, s4, Finish(1, false, 102));
    RunSnoc(c, s5, Finish(2, true, 103));
  }

  /** The circuit has opened once and lets a first probe through. */
  lemma FirstProbe() returns (moves: seq<Move>)
    ensures moves == [Start(1), Finish(0, false, 1), Start(101)]
    ensures RunLive(Config(1, 100, 1), moves) ==
      Live(Breaker(HalfOpen, 1, 0, Some(1), Some(101)), map[1 := Flight(true, 2)], 2,
           [Started(1), Opened(1), Started(101)])
  {
    var c := Config(1, 100, 1);
    var s1 := [Start(1)];
    var s2 := s1 + [Finish(0, false, 1)];
    moves := s2 + [Start(101)];
    RunSnoc(c, [], Start(1));
    assert [] + [Start(1)] == s1;
    RunSnoc(c, s1, Finish(0, false, 1));
    RunSnoc(c, s2, Start(101));
  }
}
