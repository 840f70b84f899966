/** What the tool phase gives, whichever way the calls are executed. */
module AgentToolLaws {
  import opened Wrappers
  import opened Sequences
  import opened AgentMessages
  import opened AgentStream
  import opened AgentTools

  // ----- Parallel results are a stable partition of sequential ones -----

  lemma {:induction false} EachCallOnce(outcome: Outcomes, n: nat)
    ensures |ParallelOrder(outcome, n)| == n
  {
    if n == 0 {
    } else {
      EachCallOnce(outcome, n - 1);
    }
  }

  /** Some call answered at once comes after a call that runs. */
  ghost predicate Overtaken(outcome: Outcomes, n: nat) {
    exists i: nat, j: nat :: i < j < n && outcome(i).Ran? && outcome(j).Immediate?
  }

  lemma {:induction false} OrderOrOvertaken(outcome: Outcomes, n: nat)
    ensures !Overtaken(outcome, n) ==> ParallelOrder(outcome, n) == InOrder(n)
  {
    if n > 0 && !Overtaken(outcome, n) {
      assert !Overtaken(outcome, n - 1);
      OrderOrOvertaken(outcome, n - 1);
      if outcome(n - 1).Immediate? {
        NothingRuns(outcome, n - 1);
      } else {
        assert AtOnce(outcome, n) + Running(outcome, n) == ParallelOrder(outcome, n - 1) + [n - 1];
      }
    }
  }

  lemma {:induction false} NothingRuns(outcome: Outcomes, n: nat)
    requires forall i: nat :: i < n ==> outcome(i).Immediate?
    ensures Running(outcome, n) == [] && AtOnce(outcome, n) == InOrder(n)
  {
    if n == 0 {
    } else {
      NothingRuns(outcome, n - 1);
    }
  }

  lemma {:induction false} RunningHolds(outcome: Outcomes, n: nat, i: nat)
    requires i < n
    ensures outcome(i).Ran? ==> i in Running(outcome, n)
    ensures outcome(i).Immediate? ==> i in AtOnce(outcome, n)
  {
    if i < n - 1 {
      RunningHolds(outcome, n - 1, i);
    }
  }

  lemma OvertakenReorders(outcome: Outcomes, n: nat)
    requires Overtaken(outcome, n)
    ensures ParallelOrder(outcome, n) != InOrder(n)
  {
    var i: nat, j: nat :| i < j < n && outcome(i).Ran? && outcome(j).Immediate?;
    RunningHolds(outcome, n, i);
    RunningHolds(outcome, n, j);
    var a, b := AtOnce(outcome, n), Running(outcome, n);
    var p :| 0 <= p < |a| && a[p] == j;
    var q :| 0 <= q < |b| && b[q] == i;
    EachCallOnce(outcome, n);
    assert (a + b)[p] == j && (a + b)[|a| + q] == i;
  }

  /** The calls finish in source order iff no call answered at once follows one
      that runs. */
  lemma SameOrderIff(outcome: Outcomes, n: nat)
    ensures ParallelOrder(outcome, n) == InOrder(n) <==> !Overtaken(outcome, n)
  {
    OrderOrOvertaken(outcome, n);
    if Overtaken(outcome, n) {
      OvertakenReorders(outcome, n);
    }
  }

  lemma {:induction false} PartsAreDistinct(outcome: Outcomes, n: nat)
    ensures Distinct(AtOnce(outcome, n)) && Distinct(Running(outcome, n))
  {
    if n == 0 {
    } else {
      PartsAreDistinct(outcome, n - 1);
    }
  }

  /** In either mode every call finishes once. */
  lemma OrderIsPermutation(mode: ToolMode, outcome: Outcomes, n: nat)
    ensures var order := OrderOf(mode, outcome, n); |order| == n && Distinct(order)
  {
    EachCallOnce(outcome, n);
    PartsAreDistinct(outcome, n);
    var a, b := AtOnce(outcome, n), Running(outcome, n);
    forall i, j | 0 <= i < j < |a + b|
      ensures (a + b)[i] != (a + b)[j]
    {
      assert j >= |a| ==> (a + b)[j] == b[j - |a|];
      assert i >= |a| ==> (a + b)[i] == b[i - |a|];
    }
  }

  /** The results at some indices, regardless of order. */
  ghost function Bag(calls: seq<ToolCall>, outcome: Outcomes, order: seq<nat>): multiset<Message>
    requires forall i :: 0 <= i < |order| ==> order[i] < |calls|
  {
    multiset(ResultsAt(calls, outcome, order))
  }

  lemma BagSnoc(calls: seq<ToolCall>, outcome: Outcomes, order: seq<nat>, k: nat)
    requires k < |calls| && forall i :: 0 <= i < |order| ==> order[i] < |calls|
    ensures Bag(calls, outcome, order + [k])
         == Bag(calls, outcome, order) + multiset{ResultMessage(calls[k], outcome(k))}
  {
    assert (order + [k])[..|order|] == order;
  }

  lemma BagSums(a: multiset<Message>, b: multiset<Message>, all: multiset<Message>, x: Message)
    requires a + b == all
    ensures (a + multiset{x}) + b == all + multiset{x} && a + (b + multiset{x}) == all + multiset{x}
  {
  }

  ghost predicate BagsAgree(calls: seq<ToolCall>, outcome: Outcomes, n: nat)
    requires n <= |calls|
  {
    Bag(calls, outcome, AtOnce(outcome, n)) + Bag(calls, outcome, Running(outcome, n))
    == Bag(calls, outcome, InOrder(n))
  }

  lemma BagsAgreeStep(calls: seq<ToolCall>, outcome: Outcomes, n: nat)
    requires n < |calls| && BagsAgree(calls, outcome, n)
    ensures BagsAgree(calls, outcome, n + 1)
  {
    hide Bag, AtOnce, Running, InOrder, ResultsAt, ResultMessage;
    var a, b, all := AtOnce(outcome, n), Running(outcome, n), InOrder(n);
    var x := ResultMessage(calls[n], outcome(n));
    BagSums(Bag(calls, outcome, a), Bag(calls, outcome, b), Bag(calls, outcome, all), x);
    BagSnoc(calls, outcome, all, n);
    StepOrders(outcome, n);
    if outcome(n).Immediate? {
      BagSnoc(calls, outcome, a, n);
    } else {
      BagSnoc(calls, outcome, b, n);
    }
  }

  lemma NoBags(calls: seq<ToolCall>, outcome: Outcomes)
    ensures BagsAgree(calls, outcome, 0)
  {
  }

  lemma {:induction false} SameBags(calls: seq<ToolCall>, outcome: Outcomes, n: nat)
    requires n <= |calls|
    ensures BagsAgree(calls, outcome, n)
  {
    hide *;
    if n == 0 {
      NoBags(calls, outcome);
    } else {
      SameBags(calls, outcome, n - 1);
      BagsAgreeStep(calls, outcome, n - 1);
    }
  }

  /** Both ways of executing give the same results, each as often. */
  lemma SameResults(calls: seq<ToolCall>, outcome: Outcomes)
    ensures multiset(ToolResults(Parallel, calls, outcome)) == multiset(ToolResults(Sequential, calls, outcome))
  {
    var n := |calls|;
    SameBags(calls, outcome, n);
    ResultsJoin(calls, outcome, AtOnce(outcome, n), Running(outcome, n));
  }

  function CallIds(calls: seq<ToolCall>): seq<Name> {
    seq(|calls|, i requires 0 <= i < |calls| => calls[i].id)
  }

  lemma SameIdSameCall(calls: seq<ToolCall>, i: nat, j: nat)
    requires Distinct(CallIds(calls)) && i < |calls| && j < |calls| && calls[i].id == calls[j].id
    ensures i == j
  {
    assert CallIds(calls)[i] == CallIds(calls)[j];
  }

  /** With distinct call ids the result lists themselves are equal iff no call
      answered at once follows one that runs. */
  lemma SameResultListIff(calls: seq<ToolCall>, outcome: Outcomes)
    requires Distinct(CallIds(calls))
    ensures ToolResults(Parallel, calls, outcome) == ToolResults(Sequential, calls, outcome)
       <==> !Overtaken(outcome, |calls|)
  {
    hide Distinct, CallIds, FinalOutput, FinalError;
    var n := |calls|;
    SameOrderIff(outcome, n);
    EachCallOnce(outcome, n);
    var order := ParallelOrder(outcome, n);
    var p, s := ToolResults(Parallel, calls, outcome), ToolResults(Sequential, calls, outcome);
    if p == s {
      forall k | 0 <= k < n
        ensures order[k] == k
      {
        assert p[k] == ResultMessage(calls[order[k]], outcome(order[k]));
        assert s[k] == ResultMessage(calls[k], outcome(k));
        SameIdSameCall(calls, order[k], k);
      }
      assert order == InOrder(n);
    }
  }

  /** The results answer the calls one for one, in either mode. */
  lemma ResultsAnswerCalls(mode: ToolMode, calls: seq<ToolCall>, outcome: Outcomes)
    ensures multiset(ToolResults(mode, calls, outcome)) == multiset(ToolResults(Sequential, calls, outcome))
    ensures |ToolResults(mode, calls, outcome)| == |calls|
    ensures forall k :: 0 <= k < |calls| ==>
      ToolResults(Sequential, calls, outcome)[k] == ResultMessage(calls[k], outcome(k))
  {
    SameResults(calls, outcome);
    EachCallOnce(outcome, |calls|);
  }

  // ----- The tool phase as the agent sees it -----

  lemma {:induction false} ReportsObserved(m: Monitor, ps: seq<Progress>)
    requires m.phase.InTurn?
    ensures ObserveAll(m, ReportEvents(ps)) == m
  {
    if ps == [] {
    } else {
      ReportsObserved(m, ps[..|ps| - 1]);
      var p := ps[|ps| - 1];
      ObserveSnoc(m, ReportEvents(ps[..|ps| - 1]), ToolUpdate(p.callId, p.partial));
    }
  }

  lemma AfterObserved(m: Monitor, ps: seq<Progress>, e: Event)
    requires m.phase.InTurn?
    ensures ObserveAll(m, Then(ps, e)) == Observe(m, e)
  {
    ReportsObserved(m, ps);
    ObserveSnoc(m, ReportEvents(ps), e);
  }

  ghost predicate InTools(m: Monitor) {
    m.phase == InTurn(false) && m.replica.streaming == None
  }

  /** The agent after the messages were said and with these calls pending. */
  function Heard(m: Monitor, said: seq<Message>, pending: set<Name>): Monitor {
    m.(replica := m.replica.(messages := m.replica.messages + said, pendingToolCalls := pending))
  }

  lemma ResultObserved(m: Monitor, call: ToolCall, o: CallOutcome)
    requires InTools(m)
    ensures var m1 := Observe(m, ToolEnd(call, FinalOutput(o), FinalError(o)));
      var m2 := Observe(m1, MessageStart(ResultMessage(call, o)));
      && m1.phase.InTurn? && m2.phase.InTurn?
      && Observe(m2, MessageEnd(ResultMessage(call, o)))
         == Heard(m, [ResultMessage(call, o)], m.replica.pendingToolCalls - {call.id})
  {
  }

  lemma DeliveryObserved(m: Monitor, call: ToolCall, o: CallOutcome, k: nat, reports: Reports)
    requires InTools(m)
    ensures ObserveAll(m, Delivery(call, o, k, reports))
         == Heard(m, [ResultMessage(call, o)], m.replica.pendingToolCalls - {call.id})
  {
    hide Observe, Heard, ObserveAll, Then, ResultMessage, FinalOutput, FinalError;
    var result := ResultMessage(call, o);
    var e1, e2, e3 := ToolEnd(call, FinalOutput(o), FinalError(o)), MessageStart(result), MessageEnd(result);
    var m1 := Observe(m, e1);
    var m2 := Observe(m1, e2);
    var a, b, c := Then(reports(3 * k), e1), Then(reports(3 * k + 1), e2), Then(reports(3 * k + 2), e3);
    ResultObserved(m, call, o);
    AfterObserved(m, reports(3 * k), e1);
    AfterObserved(m1, reports(3 * k + 1), e2);
    AfterObserved(m2, reports(3 * k + 2), e3);
    ObserveJoin(m, a, b);
    ObserveJoin(m, a + b, c);
  }

  lemma CallObserved(m: Monitor, call: ToolCall, o: CallOutcome, k: nat, reports: Reports)
    requires InTools(m)
    ensures ObserveAll(m, CallEvents(call, o, k, reports))
         == Heard(m, [ResultMessage(call, o)], m.replica.pendingToolCalls - {call.id})
  {
    var m1 := Observe(m, ToolStart(call));
    ObserveOne(m, ToolStart(call));
    ObserveJoin(m, [ToolStart(call)], Delivery(call, o, k, reports));
    DeliveryObserved(m1, call, o, k, reports);
    assert m.replica.pendingToolCalls + {call.id} - {call.id} == m.replica.pendingToolCalls - {call.id};
  }

  lemma HeardTwice(m: Monitor, a: seq<Message>, p: set<Name>, b: seq<Message>, q: set<Name>)
    ensures Heard(Heard(m, a, p), b, q) == Heard(m, a + b, q)
  {
    assert m.replica.messages + a + b == m.replica.messages + (a + b);
  }

  lemma {:induction false} SequentialObserved(m: Monitor, calls: seq<ToolCall>, outcome: Outcomes, reports: Reports,
                                              n: nat)
    requires InTools(m) && m.replica.pendingToolCalls == {} && n <= |calls|
    ensures ObserveAll(m, SequentialEvents(calls, outcome, reports, n))
         == Heard(m, ResultsAt(calls, outcome, InOrder(n)), {})
  {
    if n > 0 {
      SequentialObserved(m, calls, outcome, reports, n - 1);
      var before := Heard(m, ResultsAt(calls, outcome, InOrder(n - 1)), {});
      ObserveJoin(m, SequentialEvents(calls, outcome, reports, n - 1),
                  CallEvents(calls[n - 1], outcome(n - 1), n - 1, reports));
      CallObserved(before, calls[n - 1], outcome(n - 1), n - 1, reports);
      assert {} - {calls[n - 1].id} == {};
      HeardTwice(m, ResultsAt(calls, outcome, InOrder(n - 1)), {}, [ResultMessage(calls[n - 1], outcome(n - 1))], {});
    } else {
      assert m.replica.messages + [] == m.replica.messages;
    }
  }

  ghost predicate OnlyCallsAt(calls: seq<ToolCall>, order: seq<nat>, pending: set<Name>)
    requires forall i :: 0 <= i < |order| ==> order[i] < |calls|
  {
    forall id :: id in pending ==> exists i :: 0 <= i < |order| && calls[order[i]].id == id
  }

  lemma PendingGrows(calls: seq<ToolCall>, order: seq<nat>, pending: set<Name>, k: nat)
    requires forall i :: 0 <= i < |order| ==> order[i] < |calls|
    requires OnlyCallsAt(calls, order, pending) && k < |calls|
    ensures OnlyCallsAt(calls, order + [k], pending + {calls[k].id})
  {
    var longer := order + [k];
    forall id | id in pending + {calls[k].id}
      ensures exists i :: 0 <= i < |longer| && calls[longer[i]].id == id
    {
      if id in pending {
        var i :| 0 <= i < |order| && calls[order[i]].id == id;
        assert longer[i] == order[i];
      } else {
        assert longer[|order|] == k;
      }
    }
  }

  /** The first phase so far: the answered calls have been said, and only calls
      that run are pending. */
  ghost predicate Prepared(m: Monitor, calls: seq<ToolCall>, outcome: Outcomes, reports: Reports, n: nat,
                           pending: set<Name>)
    requires n <= |calls|
  {
    && ObserveAll(m, PrepareEvents(calls, outcome, reports, n))
       == Heard(m, ResultsAt(calls, outcome, AtOnce(outcome, n)), pending)
    && OnlyCallsAt(calls, Running(outcome, n), pending)
  }

  lemma PreparedAtOnce(m: Monitor, calls: seq<ToolCall>, outcome: Outcomes, reports: Reports, n: nat,
                       pending: set<Name>)
    requires InTools(m) && n < |calls| && outcome(n).Immediate? && Prepared(m, calls, outcome, reports, n, pending)
    ensures Prepared(m, calls, outcome, reports, n + 1, pending - {calls[n].id})
  {
    var said := ResultsAt(calls, outcome, AtOnce(outcome, n));
    var m1 := Heard(m, said, pending);
    var after := pending - {calls[n].id};
    calc {
      ObserveAll(m, PrepareEvents(calls, outcome, reports, n + 1));
      { ObserveJoin(m, PrepareEvents(calls, outcome, reports, n), CallEvents(calls[n], outcome(n), n, reports)); }
      ObserveAll(m1, CallEvents(calls[n], outcome(n), n, reports));
      { CallObserved(m1, calls[n], outcome(n), n, reports); }
      Heard(m1, [ResultMessage(calls[n], outcome(n))], after);
      { HeardTwice(m, said, pending, [ResultMessage(calls[n], outcome(n))], after); }
      Heard(m, said + [ResultMessage(calls[n], outcome(n))], after);
    }
  }

  lemma PreparedRunning(m: Monitor, calls: seq<ToolCall>, outcome: Outcomes, reports: Reports, n: nat,
                        pending: set<Name>)
    requires InTools(m) && n < |calls| && outcome(n).Ran? && Prepared(m, calls, outcome, reports, n, pending)
    ensures Prepared(m, calls, outcome, reports, n + 1, pending + {calls[n].id})
  {
    var m1 := Heard(m, ResultsAt(calls, outcome, AtOnce(outcome, n)), pending);
    ObserveJoin(m, PrepareEvents(calls, outcome, reports, n), [ToolStart(calls[n])]);
    ObserveOne(m1, ToolStart(calls[n]));
    PendingGrows(calls, Running(outcome, n), pending, n);
  }

  lemma {:induction false} PrepareObserved(m: Monitor, calls: seq<ToolCall>, outcome: Outcomes, reports: Reports,
                                           n: nat)
    returns (pending: set<Name>)
    requires InTools(m) && m.replica.pendingToolCalls == {} && n <= |calls|
    ensures Prepared(m, calls, outcome, reports, n, pending)
  {
    if n == 0 {
      pending := {};
      assert m.replica.messages + [] == m.replica.messages;
    } else {
      var before := PrepareObserved(m, calls, outcome, reports, n - 1);
      if outcome(n - 1).Immediate? {
        PreparedAtOnce(m, calls, outcome, reports, n - 1, before);
        pending := before - {calls[n - 1].id};
      } else {
        PreparedRunning(m, calls, outcome, reports, n - 1, before);
        pending := before + {calls[n - 1].id};
      }
    }
  }

  /** The pending calls left when the first j running calls have finished. */
  function Remaining(calls: seq<ToolCall>, running: seq<nat>, pending: set<Name>): set<Name>
    requires forall i :: 0 <= i < |running| ==> running[i] < |calls|
  {
    if running == [] then pending
    else Remaining(calls, running[..|running| - 1], pending) - {calls[running[|running| - 1]].id}
  }

  lemma {:induction false} RemainingOnly(calls: seq<ToolCall>, running: seq<nat>, pending: set<Name>, id: Name)
    requires forall i :: 0 <= i < |running| ==> running[i] < |calls|
    ensures id in Remaining(calls, running, pending) <==>
      id in pending && forall i :: 0 <= i < |running| ==> calls[running[i]].id != id
  {
    if running == [] {
    } else {
      RemainingOnly(calls, running[..|running| - 1], pending, id);
    }
  }

  lemma {:induction false} FinishObserved(m: Monitor, calls: seq<ToolCall>, outcome: Outcomes, reports: Reports,
                                          running: seq<nat>)
    requires InTools(m) && forall i :: 0 <= i < |running| ==> running[i] < |calls|
    ensures ObserveAll(m, FinishEvents(calls, outcome, reports, running))
         == Heard(m, ResultsAt(calls, outcome, running), Remaining(calls, running, m.replica.pendingToolCalls))
  {
    if running == [] {
      assert m.replica.messages + [] == m.replica.messages;
    } else {
      var init, k := running[..|running| - 1], running[|running| - 1];
      FinishObserved(m, calls, outcome, reports, init);
      var left := Remaining(calls, init, m.replica.pendingToolCalls);
      var said := ResultsAt(calls, outcome, init);
      ObserveJoin(m, FinishEvents(calls, outcome, reports, init), Delivery(calls[k], outcome(k), k, reports));
      DeliveryObserved(Heard(m, said, left), calls[k], outcome(k), k, reports);
      HeardTwice(m, said, left, [ResultMessage(calls[k], outcome(k))], left - {calls[k].id});
    }
  }

  lemma ParallelObserved(m: Monitor, calls: seq<ToolCall>, outcome: Outcomes, reports: Reports)
    requires InTools(m) && m.replica.pendingToolCalls == {}
    ensures ObserveAll(m, ToolEvents(Parallel, calls, outcome, reports))
         == Heard(m, ToolResults(Parallel, calls, outcome), {})
  {
    var n := |calls|;
    var atOnce, running := AtOnce(outcome, n), Running(outcome, n);
    var pending := PrepareObserved(m, calls, outcome, reports, n);
    var m1 := Heard(m, ResultsAt(calls, outcome, atOnce), pending);
    FinishObserved(m1, calls, outcome, reports, running);
    ObserveJoin(m, PrepareEvents(calls, outcome, reports, n), FinishEvents(calls, outcome, reports, running));
    var left := Remaining(calls, running, pending);
    forall id
      ensures id !in left
    {
      RemainingOnly(calls, running, pending, id);
    }
    assert left == {};
    ResultsJoin(calls, outcome, atOnce, running);
    HeardTwice(m, ResultsAt(calls, outcome, atOnce), pending, ResultsAt(calls, outcome, running), {});
  }

  /** After the tool phase the agent's copy has gained exactly the results the
      loop records, in the same order, and no call is pending. */
  lemma ToolsObserved(m: Monitor, mode: ToolMode, calls: seq<ToolCall>, outcome: Outcomes, reports: Reports)
    requires InTools(m) && m.replica.pendingToolCalls == {}
    ensures ObserveAll(m, ToolEvents(mode, calls, outcome, reports)) == Said(m, ToolResults(mode, calls, outcome))
  {
    if mode == Sequential {
      SequentialObserved(m, calls, outcome, reports, |calls|);
    } else {
      ParallelObserved(m, calls, outcome, reports);
    }
  }
}
