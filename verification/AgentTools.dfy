/** Executing the tool calls of one assistant message, in order or together. */
module AgentTools {
  import opened AgentMessages
  import opened AgentStream

  datatype ToolMode = Sequential | Parallel

  /** How the k-th call of the message turns out. */
  type Outcomes = nat -> CallOutcome

  datatype Progress = Progress(callId: Name, partial: Payload)

  /** Progress reports that arrive at the k-th point between two events of the
      tool phase; tools that run together report at any time, but none reports
      after the phase. */
  type Reports = nat -> seq<Progress>

  function ReportEvents(ps: seq<Progress>): seq<Event> {
    if ps == [] then []
    else
      var p := ps[|ps| - 1];
      ReportEvents(ps[..|ps| - 1]) + [ToolUpdate(p.callId, p.partial)]
  }

  /** Pending progress reports, then an event. */
  function Then(ps: seq<Progress>, e: Event): seq<Event> {
    ReportEvents(ps) + [e]
  }

  /** The events that end the k-th call. */
  function Delivery(call: ToolCall, o: CallOutcome, k: nat, reports: Reports): seq<Event> {
    Then(reports(3 * k), ToolEnd(call, FinalOutput(o), FinalError(o)))
    + Then(reports(3 * k + 1), MessageStart(ResultMessage(call, o)))
    + Then(reports(3 * k + 2), MessageEnd(ResultMessage(call, o)))
  }

  /** A call from its start event to its result. */
  function CallEvents(call: ToolCall, o: CallOutcome, k: nat, reports: Reports): seq<Event> {
    [ToolStart(call)] + Delivery(call, o, k, reports)
  }

  /** The result messages of the calls at the given indices. */
  function ResultsAt(calls: seq<ToolCall>, outcome: Outcomes, order: seq<nat>): (results: seq<Message>)
    requires forall i :: 0 <= i < |order| ==> order[i] < |calls|
    ensures |results| == |order|
    ensures forall i :: 0 <= i < |order| ==> results[i] == ResultMessage(calls[order[i]], outcome(order[i]))
  {
    if order == [] then []
    else
      var k := order[|order| - 1];
      ResultsAt(calls, outcome, order[..|order| - 1]) + [ResultMessage(calls[k], outcome(k))]
  }

  // ----- One call after another -----

  function InOrder(n: nat): (order: seq<nat>)
    ensures |order| == n && forall i :: 0 <= i < n ==> order[i] == i
  {
    if n == 0 then [] else InOrder(n - 1) + [n - 1]
  }

  function SequentialEvents(calls: seq<ToolCall>, outcome: Outcomes, reports: Reports, n: nat): seq<Event>
    requires n <= |calls|
  {
    if n == 0 then []
    else
      SequentialEvents(calls, outcome, reports, n - 1) + CallEvents(calls[n - 1], outcome(n - 1), n - 1, reports)
  }

  // ----- All together -----

  /** Indices below n of calls answered at once. */
  function AtOnce(outcome: Outcomes, n: nat): (order: seq<nat>)
    ensures forall i :: 0 <= i < |order| ==> order[i] < n && outcome(order[i]).Immediate?
  {
    if n == 0 then []
    else if outcome(n - 1).Immediate? then AtOnce(outcome, n - 1) + [n - 1] else AtOnce(outcome, n - 1)
  }

  /** Indices below n of calls that run. */
  function Running(outcome: Outcomes, n: nat): (order: seq<nat>)
    ensures forall i :: 0 <= i < |order| ==> order[i] < n && outcome(order[i]).Ran?
  {
    if n == 0 then []
    else if outcome(n - 1).Ran? then Running(outcome, n - 1) + [n - 1] else Running(outcome, n - 1)
  }

  function ParallelOrder(outcome: Outcomes, n: nat): (order: seq<nat>)
    ensures forall i :: 0 <= i < |order| ==> order[i] < n
  {
    AtOnce(outcome, n) + Running(outcome, n)
  }

  function PrepareEvents(calls: seq<ToolCall>, outcome: Outcomes, reports: Reports, n: nat): seq<Event>
    requires n <= |calls|
  {
    if n == 0 then []
    else
      PrepareEvents(calls, outcome, reports, n - 1)
      + if outcome(n - 1).Immediate? then CallEvents(calls[n - 1], outcome(n - 1), n - 1, reports)
        else [ToolStart(calls[n - 1])]
  }

  function FinishEvents(calls: seq<ToolCall>, outcome: Outcomes, reports: Reports, running: seq<nat>): seq<Event>
    requires forall i :: 0 <= i < |running| ==> running[i] < |calls|
  {
    if running == [] then []
    else
      var k := running[|running| - 1];
      FinishEvents(calls, outcome, reports, running[..|running| - 1]) + Delivery(calls[k], outcome(k), k, reports)
  }

  /** Events and results of the whole tool phase. */
  function ToolEvents(mode: ToolMode, calls: seq<ToolCall>, outcome: Outcomes, reports: Reports): seq<Event> {
    match mode
    case Sequential => SequentialEvents(calls, outcome, reports, |calls|)
    case Parallel =>
      PrepareEvents(calls, outcome, reports, |calls|)
      + FinishEvents(calls, outcome, reports, Running(outcome, |calls|))
  }

  function OrderOf(mode: ToolMode, outcome: Outcomes, n: nat): (order: seq<nat>)
    ensures forall i :: 0 <= i < |order| ==> order[i] < n
  {
    if mode == Sequential then InOrder(n) else ParallelOrder(outcome, n)
  }

  function ToolResults(mode: ToolMode, calls: seq<ToolCall>, outcome: Outcomes): seq<Message> {
    ResultsAt(calls, outcome, OrderOf(mode, outcome, |calls|))
  }

  // ----- The two loops -----

  method Report(agent: AgentState, ps: seq<Progress>)
    requires agent.Valid()
    modifies agent
    ensures agent.Valid() && agent.base == old(agent.base)
    ensures agent.trace == old(agent.trace) + ReportEvents(ps)
  {
    for i := 0 to |ps|
      invariant agent.Valid() && agent.base == old(agent.base)
      invariant agent.trace == old(agent.trace) + ReportEvents(ps[..i])
    {
      assert ps[..i + 1][..i] == ps[..i];
      agent.ProcessEvents(ToolUpdate(ps[i].callId, ps[i].partial));
    }
    assert ps[..|ps|] == ps;
  }

  method EmitAfter(agent: AgentState, ps: seq<Progress>, e: Event)
    requires agent.Valid()
    modifies agent
    ensures agent.Valid() && agent.base == old(agent.base)
    ensures agent.trace == old(agent.trace) + Then(ps, e)
  {
    Report(agent, ps);
    agent.ProcessEvents(e);
  }

  lemma Regroup(t: seq<Event>, a: seq<Event>, b: seq<Event>)
    ensures (t + a) + b == t + (a + b)
  {
  }

  method EmitToolCallOutcome(agent: AgentState, call: ToolCall, o: CallOutcome, k: nat, reports: Reports)
    returns (result: Message)
    requires agent.Valid()
    modifies agent
    ensures agent.Valid() && agent.base == old(agent.base)
    ensures result == ResultMessage(call, o)
    ensures agent.trace == old(agent.trace) + Delivery(call, o, k, reports)
  {
    ghost var t := agent.trace;
    EmitAfter(agent, reports(3 * k), ToolEnd(call, FinalOutput(o), FinalError(o)));
    result := ToolResult(call.id, call.name, FinalOutput(o).content, FinalOutput(o).details, FinalError(o));
    EmitAfter(agent, reports(3 * k + 1), MessageStart(result));
    EmitAfter(agent, reports(3 * k + 2), MessageEnd(result));
    ghost var a := Then(reports(3 * k), ToolEnd(call, FinalOutput(o), FinalError(o)));
    ghost var b := Then(reports(3 * k + 1), MessageStart(result));
    Regroup(t, a, b);
    Regroup(t, a + b, Then(reports(3 * k + 2), MessageEnd(result)));
  }

  method RunCall(agent: AgentState, call: ToolCall, o: CallOutcome, k: nat, reports: Reports) returns (result: Message)
    requires agent.Valid()
    modifies agent
    ensures agent.Valid() && agent.base == old(agent.base)
    ensures result == ResultMessage(call, o)
    ensures agent.trace == old(agent.trace) + CallEvents(call, o, k, reports)
  {
    ghost var t := agent.trace;
    agent.ProcessEvents(ToolStart(call));
    result := EmitToolCallOutcome(agent, call, o, k, reports);
    Regroup(t, [ToolStart(call)], Delivery(call, o, k, reports));
  }

  method ExecuteToolCallsSequential(agent: AgentState, calls: seq<ToolCall>, outcome: Outcomes, reports: Reports)
    returns (results: seq<Message>)
    requires agent.Valid()
    modifies agent
    ensures agent.Valid() && agent.base == old(agent.base)
    ensures results == ToolResults(Sequential, calls, outcome)
    ensures agent.trace == old(agent.trace) + ToolEvents(Sequential, calls, outcome, reports)
  {
    hide ObserveAll, FinalOutput, FinalError, ResultMessage, CallEvents;
    results := [];
    ghost var t := agent.trace;
    for i := 0 to |calls|
      invariant agent.Valid() && agent.base == old(agent.base)
      invariant results == ResultsAt(calls, outcome, InOrder(i))
      invariant agent.trace == t + SequentialEvents(calls, outcome, reports, i)
    {
      var result := RunCall(agent, calls[i], outcome(i), i, reports);
      Regroup(t, SequentialEvents(calls, outcome, reports, i), CallEvents(calls[i], outcome(i), i, reports));
      results := results + [result];
    }
  }

  lemma PrepareNone(calls: seq<ToolCall>, outcome: Outcomes, reports: Reports)
    ensures PrepareEvents(calls, outcome, reports, 0) == [] && Running(outcome, 0) == []
    ensures ResultsAt(calls, outcome, AtOnce(outcome, 0)) == []
  {
  }

  lemma StepOrders(outcome: Outcomes, n: nat)
    ensures InOrder(n + 1) == InOrder(n) + [n]
    ensures outcome(n).Immediate? ==>
      AtOnce(outcome, n + 1) == AtOnce(outcome, n) + [n] && Running(outcome, n + 1) == Running(outcome, n)
    ensures outcome(n).Ran? ==>
      AtOnce(outcome, n + 1) == AtOnce(outcome, n) && Running(outcome, n + 1) == Running(outcome, n) + [n]
  {
  }

  lemma ResultsSnoc(calls: seq<ToolCall>, outcome: Outcomes, order: seq<nat>, k: nat)
    requires k < |calls| && forall i :: 0 <= i < |order| ==> order[i] < |calls|
    ensures ResultsAt(calls, outcome, order + [k])
         == ResultsAt(calls, outcome, order) + [ResultMessage(calls[k], outcome(k))]
  {
    assert (order + [k])[..|order|] == order;
  }

  lemma PrepareStep(calls: seq<ToolCall>, outcome: Outcomes, reports: Reports, n: nat)
    requires n < |calls|
    ensures PrepareEvents(calls, outcome, reports, n + 1)
         == PrepareEvents(calls, outcome, reports, n)
            + (if outcome(n).Immediate? then CallEvents(calls[n], outcome(n), n, reports) else [ToolStart(calls[n])])
    ensures ResultsAt(calls, outcome, AtOnce(outcome, n + 1))
         == ResultsAt(calls, outcome, AtOnce(outcome, n))
            + (if outcome(n).Immediate? then [ResultMessage(calls[n], outcome(n))] else [])
  {
    if outcome(n).Immediate? {
      ResultsSnoc(calls, outcome, AtOnce(outcome, n), n);
    }
  }

  method PrepareToolCalls(agent: AgentState, calls: seq<ToolCall>, outcome: Outcomes, reports: Reports)
    returns (results: seq<Message>, runnableCalls: seq<nat>)
    requires agent.Valid()
    modifies agent
    ensures agent.Valid() && agent.base == old(agent.base)
    ensures runnableCalls == Running(outcome, |calls|)
    ensures results == ResultsAt(calls, outcome, AtOnce(outcome, |calls|))
    ensures agent.trace == old(agent.trace) + PrepareEvents(calls, outcome, reports, |calls|)
  {
    hide *;
    results, runnableCalls := [], [];
    ghost var t := agent.trace;
    PrepareNone(calls, outcome, reports);
    for i := 0 to |calls|
      invariant agent.Valid() && agent.base == old(agent.base)
      invariant runnableCalls == Running(outcome, i)
      invariant results == ResultsAt(calls, outcome, AtOnce(outcome, i))
      invariant agent.trace == t + PrepareEvents(calls, outcome, reports, i)
    {
      ghost var prepared := PrepareEvents(calls, outcome, reports, i);
      StepOrders(outcome, i);
      PrepareStep(calls, outcome, reports, i);
      if outcome(i).Immediate? {
        var result := RunCall(agent, calls[i], outcome(i), i, reports);
        results := results + [result];
        Regroup(t, prepared, CallEvents(calls[i], outcome(i), i, reports));
      } else {
        agent.ProcessEvents(ToolStart(calls[i]));
        runnableCalls := runnableCalls + [i];
        Regroup(t, prepared, [ToolStart(calls[i])]);
      }
    }
  }

  lemma FinishSnoc(calls: seq<ToolCall>, outcome: Outcomes, reports: Reports, running: seq<nat>, j: nat)
    requires j < |running| && forall i :: 0 <= i < |running| ==> running[i] < |calls|
    ensures FinishEvents(calls, outcome, reports, running[..j + 1])
         == FinishEvents(calls, outcome, reports, running[..j])
            + Delivery(calls[running[j]], outcome(running[j]), running[j], reports)
    ensures ResultsAt(calls, outcome, running[..j + 1])
         == ResultsAt(calls, outcome, running[..j]) + [ResultMessage(calls[running[j]], outcome(running[j]))]
  {
    assert running[..j + 1][..j] == running[..j];
  }

  lemma FinishNone(calls: seq<ToolCall>, outcome: Outcomes, reports: Reports)
    ensures FinishEvents(calls, outcome, reports, []) == [] && ResultsAt(calls, outcome, []) == []
  {
  }

  method FinishToolCalls(agent: AgentState, calls: seq<ToolCall>, outcome: Outcomes, reports: Reports,
                         running: seq<nat>)
    returns (results: seq<Message>)
    requires agent.Valid() && forall i :: 0 <= i < |running| ==> running[i] < |calls|
    modifies agent
    ensures agent.Valid() && agent.base == old(agent.base)
    ensures results == ResultsAt(calls, outcome, running)
    ensures agent.trace == old(agent.trace) + FinishEvents(calls, outcome, reports, running)
  {
    hide *;
    results := [];
    ghost var t := agent.trace;
    FinishNone(calls, outcome, reports);
    assert running[..0] == [];
    for j := 0 to |running|
      invariant agent.Valid() && agent.base == old(agent.base)
      invariant results == ResultsAt(calls, outcome, running[..j])
      invariant agent.trace == t + FinishEvents(calls, outcome, reports, running[..j])
    {
      var k := running[j];
      FinishSnoc(calls, outcome, reports, running, j);
      var result := EmitToolCallOutcome(agent, calls[k], outcome(k), k, reports);
      Regroup(t, FinishEvents(calls, outcome, reports, running[..j]), Delivery(calls[k], outcome(k), k, reports));
      results := results + [result];
    }
    assert running[..|running|] == running;
  }

  lemma {:induction false} ResultsJoin(calls: seq<ToolCall>, outcome: Outcomes, a: seq<nat>, b: seq<nat>)
    requires forall i :: 0 <= i < |a| ==> a[i] < |calls|
    requires forall i :: 0 <= i < |b| ==> b[i] < |calls|
    ensures ResultsAt(calls, outcome, a + b) == ResultsAt(calls, outcome, a) + ResultsAt(calls, outcome, b)
    decreases |b|
  {
    if b == [] {
      assert a + b == a;
    } else {
      var init := b[..|b| - 1];
      assert (a + b)[..|a + b| - 1] == a + init;
      ResultsJoin(calls, outcome, a, init);
    }
  }

  method ExecuteToolCallsParallel(agent: AgentState, calls: seq<ToolCall>, outcome: Outcomes, reports: Reports)
    returns (results: seq<Message>)
    requires agent.Valid()
    modifies agent
    ensures agent.Valid() && agent.base == old(agent.base)
    ensures results == ToolResults(Parallel, calls, outcome)
    ensures agent.trace == old(agent.trace) + ToolEvents(Parallel, calls, outcome, reports)
  {
    ghost var t := agent.trace;
    var atOnce, runnableCalls := PrepareToolCalls(agent, calls, outcome, reports);
    var finished := FinishToolCalls(agent, calls, outcome, reports, runnableCalls);
    results := atOnce + finished;
    ResultsJoin(calls, outcome, AtOnce(outcome, |calls|), runnableCalls);
    Regroup(t, PrepareEvents(calls, outcome, reports, |calls|), FinishEvents(calls, outcome, reports, runnableCalls));
  }

  method ExecuteToolCalls(agent: AgentState, mode: ToolMode, calls: seq<ToolCall>, outcome: Outcomes, reports: Reports)
    returns (results: seq<Message>)
    requires agent.Valid()
    modifies agent
    ensures agent.Valid() && agent.base == old(agent.base)
    ensures results == ToolResults(mode, calls, outcome)
    ensures agent.trace == old(agent.trace) + ToolEvents(mode, calls, outcome, reports)
  {
    if mode == Sequential {
      results := ExecuteToolCallsSequential(agent, calls, outcome, reports);
    } else {
      results := ExecuteToolCallsParallel(agent, calls, outcome, reports);
    }
  }
}
