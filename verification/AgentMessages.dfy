/** Messages, stream and loop events of the agent, and the reducer that keeps
    the agent's own copy of the transcript. */
module AgentMessages {
  import opened Wrappers

  /** Names, ids, texts and payloads are only compared for equality. */
  type Name = nat
  type Payload = nat

  datatype ToolCall = ToolCall(id: Name, name: Name, arguments: Payload)

  datatype Block = Prose(text: Payload) | Call(call: ToolCall)

  datatype StopReason = Stop | Length | ToolUse | Error | Aborted

  datatype Message =
    | Assistant(content: seq<Block>, stopReason: StopReason, errorMessage: Option<Payload>)
    | ToolResult(callId: Name, toolName: Name, content': Payload, details: Payload, isError: bool)
    | Other(payload: Payload)

  type AssistantMessage = m: Message | m.Assistant? witness Assistant([], Stop, None)

  /** `content.filter((c) => c.type === "toolCall")` */
  function ToolCalls(content: seq<Block>): seq<ToolCall> {
    if content == [] then []
    else
      var rest, last := ToolCalls(content[..|content| - 1]), content[|content| - 1];
      if last.Call? then rest + [last.call] else rest
  }

  /** Call blocks before position p. */
  function CallsBefore(content: seq<Block>, p: nat): nat {
    |set i | 0 <= i < p && i < |content| && content[i].Call?|
  }

  lemma CallsBeforeStep(content: seq<Block>, p: nat)
    requires p < |content|
    ensures CallsBefore(content, p + 1) == CallsBefore(content, p) + (if content[p].Call? then 1 else 0)
  {
    var before := set i | 0 <= i < p && i < |content| && content[i].Call?;
    var after := set i | 0 <= i < p + 1 && i < |content| && content[i].Call?;
    assert after == if content[p].Call? then before + {p} else before;
  }

  lemma CallsBeforePrefix(content: seq<Block>, n: nat, p: nat)
    requires p <= n <= |content|
    ensures CallsBefore(content[..n], p) == CallsBefore(content, p)
  {
    assert (set i | 0 <= i < p && i < |content[..n]| && content[..n][i].Call?)
        == (set i | 0 <= i < p && i < |content| && content[i].Call?);
  }

  /** The block at position p is the call whose index counts the call blocks before
      it. */
  ghost predicate IsCallAt(content: seq<Block>, p: nat)
    requires p < |content|
  {
    var k := CallsBefore(content, p);
    content[p].Call? ==> k < |ToolCalls(content)| && ToolCalls(content)[k] == content[p].call
  }

  lemma LastCallIs(content: seq<Block>)
    requires content != []
    requires |ToolCalls(content[..|content| - 1])| == CallsBefore(content, |content| - 1)
    ensures |ToolCalls(content)| == CallsBefore(content, |content|) && IsCallAt(content, |content| - 1)
  {
    hide CallsBefore;
    CallsBeforeStep(content, |content| - 1);
  }

  lemma EarlierCallIs(content: seq<Block>, p: nat)
    requires p < |content| - 1 && IsCallAt(content[..|content| - 1], p)
    ensures IsCallAt(content, p)
  {
    hide CallsBefore;
    CallsBeforePrefix(content, |content| - 1, p);
  }

  /** The tool calls of a message are its call blocks: as many, and in order. */
  lemma {:induction false} ToolCallsAreBlocks(content: seq<Block>)
    ensures |ToolCalls(content)| == CallsBefore(content, |content|)
    ensures forall p :: 0 <= p < |content| ==> IsCallAt(content, p)
  {
    if content == [] {
    } else {
      hide CallsBefore, IsCallAt, ToolCalls;
      var n := |content| - 1;
      ToolCallsAreBlocks(content[..n]);
      CallsBeforePrefix(content, n, n);
      LastCallIs(content);
      forall p | 0 <= p < n
        ensures IsCallAt(content, p)
      {
        EarlierCallIs(content, p);
      }
    }
  }

  /** The block of the k-th call. */
  lemma {:induction false} BlockOfCall(content: seq<Block>, k: nat) returns (p: nat)
    requires k < |ToolCalls(content)|
    ensures p < |content| && content[p].Call? && CallsBefore(content, p) == k
    ensures content[p].call == ToolCalls(content)[k]
  {
    hide CallsBefore;
    var n := |content| - 1;
    if content[n].Call? && k == |ToolCalls(content)| - 1 {
      p := n;
      ToolCallsAreBlocks(content[..n]);
      CallsBeforePrefix(content, n, n);
    } else {
      p := BlockOfCall(content[..n], k);
      CallsBeforePrefix(content, n, p);
    }
  }

  lemma {:induction false} ToolCallsJoin(x: seq<Block>, y: seq<Block>)
    ensures ToolCalls(x + y) == ToolCalls(x) + ToolCalls(y)
  {
    if y == [] {
      assert x + y == x;
    } else {
      assert (x + y)[..|x + y| - 1] == x + y[..|y| - 1];
      ToolCallsJoin(x, y[..|y| - 1]);
    }
  }

  predicate Broken(m: AssistantMessage) {
    m.stopReason == Error || m.stopReason == Aborted
  }

  // ----- Responses of the model -----

  datatype StreamEvent =
    | StreamStart(partial: AssistantMessage)
    | StreamUpdate(partial: AssistantMessage)
    | StreamEnd

  /** The events of one response and its final message. */
  datatype Response = Response(events: seq<StreamEvent>, final: AssistantMessage)

  // ----- Tools -----

  datatype Output = Output(content: Payload, details: Payload)

  /** What the after-hook overrides. */
  datatype AfterResult = AfterResult(content: Option<Payload>, details: Option<Payload>, isError: Option<bool>)

  /** A call is answered at once with an error (unknown tool, invalid arguments,
      blocked), or it runs. */
  datatype CallOutcome =
    | Immediate(error: Output)
    | Ran(result: Output, failed: bool, after: Option<AfterResult>)

  function FinalOutput(o: CallOutcome): Output {
    match o
    case Immediate(error) => error
    case Ran(result, _, None) => result
    case Ran(result, _, Some(a)) => Output(GetOr(a.content, result.content), GetOr(a.details, result.details))
  }

  function FinalError(o: CallOutcome): bool {
    match o
    case Immediate(_) => true
    case Ran(_, failed, None) => failed
    case Ran(_, failed, Some(a)) => GetOr(a.isError, failed)
  }

  function ResultMessage(call: ToolCall, o: CallOutcome): Message {
    ToolResult(call.id, call.name, FinalOutput(o).content, FinalOutput(o).details, FinalError(o))
  }

  /** An answer at once is an error; a call that ran gives its own output and error
      flag, each of the three replaced by what the after-hook sets, and by nothing
      else. */
  lemma ResultSays(call: ToolCall, o: CallOutcome)
    ensures var m := ResultMessage(call, o);
      && m.callId == call.id && m.toolName == call.name
      && (o.Immediate? ==> m.isError && m.content' == o.error.content && m.details == o.error.details)
      && (o.Ran? ==>
            && (m.isError <==> if HookSets(o, (a: AfterResult) => a.isError) then o.after.value.isError.value
                               else o.failed)
            && m.content' == (if HookSets(o, (a: AfterResult) => a.content) then o.after.value.content.value
                              else o.result.content)
            && m.details == (if HookSets(o, (a: AfterResult) => a.details) then o.after.value.details.value
                             else o.result.details))
  {
  }

  predicate HookSets<T>(o: CallOutcome, field: AfterResult -> Option<T>)
    requires o.Ran?
  {
    o.after.Some? && field(o.after.value).Some?
  }

  // ----- Loop events -----

  datatype Event =
    | AgentStart
    | AgentEnd(messages: seq<Message>)
    | TurnStart
    | TurnEnd(message: Message, toolResults: seq<Message>)
    | MessageStart(message: Message)
    | MessageUpdate(message: Message)
    | MessageEnd(message: Message)
    | ToolStart(call: ToolCall)
    | ToolUpdate(callId: Name, partial: Payload)
    | ToolEnd(call: ToolCall, result: Output, isError: bool)

  /** The agent's transcript as its event handler sees it. */
  datatype Replica = Replica(
    messages: seq<Message>,
    streaming: Option<Message>,
    pendingToolCalls: set<Name>,
    errorMessage: Option<Payload>)

  function Reduce(r: Replica, e: Event): Replica {
    match e
    case MessageStart(m) => r.(streaming := Some(m))
    case MessageUpdate(m) => r.(streaming := Some(m))
    case MessageEnd(m) => r.(streaming := None, messages := r.messages + [m])
    case ToolStart(call) => r.(pendingToolCalls := r.pendingToolCalls + {call.id})
    case ToolEnd(call, _, _) => r.(pendingToolCalls := r.pendingToolCalls - {call.id})
    case TurnEnd(m, _) => if m.Assistant? && m.errorMessage.Some? then r.(errorMessage := m.errorMessage) else r
    case AgentEnd(_) => r.(streaming := None)
    case _ => r
  }

  /** Where a trace stands: nothing may follow the end of the run, turns are
      bracketed, and messages are bracketed inside turns. */
  datatype Phase = Before | Between | InTurn(open: bool) | After | Bad

  function Advance(p: Phase, e: Event): Phase {
    match e
    case AgentStart => if p == Before then Between else Bad
    case AgentEnd(_) => if p == Between then After else Bad
    case TurnStart => if p == Between then InTurn(false) else Bad
    case TurnEnd(_, _) => if p == InTurn(false) then Between else Bad
    case MessageStart(_) => if p == InTurn(false) then InTurn(true) else Bad
    case MessageUpdate(_) => if p == InTurn(true) then p else Bad
    case MessageEnd(_) => if p == InTurn(true) then InTurn(false) else Bad
    case ToolUpdate(_, _) => if p.InTurn? then p else Bad
    case ToolStart(_) => if p == InTurn(false) then p else Bad
    case ToolEnd(_, _, _) => if p == InTurn(false) then p else Bad
  }

  /** The reducer and the bracket checker side by side. */
  datatype Monitor = Monitor(replica: Replica, phase: Phase)

  function Observe(m: Monitor, e: Event): Monitor {
    Monitor(Reduce(m.replica, e), Advance(m.phase, e))
  }

  function ObserveAll(m: Monitor, events: seq<Event>): Monitor {
    if events == [] then m else Observe(ObserveAll(m, events[..|events| - 1]), events[|events| - 1])
  }

  lemma ObserveSnoc(m: Monitor, events: seq<Event>, e: Event)
    ensures ObserveAll(m, events + [e]) == Observe(ObserveAll(m, events), e)
  {
    assert (events + [e])[..|events|] == events;
  }

  lemma {:induction false} ObserveJoin(m: Monitor, a: seq<Event>, b: seq<Event>)
    ensures ObserveAll(m, a + b) == ObserveAll(ObserveAll(m, a), b)
    decreases |b|
  {
    if b == [] {
      assert a + b == a;
    } else {
      var init, e := b[..|b| - 1], b[|b| - 1];
      assert a + b == (a + init) + [e] && init + [e] == b;
      ObserveSnoc(m, a + init, e);
      ObserveSnoc(ObserveAll(m, a), init, e);
      ObserveJoin(m, a, init);
    }
  }

  lemma ObserveOne(m: Monitor, e: Event)
    ensures ObserveAll(m, [e]) == Observe(m, e)
  {
    ObserveSnoc(m, [], e);
    assert [] + [e] == [e];
  }

  lemma ObserveTwo(m: Monitor, e: Event, f: Event)
    ensures ObserveAll(m, [e, f]) == Observe(Observe(m, e), f)
  {
    ObserveOne(m, e);
    ObserveSnoc(m, [e], f);
    assert [e] + [f] == [e, f];
  }
}
