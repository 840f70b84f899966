/** Streaming one assistant response into the context. */
module AgentStream {
  import opened Wrappers
  import opened AgentMessages

  /** The agent's state as its event handler updates it; `trace` records the
      events since `base`. */
  class AgentState {
    var messages: seq<Message>
    var streamingMessage: Option<Message>
    var pendingToolCalls: set<Name>
    var errorMessage: Option<Payload>
    ghost var base: Replica
    ghost var trace: seq<Event>

    constructor (messages: seq<Message>)
      ensures Valid() && View() == base == Replica(messages, None, {}, None) && trace == []
    {
      this.messages, streamingMessage, pendingToolCalls, errorMessage := messages, None, {}, None;
      base, trace := Replica(messages, None, {}, None), [];
    }

    function View(): Replica
      reads this
    {
      Replica(messages, streamingMessage, pendingToolCalls, errorMessage)
    }

    ghost predicate Valid()
      reads this
    {
      ObserveAll(Monitor(base, Before), trace).replica == View()
    }

    method ProcessEvents(e: Event)
      requires Valid()
      modifies this
      ensures Valid() && base == old(base) && trace == old(trace) + [e]
      ensures View() == Reduce(old(View()), e)
    {
      hide ObserveAll, Advance;
      match e {
        case MessageStart(m) => streamingMessage := Some(m);
        case MessageUpdate(m) => streamingMessage := Some(m);
        case MessageEnd(m) =>
          streamingMessage := None;
          messages := messages + [m];
        case ToolStart(call) => pendingToolCalls := pendingToolCalls + {call.id};
        case ToolEnd(call, _, _) => pendingToolCalls := pendingToolCalls - {call.id};
        case TurnEnd(m, _) =>
          if m.Assistant? && m.errorMessage.Some? {
            errorMessage := m.errorMessage;
          }
        case AgentEnd(_) => streamingMessage := None;
        case _ =>
      }
      ObserveSnoc(Monitor(base, Before), trace, e);
      trace := trace + [e];
    }

    /** `runWithLifecycle` before the run: a new record starts here. */
    method BeginRun()
      modifies this
      ensures Valid() && trace == [] && base == View()
      ensures View() == old(View()).(streaming := None, errorMessage := None)
    {
      streamingMessage := None;
      errorMessage := None;
      base, trace := View(), [];
    }

    /** `finishRun` */
    method FinishRun()
      modifies this
      ensures View() == old(View()).(streaming := None, pendingToolCalls := {})
    {
      streamingMessage := None;
      pendingToolCalls := {};
    }
  }

  // ----- What a response does -----

  /** The events up to the first terminal one. */
  function Live(events: seq<StreamEvent>): (live: seq<StreamEvent>)
    ensures StreamEnd !in live
    ensures |live| <= |events| && live == events[..|live|]
    ensures |live| < |events| ==> events[|live|] == StreamEnd
  {
    if events == [] || events[0] == StreamEnd then [] else [events[0]] + Live(events[1..])
  }

  /** The context and the emitted events so far; `started` once a partial
      message stands at the end of the context. */
  datatype Streaming = Streaming(context: seq<Message>, started: bool, events: seq<Event>)

  function StreamStep(s: Streaming, e: StreamEvent): Streaming {
    match e
    case StreamStart(partial) => Streaming(s.context + [partial], true, s.events + [MessageStart(partial)])
    case StreamUpdate(partial) =>
      if s.started && s.context != []
      then Streaming(s.context[|s.context| - 1 := partial], true, s.events + [MessageUpdate(partial)]) else s
    case StreamEnd => s
  }

  function StreamAll(context: seq<Message>, live: seq<StreamEvent>): Streaming {
    if live == [] then Streaming(context, false, [])
    else StreamStep(StreamAll(context, live[..|live| - 1]), live[|live| - 1])
  }

  function Finish(s: Streaming, final: AssistantMessage): Streaming {
    if s.started && s.context != []
    then s.(context := s.context[|s.context| - 1 := final], events := s.events + [MessageEnd(final)])
    else s.(context := s.context + [final], events := s.events + [MessageStart(final), MessageEnd(final)])
  }

  /** The context and the events of one whole response. */
  function StreamResponse(context: seq<Message>, r: Response): Streaming {
    Finish(StreamAll(context, Live(r.events)), r.final)
  }

  function Starts(live: seq<StreamEvent>): nat {
    if live == [] then 0 else Starts(live[..|live| - 1]) + (if live[|live| - 1].StreamStart? then 1 else 0)
  }

  /** The stream protocol: at most one start event. */
  predicate Conforming(r: Response) {
    Starts(Live(r.events)) <= 1
  }

  lemma {:induction false} StreamAllContext(context: seq<Message>, live: seq<StreamEvent>)
    ensures var s := StreamAll(context, live);
      && (s.started <==> Starts(live) > 0)
      && |s.context| == |context| + Starts(live)
      && context <= s.context
  {
    if live == [] {
    } else {
      StreamAllContext(context, live[..|live| - 1]);
    }
  }

  /** A response adds its final message at the end, after one stale partial
      message for every start event beyond the first. */
  lemma ResponseContext(context: seq<Message>, r: Response)
    ensures var s := StreamResponse(context, r);
      && context <= s.context && s.context[|s.context| - 1] == r.final
      && |s.context| == |context| + (if Starts(Live(r.events)) <= 1 then 1 else Starts(Live(r.events)))
  {
    StreamAllContext(context, Live(r.events));
  }

  /** The context grows by exactly the final message iff the stream keeps to its
      protocol. */
  lemma ContextExactIff(context: seq<Message>, r: Response)
    ensures StreamResponse(context, r).context == context + [r.final] <==> Conforming(r)
  {
    ResponseContext(context, r);
    var s := StreamResponse(context, r);
    if Conforming(r) {
      assert s.context == context + [s.context[|context|]];
    }
  }

  /** It happens: after a second start event the first partial message stays in the
      context. */
  lemma StalePartialStays(context: seq<Message>, first: AssistantMessage, second: AssistantMessage,
                          final: AssistantMessage)
    ensures var r := Response([StreamStart(first), StreamStart(second), StreamEnd], final);
      !Conforming(r) && StreamResponse(context, r).context == context + [first, final]
  {
    var events := [StreamStart(first), StreamStart(second), StreamEnd];
    var live := [StreamStart(first), StreamStart(second)];
    assert events[1..][1..] == [StreamEnd];
    assert Live(events[1..][1..]) == [] && Live(events[1..]) == [StreamStart(second)];
    assert Live(events) == live;
    assert live[..1] == [StreamStart(first)] && live[..1][..0] == [];
    assert StreamAll(context, live[..1]) == Streaming(context + [first], true, [MessageStart(first)]);
    assert StreamAll(context, live).context == context + [first] + [second];
    var r := Response(events, final);
    assert StreamResponse(context, r).context == context + [first, final];
    ContextExactIff(context, r);
    assert |context + [first, final]| != |context + [final]|;
  }

  /** Part of a response as the agent sees it, after n start events. */
  ghost predicate Streamed(m: Monitor, events: seq<Event>, n: nat) {
    var after := ObserveAll(m, events);
    && after.replica.(streaming := None) == m.replica
    && (n == 0 ==> after == m)
    && (n == 1 ==> after.phase == InTurn(true))
  }

  lemma StreamedStart(m: Monitor, events: seq<Event>, n: nat, partial: Message)
    requires m.phase == InTurn(false) && m.replica.streaming == None && Streamed(m, events, n)
    ensures Streamed(m, events + [MessageStart(partial)], n + 1)
  {
    ObserveSnoc(m, events, MessageStart(partial));
  }

  lemma StreamedUpdate(m: Monitor, events: seq<Event>, n: nat, partial: Message)
    requires m.replica.streaming == None && Streamed(m, events, n) && n > 0
    ensures Streamed(m, events + [MessageUpdate(partial)], n)
  {
    ObserveSnoc(m, events, MessageUpdate(partial));
  }

  lemma {:induction false} StreamAllObserved(m: Monitor, context: seq<Message>, live: seq<StreamEvent>)
    requires m.phase == InTurn(false) && m.replica.streaming == None
    ensures Streamed(m, StreamAll(context, live).events, Starts(live))
  {
    if live == [] {
    } else {
      var before, e := live[..|live| - 1], live[|live| - 1];
      var s := StreamAll(context, before);
      StreamAllObserved(m, context, before);
      StreamAllContext(context, before);
      if e.StreamStart? {
        StreamedStart(m, s.events, Starts(before), e.partial);
      } else if e.StreamUpdate? && s.started {
        StreamedUpdate(m, s.events, Starts(before), e.partial);
      }
    }
  }

  function Said(m: Monitor, said: seq<Message>): Monitor {
    m.(replica := m.replica.(messages := m.replica.messages + said))
  }

  /** The agent's copy gains the final message of every response; the events
      are properly bracketed when the stream keeps to its protocol. */
  lemma ResponseObserved(m: Monitor, context: seq<Message>, r: Response)
    requires m.phase == InTurn(false) && m.replica.streaming == None
    ensures ObserveAll(m, StreamResponse(context, r).events).replica == Said(m, [r.final]).replica
    ensures Conforming(r) ==> ObserveAll(m, StreamResponse(context, r).events) == Said(m, [r.final])
  {
    hide ObserveAll, StreamAll, Live;
    var live := Live(r.events);
    var s := StreamAll(context, live);
    StreamAllObserved(m, context, live);
    StreamAllContext(context, live);
    if s.started {
      ObserveSnoc(m, s.events, MessageEnd(r.final));
    } else {
      ObserveJoin(m, s.events, [MessageStart(r.final), MessageEnd(r.final)]);
      ObserveTwo(ObserveAll(m, s.events), MessageStart(r.final), MessageEnd(r.final));
    }
  }
}
