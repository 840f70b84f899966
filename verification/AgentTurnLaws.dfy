/** What one turn of the agent loop polls, says and streams, in plain terms. */
module AgentTurnLaws {
  import opened Wrappers
  import opened AgentMessages
  import opened AgentStream
  import opened AgentTools
  import opened MessageQueue
  import opened AgentLoop

  // ----- Polling -----

  /** The poll took all waiting messages or the first one, as the mode says, and left
      the others. */
  predicate Polled(waiting: seq<Message>, taken: seq<Message>, left: Queue) {
    taken + left.messages == waiting && if left.mode == All then left.messages == [] else |taken| == 1
  }

  lemma PollIs(q: Queue)
    requires q.messages != []
    ensures Polled(q.messages, Drained(q), AfterDrain(q)) && AfterDrain(q).mode == q.mode
  {
  }

  lemma EmptyPoll(q: Queue)
    requires q.messages == []
    ensures Drained(q) == [] && AfterDrain(q) == q
  {
  }

  /** How a turn ends. A reply that failed or was aborted ends the run at once.
      Otherwise waiting steering messages come first; without any, a reply with tool
      calls is followed by another turn; without those, waiting follow-ups are taken;
      and without those too the run is completed. Messages and modes that came in
      during the turn count. */
  lemma TurnPolls(s: Loop, mode: ToolMode, turn: Turn)
    ensures var ((next, status), reply) := (OneTurn(s, mode, turn), turn.response.final);
      var steer := s.steering.messages + turn.arrivals.steer;
      var follow := s.followUp.messages + turn.arrivals.follow;
      var steerMode, followMode := GetOr(turn.arrivals.steerMode, s.steering.mode),
                                   GetOr(turn.arrivals.followMode, s.followUp.mode);
      if reply.stopReason == Error || reply.stopReason == StopReason.Aborted
      then status == Status.Aborted && next.steering == s.steering && next.followUp == s.followUp
      else
        && next.steering.mode == steerMode && next.followUp.mode == followMode
        && if steer != [] then
             status == Running && Polled(steer, next.pending, next.steering) && next.followUp.messages == follow
           else if ToolCalls(reply.content) != [] then
             status == Running && next.pending == [] && next.steering.messages == [] && next.followUp.messages == follow
           else if follow != [] then
             status == Running && next.steering.messages == [] && Polled(follow, next.pending, next.followUp)
           else
             status == Completed && next.pending == [] && next.steering.messages == [] && next.followUp.messages == []
  {
    hide ToolCalls, Drained, AfterDrain, Polled, StreamResponse, ToolEvents, ToolResults, InjectEvents;
    var steering := WithArrivals(s.steering, turn.arrivals.steer, turn.arrivals.steerMode);
    var followUp := WithArrivals(s.followUp, turn.arrivals.follow, turn.arrivals.followMode);
    if steering.messages != [] {
      PollIs(steering);
      PolledTook(steering);
    } else {
      EmptyPoll(steering);
    }
    if followUp.messages != [] {
      PollIs(followUp);
      PolledTook(followUp);
    } else {
      EmptyPoll(followUp);
    }
  }

  lemma PolledTook(q: Queue)
    requires q.messages != []
    ensures Drained(q) != []
  {
  }

  /** A run starts with the start events, the prompts, and a poll of the steering queue
      unless it is skipped. */
  lemma StartSays(messages: seq<Message>, prompts: seq<Message>, steering: Queue, followUp: Queue, skipPoll: bool)
    ensures var s := StartPrompt(messages, prompts, steering, followUp, skipPoll);
      && s.context == messages + prompts && s.newMessages == prompts && s.firstTurn && s.followUp == followUp
      && s.trace == [AgentStart, TurnStart] + InjectEvents(prompts)
      && (skipPoll || steering.messages == [] ==> s.pending == [] && s.steering == steering)
      && (!skipPoll && steering.messages != [] ==> Polled(steering.messages, s.pending, s.steering))
  {
    if steering.messages != [] {
      PollIs(steering);
    } else {
      EmptyPoll(steering);
    }
  }

  /** Injected messages are started and ended one after the other. */
  lemma {:induction false} InjectSays(messages: seq<Message>)
    ensures |InjectEvents(messages)| == 2 * |messages|
    ensures forall i :: 0 <= i < |messages| ==>
      InjectEvents(messages)[2 * i] == MessageStart(messages[i])
      && InjectEvents(messages)[2 * i + 1] == MessageEnd(messages[i])
  {
    if messages == [] {
    } else {
      InjectSays(messages[..|messages| - 1]);
    }
  }

  /** A turn is said in order: its start unless it is the first, the injected messages,
      the response, the tool phase, and its end with the reply and its results. */
  lemma TurnSays(s: Loop, mode: ToolMode, turn: Turn)
    ensures var (done, reply) := (TurnBody(s, mode, turn), turn.response.final);
      var broken := reply.stopReason == Error || reply.stopReason == StopReason.Aborted;
      var calls := ToolCalls(reply.content);
      var results := if broken then [] else ToolResults(mode, calls, turn.outcome);
      && done.trace == s.trace + (if s.firstTurn then [] else [TurnStart]) + InjectEvents(s.pending)
           + StreamResponse(s.context + s.pending, turn.response).events
           + (if broken then [] else ToolEvents(mode, calls, turn.outcome, turn.reports))
           + [TurnEnd(reply, results)]
      && done.newMessages == s.newMessages + s.pending + [reply] + results
  {
    hide ToolCalls, StreamResponse, ToolEvents, ToolResults, InjectEvents;
    assert s.trace + [] == s.trace;
    var streamed := StreamResponse(s.context + s.pending, turn.response);
    var before := s.trace + (if s.firstTurn then [] else [TurnStart]) + InjectEvents(s.pending) + streamed.events;
    assert before + [] == before;
    assert s.newMessages + s.pending + [turn.response.final] + []
        == s.newMessages + s.pending + [turn.response.final];
  }

  // ----- The events of a response -----

  lemma {:induction false} LiveIs(live: seq<StreamEvent>, rest: seq<StreamEvent>)
    requires StreamEnd !in live
    ensures Live(live + [StreamEnd] + rest) == live
  {
    var events := live + [StreamEnd] + rest;
    if live == [] {
      assert events[0] == StreamEnd;
    } else {
      assert live[0] in live && events[0] == live[0];
      LiveIs(live[1..], rest);
      assert events[1..] == live[1..] + [StreamEnd] + rest;
    }
  }

  function Updates(partials: seq<AssistantMessage>): seq<StreamEvent> {
    seq(|partials|, i requires 0 <= i < |partials| => StreamUpdate(partials[i]))
  }

  function UpdateEvents(partials: seq<AssistantMessage>): seq<Event> {
    seq(|partials|, i requires 0 <= i < |partials| => MessageUpdate(partials[i]))
  }

  lemma {:induction false} EarlyUpdates(context: seq<Message>, early: seq<AssistantMessage>)
    ensures StreamAll(context, Updates(early)) == Streaming(context, false, [])
  {
    if early == [] {
    } else {
      var n := |early| - 1;
      assert Updates(early)[..n] == Updates(early[..n]);
      EarlyUpdates(context, early[..n]);
    }
  }

  lemma StreamSays(context: seq<Message>, live: seq<StreamEvent>, e: StreamEvent)
    ensures StreamAll(context, live + [e]) == StreamStep(StreamAll(context, live), e)
  {
    assert (live + [e])[..|live|] == live;
  }

  lemma {:induction false} UpdatesAfter(context: seq<Message>, early: seq<AssistantMessage>, first: AssistantMessage,
                                        partials: seq<AssistantMessage>)
    ensures var s := StreamAll(context, Updates(early) + [StreamStart(first)] + Updates(partials));
      && s.started && s.events == [MessageStart(first)] + UpdateEvents(partials)
      && s.context == context + [if partials == [] then first else partials[|partials| - 1]]
  {
    var before := Updates(early) + [StreamStart(first)];
    if partials == [] {
      EarlyUpdates(context, early);
      StreamSays(context, Updates(early), StreamStart(first));
      assert before + Updates(partials) == before;
    } else {
      var n := |partials| - 1;
      UpdatesAfter(context, early, first, partials[..n]);
      var live := before + Updates(partials[..n]);
      StreamSays(context, live, StreamUpdate(partials[n]));
      assert before + Updates(partials) == live + [StreamUpdate(partials[n])];
      assert UpdateEvents(partials) == UpdateEvents(partials[..n]) + [MessageUpdate(partials[n])];
    }
  }

  /** A response that starts once is said as a start, its updates, and an end with the
      final message; updates before the start and anything after the end are not
      said. */
  lemma ResponseSays(context: seq<Message>, early: seq<AssistantMessage>, first: AssistantMessage,
                     partials: seq<AssistantMessage>, rest: seq<StreamEvent>, final: AssistantMessage)
    ensures var r := Response(Updates(early) + [StreamStart(first)] + Updates(partials) + [StreamEnd] + rest, final);
      && StreamResponse(context, r).events == [MessageStart(first)] + UpdateEvents(partials) + [MessageEnd(final)]
      && StreamResponse(context, r).context == context + [final]
  {
    LiveIs(Updates(early) + [StreamStart(first)] + Updates(partials), rest);
    UpdatesAfter(context, early, first, partials);
  }

  /** A response that never starts is said as a start and an end. */
  lemma UnstartedResponseSays(context: seq<Message>, early: seq<AssistantMessage>, rest: seq<StreamEvent>,
                              final: AssistantMessage)
    ensures var r := Response(Updates(early) + [StreamEnd] + rest, final);
      && StreamResponse(context, r).events == [MessageStart(final), MessageEnd(final)]
      && StreamResponse(context, r).context == context + [final]
  {
    LiveIs(Updates(early), rest);
    EarlyUpdates(context, early);
  }
}
