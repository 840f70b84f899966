/** The agent loop: turns of streaming, tool calls and queued messages. */
module AgentLoop {
  import opened Wrappers
  import opened AgentMessages
  import opened AgentStream
  import opened AgentTools
  import opened MessageQueue

  /** Messages queued and modes set while a turn runs. */
  datatype Arrivals = Arrivals(
    steer: seq<Message>, follow: seq<Message>, steerMode: Option<Mode>, followMode: Option<Mode>)

  /** One turn as the outside world plays it. */
  datatype Turn = Turn(response: Response, outcome: Outcomes, reports: Reports, arrivals: Arrivals)

  datatype Loop = Loop(
    context: seq<Message>,
    newMessages: seq<Message>,
    trace: seq<Event>,
    steering: Queue,
    followUp: Queue,
    pending: seq<Message>,
    firstTurn: bool)

  // ----- What one turn does -----

  function InjectEvents(messages: seq<Message>): seq<Event> {
    if messages == [] then []
    else
      var m := messages[|messages| - 1];
      InjectEvents(messages[..|messages| - 1]) + [MessageStart(m), MessageEnd(m)]
  }

  function BeginTurn(s: Loop): Loop {
    if s.firstTurn then s.(firstTurn := false) else s.(trace := s.trace + [TurnStart])
  }

  function Inject(s: Loop): Loop {
    s.(context := s.context + s.pending, newMessages := s.newMessages + s.pending,
       trace := s.trace + InjectEvents(s.pending), pending := [])
  }

  function Respond(s: Loop, r: Response): Loop {
    var streamed := StreamResponse(s.context, r);
    s.(context := streamed.context, newMessages := s.newMessages + [r.final], trace := s.trace + streamed.events)
  }

  /** The results a response gets; none when it ended in an error. */
  function ResultsFor(mode: ToolMode, turn: Turn): seq<Message> {
    if Broken(turn.response.final) then []
    else ToolResults(mode, ToolCalls(turn.response.final.content), turn.outcome)
  }

  function Answer(s: Loop, mode: ToolMode, turn: Turn): Loop {
    if Broken(turn.response.final) then s
    else
      var results := ResultsFor(mode, turn);
      s.(context := s.context + results, newMessages := s.newMessages + results,
         trace := s.trace + ToolEvents(mode, ToolCalls(turn.response.final.content), turn.outcome, turn.reports))
  }

  /** A turn up to and with its turn_end event. */
  function TurnBody(s: Loop, mode: ToolMode, turn: Turn): Loop {
    var done := Answer(Respond(Inject(BeginTurn(s)), turn.response), mode, turn);
    done.(trace := done.trace + [TurnEnd(turn.response.final, ResultsFor(mode, turn))])
  }

  function WithArrivals(q: Queue, more: seq<Message>, mode: Option<Mode>): Queue {
    Queue(q.messages + more, GetOr(mode, q.mode))
  }

  function Arrive(s: Loop, a: Arrivals): Loop {
    s.(steering := WithArrivals(s.steering, a.steer, a.steerMode),
       followUp := WithArrivals(s.followUp, a.follow, a.followMode))
  }

  function PollSteering(s: Loop): Loop {
    s.(pending := Drained(s.steering), steering := AfterDrain(s.steering))
  }

  function PollFollowUp(s: Loop): Loop {
    s.(pending := Drained(s.followUp), followUp := AfterDrain(s.followUp))
  }

  function End(s: Loop): Loop {
    s.(trace := s.trace + [AgentEnd(s.newMessages)])
  }

  /** A turn, and the end of the run or the poll that follows it. */
  function Played(s: Loop, mode: ToolMode, turn: Turn): Loop {
    var done := TurnBody(s, mode, turn);
    if Broken(turn.response.final) then End(done) else PollSteering(Arrive(done, turn.arrivals))
  }

  /** Why a run is where it is: still going, ended normally, or ended by a
      response with an error. */
  datatype Status = Running | Completed | Aborted

  /** A turn and what follows it: the next state, and whether the run goes on. */
  function OneTurn(s: Loop, mode: ToolMode, turn: Turn): (Loop, Status) {
    var played := Played(s, mode, turn);
    if Broken(turn.response.final) then (played, Status.Aborted)
    else if ToolCalls(turn.response.final.content) != [] || played.pending != [] then (played, Running)
    else
      var followed := PollFollowUp(played);
      if followed.pending != [] then (followed, Running) else (End(followed), Completed)
  }

  /** The run from turn i on: its state, its status, and the number of turns
      played; it is still running when the turns are used up first. */
  function Run(s: Loop, mode: ToolMode, turns: seq<Turn>, i: nat): (Loop, Status, nat)
    requires i <= |turns|
    decreases |turns| - i
  {
    if i == |turns| then (s, Running, i)
    else
      var (next, status) := OneTurn(s, mode, turns[i]);
      if status != Running then (next, status, i + 1) else Run(next, mode, turns, i + 1)
  }

  /** The state in which `runLoop` starts after new prompts. */
  function StartPrompt(messages: seq<Message>, prompts: seq<Message>, steering: Queue, followUp: Queue,
                       skipPoll: bool): Loop {
    var s := Loop(messages + prompts, prompts, [AgentStart, TurnStart] + InjectEvents(prompts), steering, followUp,
                  [], true);
    if skipPoll then s else PollSteering(s)
  }

  /** A continuation is a run without prompts. */
  predicate CanContinue(messages: seq<Message>) {
    messages != [] && !messages[|messages| - 1].Assistant?
  }

  // ----- The loop -----

  class AgentRun {
    const agent: AgentState
    const steeringQueue: PendingMessageQueue
    const followUpQueue: PendingMessageQueue
    var context: seq<Message>
    var newMessages: seq<Message>
    var pendingMessages: seq<Message>
    var firstTurn: bool

    constructor (agent: AgentState, steeringQueue: PendingMessageQueue, followUpQueue: PendingMessageQueue,
                 messages: seq<Message>)
      requires agent.Valid() && steeringQueue != followUpQueue
      ensures this.agent == agent && this.steeringQueue == steeringQueue && this.followUpQueue == followUpQueue
      ensures Valid()
      ensures View() == Loop(messages, [], agent.trace, steeringQueue.View(), followUpQueue.View(), [], true)
    {
      this.agent, this.steeringQueue, this.followUpQueue := agent, steeringQueue, followUpQueue;
      context, newMessages, pendingMessages, firstTurn := messages, [], [], true;
    }

    ghost predicate Valid()
      reads this, agent
    {
      agent.Valid() && steeringQueue != followUpQueue
    }

    ghost function View(): Loop
      reads this, agent, steeringQueue, followUpQueue
    {
      Loop(context, newMessages, agent.trace, steeringQueue.View(), followUpQueue.View(), pendingMessages, firstTurn)
    }

    /** Starts and ends messages that were not streamed. */
    method EmitMessages(messages: seq<Message>)
      requires Valid()
      modifies agent
      ensures Valid() && agent.base == old(agent.base)
      ensures View() == old(View()).(trace := old(agent.trace) + InjectEvents(messages))
    {
      ghost var t := agent.trace;
      for i := 0 to |messages|
        invariant Valid() && agent.base == old(agent.base)
        invariant agent.trace == t + InjectEvents(messages[..i])
      {
        agent.ProcessEvents(MessageStart(messages[i]));
        agent.ProcessEvents(MessageEnd(messages[i]));
        assert messages[..i + 1][..i] == messages[..i];
        assert t + InjectEvents(messages[..i]) + [MessageStart(messages[i])] + [MessageEnd(messages[i])]
            == t + (InjectEvents(messages[..i]) + [MessageStart(messages[i]), MessageEnd(messages[i])]);
      }
      assert messages[..|messages|] == messages;
    }

    /** `runAgentLoop` up to the loop: the start events and the prompts. */
    method Open(prompts: seq<Message>)
      requires Valid() && agent.trace == [] && pendingMessages == [] && newMessages == [] && firstTurn
      modifies this, agent
      ensures Valid() && agent.base == old(agent.base)
      ensures View() == StartPrompt(old(context), prompts, steeringQueue.View(), followUpQueue.View(), true)
    {
      newMessages := prompts;
      context := context + prompts;
      agent.ProcessEvents(AgentStart);
      agent.ProcessEvents(TurnStart);
      assert agent.trace == [AgentStart, TurnStart];
      EmitMessages(prompts);
    }

    method InjectPending()
      requires Valid()
      modifies this, agent
      ensures Valid() && agent.base == old(agent.base)
      ensures View() == Inject(old(View()))
    {
      EmitMessages(pendingMessages);
      context := context + pendingMessages;
      newMessages := newMessages + pendingMessages;
      pendingMessages := [];
    }

    /** The events of one response; partial messages stand at the end of the
        context until the final one replaces the last of them. */
    method StreamAssistantResponse(r: Response)
      requires Valid()
      modifies this`context, agent
      ensures Valid() && agent.base == old(agent.base)
      ensures context == StreamResponse(old(context), r).context
      ensures agent.trace == old(agent.trace) + StreamResponse(old(context), r).events
    {
      hide StreamAll, Live, ObserveAll, Observe;
      ghost var context0, t, live := context, agent.trace, Live(r.events);
      StreamNone(context0);
      assert live[..0] == [];
      var addedPartial := false;
      var i: nat := 0;
      while i < |r.events| && r.events[i] != StreamEnd
        invariant i <= |live|
        invariant Valid() && agent.base == old(agent.base)
        invariant context == StreamAll(context0, live[..i]).context
        invariant addedPartial == StreamAll(context0, live[..i]).started
        invariant addedPartial ==> context != []
        invariant agent.trace == t + StreamAll(context0, live[..i]).events
        decreases |r.events| - i
      {
        assert i < |live| && live[i] == r.events[i];
        StreamSnoc(context0, live, i);
        match r.events[i] {
          case StreamStart(partial) =>
            context := context + [partial];
            addedPartial := true;
            agent.ProcessEvents(MessageStart(partial));
          case StreamUpdate(partial) =>
            if addedPartial {
              context := context[|context| - 1 := partial];
              agent.ProcessEvents(MessageUpdate(partial));
            }
        }
        i := i + 1;
      }
      assert live[..i] == live;
      if addedPartial {
        context := context[|context| - 1 := r.final];
      } else {
        context := context + [r.final];
        agent.ProcessEvents(MessageStart(r.final));
      }
      agent.ProcessEvents(MessageEnd(r.final));
    }

    method TakeTurn(mode: ToolMode, turn: Turn)
      requires Valid()
      modifies this, agent
      ensures Valid() && agent.base == old(agent.base)
      ensures View() == TurnBody(old(View()), mode, turn)
    {
      hide StreamResponse, InjectEvents, ToolEvents, ToolResults, ToolCalls, Broken, ObserveAll;
      if !firstTurn {
        agent.ProcessEvents(TurnStart);
      } else {
        firstTurn := false;
      }
      InjectPending();
      StreamAssistantResponse(turn.response);
      var message := turn.response.final;
      newMessages := newMessages + [message];
      if Broken(message) {
        agent.ProcessEvents(TurnEnd(message, []));
        return;
      }
      var toolResults := ExecuteToolCalls(agent, mode, ToolCalls(message.content), turn.outcome, turn.reports);
      context := context + toolResults;
      newMessages := newMessages + toolResults;
      agent.ProcessEvents(TurnEnd(message, toolResults));
    }

    /** Other code steers the agent while a turn runs. */
    method ReceiveArrivals(a: Arrivals)
      requires Valid()
      modifies steeringQueue, followUpQueue
      ensures Valid() && View() == Arrive(old(View()), a)
    {
      FillQueue(steeringQueue, a.steer, a.steerMode);
      FillQueue(followUpQueue, a.follow, a.followMode);
    }

    /** Messages may have been queued meanwhile; take the steering ones. */
    method Settle(a: Arrivals)
      requires Valid()
      modifies this`pendingMessages, steeringQueue, followUpQueue
      ensures Valid() && View() == PollSteering(Arrive(old(View()), a))
    {
      ReceiveArrivals(a);
      pendingMessages := steeringQueue.Drain();
    }

    /** The body of the inner loop; an error in the response ends the run. */
    method PlayTurn(mode: ToolMode, turn: Turn) returns (ended: bool, hasMoreToolCalls: bool)
      requires Valid()
      modifies this, agent, steeringQueue, followUpQueue
      ensures Valid() && agent.base == old(agent.base)
      ensures ended <==> Broken(turn.response.final)
      ensures View() == Played(old(View()), mode, turn)
      ensures pendingMessages == View().pending
      ensures hasMoreToolCalls <==> ToolCalls(turn.response.final.content) != []
    {
      TakeTurn(mode, turn);
      hasMoreToolCalls := ToolCalls(turn.response.final.content) != [];
      if Broken(turn.response.final) {
        agent.ProcessEvents(AgentEnd(newMessages));
        return true, hasMoreToolCalls;
      }
      Settle(turn.arrivals);
      ended := false;
    }

    /** The inner loop: turns until there is nothing to do, an error, or no more
        turns are played. */
    method RunTurns(mode: ToolMode, turns: seq<Turn>, first: nat) returns (status: Status, used: nat)
      requires Valid() && first <= |turns|
      modifies this, agent, steeringQueue, followUpQueue
      ensures Valid() && agent.base == old(agent.base)
      ensures first <= used <= |turns| && (status == Completed ==> first < used)
      ensures Run(old(View()), mode, turns, first) ==
        if status == Completed then Rest(View(), mode, turns, used, false) else (View(), status, used)
    {
      hide *;
      var hasMoreToolCalls := true;
      used := first;
      RestInside(View(), mode, turns, first);
      ghost var goal := Run(View(), mode, turns, first);
      while hasMoreToolCalls || pendingMessages != []
        invariant first <= used <= |turns| && Valid() && agent.base == old(agent.base)
        invariant used == first ==> hasMoreToolCalls
        invariant goal == Rest(View(), mode, turns, used, hasMoreToolCalls || pendingMessages != [])
        decreases |turns| - used
      {
        RestInside(View(), mode, turns, used);
        if used == |turns| {
          RunOver(View(), mode, turns);
          return Running, used;
        }
        RestStep(View(), mode, turns, used);
        var ended;
        ended, hasMoreToolCalls := PlayTurn(mode, turns[used]);
        used := used + 1;
        if ended {
          return Status.Aborted, used;
        }
      }
      status := Completed;
    }

    /** `runLoop`, for as many turns as the outside world plays. */
    method RunLoop(mode: ToolMode, turns: seq<Turn>, skipPoll: bool) returns (status: Status, used: nat)
      requires Valid()
      modifies this, agent, steeringQueue, followUpQueue
      ensures Valid() && agent.base == old(agent.base)
      ensures (View(), status, used) == Run(if skipPoll then old(View()) else PollSteering(old(View())), mode, turns, 0)
    {
      hide *;
      if !skipPoll {
        PollSteeringQueue();
      }
      used := 0;
      ghost var goal := Run(View(), mode, turns, 0);
      while true
        invariant used <= |turns| && Valid() && agent.base == old(agent.base)
        invariant goal == Run(View(), mode, turns, used)
        decreases |turns| - used
      {
        status, used := RunTurns(mode, turns, used);
        if status != Completed {
          return;
        }
        RestOutside(View(), mode, turns, used);
        PollFollowUpQueue();
        if pendingMessages == [] {
          break;
        }
      }
      EndRun();
    }

    method PollSteeringQueue()
      requires Valid()
      modifies this`pendingMessages, steeringQueue
      ensures Valid() && View() == PollSteering(old(View()))
    {
      pendingMessages := steeringQueue.Drain();
    }

    method PollFollowUpQueue()
      requires Valid()
      modifies this`pendingMessages, followUpQueue
      ensures Valid() && View() == PollFollowUp(old(View()))
      ensures pendingMessages == View().pending
    {
      pendingMessages := followUpQueue.Drain();
    }

    method EndRun()
      requires Valid()
      modifies agent
      ensures Valid() && agent.base == old(agent.base) && View() == End(old(View()))
    {
      agent.ProcessEvents(AgentEnd(newMessages));
    }
  }

  lemma StreamNone(context: seq<Message>)
    ensures StreamAll(context, []) == Streaming(context, false, [])
  {
  }

  lemma StreamSnoc(context: seq<Message>, live: seq<StreamEvent>, i: nat)
    requires i < |live|
    ensures StreamAll(context, live[..i + 1]) == StreamStep(StreamAll(context, live[..i]), live[i])
  {
    assert live[..i + 1][..i] == live[..i];
  }

  /** The rest of a run: inside the inner loop, or after it. */
  function Rest(s: Loop, mode: ToolMode, turns: seq<Turn>, i: nat, inner: bool): (Loop, Status, nat)
    requires i <= |turns|
  {
    if inner then Run(s, mode, turns, i)
    else
      var followed := PollFollowUp(s);
      if followed.pending != [] then Run(followed, mode, turns, i) else (End(followed), Completed, i)
  }

  lemma RestInside(s: Loop, mode: ToolMode, turns: seq<Turn>, i: nat)
    requires i <= |turns|
    ensures Rest(s, mode, turns, i, true) == Run(s, mode, turns, i)
  {
  }

  lemma RestOutside(s: Loop, mode: ToolMode, turns: seq<Turn>, i: nat)
    requires i <= |turns|
    ensures var followed := PollFollowUp(s);
      Rest(s, mode, turns, i, false) ==
        if followed.pending != [] then Run(followed, mode, turns, i) else (End(followed), Completed, i)
  {
  }

  lemma RunOver(s: Loop, mode: ToolMode, turns: seq<Turn>)
    ensures Run(s, mode, turns, |turns|) == (s, Running, |turns|)
  {
  }

  lemma RestStep(s: Loop, mode: ToolMode, turns: seq<Turn>, i: nat)
    requires i < |turns|
    ensures var played := Played(s, mode, turns[i]);
      Run(s, mode, turns, i) ==
        if Broken(turns[i].response.final) then (played, Status.Aborted, i + 1)
        else Rest(played, mode, turns, i + 1,
                  ToolCalls(turns[i].response.final.content) != [] || played.pending != [])
  {
  }

  method FillQueue(queue: PendingMessageQueue, messages: seq<Message>, mode: Option<Mode>)
    modifies queue
    ensures queue.View() == WithArrivals(old(queue.View()), messages, mode)
  {
    for i := 0 to |messages|
      invariant queue.View() == old(queue.View()).(messages := old(queue.messages) + messages[..i])
    {
      queue.Enqueue(messages[i]);
    }
    assert messages[..|messages|] == messages;
    if mode.Some? {
      queue.SetMode(mode.value);
    }
  }
}
