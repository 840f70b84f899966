/** The stateful agent: prompting, continuing, and its queues. */
module Agent {
  import opened Wrappers
  import opened AgentMessages
  import opened AgentStream
  import opened AgentTools
  import opened MessageQueue
  import opened AgentLoop
  import opened AgentLaws
  import opened AgentTurnLaws

  datatype Reply =
    | AlreadyProcessing
    | NothingToContinue
    | CannotContinueFromAssistant
    | Ran(status: Status)

  class StatefulAgent {
    const state: AgentState
    const steeringQueue: PendingMessageQueue
    const followUpQueue: PendingMessageQueue
    var toolExecution: ToolMode
    var activeRun: bool

    constructor (messages: seq<Message>, steeringMode: Mode, followUpMode: Mode, toolExecution: ToolMode)
      ensures Valid() && !activeRun && this.toolExecution == toolExecution
      ensures fresh(state) && fresh(steeringQueue) && fresh(followUpQueue)
      ensures state.messages == messages
      ensures steeringQueue.View() == Queue([], steeringMode) && followUpQueue.View() == Queue([], followUpMode)
    {
      state := new AgentState(messages);
      steeringQueue := new PendingMessageQueue(steeringMode);
      followUpQueue := new PendingMessageQueue(followUpMode);
      this.toolExecution, activeRun := toolExecution, false;
    }

    /** Between runs nothing is streaming or pending. */
    ghost predicate Valid()
      reads this, state
    {
      && steeringQueue != followUpQueue
      && (!activeRun ==> state.streamingMessage == None && state.pendingToolCalls == {})
    }

    method Steer(m: Message)
      modifies steeringQueue
      ensures steeringQueue.View() == old(steeringQueue.View()).(messages := old(steeringQueue.messages) + [m])
    {
      steeringQueue.Enqueue(m);
    }

    method FollowUp(m: Message)
      modifies followUpQueue
      ensures followUpQueue.View() == old(followUpQueue.View()).(messages := old(followUpQueue.messages) + [m])
    {
      followUpQueue.Enqueue(m);
    }

    /** What a run from the current state comes to. */
    ghost function Outcome(prompts: seq<Message>, skipPoll: bool, turns: seq<Turn>): (Loop, Status, nat)
      reads this, state, steeringQueue, followUpQueue
    {
      var start := StartPrompt(state.messages, prompts, steeringQueue.View(), followUpQueue.View(), skipPoll);
      Run(start, toolExecution, turns, 0)
    }

    /** A run with its lifecycle; it stays active while more turns are to come. */
    method RunPromptMessages(prompts: seq<Message>, skipPoll: bool, turns: seq<Turn>) returns (status: Status)
      requires Valid() && !activeRun
      modifies this`activeRun, state, steeringQueue, followUpQueue
      ensures Valid()
      ensures var (end, endStatus, _) := old(Outcome(prompts, skipPoll, turns));
        && status == endStatus && (activeRun <==> status == Running)
        && steeringQueue.View() == end.steering && followUpQueue.View() == end.followUp
        && (AllConforming(turns) ==> state.messages == old(state.messages) + end.newMessages)
    {
      ghost var messages := state.messages;
      ghost var steering, followUp := steeringQueue.View(), followUpQueue.View();
      activeRun := true;
      state.BeginRun();
      ghost var base := state.View();
      var run := new AgentRun(state, steeringQueue, followUpQueue, state.messages);
      run.Open(prompts);
      ghost var start := StartPrompt(messages, prompts, steering, followUp, true);
      assert run.View() == start;
      PollAfterStart(messages, prompts, steering, followUp);
      var used;
      status, used := run.RunLoop(toolExecution, turns, skipPoll);
      if AllConforming(turns) {
        RunsAgree(messages, prompts, base, steering, followUp, skipPoll, toolExecution, turns);
      }
      if status != Running {
        state.FinishRun();
        activeRun := false;
      }
    }

    method Prompt(prompts: seq<Message>, turns: seq<Turn>) returns (reply: Reply)
      requires Valid()
      modifies this`activeRun, state, steeringQueue, followUpQueue
      ensures Valid()
      ensures reply == AlreadyProcessing <==> old(activeRun)
      ensures !old(activeRun) ==> reply == Reply.Ran(old(Outcome(prompts, false, turns)).1)
      ensures !old(activeRun) && AllConforming(turns) ==>
        state.messages == old(state.messages) + old(Outcome(prompts, false, turns)).0.newMessages
    {
      if activeRun {
        return AlreadyProcessing;
      }
      var status := RunPromptMessages(prompts, false, turns);
      reply := Reply.Ran(status);
    }

    /** Where `continue` resumes. */
    ghost function Resumption(): Loop
      reads this, state, steeringQueue, followUpQueue
    {
      ResumeFrom(state.messages, steeringQueue.View(), followUpQueue.View())
    }

    /** Continues from the transcript, or from queued messages when the last
        message is the assistant's. */
    method Continue(turns: seq<Turn>) returns (reply: Reply)
      requires Valid()
      modifies this`activeRun, state, steeringQueue, followUpQueue
      ensures Valid()
      ensures reply == AlreadyProcessing <==> old(activeRun)
      ensures reply == NothingToContinue <==> !old(activeRun) && old(state.messages) == []
      ensures reply == CannotContinueFromAssistant <==>
        && !old(activeRun) && old(state.messages) != [] && !CanContinue(old(state.messages))
        && old(steeringQueue.messages) == [] && old(followUpQueue.messages) == []
      ensures reply.Ran? ==>
        var (end, status, _) := Run(old(Resumption()), toolExecution, turns, 0);
        && reply == Reply.Ran(status)
        && steeringQueue.View() == end.steering && followUpQueue.View() == end.followUp
        && (AllConforming(turns) ==> state.messages == old(state.messages) + end.newMessages)
      ensures !reply.Ran? ==> state.messages == old(state.messages)
    {
      if activeRun {
        return AlreadyProcessing;
      }
      if state.messages == [] {
        return NothingToContinue;
      }
      if state.messages[|state.messages| - 1].Assistant? {
        var queuedSteering := steeringQueue.Drain();
        if queuedSteering != [] {
          var status := RunPromptMessages(queuedSteering, true, turns);
          return Reply.Ran(status);
        }
        var queuedFollowUps := followUpQueue.Drain();
        if queuedFollowUps != [] {
          var status := RunPromptMessages(queuedFollowUps, false, turns);
          return Reply.Ran(status);
        }
        return CannotContinueFromAssistant;
      }
      var status := RunPromptMessages([], false, turns);
      reply := Reply.Ran(status);
    }
  }

  /** After a user message or a tool result a run resumes from the transcript itself;
      after an assistant message from queued steering messages, then without polling
      for more of them at once; or else from queued follow-ups. */
  function ResumeFrom(messages: seq<Message>, steering: Queue, followUp: Queue): Loop {
    if CanContinue(messages) then StartPrompt(messages, [], steering, followUp, false)
    else if Drained(steering) != [] then
      StartPrompt(messages, Drained(steering), AfterDrain(steering), followUp, true)
    else StartPrompt(messages, Drained(followUp), AfterDrain(steering), AfterDrain(followUp), false)
  }

  /** What that means: which messages the resumed run starts with, and what stays
      queued. */
  lemma ResumesWith(messages: seq<Message>, steering: Queue, followUp: Queue)
    requires messages != []
    ensures var s := ResumeFrom(messages, steering, followUp);
      && s.context == messages + s.newMessages
      && if !messages[|messages| - 1].Assistant? then
           s == StartPrompt(messages, [], steering, followUp, false)
         else if steering.messages != [] then
           Polled(steering.messages, s.newMessages, s.steering) && s.pending == [] && s.followUp == followUp
         else
           && s.steering == steering && s.pending == []
           && if followUp.messages != [] then Polled(followUp.messages, s.newMessages, s.followUp)
              else s.newMessages == [] && s.followUp == followUp
  {
    if steering.messages != [] {
      PollIs(steering);
      PolledTook(steering);
    } else {
      EmptyPoll(steering);
    }
    if followUp.messages != [] {
      PollIs(followUp);
    } else {
      EmptyPoll(followUp);
    }
  }

  /** The first poll comes after the start. */
  lemma PollAfterStart(messages: seq<Message>, prompts: seq<Message>, steering: Queue, followUp: Queue)
    ensures StartPrompt(messages, prompts, steering, followUp, false)
         == PollSteering(StartPrompt(messages, prompts, steering, followUp, true))
  {
  }
}
