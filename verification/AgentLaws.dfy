/** Laws of whole runs of the agent loop. */
module AgentLaws {
  import opened Wrappers
  import opened Sequences
  import opened AgentMessages
  import opened AgentStream
  import opened AgentTools
  import opened AgentToolLaws
  import opened MessageQueue
  import opened AgentLoop

  ghost predicate AllConforming(turns: seq<Turn>) {
    forall i :: 0 <= i < |turns| ==> Conforming(turns[i].response)
  }

  /** The loop's context, its list of new messages and the agent's own copy
      agree, nothing is streaming or pending, and the trace stands at `phase`. */
  ghost predicate Agrees(s: Loop, messages: seq<Message>, base: Replica, phase: Phase) {
    var m := ObserveAll(Monitor(base, Before), s.trace);
    && s.context == messages + s.newMessages
    && m.phase == phase
    && m.replica.messages == s.context
    && m.replica.streaming == None
    && m.replica.pendingToolCalls == {}
  }

  function NextPhase(s: Loop): Phase {
    if s.firstTurn then InTurn(false) else Between
  }

  ghost predicate Fits(base: Replica, messages: seq<Message>) {
    base.messages == messages && base.streaming == None && base.pendingToolCalls == {}
  }

  // ----- Each part of a turn keeps the agreement -----

  lemma {:induction false} InjectObserved(m: Monitor, said: seq<Message>)
    requires InTools(m)
    ensures ObserveAll(m, InjectEvents(said)) == Said(m, said)
  {
    if said == [] {
      assert m.replica.messages + [] == m.replica.messages;
    } else {
      var init, last := said[..|said| - 1], said[|said| - 1];
      InjectObserved(m, init);
      ObserveJoin(m, InjectEvents(init), [MessageStart(last), MessageEnd(last)]);
      ObserveTwo(Said(m, init), MessageStart(last), MessageEnd(last));
      assert m.replica.messages + init + [last] == m.replica.messages + said;
    }
  }

  lemma BeginAgrees(s: Loop, messages: seq<Message>, base: Replica)
    requires Agrees(s, messages, base, NextPhase(s))
    ensures Agrees(BeginTurn(s), messages, base, InTurn(false))
  {
    ObserveSnoc(Monitor(base, Before), s.trace, TurnStart);
  }

  /** Messages said in the loop and heard by the agent keep both in step. */
  lemma SayAgrees(s: Loop, messages: seq<Message>, base: Replica, said: seq<Message>, events: seq<Event>, s': Loop)
    requires Agrees(s, messages, base, InTurn(false))
    requires var m := ObserveAll(Monitor(base, Before), s.trace); ObserveAll(m, events) == Said(m, said)
    requires s'.context == s.context + said && s'.newMessages == s.newMessages + said && s'.trace == s.trace + events
    ensures Agrees(s', messages, base, InTurn(false))
  {
    ObserveJoin(Monitor(base, Before), s.trace, events);
    assert messages + s.newMessages + said == messages + (s.newMessages + said);
  }

  lemma InjectAgrees(s: Loop, messages: seq<Message>, base: Replica)
    requires Agrees(s, messages, base, InTurn(false))
    ensures Agrees(Inject(s), messages, base, InTurn(false))
  {
    InjectObserved(ObserveAll(Monitor(base, Before), s.trace), s.pending);
    SayAgrees(s, messages, base, s.pending, InjectEvents(s.pending), Inject(s));
  }

  lemma RespondAgrees(s: Loop, messages: seq<Message>, base: Replica, r: Response)
    requires Agrees(s, messages, base, InTurn(false)) && Conforming(r)
    ensures Agrees(Respond(s, r), messages, base, InTurn(false))
  {
    ResponseObserved(ObserveAll(Monitor(base, Before), s.trace), s.context, r);
    ContextExactIff(s.context, r);
    SayAgrees(s, messages, base, [r.final], StreamResponse(s.context, r).events, Respond(s, r));
  }

  lemma AnswerAgrees(s: Loop, messages: seq<Message>, base: Replica, mode: ToolMode, turn: Turn)
    requires Agrees(s, messages, base, InTurn(false))
    ensures Agrees(Answer(s, mode, turn), messages, base, InTurn(false))
  {
    if !Broken(turn.response.final) {
      var calls := ToolCalls(turn.response.final.content);
      ToolsObserved(ObserveAll(Monitor(base, Before), s.trace), mode, calls, turn.outcome, turn.reports);
      SayAgrees(s, messages, base, ToolResults(mode, calls, turn.outcome),
                ToolEvents(mode, calls, turn.outcome, turn.reports), Answer(s, mode, turn));
    }
  }

  lemma EmitAgrees(s: Loop, messages: seq<Message>, base: Replica, phase: Phase, e: Event, next: Phase)
    requires Agrees(s, messages, base, phase) && Advance(phase, e) == next
    requires e.TurnEnd? || e.AgentEnd? || e.TurnStart?
    ensures Agrees(s.(trace := s.trace + [e]), messages, base, next)
  {
    ObserveSnoc(Monitor(base, Before), s.trace, e);
  }

  /** At every turn_end the agent's transcript is the snapshot followed by the
      new messages, no call is pending and nothing is streaming. */
  lemma TurnEndAgrees(s: Loop, messages: seq<Message>, base: Replica, mode: ToolMode, turn: Turn)
    requires Agrees(s, messages, base, NextPhase(s)) && Conforming(turn.response)
    ensures Agrees(TurnBody(s, mode, turn), messages, base, Between)
    ensures !TurnBody(s, mode, turn).firstTurn
  {
    var s1 := BeginTurn(s);
    BeginAgrees(s, messages, base);
    InjectAgrees(s1, messages, base);
    RespondAgrees(Inject(s1), messages, base, turn.response);
    var s2 := Respond(Inject(s1), turn.response);
    AnswerAgrees(s2, messages, base, mode, turn);
    EmitAgrees(Answer(s2, mode, turn), messages, base, InTurn(false),
               TurnEnd(turn.response.final, ResultsFor(mode, turn)), Between);
  }

  /** What follows a turn changes neither the context nor the new messages. */
  lemma OneTurnShape(s: Loop, mode: ToolMode, turn: Turn)
    ensures var done := TurnBody(s, mode, turn);
      var (next, status) := OneTurn(s, mode, turn);
      && next.context == done.context && next.newMessages == done.newMessages && next.firstTurn == done.firstTurn
      && next.trace == (if status == Running then done.trace else done.trace + [AgentEnd(done.newMessages)])
  {
    hide TurnBody, ToolCalls, Broken, Drained, AfterDrain;
  }

  lemma QueuesDoNotMatter(s: Loop, t: Loop, messages: seq<Message>, base: Replica, phase: Phase)
    requires Agrees(s, messages, base, phase)
    requires t.context == s.context && t.newMessages == s.newMessages && t.trace == s.trace
    ensures Agrees(t, messages, base, phase)
  {
  }

  lemma OneTurnAgrees(s: Loop, messages: seq<Message>, base: Replica, mode: ToolMode, turn: Turn)
    requires Agrees(s, messages, base, NextPhase(s)) && Conforming(turn.response)
    ensures var (next, status) := OneTurn(s, mode, turn);
      && !next.firstTurn
      && Agrees(next, messages, base, if status == Running then Between else After)
      && (status != Running ==> next.trace == next.trace[..|next.trace| - 1] + [AgentEnd(next.newMessages)])
  {
    hide Agrees, TurnBody, OneTurn, Conforming, NextPhase, Observe, ObserveAll;
    TurnEndAgrees(s, messages, base, mode, turn);
    OneTurnShape(s, mode, turn);
    var done := TurnBody(s, mode, turn);
    var (next, status) := OneTurn(s, mode, turn);
    if status == Running {
      QueuesDoNotMatter(done, next, messages, base, Between);
    } else {
      var end := AgentEnd(done.newMessages);
      EmitAgrees(done, messages, base, Between, end, After);
      QueuesDoNotMatter(done.(trace := done.trace + [end]), next, messages, base, After);
    }
  }

  /** The agreement holds after any number of turns. */
  lemma {:induction false} RunAgrees(s: Loop, messages: seq<Message>, base: Replica, mode: ToolMode,
                                     turns: seq<Turn>, i: nat)
    requires i <= |turns| && AllConforming(turns) && Agrees(s, messages, base, NextPhase(s))
    ensures var (end, status, used) := Run(s, mode, turns, i);
      && Agrees(end, messages, base, if status == Running then NextPhase(end) else After)
      && (status != Running ==> end.trace == end.trace[..|end.trace| - 1] + [AgentEnd(end.newMessages)])
    decreases |turns| - i
  {
    hide OneTurn, Agrees, Run;
    if i == |turns| {
      RunOver(s, mode, turns);
    } else {
      OneTurnAgrees(s, messages, base, mode, turns[i]);
      RecordsStep(s, mode, turns, i);
      var (next, status) := OneTurn(s, mode, turns[i]);
      if status == Running {
        RunAgrees(next, messages, base, mode, turns, i + 1);
      }
    }
  }

  lemma StartAgrees(messages: seq<Message>, prompts: seq<Message>, base: Replica, steering: Queue, followUp: Queue,
                    skipPoll: bool)
    requires Fits(base, messages)
    ensures var s := StartPrompt(messages, prompts, steering, followUp, skipPoll);
      s.firstTurn && Agrees(s, messages, base, InTurn(false))
  {
    var m := Monitor(base, Before);
    ObserveTwo(m, AgentStart, TurnStart);
    ObserveJoin(m, [AgentStart, TurnStart], InjectEvents(prompts));
    InjectObserved(Monitor(base, InTurn(false)), prompts);
  }

  /** Over every run with a conforming model: the context is the snapshot and
      the new messages, the agent's copy equals it, and a finished run's events
      are bracketed and end in agent_end carrying the new messages. */
  lemma RunsAgree(messages: seq<Message>, prompts: seq<Message>, base: Replica, steering: Queue, followUp: Queue,
                  skipPoll: bool, mode: ToolMode, turns: seq<Turn>)
    requires Fits(base, messages) && AllConforming(turns)
    ensures var start := StartPrompt(messages, prompts, steering, followUp, skipPoll);
      var (end, status, used) := Run(start, mode, turns, 0);
      && end.context == messages + end.newMessages
      && ObserveAll(Monitor(base, Before), end.trace).replica.messages == end.context
      && ObserveAll(Monitor(base, Before), end.trace).replica.pendingToolCalls == {}
      && ObserveAll(Monitor(base, Before), end.trace).replica.streaming == None
      && (status != Running ==>
            && ObserveAll(Monitor(base, Before), end.trace).phase == After
            && end.trace == end.trace[..|end.trace| - 1] + [AgentEnd(end.newMessages)])
  {
    StartAgrees(messages, prompts, base, steering, followUp, skipPoll);
    RunAgrees(StartPrompt(messages, prompts, steering, followUp, skipPoll), messages, base, mode, turns, 0);
  }

  // ----- Every assistant message is answered -----

  /** What one turn adds: injected messages, the reply, its results. */
  datatype TurnRecord = TurnRecord(injected: seq<Message>, reply: AssistantMessage, outcome: Outcomes,
                                   results: seq<Message>)

  function Flat(r: TurnRecord): seq<Message> {
    r.injected + [r.reply] + r.results
  }

  function FlatAll(records: seq<TurnRecord>): seq<Message> {
    if records == [] then [] else Flat(records[0]) + FlatAll(records[1..])
  }

  /** Result k answers the call block at position blocks[k] of the reply. */
  ghost predicate AnswersBlock(r: TurnRecord, blocks: seq<nat>, k: nat)
    requires k < |blocks| && k < |r.results|
  {
    && blocks[k] < |r.reply.content| && r.reply.content[blocks[k]].Call?
    && r.results[k]
       == ResultMessage(r.reply.content[blocks[k]].call, r.outcome(CallsBefore(r.reply.content, blocks[k])))
  }

  /** The results after a reply answer its call blocks one for one: as many, and
      each the answer to a block of its own. A reply that ended in an error has
      none. */
  ghost predicate Answered(r: TurnRecord) {
    if Broken(r.reply) then r.results == []
    else
      && |r.results| == CallsBefore(r.reply.content, |r.reply.content|)
      && exists blocks: seq<nat> :: |blocks| == |r.results| && Distinct(blocks)
           && forall k :: 0 <= k < |blocks| ==> AnswersBlock(r, blocks, k)
  }

  /** The blocks of the calls at the given indices. */
  lemma {:induction false} BlocksOfCalls(content: seq<Block>, order: seq<nat>) returns (blocks: seq<nat>)
    requires forall k :: 0 <= k < |order| ==> order[k] < |ToolCalls(content)|
    ensures |blocks| == |order|
    ensures forall k :: 0 <= k < |order| ==>
      && blocks[k] < |content| && content[blocks[k]].Call?
      && CallsBefore(content, blocks[k]) == order[k] && content[blocks[k]].call == ToolCalls(content)[order[k]]
  {
    if order == [] {
      blocks := [];
    } else {
      var n := |order| - 1;
      blocks := BlocksOfCalls(content, order[..n]);
      var p := BlockOfCall(content, order[n]);
      blocks := blocks + [p];
    }
  }

  lemma ResultsAnswerBlocks(r: TurnRecord, mode: ToolMode)
    requires !Broken(r.reply) && r.results == ToolResults(mode, ToolCalls(r.reply.content), r.outcome)
    ensures Answered(r)
  {
    var calls := ToolCalls(r.reply.content);
    var order := OrderOf(mode, r.outcome, |calls|);
    OrderIsPermutation(mode, r.outcome, |calls|);
    ToolCallsAreBlocks(r.reply.content);
    var blocks := BlocksOfCalls(r.reply.content, order);
    hide ToolCalls, CallsBefore, ResultMessage, OrderOf;
    forall i, j | 0 <= i < j < |blocks|
      ensures blocks[i] != blocks[j]
    {
      assert order[i] != order[j];
    }
    forall k | 0 <= k < |blocks|
      ensures AnswersBlock(r, blocks, k)
    {
      assert r.results[k] == ResultMessage(calls[order[k]], r.outcome(order[k]));
    }
  }

  function RecordOf(s: Loop, mode: ToolMode, turn: Turn): TurnRecord {
    TurnRecord(s.pending, turn.response.final, turn.outcome, ResultsFor(mode, turn))
  }

  lemma TurnGrows(s: Loop, mode: ToolMode, turn: Turn)
    ensures TurnBody(s, mode, turn).newMessages
         == s.newMessages + s.pending + [turn.response.final] + ResultsFor(mode, turn)
  {
    hide ToolResults, ToolCalls, StreamResponse, ToolEvents, InjectEvents;
  }

  lemma RecordAnswered(s: Loop, mode: ToolMode, turn: Turn)
    ensures Answered(RecordOf(s, mode, turn))
  {
    hide ToolResults, ToolCalls, CallsBefore, AnswersBlock;
    var r := RecordOf(s, mode, turn);
    if !Broken(r.reply) {
      ResultsAnswerBlocks(r, mode);
    }
  }

  lemma TurnRecorded(s: Loop, mode: ToolMode, turn: Turn)
    ensures TurnBody(s, mode, turn).newMessages == s.newMessages + Flat(RecordOf(s, mode, turn))
    ensures Answered(RecordOf(s, mode, turn))
  {
    hide TurnBody, ToolResults, ToolCalls, Broken, Answered;
    TurnGrows(s, mode, turn);
    var r := RecordOf(s, mode, turn);
    RecordAnswered(s, mode, turn);
    assert s.newMessages + s.pending + [r.reply] + r.results == s.newMessages + Flat(r);
  }

  lemma OneTurnRecorded(s: Loop, mode: ToolMode, turn: Turn)
    ensures OneTurn(s, mode, turn).0.newMessages == s.newMessages + Flat(RecordOf(s, mode, turn))
    ensures Answered(RecordOf(s, mode, turn))
  {
    hide *;
    TurnRecorded(s, mode, turn);
    OneTurnShape(s, mode, turn);
  }

  /** The records of the turns a run plays from turn i on. */
  function Records(s: Loop, mode: ToolMode, turns: seq<Turn>, i: nat): seq<TurnRecord>
    requires i <= |turns|
    decreases |turns| - i
  {
    if i == |turns| then []
    else
      var (next, status) := OneTurn(s, mode, turns[i]);
      [RecordOf(s, mode, turns[i])] + if status == Running then Records(next, mode, turns, i + 1) else []
  }

  lemma FlatCons(head: seq<Message>, r: TurnRecord, more: seq<TurnRecord>)
    ensures head + FlatAll([r] + more) == (head + Flat(r)) + FlatAll(more)
  {
    assert ([r] + more)[1..] == more;
  }

  lemma RecordsStep(s: Loop, mode: ToolMode, turns: seq<Turn>, i: nat)
    requires i < |turns|
    ensures var (next, status) := OneTurn(s, mode, turns[i]);
      && Records(s, mode, turns, i) ==
           [RecordOf(s, mode, turns[i])] + (if status == Running then Records(next, mode, turns, i + 1) else [])
      && Run(s, mode, turns, i) == (if status == Running then Run(next, mode, turns, i + 1) else (next, status, i + 1))
  {
  }

  /** The new messages of a run are those before it followed, turn by turn, by
      what was injected, the reply, and results that answer the reply's calls. */
  lemma {:induction false} RunAnswered(s: Loop, mode: ToolMode, turns: seq<Turn>, i: nat)
    requires i <= |turns|
    ensures var (end, _, used) := Run(s, mode, turns, i);
      end.newMessages == s.newMessages + FlatAll(Records(s, mode, turns, i))
    ensures forall r :: r in Records(s, mode, turns, i) ==> Answered(r)
    decreases |turns| - i
  {
    if i < |turns| {
      hide *;
      RecordsStep(s, mode, turns, i);
      OneTurnRecorded(s, mode, turns[i]);
      var (next, status) := OneTurn(s, mode, turns[i]);
      var more := if status == Running then Records(next, mode, turns, i + 1) else [];
      FlatCons(s.newMessages, RecordOf(s, mode, turns[i]), more);
      if status == Running {
        RunAnswered(next, mode, turns, i + 1);
      } else {
        NoRecords(next.newMessages);
      }
    } else {
      NoRecords(s.newMessages);
    }
  }

  lemma NoRecords(messages: seq<Message>)
    ensures messages + FlatAll([]) == messages
  {
  }

  // ----- Queues over a run -----

  function ToolTurns(turns: seq<Turn>, i: nat, j: nat): nat
    requires i <= j <= |turns|
  {
    if i == j then 0
    else ToolTurns(turns, i, j - 1) + (if ToolCalls(turns[j - 1].response.final.content) != [] then 1 else 0)
  }

  function Arrived(turns: seq<Turn>, i: nat, j: nat): nat
    requires i <= j <= |turns|
  {
    if i == j then 0
    else Arrived(turns, i, j - 1) + |turns[j - 1].arrivals.steer| + |turns[j - 1].arrivals.follow|
  }

  lemma {:induction false} FirstToolTurn(turns: seq<Turn>, i: nat, j: nat)
    requires i < j <= |turns|
    ensures ToolTurns(turns, i, j)
         == (if ToolCalls(turns[i].response.final.content) != [] then 1 else 0) + ToolTurns(turns, i + 1, j)
    ensures Arrived(turns, i, j)
         == |turns[i].arrivals.steer| + |turns[i].arrivals.follow| + Arrived(turns, i + 1, j)
    decreases j
  {
    if i + 1 < j {
      FirstToolTurn(turns, i, j - 1);
    }
  }

  function Queued(s: Loop): nat {
    |s.steering.messages| + |s.followUp.messages|
  }

  /** A turn passes messages on, and every turn without tool calls that does not
      end the run takes at least one of them. */
  lemma TurnQueues(s: Loop, mode: ToolMode, turn: Turn)
    ensures var (next, status) := OneTurn(s, mode, turn);
      var most := Queued(s) + |turn.arrivals.steer| + |turn.arrivals.follow|;
      && Queued(next) <= most
      && (status == Running && ToolCalls(turn.response.final.content) == [] ==> Queued(next) + 1 <= most)
      && (status == Completed ==> Queued(next) == 0)
  {
    var played := Played(s, mode, turn);
    if !Broken(turn.response.final) {
      DrainSplits(Arrive(TurnBody(s, mode, turn), turn.arrivals).steering);
      DrainSplits(played.followUp);
    }
  }

  lemma NothingQueued(s: Loop)
    ensures Queued(s) == 0 ==> s.steering.messages == [] && s.followUp.messages == []
  {
  }

  /** A run takes at most one turn, plus one for every turn with tool calls and
      one for every queued message; a normal end leaves both queues empty. */
  lemma {:induction false} RunIsBounded(s: Loop, mode: ToolMode, turns: seq<Turn>, i: nat)
    requires i <= |turns|
    ensures var (end, status, used) := Run(s, mode, turns, i);
      && i <= used <= |turns|
      && used - i <= 1 + ToolTurns(turns, i, used) + Queued(s) + Arrived(turns, i, used)
      && (status == Completed ==> end.steering.messages == [] && end.followUp.messages == [])
    decreases |turns| - i
  {
    hide *;
    if i < |turns| {
      TurnQueues(s, mode, turns[i]);
      RecordsStep(s, mode, turns, i);
      var (next, status) := OneTurn(s, mode, turns[i]);
      if status == Running {
        RunIsBounded(next, mode, turns, i + 1);
        var (_, _, used) := Run(next, mode, turns, i + 1);
        FirstToolTurn(turns, i, used);
      } else {
        NothingQueued(next);
      }
    } else {
      RunOver(s, mode, turns);
    }
  }
}
