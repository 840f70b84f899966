/** Which events the tool phase emits, in which order, and what events do to the
    agent's copy of the transcript. */
module AgentEventLaws {
  import opened Wrappers
  import opened AgentMessages
  import opened AgentTools

  /** The events of a kind, in order. */
  function Keep(events: seq<Event>, kind: Event -> bool): seq<Event> {
    if events == [] then []
    else
      var before, e := Keep(events[..|events| - 1], kind), events[|events| - 1];
      if kind(e) then before + [e] else before
  }

  lemma KeepSnoc(events: seq<Event>, kind: Event -> bool, e: Event)
    ensures Keep(events + [e], kind) == Keep(events, kind) + (if kind(e) then [e] else [])
  {
    assert (events + [e])[..|events|] == events;
  }

  lemma {:induction false} KeepJoin(a: seq<Event>, b: seq<Event>, kind: Event -> bool)
    ensures Keep(a + b, kind) == Keep(a, kind) + Keep(b, kind)
  {
    if b == [] {
      assert a + b == a;
    } else {
      var init, e := b[..|b| - 1], b[|b| - 1];
      KeepJoin(a, init, kind);
      KeepSnoc(a + init, kind, e);
      assert a + b == (a + init) + [e];
    }
  }

  lemma KeepNone(kind: Event -> bool)
    ensures Keep([], kind) == []
  {
  }

  lemma KeepOne(e: Event, kind: Event -> bool)
    ensures Keep([e], kind) == if kind(e) then [e] else []
  {
    KeepSnoc([], kind, e);
    assert [] + [e] == [e];
  }

  const IsStart := (e: Event) => e.ToolStart?
  const IsEnd := (e: Event) => e.ToolEnd?

  /** Every progress report becomes an event of its own, in order. */
  lemma {:induction false} ReportsAreEvents(ps: seq<Progress>)
    ensures |ReportEvents(ps)| == |ps|
    ensures forall i :: 0 <= i < |ps| ==> ReportEvents(ps)[i] == ToolUpdate(ps[i].callId, ps[i].partial)
  {
    if ps == [] {
    } else {
      ReportsAreEvents(ps[..|ps| - 1]);
    }
  }

  lemma {:induction false} NoReportsKept(ps: seq<Progress>, kind: Event -> bool)
    requires kind == IsStart || kind == IsEnd
    ensures Keep(ReportEvents(ps), kind) == []
  {
    if ps == [] {
    } else {
      var p := ps[|ps| - 1];
      NoReportsKept(ps[..|ps| - 1], kind);
      KeepSnoc(ReportEvents(ps[..|ps| - 1]), kind, ToolUpdate(p.callId, p.partial));
    }
  }

  lemma ThenKept(ps: seq<Progress>, e: Event, kind: Event -> bool)
    requires kind == IsStart || kind == IsEnd
    ensures Keep(Then(ps, e), kind) == if kind(e) then [e] else []
  {
    NoReportsKept(ps, kind);
    KeepSnoc(ReportEvents(ps), kind, e);
  }

  function EndOf(call: ToolCall, o: CallOutcome): Event {
    ToolEnd(call, FinalOutput(o), FinalError(o))
  }

  lemma DeliveryKept(call: ToolCall, o: CallOutcome, k: nat, reports: Reports)
    ensures Keep(Delivery(call, o, k, reports), IsStart) == []
    ensures Keep(Delivery(call, o, k, reports), IsEnd) == [EndOf(call, o)]
  {
    DeliveryKeeps(call, o, k, reports, IsStart);
    DeliveryKeeps(call, o, k, reports, IsEnd);
  }

  lemma DeliveryKeeps(call: ToolCall, o: CallOutcome, k: nat, reports: Reports, kind: Event -> bool)
    requires kind == IsStart || kind == IsEnd
    ensures Keep(Delivery(call, o, k, reports), kind) == if kind(EndOf(call, o)) then [EndOf(call, o)] else []
  {
    hide Keep, Then, FinalOutput, FinalError, ResultMessage;
    var a := Then(reports(3 * k), EndOf(call, o));
    var b := Then(reports(3 * k + 1), MessageStart(ResultMessage(call, o)));
    var c := Then(reports(3 * k + 2), MessageEnd(ResultMessage(call, o)));
    KeepJoin(a + b, c, kind);
    KeepJoin(a, b, kind);
    ThenKept(reports(3 * k), EndOf(call, o), kind);
    ThenKept(reports(3 * k + 1), MessageStart(ResultMessage(call, o)), kind);
    ThenKept(reports(3 * k + 2), MessageEnd(ResultMessage(call, o)), kind);
  }

  lemma CallKept(call: ToolCall, o: CallOutcome, k: nat, reports: Reports)
    ensures Keep(CallEvents(call, o, k, reports), IsStart) == [ToolStart(call)]
    ensures Keep(CallEvents(call, o, k, reports), IsEnd) == [EndOf(call, o)]
  {
    hide Keep, Delivery;
    DeliveryKept(call, o, k, reports);
    KeepOne(ToolStart(call), IsStart);
    KeepOne(ToolStart(call), IsEnd);
    KeepJoin([ToolStart(call)], Delivery(call, o, k, reports), IsStart);
    KeepJoin([ToolStart(call)], Delivery(call, o, k, reports), IsEnd);
  }

  /** The kept events are the starts of the first n calls. */
  ghost predicate StartsOf(kept: seq<Event>, calls: seq<ToolCall>, n: nat)
    requires n <= |calls|
  {
    |kept| == n && forall k :: 0 <= k < n ==> kept[k] == ToolStart(calls[k])
  }

  /** The kept events are the ends of the calls at the given indices. */
  ghost predicate EndsOf(kept: seq<Event>, calls: seq<ToolCall>, outcome: Outcomes, order: seq<nat>)
    requires forall k :: 0 <= k < |order| ==> order[k] < |calls|
  {
    && |kept| == |order|
    && forall k :: 0 <= k < |order| ==> kept[k] == EndOf(calls[order[k]], outcome(order[k]))
  }

  lemma {:induction false} SequentialKept(calls: seq<ToolCall>, outcome: Outcomes, reports: Reports, n: nat)
    requires n <= |calls|
    ensures StartsOf(Keep(SequentialEvents(calls, outcome, reports, n), IsStart), calls, n)
    ensures EndsOf(Keep(SequentialEvents(calls, outcome, reports, n), IsEnd), calls, outcome, InOrder(n))
  {
    hide Keep, CallEvents, EndOf;
    KeepNone(IsStart);
    KeepNone(IsEnd);
    if n == 0 {
    } else {
      var before := SequentialEvents(calls, outcome, reports, n - 1);
      var call := CallEvents(calls[n - 1], outcome(n - 1), n - 1, reports);
      SequentialKept(calls, outcome, reports, n - 1);
      CallKept(calls[n - 1], outcome(n - 1), n - 1, reports);
      KeepJoin(before, call, IsStart);
      KeepJoin(before, call, IsEnd);
    }
  }

  lemma {:induction false} PrepareKept(calls: seq<ToolCall>, outcome: Outcomes, reports: Reports, n: nat)
    requires n <= |calls|
    ensures StartsOf(Keep(PrepareEvents(calls, outcome, reports, n), IsStart), calls, n)
    ensures EndsOf(Keep(PrepareEvents(calls, outcome, reports, n), IsEnd), calls, outcome, AtOnce(outcome, n))
  {
    hide Keep, CallEvents, EndOf;
    KeepNone(IsStart);
    KeepNone(IsEnd);
    if n == 0 {
    } else {
      var before := PrepareEvents(calls, outcome, reports, n - 1);
      var call := calls[n - 1];
      PrepareKept(calls, outcome, reports, n - 1);
      CallKept(call, outcome(n - 1), n - 1, reports);
      KeepOne(ToolStart(call), IsStart);
      KeepOne(ToolStart(call), IsEnd);
      var more := if outcome(n - 1).Immediate? then CallEvents(call, outcome(n - 1), n - 1, reports)
                  else [ToolStart(call)];
      KeepJoin(before, more, IsStart);
      KeepJoin(before, more, IsEnd);
    }
  }

  lemma {:induction false} FinishKept(calls: seq<ToolCall>, outcome: Outcomes, reports: Reports, running: seq<nat>)
    requires forall k :: 0 <= k < |running| ==> running[k] < |calls|
    ensures Keep(FinishEvents(calls, outcome, reports, running), IsStart) == []
    ensures EndsOf(Keep(FinishEvents(calls, outcome, reports, running), IsEnd), calls, outcome, running)
  {
    hide Keep, Delivery, EndOf;
    KeepNone(IsStart);
    KeepNone(IsEnd);
    if running == [] {
    } else {
      var init, k := running[..|running| - 1], running[|running| - 1];
      var before := FinishEvents(calls, outcome, reports, init);
      var call := Delivery(calls[k], outcome(k), k, reports);
      FinishKept(calls, outcome, reports, init);
      DeliveryKept(calls[k], outcome(k), k, reports);
      KeepJoin(before, call, IsStart);
      KeepJoin(before, call, IsEnd);
    }
  }

  /** In either mode exactly the calls start, in source order, and each ends once,
      with its output and its error flag: in source order when executed one after
      another, and otherwise those answered at once before those that run. */
  lemma ToolPhaseEvents(mode: ToolMode, calls: seq<ToolCall>, outcome: Outcomes, reports: Reports)
    ensures var events := ToolEvents(mode, calls, outcome, reports);
      && StartsOf(Keep(events, IsStart), calls, |calls|)
      && EndsOf(Keep(events, IsEnd), calls, outcome, OrderOf(mode, outcome, |calls|))
  {
    var n := |calls|;
    if mode == Sequential {
      SequentialKept(calls, outcome, reports, n);
    } else {
      var prepared := PrepareEvents(calls, outcome, reports, n);
      var finished := FinishEvents(calls, outcome, reports, Running(outcome, n));
      PrepareKept(calls, outcome, reports, n);
      FinishKept(calls, outcome, reports, Running(outcome, n));
      KeepJoin(prepared, finished, IsStart);
      KeepJoin(prepared, finished, IsEnd);
    }
  }

  // ----- No call ends before it starts -----

  /** Every call that ends is one of those started before, or started earlier in
      the same events. */
  ghost predicate EndsFollowStarts(started: set<ToolCall>, events: seq<Event>) {
    forall j :: 0 <= j < |events| && events[j].ToolEnd? ==>
      events[j].call in started || exists i :: 0 <= i < j && events[i] == ToolStart(events[j].call)
  }

  lemma FollowJoin(started: set<ToolCall>, a: seq<Event>, b: seq<Event>, more: set<ToolCall>)
    requires EndsFollowStarts(started, a) && EndsFollowStarts(more, b)
    requires forall call :: call in more ==> call in started || exists i :: 0 <= i < |a| && a[i] == ToolStart(call)
    ensures EndsFollowStarts(started, a + b)
  {
    var all := a + b;
    forall j | 0 <= j < |all| && all[j].ToolEnd?
      ensures all[j].call in started || exists i :: 0 <= i < j && all[i] == ToolStart(all[j].call)
    {
      if j < |a| {
        if i :| 0 <= i < j && a[i] == ToolStart(a[j].call) {
          assert all[i] == ToolStart(all[j].call);
        }
      } else {
        var call := b[j - |a|].call;
        if i :| 0 <= i < j - |a| && b[i] == ToolStart(call) {
          assert all[|a| + i] == ToolStart(call);
        } else if call !in started {
          var i :| 0 <= i < |a| && a[i] == ToolStart(call);
          assert all[i] == ToolStart(call);
        }
      }
    }
  }

  lemma DeliveryFollows(call: ToolCall, o: CallOutcome, k: nat, reports: Reports)
    ensures EndsFollowStarts({call}, Delivery(call, o, k, reports))
  {
    hide FinalOutput, FinalError, ResultMessage, ReportEvents;
    var d := Delivery(call, o, k, reports);
    ReportsAreEvents(reports(3 * k));
    ReportsAreEvents(reports(3 * k + 1));
    ReportsAreEvents(reports(3 * k + 2));
    var a, b := |reports(3 * k)|, |reports(3 * k)| + 1 + |reports(3 * k + 1)|;
    assert d[a] == EndOf(call, o) && d[b].MessageStart? && d[|d| - 1].MessageEnd?;
    assert forall j :: 0 <= j < a ==> d[j] == ReportEvents(reports(3 * k))[j];
    assert forall j :: a < j < b ==> d[j] == ReportEvents(reports(3 * k + 1))[j - a - 1];
    assert forall j :: b < j < |d| - 1 ==> d[j] == ReportEvents(reports(3 * k + 2))[j - b - 1];
  }

  lemma StartFollows(call: ToolCall)
    ensures EndsFollowStarts({}, [ToolStart(call)])
  {
  }

  lemma NothingFollows()
    ensures EndsFollowStarts({}, [])
  {
  }

  lemma CallFollows(call: ToolCall, o: CallOutcome, k: nat, reports: Reports)
    ensures EndsFollowStarts({}, CallEvents(call, o, k, reports))
  {
    DeliveryFollows(call, o, k, reports);
    assert [ToolStart(call)][0] == ToolStart(call);
    FollowJoin({}, [ToolStart(call)], Delivery(call, o, k, reports), {call});
  }

  lemma {:induction false} SequentialFollows(calls: seq<ToolCall>, outcome: Outcomes, reports: Reports, n: nat)
    requires n <= |calls|
    ensures EndsFollowStarts({}, SequentialEvents(calls, outcome, reports, n))
  {
    hide EndsFollowStarts, CallEvents;
    if n == 0 {
      NothingFollows();
    } else {
      var call := CallEvents(calls[n - 1], outcome(n - 1), n - 1, reports);
      SequentialFollows(calls, outcome, reports, n - 1);
      CallFollows(calls[n - 1], outcome(n - 1), n - 1, reports);
      FollowJoin({}, SequentialEvents(calls, outcome, reports, n - 1), call, {});
    }
  }

  lemma {:induction false} PrepareFollows(calls: seq<ToolCall>, outcome: Outcomes, reports: Reports, n: nat)
    requires n <= |calls|
    ensures EndsFollowStarts({}, PrepareEvents(calls, outcome, reports, n))
  {
    hide EndsFollowStarts, CallEvents;
    if n == 0 {
      NothingFollows();
    } else {
      PrepareFollows(calls, outcome, reports, n - 1);
      CallFollows(calls[n - 1], outcome(n - 1), n - 1, reports);
      var more := if outcome(n - 1).Immediate? then CallEvents(calls[n - 1], outcome(n - 1), n - 1, reports)
                  else [ToolStart(calls[n - 1])];
      StartFollows(calls[n - 1]);
      FollowJoin({}, PrepareEvents(calls, outcome, reports, n - 1), more, {});
    }
  }

  lemma {:induction false} FinishFollows(calls: seq<ToolCall>, outcome: Outcomes, reports: Reports, running: seq<nat>,
                                         started: set<ToolCall>)
    requires forall k :: 0 <= k < |running| ==> running[k] < |calls| && calls[running[k]] in started
    ensures EndsFollowStarts(started, FinishEvents(calls, outcome, reports, running))
  {
    if running == [] {
    } else {
      var init, k := running[..|running| - 1], running[|running| - 1];
      FinishFollows(calls, outcome, reports, init, started);
      DeliveryFollows(calls[k], outcome(k), k, reports);
      FollowJoin(started, FinishEvents(calls, outcome, reports, init),
                 Delivery(calls[k], outcome(k), k, reports), {calls[k]});
    }
  }

  lemma {:induction false} KeptIsThere(events: seq<Event>, kind: Event -> bool, k: nat)
    requires k < |Keep(events, kind)|
    ensures Keep(events, kind)[k] in events
  {
    var n := |events| - 1;
    if k < |Keep(events[..n], kind)| {
      KeptIsThere(events[..n], kind, k);
    }
  }

  /** In either mode no call ends before it has started. */
  lemma CallsEndAfterStart(mode: ToolMode, calls: seq<ToolCall>, outcome: Outcomes, reports: Reports)
    ensures EndsFollowStarts({}, ToolEvents(mode, calls, outcome, reports))
  {
    var n := |calls|;
    if mode == Sequential {
      SequentialFollows(calls, outcome, reports, n);
    } else {
      var prepared, started := PrepareEvents(calls, outcome, reports, n), set call | call in calls;
      PrepareFollows(calls, outcome, reports, n);
      PrepareKept(calls, outcome, reports, n);
      FinishFollows(calls, outcome, reports, Running(outcome, n), started);
      forall call | call in started
        ensures exists i :: 0 <= i < |prepared| && prepared[i] == ToolStart(call)
      {
        var k :| 0 <= k < n && calls[k] == call;
        KeptIsThere(prepared, IsStart, k);
      }
      FollowJoin({}, prepared, FinishEvents(calls, outcome, reports, Running(outcome, n)), started);
    }
  }

  // ----- The agent's copy -----

  /** Event i is the last one of the kind; -1 when there is none. */
  ghost predicate LastOf(events: seq<Event>, kind: Event -> bool, i: int) {
    -1 <= i < |events| && (i >= 0 ==> kind(events[i])) && forall j :: i < j < |events| ==> !kind(events[j])
  }

  lemma LastOfInit(events: seq<Event>, kind: Event -> bool, i: int)
    requires events != [] && LastOf(events, kind, i)
    ensures if kind(events[|events| - 1]) then i == |events| - 1
            else i < |events| - 1 && LastOf(events[..|events| - 1], kind, i)
  {
  }

  function SomeError(e: Event): Option<Payload> {
    if e.TurnEnd? && e.message.Assistant? then e.message.errorMessage else None
  }

  function TouchesCall(id: Name): Event -> bool {
    (e: Event) => (e.ToolStart? || e.ToolEnd?) && e.call.id == id
  }

  const TouchesStream := (e: Event) => e.MessageStart? || e.MessageUpdate? || e.MessageEnd? || e.AgentEnd?
  const BringsError := (e: Event) => SomeError(e).Some?
  const EndsMessage := (e: Event) => e.MessageEnd?

  /** A call is pending iff its last start or end is a start. */
  lemma {:induction false} PendingIff(m: Monitor, events: seq<Event>, id: Name, i: int)
    requires LastOf(events, TouchesCall(id), i)
    ensures id in ObserveAll(m, events).replica.pendingToolCalls <==>
      if i == -1 then id in m.replica.pendingToolCalls else events[i].ToolStart?
  {
    if events == [] {
    } else {
      LastOfInit(events, TouchesCall(id), i);
      if i < |events| - 1 {
        PendingIff(m, events[..|events| - 1], id, i);
      }
    }
  }

  /** The message that streams is the one last started or updated, unless a message
      or the run has ended since. */
  lemma {:induction false} StreamingIs(m: Monitor, events: seq<Event>, i: int)
    requires LastOf(events, TouchesStream, i)
    ensures ObserveAll(m, events).replica.streaming ==
      if i == -1 then m.replica.streaming
      else if events[i].MessageStart? || events[i].MessageUpdate? then Some(events[i].message)
      else None
  {
    if events == [] {
    } else {
      LastOfInit(events, TouchesStream, i);
      if i < |events| - 1 {
        StreamingIs(m, events[..|events| - 1], i);
      }
    }
  }

  /** The agent's error is that of the last turn whose message had one. */
  lemma {:induction false} ErrorIs(m: Monitor, events: seq<Event>, i: int)
    requires LastOf(events, BringsError, i)
    ensures ObserveAll(m, events).replica.errorMessage ==
      if i == -1 then m.replica.errorMessage else SomeError(events[i])
  {
    if events == [] {
    } else {
      LastOfInit(events, BringsError, i);
      if i < |events| - 1 {
        ErrorIs(m, events[..|events| - 1], i);
      }
    }
  }

  /** The transcript gains exactly the messages that end, in order. */
  lemma {:induction false} MessagesAre(m: Monitor, events: seq<Event>)
    ensures var (after, ended) := (ObserveAll(m, events).replica.messages, Keep(events, EndsMessage));
      && |after| == |m.replica.messages| + |ended|
      && m.replica.messages <= after
      && forall i :: 0 <= i < |ended| ==>
           ended[i].MessageEnd? && after[|m.replica.messages| + i] == ended[i].message
  {
    if events == [] {
    } else {
      MessagesAre(m, events[..|events| - 1]);
    }
  }
}
