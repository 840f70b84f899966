/** What the proxy reader passes on, and how the message comes from the lines. */
module ProxyLaws {
  import opened Wrappers
  import opened Texts
  import opened ProxyEvents
  import opened ProxyStream

  // ----- The events passed on -----

  /** The events passed on by a run that does not throw. */
  function Emissions(events: seq<ProxyEvent>, parse: Text -> Arguments): seq<Emitted>
    requires Run(events, parse).Some?
  {
    if events == [] then []
    else
      var event := EventFor(Run(events, parse).value, events[|events| - 1]);
      Emissions(events[..|events| - 1], parse) + (if event.Some? then [event.value] else [])
  }

  /** The text that a listener joins for index i: a start clears it, a delta is
      appended. */
  function Echo(emitted: seq<Emitted>, i: nat): Text {
    if emitted == [] then []
    else
      var before, e := Echo(emitted[..|emitted| - 1], i), emitted[|emitted| - 1];
      match e
      case BlockStart(index) => if index == i then [] else before
      case BlockDelta(index, delta) => if index == i then before + delta else before
      case _ => before
  }

  lemma EchoSnoc(emitted: seq<Emitted>, e: Emitted, i: nat)
    ensures Echo(emitted + [e], i) ==
      if e == BlockStart(i) then [] else if e.BlockDelta? && e.index == i then Echo(emitted, i) + e.delta
      else Echo(emitted, i)
  {
    assert (emitted + [e])[..|emitted|] == emitted;
  }

  lemma SinceGrows(t: Tally, e: ProxyEvent)
    ensures Since(TallyStep(t, e)) == if StartsBlock(e) then [] else Since(t) + DeltaOf(e)
  {
    assert Since(t) + [] == Since(t);
    Appending(t, DeltaOf(e));
  }

  /** Whoever listens to the events passed on can rebuild every block's text: joined
      since the block's start, the deltas are those received. */
  lemma {:induction false} EchoIsReceived(events: seq<ProxyEvent>, i: nat, parse: Text -> Arguments)
    requires Run(events, parse).Some?
    ensures Echo(Emissions(events, parse), i) == Since(TallyOf(events, i))
  {
    if events == [] {
      assert Since(TallyOf(events, i)) == [];
    } else {
      var before, e := events[..|events| - 1], events[|events| - 1];
      hide Run, EventFor, TallyStep, Echo, Since;
      RunSnoc(before, e, parse);
      assert events == before + [e];
      EchoIsReceived(before, i, parse);
      SinceGrows(TallyOf(before, i), e);
      EventEchoes(Emissions(before, parse), Run(events, parse).value, e, i);
    }
  }

  lemma EventEchoes(emitted: seq<Emitted>, content: map<nat, Block>, e: ProxyEvent, i: nat)
    ensures var event := EventFor(content, e);
      Echo(emitted + (if event.Some? then [event.value] else []), i) ==
        if IndexIn(e) != Some(i) then Echo(emitted, i)
        else if StartsBlock(e) then [] else Echo(emitted, i) + DeltaOf(e)
  {
    hide Echo;
    var event := EventFor(content, e);
    if event.Some? {
      EchoSnoc(emitted, event.value, i);
    } else {
      assert emitted + [] == emitted;
    }
    assert Echo(emitted, i) + [] == Echo(emitted, i);
  }

  /** An end passes on the text joined so far. */
  lemma EndsCarryText(before: seq<ProxyEvent>, e: ProxyEvent, parse: Text -> Arguments)
    requires Run(before + [e], parse).Some? && (e.TextEnd? || e.ThinkingEnd?)
    ensures var i := IndexIn(e).value;
      && Run(before, parse).Some?
      && Emissions(before + [e], parse)
         == Emissions(before, parse) + [BlockEnd(i, Echo(Emissions(before, parse), i))]
  {
    var i := IndexIn(e).value;
    assert (before + [e])[..|before|] == before;
    EchoIsReceived(before, i, parse);
    BlockIsItsDeltas(before, i, parse);
  }

  /** Every event that does not throw is passed on as one event about the same block,
      except the end of a tool call where there is none. */
  lemma EachPassedOn(before: seq<ProxyEvent>, e: ProxyEvent, parse: Text -> Arguments)
    requires Run(before + [e], parse).Some?
    ensures Run(before, parse).Some?
    ensures var (fewer, all) := (Emissions(before, parse), Emissions(before + [e], parse));
      if e.ToolCallEnd? && !HasToolCall(before, e.index, parse) then all == fewer
      else |all| == |fewer| + 1 && all == fewer + [all[|fewer|]] && About(all[|fewer|], e)
  {
    assert (before + [e])[..|before|] == before;
  }

  predicate HasToolCall(events: seq<ProxyEvent>, i: nat, parse: Text -> Arguments)
    requires Run(events, parse).Some?
  {
    var content := Run(events, parse).value;
    i in content && content[i].ToolCallBlock?
  }

  /** The event passed on is of the kind received, about the same block, with the same
      delta or reason. */
  predicate About(event: Emitted, e: ProxyEvent) {
    match event
    case StartEvent => e.Start?
    case BlockStart(i) => StartsBlock(e) && i == e.index
    case BlockDelta(i, delta) =>
      (e.TextDelta? || e.ThinkingDelta? || e.ToolCallDelta?) && i == e.index && delta == e.delta
    case BlockEnd(i, _) => (e.TextEnd? || e.ThinkingEnd?) && i == e.index
    case ToolCallDone(i, block) => e.ToolCallEnd? && i == e.index && block.ToolCallBlock? && block.partialJson.None?
    case DoneEvent(reason) => e.Done? && reason == e.reason
    case ErrorEvent(reason) => e.Failed? && reason == e.reason
  }

  /** An event throws iff it is a delta, or the end of a text or of thinking, and there
      is no block of its kind at its index. */
  lemma ThrowsIff(content: map<nat, Block>, e: ProxyEvent, parse: Text -> Arguments)
    ensures StepContent(content, e, parse).None? <==>
      || ((e.TextDelta? || e.TextEnd?) && !(e.index in content && content[e.index].TextBlock?))
      || ((e.ThinkingDelta? || e.ThinkingEnd?) && !(e.index in content && content[e.index].ThinkingBlock?))
      || (e.ToolCallDelta? && !(e.index in content && content[e.index].ToolCallBlock?))
  {
  }

  // ----- What a block is -----

  /** Event j is the last one of the kind; -1 when there is none. */
  ghost predicate LastEvent(events: seq<ProxyEvent>, kind: ProxyEvent -> bool, j: int) {
    -1 <= j < |events| && (j >= 0 ==> kind(events[j])) && forall k :: j < k < |events| ==> !kind(events[k])
  }

  function StartsAt(i: nat): ProxyEvent -> bool {
    (e: ProxyEvent) => IndexIn(e) == Some(i) && StartsBlock(e)
  }

  function SignsAt(i: nat): ProxyEvent -> bool {
    (e: ProxyEvent) => IndexIn(e) == Some(i) && (StartsBlock(e) || e.TextEnd? || e.ThinkingEnd?)
  }

  function SignatureIn(e: ProxyEvent): Option<Text> {
    if e.TextEnd? || e.ThinkingEnd? then e.signature else None
  }

  /** The block is of the kind that was started, with its id and name, and has the
      signature of its last end, none without an end. */
  ghost predicate Fits(b: Block, start: ProxyEvent, signed: ProxyEvent) {
    match start
    case TextStart(_) => b.TextBlock? && b.textSignature == SignatureIn(signed)
    case ThinkingStart(_) => b.ThinkingBlock? && b.thinkingSignature == SignatureIn(signed)
    case ToolCallStart(_, id, toolName) => b.ToolCallBlock? && b.id == id && b.name == toolName
    case _ => false
  }

  lemma LastInit(events: seq<ProxyEvent>, kind: ProxyEvent -> bool, j: int)
    requires events != [] && LastEvent(events, kind, j)
    ensures if kind(events[|events| - 1]) then j == |events| - 1
            else j < |events| - 1 && LastEvent(events[..|events| - 1], kind, j)
  {
  }

  lemma LastExists(events: seq<ProxyEvent>, kind: ProxyEvent -> bool) returns (j: int)
    ensures LastEvent(events, kind, j)
  {
    j := |events| - 1;
    while j >= 0 && !kind(events[j])
      invariant -1 <= j < |events| && forall k :: j < k < |events| ==> !kind(events[k])
    {
      j := j - 1;
    }
  }

  /** In every run that does not throw there is a block at an index iff one was started
      there, and it is the one started last. */
  lemma {:induction false} BlockIsLastStarted(events: seq<ProxyEvent>, i: nat, j: int, k: int,
                                              parse: Text -> Arguments)
    requires Run(events, parse).Some?
    requires LastEvent(events, StartsAt(i), j) && LastEvent(events, SignsAt(i), k)
    ensures var content := Run(events, parse).value;
      (i in content <==> j >= 0) && (i in content ==> k >= j && Fits(content[i], events[j], events[k]))
  {
    if events == [] {
    } else {
      var before, e := events[..|events| - 1], events[|events| - 1];
      LastInit(events, StartsAt(i), j);
      LastInit(events, SignsAt(i), k);
      if !StartsAt(i)(e) {
        var k' := k;
        if SignsAt(i)(e) {
          k' := LastExists(before, SignsAt(i));
        }
        BlockIsLastStarted(before, i, j, k', parse);
      }
    }
  }

  // ----- From lines to the message -----

  /** The events that lines carry, in order. */
  function EventsIn(lines: seq<Text>, json: JsonParser): seq<ProxyEvent> {
    if lines == [] then []
    else
      var before, last := EventsIn(lines[..|lines| - 1], json), ReadLine(lines[|lines| - 1], json);
      if last.Carries? then before + [last.event] else before
  }

  ghost predicate NoBadLine(lines: seq<Text>, json: JsonParser) {
    forall i :: 0 <= i < |lines| ==> !ReadLine(lines[i], json).BadJson?
  }

  /** The message after the events: its content is the run's, and stop reason, error
      and usage are those of the terminal events. */
  function MessageAfter(events: seq<ProxyEvent>, parse: Text -> Arguments): Partial
    requires Run(events, parse).Some?
  {
    if events == [] then Partial(map[], Stop, None, 0)
    else
      var (before, e) := (MessageAfter(events[..|events| - 1], parse), events[|events| - 1]);
      Partial(Run(events, parse).value,
              if e.Done? || e.Failed? then e.reason else before.stopReason,
              if e.Failed? then e.errorMessage else before.errorMessage,
              if e.Done? || e.Failed? then e.usage else before.usage)
  }

  lemma EventsSnoc(lines: seq<Text>, line: Text, json: JsonParser)
    ensures EventsIn(lines + [line], json)
         == EventsIn(lines, json)
            + (if ReadLine(line, json).Carries? then [ReadLine(line, json).event] else [])
  {
    assert (lines + [line])[..|lines|] == lines;
  }

  lemma ReadCarried(r: Reader, e: ProxyEvent, line: Text, json: JsonParser, parse: Text -> Arguments)
    requires r.failure.None? && ReadLine(line, json) == Carries(e) && StepContent(r.message.content, e, parse).Some?
    ensures var content := StepContent(r.message.content, e, parse).value;
      var event := EventFor(content, e);
      var next := ReadOne(r, line, json, parse);
      && next.failure.None? && next.message.content == content
      && next.message.stopReason == (if e.Done? || e.Failed? then e.reason else r.message.stopReason)
      && next.message.errorMessage == (if e.Failed? then e.errorMessage else r.message.errorMessage)
      && next.message.usage == (if e.Done? || e.Failed? then e.usage else r.message.usage)
      && next.pushed == r.pushed + (if event.Some? then [event.value] else [])
  {
  }

  /** When every line parses and no event throws, the reader holds the message that
      the carried events build, and has pushed what they pass on. */
  lemma {:induction false} ReaderFollowsEvents(lines: seq<Text>, json: JsonParser, parse: Text -> Arguments)
    requires NoBadLine(lines, json) && Run(EventsIn(lines, json), parse).Some?
    ensures var (r, events) := (ReadLines(FRESH, lines, json, parse), EventsIn(lines, json));
      r == Reader(MessageAfter(events, parse), Emissions(events, parse), None)
  {
    if lines == [] {
    } else {
      var before, line := lines[..|lines| - 1], lines[|lines| - 1];
      hide ReadLine, ReadOne, Run, EventFor;
      assert lines == before + [line];
      EventsSnoc(before, line, json);
      NoBadBefore(before, line, json);
      var events := EventsIn(before, json);
      if ReadLine(line, json).Carries? {
        var e := ReadLine(line, json).event;
        RunSnoc(events, e, parse);
        assert (events + [e])[..|events|] == events;
        ReaderFollowsEvents(before, json, parse);
        ReadCarried(ReadLines(FRESH, before, json, parse), e, line, json, parse);
      } else {
        assert events + [] == events;
        ReaderFollowsEvents(before, json, parse);
        NothingRead(ReadLines(FRESH, before, json, parse), line, json, parse);
      }
    }
  }

  lemma NoBadBefore(before: seq<Text>, line: Text, json: JsonParser)
    requires NoBadLine(before + [line], json)
    ensures NoBadLine(before, json) && !ReadLine(line, json).BadJson?
  {
    var lines := before + [line];
    assert lines[|before|] == line;
    assert forall i :: 0 <= i < |before| ==> lines[i] == before[i];
  }

  lemma NothingRead(r: Reader, line: Text, json: JsonParser, parse: Text -> Arguments)
    requires ReadLine(line, json).NoEvent?
    ensures ReadOne(r, line, json, parse) == r
  {
  }

  /** A line carries what stands after `data: ` with the spaces around it dropped; a
      line without that prefix, or with nothing else, carries nothing. */
  lemma LineCarries(line: Text, rest: Text, json: JsonParser)
    ensures ReadLine(Ascii("data: ") + rest, json) == if Trim(rest) == [] then NoEvent else json(Trim(rest))
    ensures !StartsWith(line, Ascii("data: ")) ==> ReadLine(line, json) == NoEvent
  {
    var whole := DATA + rest;
    assert whole[|DATA|..] == rest && DATA <= whole;
    assert DATA <= line ==> line[..|DATA|] == DATA;
  }

  // ----- Failures -----

  /** The message of the error that a line raises in a given content, if it raises
      one. */
  function LineError(content: map<nat, Block>, line: Text, json: JsonParser, parse: Text -> Arguments): Option<Text> {
    match ReadLine(line, json)
    case NoEvent => None
    case BadJson(message) => Some(message)
    case Carries(e) => if StepContent(content, e, parse).None? then Some(WrongBlock(e)) else None
  }

  lemma FailingLine(r: Reader, line: Text, json: JsonParser, parse: Text -> Arguments)
    requires r.failure.None? && LineError(r.message.content, line, json, parse).Some?
    ensures ReadOne(r, line, json, parse) == r.(failure := LineError(r.message.content, line, json, parse))
  {
  }

  /** The first line that raises an error ends the reading: what came before it stands,
      nothing after it is read, and the message and the last event say that it ended in
      an error, with that error's message. */
  lemma FirstErrorEnds(before: seq<Text>, line: Text, more: seq<Text>, json: JsonParser, parse: Text -> Arguments)
    requires NoBadLine(before, json) && Run(EventsIn(before, json), parse).Some?
    requires LineError(Run(EventsIn(before, json), parse).value, line, json, parse).Some?
    ensures var events := EventsIn(before, json);
      var error := LineError(Run(events, parse).value, line, json, parse);
      Finish(ReadLines(FRESH, before + [line] + more, json, parse))
      == Reader(MessageAfter(events, parse).(stopReason := Error, errorMessage := error),
                Emissions(events, parse) + [ErrorEvent(Error)], error)
  {
    hide ReadOne, Run, Emissions, LineError, ReadLine, NoBadLine, EventsIn;
    ReaderFollowsEvents(before, json, parse);
    var r := ReadLines(FRESH, before, json, parse);
    MessageHasContent(EventsIn(before, json), parse);
    FailingLine(r, line, json, parse);
    ReadLinesSnoc(FRESH, before + [line], |before|, json, parse);
    assert (before + [line])[..|before|] == before && (before + [line])[..|before| + 1] == before + [line];
    ReadLinesJoin(FRESH, before + [line], more, json, parse);
    FailedStays(ReadLines(FRESH, before + [line], json, parse), more, json, parse);
  }

  lemma MessageHasContent(events: seq<ProxyEvent>, parse: Text -> Arguments)
    requires Run(events, parse).Some?
    ensures MessageAfter(events, parse).content == Run(events, parse).value
  {
  }
}
