/** Rebuilding a message from proxy events, block by block. */
module ProxyEvents {
  import opened Wrappers
  import opened Texts

  /** Parsed tool arguments, as identified by the streaming JSON parser. */
  type Arguments = nat
  const EMPTY_ARGUMENTS: Arguments := 0

  datatype Block =
    | TextBlock(text: Text, textSignature: Option<Text>)
    | ThinkingBlock(thinking: Text, thinkingSignature: Option<Text>)
    | ToolCallBlock(id: Text, name: Text, arguments: Arguments, partialJson: Option<Text>)

  datatype StopReason = Stop | Length | ToolUse | Aborted | Error

  datatype ProxyEvent =
    | Start
    | TextStart(index: nat)
    | TextDelta(index: nat, delta: Text)
    | TextEnd(index: nat, signature: Option<Text>)
    | ThinkingStart(index: nat)
    | ThinkingDelta(index: nat, delta: Text)
    | ThinkingEnd(index: nat, signature: Option<Text>)
    | ToolCallStart(index: nat, id: Text, toolName: Text)
    | ToolCallDelta(index: nat, delta: Text)
    | ToolCallEnd(index: nat)
    | Done(reason: StopReason, usage: nat)
    | Failed(reason: StopReason, errorMessage: Option<Text>, usage: nat)

  /** The events passed on; those about a block name its index. */
  datatype Emitted =
    | StartEvent
    | BlockStart(index: nat)
    | BlockDelta(index: nat, delta: Text)
    | BlockEnd(index: nat, content: Text)
    | ToolCallDone(index: nat, block: Block)
    | DoneEvent(reason: StopReason)
    | ErrorEvent(reason: StopReason)

  datatype Partial = Partial(
    content: map<nat, Block>, stopReason: StopReason, errorMessage: Option<Text>, usage: nat)

  /** The thrown error's message, or an optional event to pass on. */
  datatype Reply = Thrown(message: Text) | Produced(event: Option<Emitted>)

  /** The text that JavaScript appends a delta to when the field is gone. */
  const UNDEFINED: Text := Ascii("undefined")

  function Json(b: Block): Text
    requires b.ToolCallBlock?
  {
    if b.partialJson.Some? then b.partialJson.value else UNDEFINED
  }

  function IndexIn(e: ProxyEvent): Option<nat> {
    if e.Start? || e.Done? || e.Failed? then None else Some(e.index)
  }

  /** The block an event writes at its index, if it writes one; None when it
      throws. */
  function StepBlock(b: Option<Block>, e: ProxyEvent, parse: Text -> Arguments): Option<Option<Block>>
    requires IndexIn(e).Some?
  {
    match e
    case TextStart(_) => Some(Some(TextBlock([], None)))
    case ThinkingStart(_) => Some(Some(ThinkingBlock([], None)))
    case ToolCallStart(_, id, toolName) => Some(Some(ToolCallBlock(id, toolName, EMPTY_ARGUMENTS, Some([]))))
    case TextDelta(_, delta) =>
      if b.Some? && b.value.TextBlock? then Some(Some(b.value.(text := b.value.text + delta))) else None
    case TextEnd(_, signature) =>
      if b.Some? && b.value.TextBlock? then Some(Some(b.value.(textSignature := signature))) else None
    case ThinkingDelta(_, delta) =>
      if b.Some? && b.value.ThinkingBlock? then Some(Some(b.value.(thinking := b.value.thinking + delta))) else None
    case ThinkingEnd(_, signature) =>
      if b.Some? && b.value.ThinkingBlock? then Some(Some(b.value.(thinkingSignature := signature))) else None
    case ToolCallDelta(_, delta) =>
      if b.Some? && b.value.ToolCallBlock? then
        var json := Json(b.value) + delta;
        Some(Some(b.value.(partialJson := Some(json), arguments := parse(json))))
      else None
    case ToolCallEnd(_) =>
      Some(if b.Some? && b.value.ToolCallBlock? then Some(b.value.(partialJson := None)) else None)
  }

  function At(content: map<nat, Block>, i: nat): Option<Block> {
    if i in content then Some(content[i]) else None
  }

  /** The content with the outcome of a block step at index i. */
  function Put(content: map<nat, Block>, i: nat, outcome: Option<Option<Block>>): Option<map<nat, Block>> {
    match outcome
    case None => None
    case Some(None) => Some(content)
    case Some(Some(b)) => Some(content[i := b])
  }

  function StepContent(content: map<nat, Block>, e: ProxyEvent, parse: Text -> Arguments): Option<map<nat, Block>> {
    match IndexIn(e)
    case None => Some(content)
    case Some(i) => Put(content, i, StepBlock(At(content, i), e, parse))
  }

  function EventFor(content: map<nat, Block>, e: ProxyEvent): Option<Emitted> {
    match e
    case Start => Some(StartEvent)
    case TextStart(i) => Some(BlockStart(i))
    case ThinkingStart(i) => Some(BlockStart(i))
    case ToolCallStart(i, _, _) => Some(BlockStart(i))
    case TextDelta(i, delta) => Some(BlockDelta(i, delta))
    case ThinkingDelta(i, delta) => Some(BlockDelta(i, delta))
    case ToolCallDelta(i, delta) => Some(BlockDelta(i, delta))
    case TextEnd(i, _) => if i in content && content[i].TextBlock? then Some(BlockEnd(i, content[i].text)) else None
    case ThinkingEnd(i, _) =>
      if i in content && content[i].ThinkingBlock? then Some(BlockEnd(i, content[i].thinking)) else None
    case ToolCallEnd(i) =>
      if i in content && content[i].ToolCallBlock? then Some(ToolCallDone(i, content[i])) else None
    case Done(reason, _) => Some(DoneEvent(reason))
    case Failed(reason, _, _) => Some(ErrorEvent(reason))
  }

  /** The message of the error an event throws at a block of another kind. */
  function WrongBlock(e: ProxyEvent): Text {
    match e
    case TextDelta(_, _) => Ascii("Received text_delta for non-text content")
    case TextEnd(_, _) => Ascii("Received text_end for non-text content")
    case ThinkingDelta(_, _) => Ascii("Received thinking_delta for non-thinking content")
    case ThinkingEnd(_, _) => Ascii("Received thinking_end for non-thinking content")
    case _ => Ascii("Received toolcall_delta for non-toolCall content")
  }

  /** One event against the partial message; a throwing event changes nothing. */
  function Reduce(p: Partial, e: ProxyEvent, parse: Text -> Arguments): (Partial, Reply) {
    match StepContent(p.content, e, parse)
    case None => (p, Thrown(WrongBlock(e)))
    case Some(content) =>
      var q := p.(content := content);
      var r := match e
        case Done(reason, usage) => q.(stopReason := reason, usage := usage)
        case Failed(reason, message, usage) => q.(stopReason := reason, errorMessage := message, usage := usage)
        case _ => q;
      (r, Produced(EventFor(content, e)))
  }

  class AssistantMessage {
    var content: map<nat, Block>
    var stopReason: StopReason
    var errorMessage: Option<Text>
    var usage: nat

    constructor ()
      ensures View() == Partial(map[], Stop, None, 0)
    {
      content, stopReason, errorMessage, usage := map[], Stop, None, 0;
    }

    function View(): Partial
      reads this
    {
      Partial(content, stopReason, errorMessage, usage)
    }

    method ProcessToolCall(e: ProxyEvent, parse: Text -> Arguments) returns (reply: Reply)
      requires e.ToolCallStart? || e.ToolCallDelta? || e.ToolCallEnd?
      modifies this`content
      ensures View() == Reduce(old(View()), e, parse).0
      ensures reply == Reduce(old(View()), e, parse).1
    {
      match e {
        case ToolCallStart(i, id, toolName) =>
          content := content[i := ToolCallBlock(id, toolName, EMPTY_ARGUMENTS, Some([]))];
          return Produced(Some(BlockStart(i)));
        case ToolCallDelta(i, delta) =>
          if i in content && content[i].ToolCallBlock? {
            var json := Json(content[i]) + delta;
            content := content[i := content[i].(partialJson := Some(json), arguments := parse(json))];
            return Produced(Some(BlockDelta(i, delta)));
          }
          return Thrown(WrongBlock(e));
        case ToolCallEnd(i) =>
          if i in content && content[i].ToolCallBlock? {
            content := content[i := content[i].(partialJson := None)];
            return Produced(Some(ToolCallDone(i, content[i])));
          }
          return Produced(None);
      }
    }

    method ProcessText(e: ProxyEvent, ghost parse: Text -> Arguments) returns (reply: Reply)
      requires e.TextStart? || e.TextDelta? || e.TextEnd?
      modifies this`content
      ensures View() == Reduce(old(View()), e, parse).0
      ensures reply == Reduce(old(View()), e, parse).1
    {
      match e {
        case TextStart(i) =>
          content := content[i := TextBlock([], None)];
          return Produced(Some(BlockStart(i)));
        case TextDelta(i, delta) =>
          if i in content && content[i].TextBlock? {
            content := content[i := content[i].(text := content[i].text + delta)];
            return Produced(Some(BlockDelta(i, delta)));
          }
          return Thrown(WrongBlock(e));
        case TextEnd(i, signature) =>
          if i in content && content[i].TextBlock? {
            content := content[i := content[i].(textSignature := signature)];
            return Produced(Some(BlockEnd(i, content[i].text)));
          }
          return Thrown(WrongBlock(e));
      }
    }

    method ProcessThinking(e: ProxyEvent, ghost parse: Text -> Arguments) returns (reply: Reply)
      requires e.ThinkingStart? || e.ThinkingDelta? || e.ThinkingEnd?
      modifies this`content
      ensures View() == Reduce(old(View()), e, parse).0
      ensures reply == Reduce(old(View()), e, parse).1
    {
      match e {
        case ThinkingStart(i) =>
          content := content[i := ThinkingBlock([], None)];
          return Produced(Some(BlockStart(i)));
        case ThinkingDelta(i, delta) =>
          if i in content && content[i].ThinkingBlock? {
            content := content[i := content[i].(thinking := content[i].thinking + delta)];
            return Produced(Some(BlockDelta(i, delta)));
          }
          return Thrown(WrongBlock(e));
        case ThinkingEnd(i, signature) =>
          if i in content && content[i].ThinkingBlock? {
            content := content[i := content[i].(thinkingSignature := signature)];
            return Produced(Some(BlockEnd(i, content[i].thinking)));
          }
          return Thrown(WrongBlock(e));
      }
    }

    method ProcessProxyEvent(e: ProxyEvent, parse: Text -> Arguments) returns (reply: Reply)
      modifies this
      ensures View() == Reduce(old(View()), e, parse).0
      ensures reply == Reduce(old(View()), e, parse).1
    {
      match e {
        case Start =>
          return Produced(Some(StartEvent));
        case TextStart(_) => reply := ProcessText(e, parse);
        case TextDelta(_, _) => reply := ProcessText(e, parse);
        case TextEnd(_, _) => reply := ProcessText(e, parse);
        case ThinkingStart(_) => reply := ProcessThinking(e, parse);
        case ThinkingDelta(_, _) => reply := ProcessThinking(e, parse);
        case ThinkingEnd(_, _) => reply := ProcessThinking(e, parse);
        case ToolCallStart(_, _, _) => reply := ProcessToolCall(e, parse);
        case ToolCallDelta(_, _) => reply := ProcessToolCall(e, parse);
        case ToolCallEnd(_) => reply := ProcessToolCall(e, parse);
        case Done(reason, usage) =>
          stopReason, this.usage := reason, usage;
          return Produced(Some(DoneEvent(reason)));
        case Failed(reason, message, usage) =>
          stopReason, errorMessage, this.usage := reason, message, usage;
          return Produced(Some(ErrorEvent(reason)));
      }
    }
  }

  // ----- Runs of events -----

  /** The content after all events, or None when one of them throws. */
  function Run(events: seq<ProxyEvent>, parse: Text -> Arguments): Option<map<nat, Block>> {
    if events == [] then Some(map[])
    else match Run(events[..|events| - 1], parse)
      case None => None
      case Some(content) => StepContent(content, events[|events| - 1], parse)
  }

  /** The events about one index. */
  function Only(events: seq<ProxyEvent>, i: nat): seq<ProxyEvent> {
    if events == [] then []
    else
      var rest, e := Only(events[..|events| - 1], i), events[|events| - 1];
      if IndexIn(e) == Some(i) then rest + [e] else rest
  }

  lemma RunSnoc(events: seq<ProxyEvent>, e: ProxyEvent, parse: Text -> Arguments)
    ensures Run(events + [e], parse) ==
      match Run(events, parse)
      case None => None
      case Some(content) => StepContent(content, e, parse)
  {
    assert (events + [e])[..|events|] == events;
  }

  lemma OnlySnoc(before: seq<ProxyEvent>, e: ProxyEvent, i: nat, parse: Text -> Arguments)
    ensures Only(before + [e], i) == if IndexIn(e) == Some(i) then Only(before, i) + [e] else Only(before, i)
    ensures Run(Only(before + [e], i), parse) ==
      if IndexIn(e) != Some(i) then Run(Only(before, i), parse)
      else match Run(Only(before, i), parse)
           case None => None
           case Some(content) => StepContent(content, e, parse)
  {
    assert (before + [e])[..|before|] == before;
    RunSnoc(Only(before, i), e, parse);
  }

  /** The run and the runs of each index agree. */
  ghost predicate Independent(events: seq<ProxyEvent>, parse: Text -> Arguments) {
    && (Run(events, parse).Some? <==> forall i: nat :: Run(Only(events, i), parse).Some?)
    && (Run(events, parse).Some? ==>
          forall i: nat :: At(Run(events, parse).value, i) == At(Run(Only(events, i), parse).value, i))
  }

  /** How one more event changes the run of an index. */
  lemma OnlyStep(before: seq<ProxyEvent>, e: ProxyEvent, i: nat, parse: Text -> Arguments)
    ensures Run(Only(before + [e], i), parse).Some? ==> Run(Only(before, i), parse).Some?
    ensures IndexIn(e) != Some(i) ==> Run(Only(before + [e], i), parse) == Run(Only(before, i), parse)
    ensures IndexIn(e) == Some(i) && Run(Only(before, i), parse).Some? ==>
      Run(Only(before + [e], i), parse) == StepContent(Run(Only(before, i), parse).value, e, parse)
  {
    OnlySnoc(before, e, i, parse);
  }

  /** A step looks at and changes the block of its own index only. */
  lemma StepIsLocal(c: map<nat, Block>, d: map<nat, Block>, e: ProxyEvent, i: nat, parse: Text -> Arguments)
    requires IndexIn(e) == Some(i) && At(c, i) == At(d, i)
    ensures StepContent(c, e, parse).Some? <==> StepContent(d, e, parse).Some?
    ensures StepContent(c, e, parse).Some? ==>
      && At(StepContent(c, e, parse).value, i) == At(StepContent(d, e, parse).value, i)
      && forall j: nat :: j != i ==> At(StepContent(c, e, parse).value, j) == At(c, j)
  {
  }

  lemma NoIndexNoStep(c: map<nat, Block>, e: ProxyEvent, parse: Text -> Arguments)
    requires IndexIn(e).None?
    ensures StepContent(c, e, parse) == Some(c)
  {
  }

  lemma IndependentStep(before: seq<ProxyEvent>, e: ProxyEvent, parse: Text -> Arguments)
    requires Independent(before, parse)
    ensures Independent(before + [e], parse)
  {
    hide Run, Only, StepContent, At, Put, IndexIn;
    var events := before + [e];
    RunSnoc(before, e, parse);
    forall i: nat
      ensures Run(Only(events, i), parse).Some? ==> Run(Only(before, i), parse).Some?
      ensures IndexIn(e) != Some(i) ==> Run(Only(events, i), parse) == Run(Only(before, i), parse)
    {
      OnlyStep(before, e, i, parse);
    }
    if Run(before, parse).Some? {
      var content := Run(before, parse).value;
      match IndexIn(e)
      case None => NoIndexNoStep(content, e, parse);
      case Some(i) =>
        OnlyStep(before, e, i, parse);
        StepIsLocal(content, Run(Only(before, i), parse).value, e, i, parse);
    }
  }

  /** Each block depends on the events of its own index alone, and a run throws
      iff the events of some index throw on their own. */
  lemma {:induction false} BlocksAreIndependent(events: seq<ProxyEvent>, parse: Text -> Arguments)
    ensures Independent(events, parse)
  {
    if events != [] {
      var before, e := events[..|events| - 1], events[|events| - 1];
      BlocksAreIndependent(before, parse);
      IndependentStep(before, e, parse);
      assert before + [e] == events;
    } else {
      assert forall i: nat :: Only(events, i) == [];
    }
  }

  /** Two events in either order. */
  function Step2(content: map<nat, Block>, e: ProxyEvent, f: ProxyEvent, parse: Text -> Arguments)
    : Option<map<nat, Block>>
  {
    match StepContent(content, e, parse)
    case None => None
    case Some(c) => StepContent(c, f, parse)
  }

  lemma PutKeeps(content: map<nat, Block>, i: nat, x: Option<Option<Block>>, j: nat)
    requires i != j
    ensures Put(content, i, x).Some? ==> At(Put(content, i, x).value, j) == At(content, j)
  {
  }

  lemma PutsCommute(content: map<nat, Block>, i: nat, x: Option<Option<Block>>, j: nat, y: Option<Option<Block>>)
    requires i != j
    ensures x.Some? && y.Some? ==>
      Put(Put(content, i, x).value, j, y) == Put(Put(content, j, y).value, i, x)
  {
    if x.Some? && x.value.Some? && y.Some? && y.value.Some? {
      assert content[i := x.value.value][j := y.value.value] == content[j := y.value.value][i := x.value.value];
    }
  }

  /** Events for different indices commute, in content and in throwing. */
  lemma DifferentIndicesCommute(content: map<nat, Block>, e: ProxyEvent, f: ProxyEvent, parse: Text -> Arguments)
    requires IndexIn(e) != IndexIn(f)
    ensures Step2(content, e, f, parse) == Step2(content, f, e, parse)
  {
    if IndexIn(e).Some? && IndexIn(f).Some? {
      PutKeeps(content, e.index, StepBlock(At(content, e.index), e, parse), f.index);
      PutKeeps(content, f.index, StepBlock(At(content, f.index), f, parse), e.index);
      PutsCommute(content, e.index, StepBlock(At(content, e.index), e, parse),
                  f.index, StepBlock(At(content, f.index), f, parse));
    }
  }

  // ----- What a block holds -----

  function DeltaOf(e: ProxyEvent): Text {
    if e.TextDelta? || e.ThinkingDelta? || e.ToolCallDelta? then e.delta else []
  }

  predicate StartsBlock(e: ProxyEvent) {
    e.TextStart? || e.ThinkingStart? || e.ToolCallStart?
  }

  /** What the events for one index come to, whatever block they build. */
  datatype Tally = Tally(
    ended: bool,          // a tool call end came after the last start
    late: bool,           // and a tool call delta came after the last such end
    closed: Text,         // the deltas from the last start up to the last end
    recent: Text,         // the deltas since the later of the two
    parsed: Option<Text>) // what was parsed last since the last start

  /** All deltas since the last start, joined. */
  function Since(t: Tally): Text {
    t.closed + t.recent
  }

  /** What the running text of a tool call comes to: an end drops it, and a
      later delta is appended to the word "undefined". */
  function Heard(t: Tally): Text {
    (if t.ended then UNDEFINED else []) + t.recent
  }

  function TallyStep(t: Tally, e: ProxyEvent): Tally {
    if StartsBlock(e) then Tally(false, false, [], [], None)
    else if e.ToolCallEnd? then t.(ended := true, late := false, closed := Since(t), recent := [])
    else
      var u := t.(recent := t.recent + DeltaOf(e));
      if e.ToolCallDelta? then u.(late := t.ended, parsed := Some(Heard(u))) else u
  }

  function TallyOf(events: seq<ProxyEvent>, i: nat): Tally {
    if events == [] then Tally(false, false, [], [], None)
    else
      var before, e := TallyOf(events[..|events| - 1], i), events[|events| - 1];
      if IndexIn(e) == Some(i) then TallyStep(before, e) else before
  }

  /** The running text of a block. */
  function Accumulated(b: Block): Option<Text> {
    match b
    case TextBlock(text, _) => Some(text)
    case ThinkingBlock(thinking, _) => Some(thinking)
    case ToolCallBlock(_, _, _, json) => json
  }

  /** The block is what the tally says. */
  ghost predicate Holds(b: Block, t: Tally, parse: Text -> Arguments) {
    if b.ToolCallBlock? then
      && b.partialJson == (if t.ended && !t.late then None else Some(Heard(t)))
      && b.arguments == (match t.parsed case None => EMPTY_ARGUMENTS case Some(text) => parse(text))
      && (t.ended && !t.late ==> t.recent == [])
    else !t.late && Accumulated(b) == Some(Since(t))
  }

  ghost predicate Consistent(t: Tally) {
    (t.late ==> t.ended) && (!t.ended ==> t.closed == [])
  }

  lemma Appending(t: Tally, delta: Text)
    ensures (t.closed + t.recent) + delta == t.closed + (t.recent + delta)
    ensures (UNDEFINED + t.recent) + delta == UNDEFINED + (t.recent + delta)
    ensures ([] + t.recent) + delta == [] + (t.recent + delta)
    ensures UNDEFINED + delta == UNDEFINED + ([] + delta)
    ensures Since(t) + [] == Since(t) && t.recent + [] == t.recent
  {
  }

  lemma StepHolds(b: Option<Block>, e: ProxyEvent, t: Tally, parse: Text -> Arguments)
    requires IndexIn(e).Some? && StepBlock(b, e, parse).Some? && Consistent(t)
    requires b.Some? ==> Holds(b.value, t, parse)
    ensures Consistent(TallyStep(t, e))
    ensures var written := StepBlock(b, e, parse).value;
      var after := if written.Some? then written else b;
      after.Some? ==> Holds(after.value, TallyStep(t, e), parse)
  {
    Appending(t, DeltaOf(e));
  }

  /** In every run that does not throw, a text or thinking block holds the deltas
      since its start, and a tool call's text and arguments are what the tally
      says, however its deltas and ends are mixed. */
  lemma {:induction false} BlockIsItsDeltas(events: seq<ProxyEvent>, i: nat, parse: Text -> Arguments)
    requires Run(events, parse).Some?
    ensures Consistent(TallyOf(events, i))
    ensures var content := Run(events, parse).value;
      i in content ==> Holds(content[i], TallyOf(events, i), parse)
  {
    if events == [] {
    } else {
      var before, e := events[..|events| - 1], events[|events| - 1];
      BlockIsItsDeltas(before, i, parse);
      if IndexIn(e) == Some(i) {
        StepHolds(At(Run(before, parse).value, i), e, TallyOf(before, i), parse);
      }
    }
  }

  /** A start or a tool call end for index i. */
  predicate Resets(e: ProxyEvent, i: nat) {
    IndexIn(e) == Some(i) && (StartsBlock(e) || e.ToolCallEnd?)
  }

  ghost predicate EndedAt(events: seq<ProxyEvent>, i: nat, j: int) {
    0 <= j < |events| && events[j] == ToolCallEnd(i) && forall m :: j < m < |events| ==> !Resets(events[m], i)
  }

  /** A tool call delta for i follows its last end, and no start lies between
      that end and the end of the run. */
  ghost predicate LateDelta(events: seq<ProxyEvent>, i: nat) {
    exists j, k :: EndedAt(events, i, j) && j < k < |events| && events[k].ToolCallDelta? && events[k].index == i
  }

  lemma EndedSnoc(before: seq<ProxyEvent>, e: ProxyEvent, i: nat, j: int)
    ensures EndedAt(before + [e], i, j)
       <==> (EndedAt(before, i, j) && !Resets(e, i)) || (j == |before| && e == ToolCallEnd(i))
  {
    var events := before + [e];
    assert forall m :: 0 <= m < |before| ==> events[m] == before[m];
    assert events[|before|] == e;
    if EndedAt(events, i, j) && j < |before| {
      assert !Resets(events[|before|], i);
    }
  }

  lemma LateSnoc(before: seq<ProxyEvent>, e: ProxyEvent, i: nat)
    ensures LateDelta(before + [e], i)
       <==> !Resets(e, i) && (LateDelta(before, i)
                              || (e.ToolCallDelta? && e.index == i && exists j :: EndedAt(before, i, j)))
  {
    var events := before + [e];
    assert forall m :: 0 <= m < |before| ==> events[m] == before[m];
    assert events[|before|] == e;
    if LateDelta(events, i) {
      var j, k :| EndedAt(events, i, j) && j < k < |events| && events[k].ToolCallDelta? && events[k].index == i;
      EndedSnoc(before, e, i, j);
      assert EndedAt(before, i, j);
      assert k < |before| ==> before[k] == events[k];
    }
    if !Resets(e, i) && LateDelta(before, i) {
      var j, k :| EndedAt(before, i, j) && j < k < |before| && before[k].ToolCallDelta? && before[k].index == i;
      EndedSnoc(before, e, i, j);
      assert events[k] == before[k];
    }
    if e.ToolCallDelta? && e.index == i && exists j :: EndedAt(before, i, j) {
      var j :| EndedAt(before, i, j);
      EndedSnoc(before, e, i, j);
      assert events[|before|].ToolCallDelta?;
    }
  }

  /** The two flags of the tally, read off the events. */
  lemma {:induction false} FlagsMean(events: seq<ProxyEvent>, i: nat)
    ensures TallyOf(events, i).ended <==> exists j :: EndedAt(events, i, j)
    ensures TallyOf(events, i).late <==> LateDelta(events, i)
  {
    if events == [] {
    } else {
      var before, e := events[..|events| - 1], events[|events| - 1];
      assert before + [e] == events;
      FlagsMean(before, i);
      LateSnoc(before, e, i);
      EndedFlag(before, e, i);
    }
  }

  lemma EndedFlag(before: seq<ProxyEvent>, e: ProxyEvent, i: nat)
    ensures (exists j :: EndedAt(before + [e], i, j))
       <==> e == ToolCallEnd(i) || (!Resets(e, i) && exists j :: EndedAt(before, i, j))
  {
    if j :| EndedAt(before + [e], i, j) {
      EndedSnoc(before, e, i, j);
    }
    if j :| EndedAt(before, i, j) && !Resets(e, i) {
      EndedSnoc(before, e, i, j);
    }
    if e == ToolCallEnd(i) {
      EndedSnoc(before, e, i, |before|);
    }
  }

  /** The running text is as promised (all deltas since the start, or nothing
      once the tool call has ended) iff no tool call delta follows the last end
      without a new start. */
  lemma RunningTextIff(events: seq<ProxyEvent>, i: nat, parse: Text -> Arguments)
    requires Run(events, parse).Some? && i in Run(events, parse).value
    ensures var b, t := Run(events, parse).value[i], TallyOf(events, i);
      Accumulated(b) == (if b.ToolCallBlock? && t.ended then None else Some(Since(t))) <==> !LateDelta(events, i)
  {
    BlockIsItsDeltas(events, i, parse);
    FlagsMean(events, i);
    var t := TallyOf(events, i);
    assert [] + t.recent == t.recent;
  }

  /** Right after a tool call delta the arguments are parsed from all deltas since
      the start iff no end lies between, or the deltas up to the last end
      happen to spell the word "undefined". */
  lemma ArgumentsIff(before: seq<ProxyEvent>, i: nat, delta: Text, parse: Text -> Arguments)
    requires var events := before + [ToolCallDelta(i, delta)]; Run(events, parse).Some?
    ensures var events := before + [ToolCallDelta(i, delta)];
      var t := TallyOf(events, i);
      && i in Run(events, parse).value && Run(events, parse).value[i].ToolCallBlock?
      && Run(events, parse).value[i].arguments == parse(Heard(t))
      && (Heard(t) == Since(t) <==> !t.ended || t.closed == UNDEFINED)
  {
    var e := ToolCallDelta(i, delta);
    var events := before + [e];
    RunSnoc(before, e, parse);
    BlockIsItsDeltas(events, i, parse);
    var t := TallyOf(events, i);
    assert events[..|before|] == before;
    assert t == TallyStep(TallyOf(before, i), e);
    SamePrefixIff(if t.ended then UNDEFINED else [], t.closed, t.recent);
  }

  lemma SamePrefixIff(a: Text, b: Text, tail: Text)
    ensures a + tail == b + tail <==> a == b
  {
    if a + tail == b + tail {
      assert a == (a + tail)[..|a|] && b == (b + tail)[..|b|];
    }
  }

  /** A delta after the end of a tool call is appended to the word "undefined". */
  lemma LateDeltaCorrupts(parse: Text -> Arguments)
    ensures var events := [ToolCallStart(0, [], []), ToolCallEnd(0), ToolCallDelta(0, [49])];
      && Run(events, parse).Some? && 0 in Run(events, parse).value
      && Accumulated(Run(events, parse).value[0]) == Some(UNDEFINED + [49])
  {
    var s0 := [ToolCallStart(0, [], [])];
    var s1 := s0 + [ToolCallEnd(0)];
    RunSnoc([], ToolCallStart(0, [], []), parse);
    assert [] + [ToolCallStart(0, [], [])] == s0;
    RunSnoc(s0, ToolCallEnd(0), parse);
    RunSnoc(s1, ToolCallDelta(0, [49]), parse);
    assert s1 + [ToolCallDelta(0, [49])] == [ToolCallStart(0, [], []), ToolCallEnd(0), ToolCallDelta(0, [49])];
  }
}
