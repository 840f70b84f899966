/** Reading proxy events from a chunked response. */
module ProxyStream {
  import opened Wrappers
  import opened Texts
  import opened ProxyEvents

  const DATA: Text := Ascii("data: ")

  /** The event a line carries: nothing, a text JSON.parse rejects, or one. */
  datatype LineEvent = NoEvent | BadJson(message: Text) | Carries(event: ProxyEvent)

  /** JSON.parse: an event, or the message of the error it throws. */
  type JsonParser = Text -> LineEvent

  function ReadLine(line: Text, json: JsonParser): LineEvent {
    if !(DATA <= line) then NoEvent
    else
      var data := Trim(line[|DATA|..]);
      if data == [] then NoEvent
      else json(data)
  }

  /** The reader so far, with the message of the error that stopped it. */
  datatype Reader = Reader(message: Partial, pushed: seq<Emitted>, failure: Option<Text>)

  const FRESH := Reader(Partial(map[], Stop, None, 0), [], None)

  function ReadOne(r: Reader, line: Text, json: JsonParser, parse: Text -> Arguments): Reader {
    if r.failure.Some? then r
    else match ReadLine(line, json)
      case NoEvent => r
      case BadJson(message) => r.(failure := Some(message))
      case Carries(e) =>
        var (message, reply) := Reduce(r.message, e, parse);
        match reply
        case Thrown(error) => Reader(message, r.pushed, Some(error))
        case Produced(None) => Reader(message, r.pushed, None)
        case Produced(Some(event)) => Reader(message, r.pushed + [event], None)
  }

  function ReadLines(r: Reader, lines: seq<Text>, json: JsonParser, parse: Text -> Arguments): Reader {
    if lines == [] then r
    else ReadOne(ReadLines(r, lines[..|lines| - 1], json, parse), lines[|lines| - 1], json, parse)
  }

  // ----- Splitting chunks into lines -----

  /** The lines that a line feed ends. */
  function EndedLines(d: Doc): seq<Text> {
    match d
    case Last(_) => []
    case More(line, rest) => [line] + EndedLines(rest)
  }

  function LastLine(d: Doc): Text {
    match d
    case Last(line) => line
    case More(_, rest) => LastLine(rest)
  }

  lemma {:induction false} SplitAndPop(d: Doc)
    ensures LineSeq(d)[..|LineSeq(d)| - 1] == EndedLines(d)
    ensures LineSeq(d)[|LineSeq(d)| - 1] == LastLine(d)
  {
    if d.Last? {
    } else {
      SplitAndPop(d.rest);
    }
  }

  function Append(d: Doc, chunk: Text): Doc {
    match d
    case Last(line) => ToDoc(line + chunk)
    case More(line, rest) => More(line, Append(rest, chunk))
  }

  lemma {:induction false} AppendText(d: Doc, chunk: Text)
    requires Clean(d)
    ensures Clean(Append(d, chunk)) && Flatten(Append(d, chunk)) == Flatten(d) + chunk
  {
    if d.Last? {
    } else {
      AppendText(d.rest, chunk);
      Regroup(d.line, Flatten(d.rest), chunk);
    }
  }

  lemma {:induction false} AppendLines(d: Doc, chunk: Text, tail: Doc)
    requires tail == ToDoc(LastLine(d) + chunk)
    ensures EndedLines(Append(d, chunk)) == EndedLines(d) + EndedLines(tail)
    ensures LastLine(Append(d, chunk)) == LastLine(tail)
  {
    hide ToDoc;
    match d
    case Last(line) =>
      assert Append(d, chunk) == tail;
    case More(line, rest) =>
      AppendLines(rest, chunk, tail);
      assert [line] + (EndedLines(rest) + EndedLines(tail)) == ([line] + EndedLines(rest)) + EndedLines(tail);
  }

  /** A further chunk adds the lines that it completes. */
  lemma NextChunk(text: Text, chunk: Text)
    ensures var buffer := LastLine(ToDoc(text)) + chunk;
      && EndedLines(ToDoc(text + chunk)) == EndedLines(ToDoc(text)) + EndedLines(ToDoc(buffer))
      && LastLine(ToDoc(text + chunk)) == LastLine(ToDoc(buffer))
  {
    var d := ToDoc(text);
    AppendText(d, chunk);
    AppendLines(d, chunk, ToDoc(LastLine(d) + chunk));
    FlattenInjective(Append(d, chunk), ToDoc(text + chunk));
  }

  function Join(chunks: seq<Text>): Text {
    if chunks == [] then [] else Join(chunks[..|chunks| - 1]) + chunks[|chunks| - 1]
  }

  /** All line-feed-terminated lines of the joined chunks, read in order. */
  function ReadAll(chunks: seq<Text>, json: JsonParser, parse: Text -> Arguments): Reader {
    ReadLines(FRESH, EndedLines(ToDoc(Join(chunks))), json, parse)
  }

  lemma {:induction false} FailedStays(r: Reader, lines: seq<Text>, json: JsonParser, parse: Text -> Arguments)
    requires r.failure.Some?
    ensures ReadLines(r, lines, json, parse) == r
  {
    if lines == [] {
    } else {
      FailedStays(r, lines[..|lines| - 1], json, parse);
    }
  }

  lemma {:induction false} ReadLinesJoin(r: Reader, a: seq<Text>, b: seq<Text>, json: JsonParser,
                                         parse: Text -> Arguments)
    ensures ReadLines(r, a + b, json, parse) == ReadLines(ReadLines(r, a, json, parse), b, json, parse)
    decreases |b|
  {
    if b == [] {
      assert a + b == a;
    } else {
      var init, last := b[..|b| - 1], b[|b| - 1];
      assert (a + b)[..|a + b| - 1] == a + init;
      ReadLinesJoin(r, a, init, json, parse);
    }
  }

  lemma ReadLinesSnoc(r: Reader, lines: seq<Text>, i: nat, json: JsonParser, parse: Text -> Arguments)
    requires i < |lines|
    ensures ReadLines(r, lines[..i + 1], json, parse)
        == ReadOne(ReadLines(r, lines[..i], json, parse), lines[i], json, parse)
  {
    assert lines[..i + 1][..i] == lines[..i];
  }

  lemma ReadNoLines(r: Reader, json: JsonParser, parse: Text -> Arguments)
    ensures ReadLines(r, [], json, parse) == r
  {
  }

  // ----- The reader -----

  class ProxyReader {
    const partial: AssistantMessage
    var buffer: Text
    var pushed: seq<Emitted>
    var failure: Option<Text>

    constructor ()
      ensures fresh(partial) && View() == FRESH && buffer == []
    {
      partial := new AssistantMessage();
      buffer, pushed, failure := [], [], None;
    }

    function View(): Reader
      reads this, partial
    {
      Reader(partial.View(), pushed, failure)
    }

    /** One line of the response; an error ends the reading. */
    method ProcessLine(line: Text, json: JsonParser, parse: Text -> Arguments)
      requires failure.None?
      modifies this`pushed, this`failure, partial
      ensures View() == ReadOne(old(View()), line, json, parse)
    {
      if DATA <= line {
        var data := Trim(line[|DATA|..]);
        if data != [] {
          match json(data) {
            case NoEvent =>
            case BadJson(message) => failure := Some(message);
            case Carries(e) =>
              var reply := partial.ProcessProxyEvent(e, parse);
              match reply {
                case Thrown(error) => failure := Some(error);
                case Produced(None) =>
                case Produced(Some(event)) => pushed := pushed + [event];
              }
          }
        }
      }
    }

    /** The lines completed by one more chunk. */
    method ProcessLines(lines: seq<Text>, json: JsonParser, parse: Text -> Arguments)
      requires failure.None?
      modifies this`pushed, this`failure, partial
      ensures View() == ReadLines(old(View()), lines, json, parse)
    {
      hide ReadOne, ReadLines;
      ReadNoLines(View(), json, parse);
      assert lines[..0] == [];
      for i := 0 to |lines|
        invariant View() == ReadLines(old(View()), lines[..i], json, parse)
        invariant failure.None?
      {
        ReadLinesSnoc(old(View()), lines, i, json, parse);
        ProcessLine(lines[i], json, parse);
        if failure.Some? {
          ReadLinesJoin(old(View()), lines[..i + 1], lines[i + 1..], json, parse);
          FailedStays(View(), lines[i + 1..], json, parse);
          assert lines[..i + 1] + lines[i + 1..] == lines;
          return;
        }
      }
      assert lines[..|lines|] == lines;
    }

    /** The error event that ends a failed response. */
    method Fail()
      modifies this, partial
      ensures View() == old(View()).(
        message := old(partial.View()).(stopReason := Error, errorMessage := old(failure)),
        pushed := old(pushed) + [ErrorEvent(Error)])
    {
      partial.stopReason := Error;
      partial.errorMessage := failure;
      pushed := pushed + [ErrorEvent(Error)];
    }

    method Read(chunk: Text, json: JsonParser, parse: Text -> Arguments)
      requires failure.None?
      modifies this, partial
      ensures View() == ReadLines(old(View()), EndedLines(ToDoc(old(buffer) + chunk)), json, parse)
      ensures buffer == LastLine(ToDoc(old(buffer) + chunk))
    {
      buffer := buffer + chunk;
      var lines := LineSeq(ToDoc(buffer));
      SplitAndPop(ToDoc(buffer));
      buffer := lines[|lines| - 1];
      lines := lines[..|lines| - 1];
      ProcessLines(lines, json, parse);
    }
  }

  lemma NextRead(chunks: seq<Text>, i: nat, json: JsonParser, parse: Text -> Arguments)
    requires i < |chunks|
    ensures var buffer := LastLine(ToDoc(Join(chunks[..i])));
      && ReadAll(chunks[..i + 1], json, parse)
         == ReadLines(ReadAll(chunks[..i], json, parse), EndedLines(ToDoc(buffer + chunks[i])), json, parse)
      && LastLine(ToDoc(Join(chunks[..i + 1]))) == LastLine(ToDoc(buffer + chunks[i]))
  {
    var text := Join(chunks[..i]);
    assert chunks[..i + 1][..i] == chunks[..i];
    NextChunk(text, chunks[i]);
    ReadLinesJoin(FRESH, EndedLines(ToDoc(text)), EndedLines(ToDoc(LastLine(ToDoc(text)) + chunks[i])), json, parse);
  }

  /** Once a line has thrown, later chunks change nothing. */
  lemma {:induction false} FailedForGood(chunks: seq<Text>, i: nat, json: JsonParser, parse: Text -> Arguments)
    requires i <= |chunks| && ReadAll(chunks[..i], json, parse).failure.Some?
    ensures ReadAll(chunks, json, parse) == ReadAll(chunks[..i], json, parse)
    decreases |chunks| - i
  {
    if i == |chunks| {
      assert chunks[..i] == chunks;
    } else {
      NextRead(chunks, i, json, parse);
      FailedStays(ReadAll(chunks[..i], json, parse),
                  EndedLines(ToDoc(LastLine(ToDoc(Join(chunks[..i]))) + chunks[i])), json, parse);
      FailedForGood(chunks, i + 1, json, parse);
    }
  }

  /** What an error adds at the end. */
  function Finish(r: Reader): Reader {
    if r.failure.None? then r
    else r.(message := r.message.(stopReason := Error, errorMessage := r.failure),
            pushed := r.pushed + [ErrorEvent(Error)])
  }

  /** The read loop over all chunks; after an error the message says so. */
  method StreamProxy(chunks: seq<Text>, json: JsonParser, parse: Text -> Arguments) returns (reader: ProxyReader)
    ensures fresh(reader) && fresh(reader.partial)
    ensures reader.View() == Finish(ReadAll(chunks, json, parse))
  {
    reader := new ProxyReader();
    for i := 0 to |chunks|
      invariant fresh(reader) && fresh(reader.partial)
      invariant reader.failure.None? && reader.View() == ReadAll(chunks[..i], json, parse)
      invariant reader.buffer == LastLine(ToDoc(Join(chunks[..i])))
    {
      NextRead(chunks, i, json, parse);
      reader.Read(chunks[i], json, parse);
      if reader.failure.Some? {
        assert reader.View() == ReadAll(chunks[..i + 1], json, parse);
        FailedForGood(chunks, i + 1, json, parse);
        reader.Fail();
        return;
      }
    }
    assert chunks[..|chunks|] == chunks;
  }

  // ----- The same loop on values -----

  /** The reader and its buffer after each chunk. */
  function FeedAll(chunks: seq<Text>, json: JsonParser, parse: Text -> Arguments): (Reader, Text) {
    if chunks == [] then (FRESH, [])
    else
      var (r, buffer) := FeedAll(chunks[..|chunks| - 1], json, parse);
      var d := ToDoc(buffer + chunks[|chunks| - 1]);
      (ReadLines(r, EndedLines(d), json, parse), LastLine(d))
  }

  lemma {:induction false} FeedReadsLines(chunks: seq<Text>, json: JsonParser, parse: Text -> Arguments)
    ensures FeedAll(chunks, json, parse) == (ReadAll(chunks, json, parse), LastLine(ToDoc(Join(chunks))))
    decreases |chunks|
  {
    if chunks == [] {
    } else {
      var n := |chunks| - 1;
      FeedReadsLines(chunks[..n], json, parse);
      NextRead(chunks, n, json, parse);
      assert chunks[..n + 1] == chunks;
    }
  }

  /** The outcome depends on the text received, not on how it was cut; what a
      line feed does not end is never read. */
  lemma ChunkingDoesNotMatter(chunks: seq<Text>, chunks': seq<Text>, json: JsonParser, parse: Text -> Arguments)
    requires Join(chunks) == Join(chunks')
    ensures FeedAll(chunks, json, parse) == FeedAll(chunks', json, parse)
    ensures FeedAll(chunks, json, parse).0 == ReadLines(FRESH, EndedLines(ToDoc(Join(chunks))), json, parse)
  {
    FeedReadsLines(chunks, json, parse);
    FeedReadsLines(chunks', json, parse);
  }
}
