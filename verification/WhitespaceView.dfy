/** The whitespace-normalised view of a text and the way back from positions in
    the view to positions in the text. */
module WhitespaceView {
  import opened Texts

  predicate IsBlank(u: CodeUnit) { u == SPACE || u == TAB }

  /** `text.replace(/\r\n/g, '\n')` */
  function CollapseCrLf(t: Text): Text {
    if t == [] then []
    else if |t| >= 2 && t[0] == CR && t[1] == LF then [LF] + CollapseCrLf(t[2..])
    else [t[0]] + CollapseCrLf(t[1..])
  }

  /** Length of the longest run of blanks at the start of the text. */
  function BlankRun(t: Text): (k: nat)
    ensures k <= |t|
    ensures forall i :: 0 <= i < k ==> IsBlank(t[i])
    ensures k < |t| ==> !IsBlank(t[k])
  {
    if t == [] || !IsBlank(t[0]) then 0 else 1 + BlankRun(t[1..])
  }

  /** `text.replace(/[ \t]+\n/g, '\n')`: leftmost, greedy, non-overlapping. */
  function DropTrailingBlanks(t: Text): Text
    decreases |t|
  {
    if t == [] then []
    else
      var k := BlankRun(t);
      if 0 < k < |t| && t[k] == LF then [LF] + DropTrailingBlanks(t[k + 1..])
      else [t[0]] + DropTrailingBlanks(t[1..])
  }

  function NormalizeWhitespace(t: Text): Text {
    DropTrailingBlanks(CollapseCrLf(t))
  }

  // ----- The line-by-line reading of the two replacements -----

  function StripCr(line: Text): Text {
    if line != [] && line[|line| - 1] == CR then line[..|line| - 1] else line
  }

  function TrimBlanks(line: Text): (r: Text)
    ensures r <= line
    ensures r != [] ==> !IsBlank(r[|r| - 1])
    ensures forall i :: |r| <= i < |line| ==> IsBlank(line[i])
  {
    if line != [] && IsBlank(line[|line| - 1]) then TrimBlanks(line[..|line| - 1]) else line
  }

  function NormLine(line: Text): (r: Text)
    ensures r <= line
  {
    TrimBlanks(StripCr(line))
  }

  /** Every line that a line feed ends is trimmed; the last one is kept. */
  function NormDoc(d: Doc): (e: Doc)
    ensures Clean(d) ==> Clean(e)
  {
    match d
    case Last(line) => d
    case More(line, rest) => More(NormLine(line), NormDoc(rest))
  }

  lemma TrimUnique(line: Text, r: Text)
    requires r <= line
    requires r != [] ==> !IsBlank(r[|r| - 1])
    requires forall i :: |r| <= i < |line| ==> IsBlank(line[i])
    ensures TrimBlanks(line) == r
  {
  }

  lemma CollapseStep(t: Text)
    requires t != [] && !(|t| >= 2 && t[0] == CR && t[1] == LF)
    ensures CollapseCrLf(t) == [t[0]] + CollapseCrLf(t[1..])
  {
  }

  lemma CollapsePair(tail: Text)
    requires tail != [] && tail[0] == LF
    ensures CollapseCrLf([CR] + tail) == CollapseCrLf(tail)
  {
    var t := [CR] + tail;
    assert t[2..] == tail[1..];
    CollapseStep(tail);
  }

  lemma StripStep(line: Text)
    requires line != [] && line != [CR]
    ensures StripCr(line) == [line[0]] + StripCr(line[1..])
  {
  }

  lemma CollapseInLine(line: Text, tail: Text)
    requires NoLf(line) && tail != [] && tail[0] == LF
    requires line != [] && line != [CR]
    ensures CollapseCrLf(line + tail) == [line[0]] + CollapseCrLf(line[1..] + tail)
  {
    var t := line + tail;
    assert t[1..] == line[1..] + tail;
    assert |line| > 1 ==> t[1] == line[1];
    CollapseStep(t);
  }

  lemma {:induction false} CollapseLine(line: Text, tail: Text)
    requires NoLf(line) && tail != [] && tail[0] == LF
    ensures CollapseCrLf(line + tail) == StripCr(line) + CollapseCrLf(tail)
    decreases |line|
  {
    if line == [] {
      assert line + tail == tail;
    } else if line == [CR] {
      CollapsePair(tail);
    } else {
      var head, more := [line[0]], line[1..];
      calc {
        CollapseCrLf(line + tail);
        { CollapseInLine(line, tail); }
        head + CollapseCrLf(more + tail);
        { CollapseLine(more, tail); }
        head + (StripCr(more) + CollapseCrLf(tail));
        (head + StripCr(more)) + CollapseCrLf(tail);
        { StripStep(line); }
        StripCr(line) + CollapseCrLf(tail);
      }
    }
  }

  lemma {:induction false} CollapseLastLine(t: Text)
    requires NoLf(t)
    ensures CollapseCrLf(t) == t
  {
    if t == [] {
    } else {
      CollapseLastLine(t[1..]);
    }
  }

  predicate AllBlank(line: Text) {
    forall i :: 0 <= i < |line| ==> IsBlank(line[i])
  }

  lemma TrimStep(line: Text)
    requires line != [] && !AllBlank(line)
    ensures TrimBlanks(line) == [line[0]] + TrimBlanks(line[1..])
  {
    var r := TrimBlanks(line[1..]);
    assert line == [line[0]] + line[1..];
    assert forall k :: 0 < k < |line| ==> line[k] == line[1..][k - 1];
    TrimUnique(line, [line[0]] + r);
  }

  lemma DropStep(t: Text)
    requires t != [] && !(0 < BlankRun(t) < |t| && t[BlankRun(t)] == LF)
    ensures DropTrailingBlanks(t) == [t[0]] + DropTrailingBlanks(t[1..])
  {
  }

  lemma DropBlankLine(line: Text, tail: Text)
    requires AllBlank(line) && tail != [] && tail[0] == LF
    ensures DropTrailingBlanks(line + tail) == DropTrailingBlanks(tail)
  {
    var t := line + tail;
    assert t[|line|] == LF && BlankRun(t) == |line|;
    assert t[|line| + 1..] == tail[1..];
    assert line == [] ==> t == tail;
  }

  lemma DropFirst(line: Text, tail: Text)
    requires NoLf(line) && !AllBlank(line)
    ensures DropTrailingBlanks(line + tail) == [line[0]] + DropTrailingBlanks(line[1..] + tail)
  {
    hide DropTrailingBlanks;
    var t := line + tail;
    var i :| 0 <= i < |line| && !IsBlank(line[i]);
    assert t[i] == line[i];
    assert BlankRun(t) < |line|;
    DropStep(t);
    assert t[1..] == line[1..] + tail;
  }

  lemma {:induction false} DropLine(line: Text, tail: Text)
    requires NoLf(line) && tail != [] && tail[0] == LF
    ensures DropTrailingBlanks(line + tail) == TrimBlanks(line) + DropTrailingBlanks(tail)
  {
    hide DropTrailingBlanks, TrimBlanks;
    if AllBlank(line) {
      DropBlankLine(line, tail);
      TrimUnique(line, []);
    } else {
      DropFirst(line, tail);
      DropLine(line[1..], tail);
      TrimStep(line);
    }
  }

  lemma {:induction false} DropLastLine(t: Text)
    requires NoLf(t)
    ensures DropTrailingBlanks(t) == t
  {
    if t == [] {
    } else {
      DropLastLine(t[1..]);
    }
  }

  lemma LineFeedFirst(rest: Text)
    ensures CollapseCrLf([LF] + rest) == [LF] + CollapseCrLf(rest)
    ensures DropTrailingBlanks([LF] + rest) == [LF] + DropTrailingBlanks(rest)
  {
    var t := [LF] + rest;
    assert t[1..] == rest;
    CollapseStep(t);
    DropStep(t);
  }

  lemma NormalizeLine(line: Text, rest: Text)
    requires NoLf(line)
    ensures NormalizeWhitespace(line + ([LF] + rest)) == NormLine(line) + ([LF] + NormalizeWhitespace(rest))
  {
    var middle := CollapseCrLf(rest);
    calc {
      NormalizeWhitespace(line + ([LF] + rest));
      { CollapseLine(line, [LF] + rest); LineFeedFirst(rest); }
      DropTrailingBlanks(StripCr(line) + ([LF] + middle));
      { DropLine(StripCr(line), [LF] + middle); LineFeedFirst(middle); }
      NormLine(line) + ([LF] + DropTrailingBlanks(middle));
      NormLine(line) + ([LF] + NormalizeWhitespace(rest));
    }
  }

  /** The two global replacements act line by line. */
  lemma {:induction false} NormalizeDoc(d: Doc)
    requires Clean(d)
    ensures NormalizeWhitespace(Flatten(d)) == Flatten(NormDoc(d))
  {
    match d
    case Last(line) =>
      CollapseLastLine(line);
      DropLastLine(line);
    case More(line, rest) =>
      NormalizeLine(line, Flatten(rest));
      NormalizeDoc(rest);
  }

  lemma NormNonempty(t: Text)
    requires t != []
    ensures NormalizeWhitespace(t) != []
  {
    NormalizeDoc(ToDoc(t));
  }

  // ----- From positions in the view back to positions in the text -----

  function ViewSize(d: Doc): nat {
    |Flatten(NormDoc(d))|
  }

  /** Where position n of the view lies in the text: the same distance from the
      start of the same line. */
  function RawIndex(d: Doc, n: nat): nat
    requires n <= ViewSize(d)
  {
    match d
    case Last(line) => n
    case More(line, rest) =>
      var w := |NormLine(line)|;
      if n <= w then n else |line| + 1 + RawIndex(rest, n - w - 1)
  }

  function Before(d: Doc, n: nat): Doc
    requires n <= ViewSize(d)
  {
    match d
    case Last(line) => Last(line[..n])
    case More(line, rest) =>
      var w := |NormLine(line)|;
      if n <= w then Last(line[..n]) else More(line, Before(rest, n - w - 1))
  }

  function After(d: Doc, n: nat): Doc
    requires n <= ViewSize(d)
  {
    match d
    case Last(line) => Last(line[n..])
    case More(line, rest) =>
      var w := |NormLine(line)|;
      if n <= w then More(line[n..], rest) else After(rest, n - w - 1)
  }

  /** A cut inside the first line, at a character that the view shows. */
  lemma CutInside(line: Text, rest: Doc, n: nat)
    requires n <= |NormLine(line)|
    ensures var d := More(line, rest);
      && n <= ViewSize(d)
      && Before(d, n) == Last(line[..n]) && After(d, n) == More(line[n..], rest) && RawIndex(d, n) == n
  {
  }

  /** A cut in a later line. */
  lemma CutBeyond(line: Text, rest: Doc, n: nat)
    requires |NormLine(line)| < n <= ViewSize(More(line, rest))
    ensures var d, m := More(line, rest), n - |NormLine(line)| - 1;
      && m <= ViewSize(rest)
      && Before(d, n) == More(line, Before(rest, m)) && After(d, n) == After(rest, m)
      && RawIndex(d, n) == |line| + 1 + RawIndex(rest, m)
  {
  }

  lemma CutLast(line: Text, n: nat)
    requires n <= |line|
    ensures var d := Last(line);
      && n <= ViewSize(d) && NormDoc(d) == d
      && Before(d, n) == Last(line[..n]) && After(d, n) == Last(line[n..]) && RawIndex(d, n) == n
    ensures Flatten(Last(line)) == Flatten(Last(line[..n])) + Flatten(Last(line[n..]))
  {
  }

  lemma LineCut(line: Text, n: nat, tail: Text)
    requires n <= |line|
    ensures line[..n] + (line[n..] + ([LF] + tail)) == line + ([LF] + tail)
  {
  }

  lemma LastFits(line: Text)
    ensures ViewSize(Last(line)) == |line|
  {
  }

  lemma {:induction false} CutIsClean(d: Doc, n: nat)
    requires Clean(d) && n <= ViewSize(d)
    ensures Clean(Before(d, n)) && Clean(After(d, n))
  {
    hide NormLine, Before, After, RawIndex, ViewSize;
    if d.Last? {
      LastFits(d.line);
      CutLast(d.line, n);
    } else if n <= |NormLine(d.line)| {
      CutInside(d.line, d.rest, n);
    } else {
      CutBeyond(d.line, d.rest, n);
      CutIsClean(d.rest, n - |NormLine(d.line)| - 1);
    }
  }

  lemma {:induction false} CutText(d: Doc, n: nat)
    requires n <= ViewSize(d)
    ensures Flatten(d) == Flatten(Before(d, n)) + Flatten(After(d, n))
    ensures |Flatten(Before(d, n))| == RawIndex(d, n)
  {
    hide NormLine, Before, After, RawIndex, ViewSize;
    var line := d.line;
    if d.Last? {
      LastFits(line);
      CutLast(line, n);
    } else if n <= |NormLine(line)| {
      CutInside(line, d.rest, n);
      LineCut(line, n, Flatten(d.rest));
    } else {
      var m := n - |NormLine(line)| - 1;
      CutBeyond(line, d.rest, n);
      CutText(d.rest, m);
      Regroup(line, Flatten(Before(d.rest, m)), Flatten(After(d.rest, m)));
    }
  }

  lemma TrimSuffix(x: Text, y: Text)
    requires |x| <= |TrimBlanks(x + y)|
    ensures TrimBlanks(x + y) == x + TrimBlanks(y)
  {
    var r := TrimBlanks(x + y);
    assert r == x + r[|x|..];
    forall i | |r| - |x| <= i < |y|
      ensures IsBlank(y[i])
    {
      assert y[i] == (x + y)[|x| + i];
    }
    TrimUnique(y, r[|x|..]);
  }

  /** Characters that the trimmed line keeps can be taken off before trimming. */
  lemma NormLineSuffix(x: Text, y: Text)
    requires |x| <= |NormLine(x + y)|
    ensures NormLine(x + y) == x + NormLine(y)
  {
    if y == [] {
      assert x + y == x;
    } else {
      assert StripCr(x + y) == x + StripCr(y);
      TrimSuffix(x, StripCr(y));
    }
  }

  lemma ViewInside(line: Text, n: nat, tail: Text)
    requires n <= |NormLine(line)|
    ensures NormLine(line) + ([LF] + tail) == line[..n] + (NormLine(line[n..]) + ([LF] + tail))
  {
    hide NormLine;
    var x, y := line[..n], line[n..];
    assert line == x + y;
    NormLineSuffix(x, y);
    Associate(x, NormLine(y), [LF] + tail);
  }

  lemma {:induction false} CutView(d: Doc, n: nat)
    requires n <= ViewSize(d)
    ensures Flatten(NormDoc(d)) == Flatten(NormDoc(Before(d, n))) + Flatten(NormDoc(After(d, n)))
    ensures |Flatten(NormDoc(Before(d, n)))| == n
  {
    hide NormLine, Before, After, RawIndex, ViewSize;
    var line := d.line;
    if d.Last? {
      LastFits(line);
      CutLast(line, n);
    } else if n <= |NormLine(line)| {
      CutInside(line, d.rest, n);
      ViewInside(line, n, Flatten(NormDoc(d.rest)));
    } else {
      var m := n - |NormLine(line)| - 1;
      CutBeyond(line, d.rest, n);
      CutView(d.rest, m);
      Regroup(NormLine(line), Flatten(NormDoc(Before(d.rest, m))), Flatten(NormDoc(After(d.rest, m))));
    }
  }

  /** The text before the raw index looks like the view before the index, and
      the text from it on looks like the view from the index on. */
  lemma MapsBack(t: Text, n: nat)
    requires n <= |NormalizeWhitespace(t)|
    ensures ViewSize(ToDoc(t)) == |NormalizeWhitespace(t)|
    ensures RawIndex(ToDoc(t), n) <= |t|
    ensures NormalizeWhitespace(t[..RawIndex(ToDoc(t), n)]) == NormalizeWhitespace(t)[..n]
    ensures NormalizeWhitespace(t[RawIndex(ToDoc(t), n)..]) == NormalizeWhitespace(t)[n..]
  {
    var d := ToDoc(t);
    NormalizeDoc(d);
    var x, y := Before(d, n), After(d, n);
    CutIsClean(d, n);
    CutText(d, n);
    CutView(d, n);
    Halves(Flatten(x), Flatten(y));
    Halves(Flatten(NormDoc(x)), Flatten(NormDoc(y)));
    NormalizeDoc(x);
    NormalizeDoc(y);
  }

  /** The document of the first k characters. */
  function Take(d: Doc, k: nat): Doc
    requires k <= |Flatten(d)|
  {
    if k <= |d.line| then Last(d.line[..k]) else More(d.line, Take(d.rest, k - |d.line| - 1))
  }

  lemma {:induction false} TakePrefix(d: Doc, k: nat)
    requires Clean(d) && k <= |Flatten(d)|
    ensures Clean(Take(d, k)) && Flatten(Take(d, k)) == Flatten(d)[..k]
  {
    if k > |d.line| {
      TakePrefix(d.rest, k - |d.line| - 1);
    }
  }

  lemma {:induction false} NormTakeInjective(d: Doc, a: nat, b: nat)
    requires a <= |Flatten(d)| && b <= |Flatten(d)|
    requires NormDoc(Take(d, a)) == NormDoc(Take(d, b))
    ensures a == b
  {
    if a > |d.line| && b > |d.line| {
      NormTakeInjective(d.rest, a - |d.line| - 1, b - |d.line| - 1);
    }
  }

  /** A prefix of the text is determined by what it looks like in the view, its
      unfinished last line being kept as it is. */
  lemma PrefixUnique(t: Text, a: nat, b: nat)
    requires a <= |t| && b <= |t|
    requires NormalizeWhitespace(t[..a]) == NormalizeWhitespace(t[..b])
    ensures a == b
  {
    var d := ToDoc(t);
    TakePrefix(d, a);
    TakePrefix(d, b);
    NormalizeDoc(Take(d, a));
    NormalizeDoc(Take(d, b));
    FlattenInjective(NormDoc(Take(d, a)), NormDoc(Take(d, b)));
    NormTakeInjective(d, a, b);
  }
}
