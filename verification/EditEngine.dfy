/** The search-and-replace engine: each edit must select exactly one place,
    found in the text itself or in its whitespace-normalised view. */
module EditEngine {
  import opened Wrappers
  import opened Texts
  import opened WhitespaceView

  datatype Edit = Edit(search: Text, replace: Text, scope: Option<Text>)

  datatype Reason = NotFound | AmbiguousMatch(matchCount: nat) | TooShort

  datatype EditFailure = EditFailure(edit: Edit, reason: Reason)

  datatype ApplyResult = ApplyResult(success: bool, content: Text, appliedEdits: nat, failedEdits: seq<EditFailure>)

  const MIN_SEARCH_LENGTH := 10

  /** Where the scope patterns match in a text: the start of the first match of
      each pattern that matches, in pattern order. */
  type ScopeMatcher = (Text, Text) -> seq<nat>

  // ----- The brace scanner -----

  const BACKSLASH: CodeUnit := 92
  const QUOTES: set<CodeUnit> := {34, 39, 96}
  const OPEN: CodeUnit := 123
  const CLOSE: CodeUnit := 125

  datatype Lexer = Lexer(quote: Option<CodeUnit>, escaped: bool)

  function LexStep(l: Lexer, u: CodeUnit): Lexer {
    if l.escaped then l.(escaped := false)
    else if u == BACKSLASH then l.(escaped := true)
    else match l.quote
      case Some(q) => if u == q then Lexer(None, false) else l
      case None => if u in QUOTES then Lexer(Some(u), false) else l
  }

  /** The lexer state before position i, reading from `from`. */
  function Lex(t: Text, from: nat, i: nat): Lexer
    requires i <= |t|
  {
    if i <= from then Lexer(None, false) else LexStep(Lex(t, from, i - 1), t[i - 1])
  }

  /** The character at i is code: neither escaped nor inside a string. */
  predicate IsCode(t: Text, from: nat, i: nat)
    requires i < |t|
  {
    Lex(t, from, i) == Lexer(None, false)
  }

  /** Opening minus closing braces of code in [from, i). */
  function Balance(t: Text, from: nat, i: nat): int
    requires i <= |t|
  {
    if i <= from then 0
    else Balance(t, from, i - 1) +
         (if !IsCode(t, from, i - 1) then 0
          else if t[i - 1] == OPEN then 1 else if t[i - 1] == CLOSE then -1 else 0)
  }

  /** A closing brace of code at i brings the balance to zero. */
  predicate ClosesAt(t: Text, from: nat, i: nat) {
    from <= i < |t| && t[i] == CLOSE && IsCode(t, from, i) && Balance(t, from, i + 1) == 0
  }

  method FindClosingBrace(t: Text, from: nat) returns (end: int)
    ensures end == -1 ==> forall i :: !ClosesAt(t, from, i)
    ensures end != -1 ==> 0 < end && ClosesAt(t, from, end - 1)
    ensures forall i :: 0 <= i < end - 1 ==> !ClosesAt(t, from, i)
  {
    var depth := 0;
    var inString := false;
    var stringChar: CodeUnit := 0;
    var escaped := false;
    var i := from;
    while i < |t|
      invariant from <= i
      invariant i <= |t| ==> Lex(t, from, i) == Lexer(if inString then Some(stringChar) else None, escaped)
      invariant i <= |t| ==> Balance(t, from, i) == depth
      invariant forall k :: from <= k < i ==> !ClosesAt(t, from, k)
    {
      var ch := t[i];
      if escaped {
        escaped := false;
      } else if ch == BACKSLASH {
        escaped := true;
      } else if inString {
        if ch == stringChar { inString := false; }
      } else if ch in QUOTES {
        inString, stringChar := true, ch;
      } else {
        if ch == OPEN { depth := depth + 1; }
        if ch == CLOSE {
          depth := depth - 1;
          if depth == 0 { return i + 1; }
        }
      }
      i := i + 1;
    }
    end := -1;
  }

  /** The least position at which the braces opened since `from` are closed. */
  function ClosingBrace(t: Text, from: nat): (end: Option<nat>)
    ensures end.None? ==> forall i :: !ClosesAt(t, from, i)
    ensures end.Some? ==> 0 < end.value && ClosesAt(t, from, end.value - 1)
    ensures end.Some? ==> forall i :: 0 <= i < end.value - 1 ==> !ClosesAt(t, from, i)
  {
    ClosingBraceAfter(t, from, from)
  }

  function ClosingBraceAfter(t: Text, from: nat, i: nat): (end: Option<nat>)
    requires from <= i
    ensures end.None? ==> forall k :: i <= k ==> !ClosesAt(t, from, k)
    ensures end.Some? ==> i < end.value && ClosesAt(t, from, end.value - 1)
    ensures end.Some? ==> forall k :: i <= k < end.value - 1 ==> !ClosesAt(t, from, k)
    decreases |t| - i
  {
    if i >= |t| then None
    else if ClosesAt(t, from, i) then Some(i + 1)
    else ClosingBraceAfter(t, from, i + 1)
  }

  // ----- Counting matches -----

  /** Match positions below a bound. */
  function OccurrencesBelow(haystack: Text, needle: Text, bound: int): set<int> {
    set p | 0 <= p <= |haystack| && p < bound && OccursAt(haystack, needle, p)
  }

  method CountOccurrences(haystack: Text, needle: Text) returns (count: nat)
    requires needle != []
    ensures count == |Occurrences(haystack, needle)|
  {
    count := 0;
    var pos := 0;
    ghost var seen := {};
    while true
      invariant 0 <= pos <= |haystack| + 1
      invariant seen == OccurrencesBelow(haystack, needle, pos)
      invariant count == |seen|
      decreases |haystack| + 1 - pos
    {
      var next := IndexOf(haystack, needle, pos);
      if next == -1 {
        assert seen == Occurrences(haystack, needle);
        return;
      }
      assert OccurrencesBelow(haystack, needle, next + 1) == seen + {next};
      seen := seen + {next};
      count := count + 1;
      pos := next + 1;
    }
  }

  lemma SoleOccurrence(haystack: Text, needle: Text, p: int)
    requires |Occurrences(haystack, needle)| == 1 && OccursAt(haystack, needle, p)
    ensures Occurrences(haystack, needle) == {p}
  {
    var s := Occurrences(haystack, needle);
    assert p in s;
    assert |s - {p}| == 0;
    assert s == (s - {p}) + {p};
  }

  /** The only match position. */
  ghost function Sole(haystack: Text, needle: Text): (p: nat)
    requires |Occurrences(haystack, needle)| == 1
    ensures Occurrences(haystack, needle) == {p} && OccursAt(haystack, needle, p)
  {
    var p :| p in Occurrences(haystack, needle);
    SoleOccurrence(haystack, needle, p);
    p
  }

  // ----- Scope hints -----

  /** The first scope match that has a closing brace. */
  function ScopeRange(t: Text, starts: seq<nat>): Option<(nat, nat)> {
    if starts == [] then None
    else match ClosingBrace(t, starts[0])
      case Some(end) => Some((starts[0], end))
      case None => ScopeRange(t, starts[1..])
  }

  lemma ScopeRangeBounds(t: Text, starts: seq<nat>)
    ensures var r := ScopeRange(t, starts); r.Some? ==> r.value.0 <= r.value.1 <= |t|
  {
  }

  method FindScopeRange(t: Text, starts: seq<nat>) returns (range: Option<(nat, nat)>)
    ensures range == ScopeRange(t, starts)
  {
    for k := 0 to |starts|
      invariant ScopeRange(t, starts) == ScopeRange(t, starts[k..])
    {
      var end := FindClosingBrace(t, starts[k]);
      if end != -1 {
        return Some((starts[k], end));
      }
      assert starts[k..][1..] == starts[k + 1..];
    }
    range := None;
  }

  /** The position the scope selects: the only match inside the scope's text. */
  ghost function ScopePosition(t: Text, search: Text, starts: seq<nat>): Option<nat> {
    match ScopeRange(t, starts)
    case None => None
    case Some((start, end)) =>
      ScopeRangeBounds(t, starts);
      if |Occurrences(t[start..end], search)| == 1 then Some(start + Sole(t[start..end], search)) else None
  }

  lemma OccursInSlice(t: Text, search: Text, start: nat, end: nat, p: nat)
    requires start <= end <= |t| && OccursAt(t[start..end], search, p)
    ensures OccursAt(t, search, start + p)
  {
    var inside, outside := t[start..end][p..p + |search|], t[start + p..start + p + |search|];
    assert forall i :: 0 <= i < |search| ==> inside[i] == outside[i];
  }

  lemma ScopePositionOccurs(t: Text, search: Text, starts: seq<nat>)
    ensures var p := ScopePosition(t, search, starts); p.Some? ==> OccursAt(t, search, p.value)
  {
    var p := ScopePosition(t, search, starts);
    if p.Some? {
      ScopeRangeBounds(t, starts);
      var (start, end) := ScopeRange(t, starts).value;
      OccursInSlice(t, search, start, end, Sole(t[start..end], search));
    }
  }

  method FindInScope(t: Text, search: Text, starts: seq<nat>) returns (index: int)
    requires search != []
    ensures ScopePosition(t, search, starts) == if index == -1 then None else if index >= 0 then Some(index) else None
    ensures index >= -1
  {
    var range := FindScopeRange(t, starts);
    ScopeRangeBounds(t, starts);
    if range.None? {
      return -1;
    }
    var (start, end) := range.value;
    var scopeText := t[start..end];
    var localIndex := IndexOf(scopeText, search, 0);
    if localIndex == -1 {
      assert Occurrences(scopeText, search) == {};
      return -1;
    }
    assert localIndex in Occurrences(scopeText, search);
    var localCount := CountOccurrences(scopeText, search);
    if localCount > 1 {
      return -1;
    }
    SoleOccurrence(scopeText, search, localIndex);
    assert localIndex == Sole(scopeText, search);
    index := start + localIndex;
  }

  // ----- From the view back to the text -----

  lemma {:induction false} SameLineCount(d: Doc)
    ensures |LineSeq(NormDoc(d))| == |LineSeq(d)|
  {
    if d.Last? {
    } else {
      SameLineCount(d.rest);
    }
  }

  lemma ViewDoc(t: Text)
    ensures ToDoc(NormalizeWhitespace(t)) == NormDoc(ToDoc(t))
    ensures ViewSize(ToDoc(t)) == |NormalizeWhitespace(t)|
  {
    NormalizeDoc(ToDoc(t));
    FlattenInjective(ToDoc(NormalizeWhitespace(t)), NormDoc(ToDoc(t)));
  }

  /** The i-th line and what follows it. */
  lemma LinesStep(d: Doc, lines: seq<Text>, i: nat)
    requires i < |lines| && LineSeq(d) == lines[i..]
    ensures lines[i] == d.line
    ensures d.More? ==> i + 1 < |lines| && LineSeq(d.rest) == lines[i + 1..]
    ensures d.Last? ==> i + 1 == |lines|
  {
    assert lines[i..][0] == lines[i] && lines[i..][1..] == lines[i + 1..];
  }

  lemma ViewStep(d: Doc)
    ensures NormDoc(d).More? <==> d.More?
    ensures d.Last? ==> ViewSize(d) == |NormDoc(d).line|
    ensures d.More? ==> NormDoc(d).rest == NormDoc(d.rest)
    ensures d.More? ==> ViewSize(d) == |NormDoc(d).line| + 1 + ViewSize(d.rest)
  {
  }

  lemma RawStep(d: Doc, n: nat)
    requires n <= ViewSize(d)
    ensures n <= |NormDoc(d).line| ==> RawIndex(d, n) == n
    ensures d.More? && n > |NormDoc(d).line| ==>
      var m := n - |NormDoc(d).line| - 1;
      m <= ViewSize(d.rest) && RawIndex(d, n) == |d.line| + 1 + RawIndex(d.rest, m)
  {
    ViewStep(d);
  }

  method FindOriginalIndex(original: Text, normalized: Text, normalizedIndex: nat) returns (r: nat)
    ensures ViewSize(ToDoc(original)) == |NormalizeWhitespace(original)|
    ensures r == if normalized == NormalizeWhitespace(original) && normalizedIndex <= |normalized|
                 then RawIndex(ToDoc(original), normalizedIndex) else normalizedIndex
  {
    hide *;
    ViewDoc(original);
    if NormalizeWhitespace(original) == normalized {
      var lines := LineSeq(ToDoc(original));
      var normLines := LineSeq(ToDoc(normalized));
      SameLineCount(ToDoc(original));
      if |lines| == |normLines| {
        var origOffset, normOffset := 0, 0;
        ghost var d := ToDoc(original);
        for i := 0 to |lines|
          invariant i < |lines| ==> LineSeq(d) == lines[i..] && LineSeq(NormDoc(d)) == normLines[i..]
          invariant i < |lines| ==> normOffset <= normalizedIndex && normOffset + ViewSize(d) == |normalized|
          invariant i < |lines| && normalizedIndex <= |normalized| ==>
                      RawIndex(ToDoc(original), normalizedIndex)
                          == origOffset + RawIndex(d, normalizedIndex - normOffset)
          invariant i == |lines| ==> normalizedIndex > |normalized|
        {
          var normLine := normLines[i];
          var origLine := lines[i];
          LinesStep(d, lines, i);
          LinesStep(NormDoc(d), normLines, i);
          ViewStep(d);
          if normalizedIndex <= |normalized| {
            RawStep(d, normalizedIndex - normOffset);
          }
          if normOffset + |normLine| >= normalizedIndex && normOffset <= normalizedIndex {
            return origOffset + (normalizedIndex - normOffset);
          }
          origOffset := origOffset + |origLine| + 1;
          normOffset := normOffset + |normLine| + 1;
          if d.More? {
            d := d.rest;
          }
        }
      }
    }
    r := normalizedIndex;
  }

  lemma LineEndFrom(original: Text, lineStart: nat, d: Doc, lineEnd: int)
    requires lineStart <= |original| && original[lineStart..] == Flatten(d) && Clean(d) && d.More?
    requires IsIndexOf(original, [LF], lineStart, lineEnd)
    ensures lineEnd == lineStart + |d.line|
    ensures lineEnd < |original| && original[lineEnd] == LF
    ensures original[lineEnd + 1..] == Flatten(d.rest)
  {
    var n := |d.line|;
    var t := original[lineStart..];
    assert t == d.line + ([LF] + Flatten(d.rest));
    assert original[lineStart + n] == t[n] == LF;
    assert OccursAt(original, [LF], lineStart + n);
    assert forall i :: 0 <= i < n ==> original[lineStart + i] == t[i] == d.line[i];
    assert original[lineEnd] == [LF][0];
    assert original[lineStart + n + 1..] == t[n + 1..];
  }

  lemma LastLineIndex(line: Text, d: Doc)
    requires NoLf(line) && Clean(d) && line <= Flatten(NormDoc(d))
    ensures RawIndex(d, |line|) == |line|
  {
    if d.More? {
      var w := |NormLine(d.line)|;
      assert Flatten(NormDoc(d))[w] == LF;
      assert forall i :: 0 <= i < |line| ==> Flatten(NormDoc(d))[i] == line[i];
    }
  }

  /** A search document e still to be matched, against the document d that
      starts at lineStart; `total` is the length of the whole match. */
  ghost predicate Cursor(original: Text, start: nat, total: int, d: Doc, e: Doc, lineStart: nat) {
    && Clean(d) && Clean(e) && Flatten(e) <= Flatten(NormDoc(d))
    && start <= lineStart <= |original| && original[lineStart..] == Flatten(d)
    && total == lineStart - start + RawIndex(d, |Flatten(e)|)
  }

  lemma FinalLine(original: Text, start: nat, total: int, d: Doc, e: Doc, lineStart: nat)
    requires Cursor(original, start, total, d, e, lineStart) && e.Last?
    ensures total == lineStart - start + |e.line|
  {
    LastLineIndex(e.line, d);
  }

  /** How much text from `start` on the matched search covers. */
  ghost function RegionLength(original: Text, start: nat, search: Text): nat
    requires start <= |original| && search <= NormalizeWhitespace(original[start..])
  {
    ViewDoc(original[start..]);
    RawIndex(ToDoc(original[start..]), |search|)
  }

  lemma StartCursor(original: Text, start: nat, search: Text)
    requires start <= |original| && search <= NormalizeWhitespace(original[start..])
    ensures Cursor(original, start, RegionLength(original, start, search), ToDoc(original[start..]), ToDoc(search),
                   start)
  {
    ViewDoc(original[start..]);
    NormalizeDoc(ToDoc(original[start..]));
  }

  method SkipLineBreak(original: Text, at: nat) returns (pos: nat)
    ensures at < |original| && original[at] == LF ==> pos == at + 1
  {
    pos := at;
    if pos < |original| && original[pos] == CR { pos := pos + 1; }
    if pos < |original| && original[pos] == LF { pos := pos + 1; }
  }

  lemma LineSeqTail(e: Doc, lines: seq<Text>, i: nat)
    requires i < |lines| && LineSeq(e) == lines[i..]
    ensures lines[i] == e.line && (e.Last? <==> i == |lines| - 1)
    ensures e.More? ==> LineSeq(e.rest) == lines[i + 1..]
  {
    assert LineSeq(e)[0] == lines[i];
    assert e.More? ==> LineSeq(e)[1..] == LineSeq(e.rest) && lines[i..][1..] == lines[i + 1..];
  }

  /** The line feed that ends the line at `pos`, or the end of the text. */
  method EndOfLine(original: Text, pos: nat, ghost start: nat, ghost total: nat, ghost d: Doc, ghost e: Doc)
    returns (lineEnd: nat)
    requires Cursor(original, start, total, d, e, pos) && e.More?
    ensures lineEnd < |original| && original[lineEnd] == LF
    ensures d.More? && Cursor(original, start, total, d.rest, e.rest, lineEnd + 1)
  {
    var index := IndexOf(original, [LF], pos);
    PrefixLines(e, NormDoc(d));
    LineEndFrom(original, pos, d, index);
    lineEnd := IndexOrEnd(original, index);
  }

  function IndexOrEnd(t: Text, index: int): int {
    if index == -1 then |t| else index
  }

  /** The cursor loop over the lines of the search. */
  method MeasureLines(original: Text, startIndex: nat, searchLines: seq<Text>,
                      ghost total: nat, ghost first: Doc, ghost search: Doc)
    returns (r: nat)
    requires Cursor(original, startIndex, total, first, search, startIndex)
    requires LineSeq(search) == searchLines
    ensures r == total
  {
    hide Cursor, LineSeq;
    var pos: nat := startIndex;
    ghost var d, e := first, search;
    assert searchLines[0..] == searchLines;
    for i := 0 to |searchLines|
      invariant i < |searchLines| ==> LineSeq(e) == searchLines[i..]
      invariant i == 0 ==> Cursor(original, startIndex, total, d, e, pos)
      invariant 0 < i < |searchLines| ==> Cursor(original, startIndex, total, d, e, pos + 1)
      invariant 0 < i < |searchLines| ==> pos < |original| && original[pos] == LF
      invariant i == |searchLines| ==> pos == startIndex + total
    {
      var searchLine := searchLines[i];
      LineSeqTail(e, searchLines, i);
      if i > 0 {
        pos := SkipLineBreak(original, pos);
      }
      if i == |searchLines| - 1 {
        FinalLine(original, startIndex, total, d, e, pos);
        pos := pos + |searchLine|;
      } else {
        pos := EndOfLine(original, pos, startIndex, total, d, e);
        d, e := d.rest, e.rest;
      }
    }
    r := pos - startIndex;
  }

  method FindOriginalLength(original: Text, startIndex: nat, normalizedSearch: Text) returns (r: nat)
    requires startIndex <= |original| && normalizedSearch <= NormalizeWhitespace(original[startIndex..])
    ensures r == RegionLength(original, startIndex, normalizedSearch)
  {
    StartCursor(original, startIndex, normalizedSearch);
    r := MeasureLines(original, startIndex, LineSeq(ToDoc(normalizedSearch)),
                      RegionLength(original, startIndex, normalizedSearch),
                      ToDoc(original[startIndex..]), ToDoc(normalizedSearch));
  }
}
