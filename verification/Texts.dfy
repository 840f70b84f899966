/** JavaScript strings: sequences of UTF-16 code units, with the few built-in
    string operations that the modelled programs use. */
module Texts {

  type CodeUnit = u: int | 0 <= u < 0x1_0000
  type Text = seq<CodeUnit>

  /** A literal of ASCII characters as a text. */
  function Ascii(s: string): (t: Text)
    ensures |t| == |s|
  {
    seq(|s|, i requires 0 <= i < |s| => (s[i] as int) % 128)
  }

  const TAB: CodeUnit := 9
  const LF: CodeUnit := 10
  const CR: CodeUnit := 13
  const SPACE: CodeUnit := 32

  /** The needle occurs at position p. */
  predicate OccursAt(haystack: Text, needle: Text, p: int) {
    0 <= p <= |haystack| - |needle| && haystack[p..p + |needle|] == needle
  }

  /** All (possibly overlapping) match positions. */
  function Occurrences(haystack: Text, needle: Text): set<int> {
    set p | 0 <= p <= |haystack| && OccursAt(haystack, needle, p)
  }

  /** The least match at or after `from`, or -1 when there is none. */
  ghost predicate IsIndexOf(haystack: Text, needle: Text, from: nat, index: int) {
    && (index == -1 || (from <= index && OccursAt(haystack, needle, index)))
    && forall p :: from <= p && OccursAt(haystack, needle, p) ==> index != -1 && index <= p
  }

  /** `haystack.indexOf(needle, from)`, for a nonempty needle. */
  method IndexOf(haystack: Text, needle: Text, from: nat) returns (index: int)
    requires needle != []
    ensures IsIndexOf(haystack, needle, from, index)
  {
    index := from;
    while index + |needle| <= |haystack|
      invariant from <= index
      invariant forall p :: from <= p < index ==> !OccursAt(haystack, needle, p)
    {
      if haystack[index..index + |needle|] == needle {
        return;
      }
      index := index + 1;
    }
    index := -1;
  }

  /** White space and line terminators that `trim` removes. */
  predicate IsSpace(u: CodeUnit) {
    u in {9, 10, 11, 12, 13, 32, 0xA0, 0x1680, 0x2028, 0x2029, 0x202F, 0x205F, 0x3000, 0xFEFF} || 0x2000 <= u <= 0x200A
  }

  function TrimStart(t: Text): Text {
    if t != [] && IsSpace(t[0]) then TrimStart(t[1..]) else t
  }

  function TrimEnd(t: Text): Text {
    if t != [] && IsSpace(t[|t| - 1]) then TrimEnd(t[..|t| - 1]) else t
  }

  /** `t.trim()` */
  function Trim(t: Text): Text {
    TrimEnd(TrimStart(t))
  }

  /** Trimming drops spaces at both ends, all of them and nothing else. */
  lemma TrimDropsSpaces(t: Text) returns (i: nat, j: nat)
    ensures i <= j <= |t| && Trim(t) == t[i..j]
    ensures forall k :: 0 <= k < i || j <= k < |t| ==> IsSpace(t[k])
    ensures i < j ==> !IsSpace(t[i]) && !IsSpace(t[j - 1])
  {
    i := StartDropped(t);
    var rest := t[i..];
    var n := EndDropped(rest);
    j := i + n;
    assert rest[..n] == t[i..j];
    assert forall k :: j <= k < |t| ==> t[k] == rest[k - i];
  }

  lemma {:induction false} StartDropped(t: Text) returns (i: nat)
    ensures i <= |t| && TrimStart(t) == t[i..]
    ensures forall k :: 0 <= k < i ==> IsSpace(t[k])
    ensures i < |t| ==> !IsSpace(t[i])
  {
    if t != [] && IsSpace(t[0]) {
      var n := StartDropped(t[1..]);
      i := n + 1;
      assert t[1..][n..] == t[i..];
      assert forall k :: 0 < k < i ==> t[k] == t[1..][k - 1];
    } else {
      i := 0;
    }
  }

  lemma {:induction false} EndDropped(t: Text) returns (n: nat)
    ensures n <= |t| && TrimEnd(t) == t[..n]
    ensures forall k :: n <= k < |t| ==> IsSpace(t[k])
    ensures n > 0 ==> !IsSpace(t[n - 1])
  {
    if t != [] && IsSpace(t[|t| - 1]) {
      n := EndDropped(t[..|t| - 1]);
      assert t[..|t| - 1][..n] == t[..n];
    } else {
      n := |t|;
    }
  }

  predicate StartsWith(t: Text, prefix: Text) {
    |prefix| <= |t| && t[..|prefix|] == prefix
  }

  /** The text is a single line. */
  predicate NoLf(t: Text) {
    forall i :: 0 <= i < |t| ==> t[i] != LF
  }

  /** Index of the first line feed, or the length of the text. */
  function LineEnd(t: Text): (j: nat)
    ensures j <= |t|
    ensures j < |t| ==> t[j] == LF
    ensures forall i :: 0 <= i < j ==> t[i] != LF
  {
    if t == [] || t[0] == LF then 0 else 1 + LineEnd(t[1..])
  }

  /** A text as the lines that line feeds separate; a document always has a
      last line, which no line feed ends. */
  datatype Doc = Last(line: Text) | More(line: Text, rest: Doc)

  function Flatten(d: Doc): Text {
    match d
    case Last(line) => line
    case More(line, rest) => line + ([LF] + Flatten(rest))
  }

  predicate Clean(d: Doc) {
    NoLf(d.line) && (d.More? ==> Clean(d.rest))
  }

  function ToDoc(t: Text): (d: Doc)
    ensures Clean(d) && Flatten(d) == t
  {
    var j := LineEnd(t);
    if j == |t| then Last(t) else More(t[..j], ToDoc(t[j + 1..]))
  }

  /** `t.split("\n")` is `LineSeq(ToDoc(t))`. */
  function LineSeq(d: Doc): (lines: seq<Text>)
    ensures |lines| > 0 && lines[0] == d.line
  {
    match d
    case Last(line) => [line]
    case More(line, rest) => [line] + LineSeq(rest)
  }

  lemma LinePrefix(line: Text, line': Text, tail: Text, tail': Text)
    requires NoLf(line) && NoLf(line') && |line| <= |line'|
    requires line + ([LF] + tail) == line' + ([LF] + tail')
    ensures line == line' && tail == tail'
  {
    var t := line + ([LF] + tail);
    assert t[|line|] == LF && t[|line'|] == LF;
    assert forall i :: 0 <= i < |line'| ==> t[i] == line'[i];
    assert t[|line|..] == [LF] + tail && t[|line'|..] == [LF] + tail';
    assert ([LF] + tail)[1..] == tail && ([LF] + tail')[1..] == tail';
  }

  lemma NotSingle(line: Text, line': Text, tail: Text)
    requires NoLf(line)
    ensures line != line' + ([LF] + tail)
  {
    assert (line' + ([LF] + tail))[|line'|] == LF;
  }

  /** A text has one division into lines. */
  lemma {:induction false} FlattenInjective(d: Doc, e: Doc)
    requires Clean(d) && Clean(e) && Flatten(d) == Flatten(e)
    ensures d == e
  {
    if d.More? && e.More? {
      if |d.line| <= |e.line| {
        LinePrefix(d.line, e.line, Flatten(d.rest), Flatten(e.rest));
      } else {
        LinePrefix(e.line, d.line, Flatten(e.rest), Flatten(d.rest));
      }
      FlattenInjective(d.rest, e.rest);
    } else if d.More? {
      NotSingle(e.line, d.line, Flatten(d.rest));
    } else if e.More? {
      NotSingle(d.line, e.line, Flatten(e.rest));
    }
  }

  lemma Regroup(line: Text, x: Text, y: Text)
    ensures (line + ([LF] + x)) + y == line + ([LF] + (x + y))
  {
  }

  lemma Associate(x: Text, y: Text, z: Text)
    ensures (x + y) + z == x + (y + z)
  {
  }

  lemma Halves(x: Text, y: Text)
    ensures (x + y)[..|x|] == x && (x + y)[|x|..] == y
  {
  }

  /** Two lines cut off the front of a text and of a longer one. */
  lemma PrefixLines(e: Doc, f: Doc)
    requires Clean(e) && Clean(f) && e.More?
    requires Flatten(e) <= Flatten(f)
    ensures f.More? && e.line == f.line && Flatten(e.rest) <= Flatten(f.rest)
  {
    var tail := Flatten(f)[|Flatten(e)|..];
    calc {
      Flatten(f);
      Flatten(e) + tail;
      { Regroup(e.line, Flatten(e.rest), tail); }
      e.line + ([LF] + (Flatten(e.rest) + tail));
    }
    if f.Last? {
      NotSingle(f.line, e.line, Flatten(e.rest) + tail);
    } else if |e.line| <= |f.line| {
      LinePrefix(e.line, f.line, Flatten(e.rest) + tail, Flatten(f.rest));
    } else {
      LinePrefix(f.line, e.line, Flatten(f.rest), Flatten(e.rest) + tail);
    }
  }
}
