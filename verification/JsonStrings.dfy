/** JSON string literals as JSON.stringify writes them, and reading them back. */
module JsonStrings {
  import opened Texts

  const QUOTE: CodeUnit := 34
  const BACKSLASH: CodeUnit := 92
  const LETTER_U: CodeUnit := 117

  datatype Parsed<+T> = Fail | Ok(value: T, rest: Text)

  predicate IsHigh(u: CodeUnit) { 0xD800 <= u < 0xDC00 }
  predicate IsLow(u: CodeUnit) { 0xDC00 <= u < 0xE000 }

  function HexDigit(n: nat): CodeUnit
    requires n < 16
  {
    if n < 10 then 48 + n else 87 + n
  }

  function HexValue(c: CodeUnit): (n: int)
    ensures -1 <= n < 16
  {
    if 48 <= c < 58 then c - 48 else if 97 <= c < 103 then c - 87 else -1
  }

  /** Four lower-case hexadecimal digits. */
  function Hex4(u: CodeUnit): (h: Text)
    ensures |h| == 4
  {
    [HexDigit(u / 4096), HexDigit(u / 256 % 16), HexDigit(u / 16 % 16), HexDigit(u % 16)]
  }

  function UnicodeEscape(u: CodeUnit): Text {
    [BACKSLASH, LETTER_U] + Hex4(u)
  }

  /** The letter of a two-character escape, or 0: quote, backslash, and the
      controls BS, TAB, LF, FF, CR. */
  function ShortEscape(u: CodeUnit): CodeUnit {
    if u == QUOTE then QUOTE else if u == BACKSLASH then BACKSLASH
    else if u == 8 then 98 else if u == TAB then 116 else if u == LF then 110
    else if u == 12 then 102 else if u == CR then 114 else 0
  }

  function FromShortEscape(c: CodeUnit): int {
    if c == QUOTE then QUOTE else if c == BACKSLASH then BACKSLASH
    else if c == 98 then 8 else if c == 116 then TAB else if c == 110 then LF
    else if c == 102 then 12 else if c == 114 then CR else -1
  }

  /** How one code unit that is not half of a surrogate pair is written. */
  function EscapeUnit(u: CodeUnit): Text {
    if ShortEscape(u) != 0 then [BACKSLASH, ShortEscape(u)]
    else if u < 32 || IsHigh(u) || IsLow(u) then UnicodeEscape(u)
    else [u]
  }

  predicate PairFirst(s: Text) {
    |s| >= 2 && IsHigh(s[0]) && IsLow(s[1])
  }

  function Escape(s: Text): Text {
    if s == [] then []
    else if PairFirst(s) then s[..2] + Escape(s[2..])
    else EscapeUnit(s[0]) + Escape(s[1..])
  }

  /** `JSON.stringify` of a string. */
  function PrintString(s: Text): Text {
    [QUOTE] + (Escape(s) + [QUOTE])
  }

  function Prepend(s: Text, p: Parsed<Text>): Parsed<Text> {
    match p
    case Fail => Fail
    case Ok(value, rest) => Ok(s + value, rest)
  }

  /** The code unit that the first characters stand for, and their number. */
  function ReadUnit(t: Text): (r: Parsed<CodeUnit>)
    requires t != []
    ensures r.Ok? ==> |r.rest| < |t|
  {
    if t[0] != BACKSLASH then Ok(t[0], t[1..])
    else if |t| < 2 then Fail
    else if t[1] == LETTER_U then
      if |t| < 6 || HexValue(t[2]) < 0 || HexValue(t[3]) < 0 || HexValue(t[4]) < 0 || HexValue(t[5]) < 0 then Fail
      else Ok(HexValue(t[2]) * 4096 + HexValue(t[3]) * 256 + HexValue(t[4]) * 16 + HexValue(t[5]), t[6..])
    else if FromShortEscape(t[1]) < 0 then Fail
    else Ok(FromShortEscape(t[1]), t[2..])
  }

  /** The rest of a string literal whose opening quote has been read. */
  function ReadString(t: Text): (r: Parsed<Text>)
    ensures r.Ok? ==> |r.rest| < |t|
    decreases |t|
  {
    if t == [] then Fail
    else if t[0] == QUOTE then Ok([], t[1..])
    else match ReadUnit(t)
      case Fail => Fail
      case Ok(u, rest) => Prepend([u], ReadString(rest))
  }

  lemma HexRoundTrip(n: nat)
    requires n < 16
    ensures HexValue(HexDigit(n)) == n
  {
  }

  lemma FourDigits(u: CodeUnit)
    ensures u / 4096 * 4096 + u / 256 % 16 * 256 + u / 16 % 16 * 16 + u % 16 == u
  {
    assert u / 256 / 16 == u / 4096 && u / 16 / 16 == u / 256;
  }

  lemma ReadHex(u: CodeUnit, tail: Text)
    ensures ReadUnit(UnicodeEscape(u) + tail) == Ok(u, tail)
  {
    var t := UnicodeEscape(u) + tail;
    assert t[0] == BACKSLASH && t[1] == LETTER_U && t[6..] == tail;
    assert t[2] == HexDigit(u / 4096) && t[3] == HexDigit(u / 256 % 16);
    assert t[4] == HexDigit(u / 16 % 16) && t[5] == HexDigit(u % 16);
    HexRoundTrip(u / 4096);
    HexRoundTrip(u / 256 % 16);
    HexRoundTrip(u / 16 % 16);
    HexRoundTrip(u % 16);
    FourDigits(u);
  }

  lemma ReadEscaped(u: CodeUnit, tail: Text)
    ensures EscapeUnit(u) + tail != [] && (EscapeUnit(u) + tail)[0] != QUOTE
    ensures ReadUnit(EscapeUnit(u) + tail) == Ok(u, tail)
  {
    var t := EscapeUnit(u) + tail;
    if ShortEscape(u) != 0 {
      assert t[2..] == tail;
    } else if u < 32 || IsHigh(u) || IsLow(u) {
      ReadHex(u, tail);
    } else {
      assert t[1..] == tail;
    }
  }

  lemma ReadOne(u: CodeUnit, tail: Text)
    ensures ReadString(EscapeUnit(u) + tail) == Prepend([u], ReadString(tail))
  {
    ReadEscaped(u, tail);
  }

  lemma ReadRaw(u: CodeUnit, tail: Text)
    requires IsHigh(u) || IsLow(u)
    ensures ReadString([u] + tail) == Prepend([u], ReadString(tail))
  {
    assert ([u] + tail)[1..] == tail;
  }

  lemma ReadPair(pair: Text, tail: Text)
    requires |pair| == 2 && PairFirst(pair)
    ensures ReadString(pair + tail) == Prepend(pair, ReadString(tail))
  {
    calc {
      ReadString(pair + tail);
      { assert pair + tail == [pair[0]] + ([pair[1]] + tail); }
      ReadString([pair[0]] + ([pair[1]] + tail));
      { ReadRaw(pair[0], [pair[1]] + tail); ReadRaw(pair[1], tail); }
      Prepend([pair[0]], Prepend([pair[1]], ReadString(tail)));
      { PrependPrepend([pair[0]], [pair[1]], ReadString(tail)); }
      Prepend([pair[0]] + [pair[1]], ReadString(tail));
      { assert [pair[0]] + [pair[1]] == pair; }
      Prepend(pair, ReadString(tail));
    }
  }

  lemma PrependNothing(p: Parsed<Text>)
    ensures Prepend([], p) == p
  {
    assert p.Ok? ==> [] + p.value == p.value;
  }

  lemma PrependPrepend(a: Text, b: Text, p: Parsed<Text>)
    ensures Prepend(a, Prepend(b, p)) == Prepend(a + b, p)
  {
    assert p.Ok? ==> a + (b + p.value) == (a + b) + p.value;
  }

  lemma EscapeStep(s: Text, head: Text, more: Text, tail: Text)
    requires s == head + more
    requires ReadString(Escape(more) + tail) == Prepend(more, ReadString(tail))
    requires ReadString(Escape(s) + tail) == Prepend(head, ReadString(Escape(more) + tail))
    ensures ReadString(Escape(s) + tail) == Prepend(s, ReadString(tail))
  {
    PrependPrepend(head, more, ReadString(tail));
  }

  /** Reading an escaped string gives the string back, whatever follows. */
  lemma {:induction false} ReadEscape(s: Text, tail: Text)
    ensures ReadString(Escape(s) + tail) == Prepend(s, ReadString(tail))
    decreases |s|
  {
    hide ReadString, ReadUnit, Prepend, EscapeUnit;
    if s == [] {
      assert Escape(s) + tail == tail;
      PrependNothing(ReadString(tail));
    } else if PairFirst(s) {
      var head, more := s[..2], s[2..];
      assert Escape(s) + tail == head + (Escape(more) + tail);
      ReadPair(head, Escape(more) + tail);
      ReadEscape(more, tail);
      EscapeStep(s, head, more, tail);
    } else {
      var more := s[1..];
      assert Escape(s) + tail == EscapeUnit(s[0]) + (Escape(more) + tail);
      ReadOne(s[0], Escape(more) + tail);
      ReadEscape(more, tail);
      EscapeStep(s, [s[0]], more, tail);
    }
  }

  lemma ReadClosingQuote(rest: Text)
    ensures ReadString([QUOTE] + rest) == Ok([], rest)
  {
    assert ([QUOTE] + rest)[1..] == rest;
  }

  /** Reading a printed string gives the string back, whatever follows. */
  lemma ReadPrinted(s: Text, rest: Text)
    ensures ReadString(Escape(s) + ([QUOTE] + rest)) == Ok(s, rest)
  {
    ReadEscape(s, [QUOTE] + rest);
    ReadClosingQuote(rest);
    assert s + [] == s;
  }
}
