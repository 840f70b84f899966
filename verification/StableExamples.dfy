/** The texts and hashes of some values, and what the order of keys and the digits
    of a hash mean. */
module StableExamples {
  import opened Texts
  import opened JsonStrings
  import opened StableJson
  import opened StableHash
  import opened Powers

  // ----- The order of keys -----

  /** a is smaller than b from position p on, where they first differ or a ends. */
  ghost predicate SmallerAt(a: Text, b: Text, p: nat) {
    p <= |a| && p < |b| && a[..p] == b[..p] && (p == |a| || a[p] < b[p])
  }

  lemma SameHead(a: Text, b: Text, p: nat)
    requires 0 < p <= |a| && p < |b|
    ensures a[..p] == b[..p] ==> a[0] == b[0]
  {
    assert a[..p][0] == a[0] && b[..p][0] == b[0];
  }

  /** Keys are compared at the first position where they differ; a text comes before
      its continuations. */
  lemma {:induction false} LessIff(a: Text, b: Text)
    ensures Less(a, b) <==> exists p :: SmallerAt(a, b, p)
  {
    if b != [] && a != [] && a[0] == b[0] {
      LessIff(a[1..], b[1..]);
      if p: nat :| SmallerAt(a[1..], b[1..], p) {
        assert a[..p + 1] == [a[0]] + a[1..][..p] && b[..p + 1] == [b[0]] + b[1..][..p];
        assert SmallerAt(a, b, p + 1);
      }
      if p: nat :| SmallerAt(a, b, p) {
        assert p > 0;
        assert a[1..][..p - 1] == a[..p][1..] && b[1..][..p - 1] == b[..p][1..];
        assert SmallerAt(a[1..], b[1..], p - 1);
      }
    } else if Less(a, b) {
      assert SmallerAt(a, b, 0);
    } else {
      forall p: nat
        ensures !SmallerAt(a, b, p)
      {
        if 0 < p <= |a| && p < |b| {
          SameHead(a, b, p);
        }
      }
    }
  }

  // ----- Digits -----

  const DIGITS := "0123456789abcdefghijklmnopqrstuvwxyz"

  /** The place of a digit among the digits; 36 when it is none. */
  function DigitValue(u: CodeUnit): (n: nat)
    ensures n <= 36
  {
    if 48 <= u < 58 then u - 48 else if 97 <= u < 123 then u - 97 + 10 else 36
  }

  lemma DigitsAre(n: nat)
    requires n < 36
    ensures DigitValue(Digit36(n)) == n && Digit36(n) == (DIGITS[n] as int)
  {
  }

  function Value36(t: Text): nat {
    if t == [] then 0 else Value36(t[..|t| - 1]) * 36 + DigitValue(t[|t| - 1])
  }

  /** The text of a hash is its base-36 number: digits only, no zero in front, and
      read as a number it is the hash. */
  lemma {:induction false} Base36Means(n: nat)
    ensures var t := ToBase36(n);
      && (forall i :: 0 <= i < |t| ==> DigitValue(t[i]) < 36)
      && (n > 0 ==> DigitValue(t[0]) > 0)
      && Value36(t) == n
  {
    DigitsAre(n % 36);
    if n < 36 {
      assert ToBase36(n)[..0] == [];
    } else {
      Base36Means(n / 36);
      var t := ToBase36(n);
      assert t[..|t| - 1] == ToBase36(n / 36);
    }
  }

  // ----- Values -----

  lemma {:induction false} XorNothing(k: nat, a: nat)
    requires a < Pow2(k)
    ensures Xor(k, a, 0) == a
  {
    if k == 0 {
    } else {
      XorNothing(k - 1, a / 2);
    }
  }

  lemma XorStep(k: nat, a: nat, b: nat, r: nat)
    requires k > 0 && Xor(k - 1, a / 2, b / 2) == r
    ensures Xor(k, a, b) == (a % 2 + b % 2) % 2 + 2 * r
  {
  }

  lemma HighBits()
    ensures 16922939 < Pow2(25)
  {
    assert Pow2(8) == 256;
    assert Pow2(16) == 65536;
    assert Pow2(24) == 16777216;
  }

  lemma SevenBits()
    ensures Xor(32, 2166136261, 97) == 2166136228
  {
    hide Xor, Pow2;
    HighBits();
    XorNothing(25, 16922939);
    XorStep(26, 33845879, 1, 16922939);
    XorStep(27, 67691758, 3, 33845878);
    XorStep(28, 135383516, 6, 67691757);
    XorStep(29, 270767032, 12, 135383514);
    XorStep(30, 541534065, 24, 270767028);
    XorStep(31, 1083068130, 48, 541534057);
    XorStep(32, 2166136261, 97, 1083068114);
  }

  /** The numbers of the hash: of the empty text, and of `a`. */
  lemma HashesOfShortTexts()
    ensures Fnv1a([]) == 2166136261
    ensures Fnv1a(Ascii("a")) == 3826002220
  {
    hide Xor;
    var a := Ascii("a");
    assert a == [97] && a[..0] == [];
    SevenBits();
    assert 2166136228 * 16777619 % 0x1_0000_0000 == 3826002220;
  }

  lemma PlainText(t: Text)
    requires forall i :: 0 <= i < |t| ==> 48 <= t[i] < 92 || 92 < t[i] < 127
    ensures PrintString(t) == [QUOTE] + (t + [QUOTE])
  {
    Unescaped(t);
  }

  lemma {:induction false} Unescaped(t: Text)
    requires forall i :: 0 <= i < |t| ==> 48 <= t[i] < 92 || 92 < t[i] < 127
    ensures Escape(t) == t
  {
    if t != [] {
      Unescaped(t[1..]);
      assert t == [t[0]] + t[1..];
    }
  }

  /** What stands for a value that has no parts. */
  lemma PrintedLiterals()
    ensures Print(Undefined) == Ascii("undefined") && Print(Null) == Ascii("null")
    ensures Print(Bool(true)) == Ascii("true") && Print(Bool(false)) == Ascii("false")
    ensures Print(MinusZero) == Ascii("0") && Print(NotFinite(NaN)) == Ascii("null")
  {
    assert Ascii("undefined") == UNDEFINED;
    assert Ascii("null") == NULL;
    assert Ascii("true") == TRUE;
    assert Ascii("false") == FALSE;
    assert Ascii("0") == ZERO;
  }

  lemma PrintedList()
    ensures Print(Arr(NoItems)) == Ascii("[]")
    ensures Print(Arr(Item(Null, Item(Bool(true), NoItems)))) == Ascii("[null,true]")
  {
    var (empty, list) := (Ascii("[]"), Ascii("[null,true]"));
    assert empty == [91, 93];
    assert list == [91, 110, 117, 108, 108, 44, 116, 114, 117, 101, 93];
    assert PrintItems(Item(Bool(true), NoItems)) == TRUE;
    assert PrintItems(Item(Null, Item(Bool(true), NoItems))) == NULL + ([COMMA] + TRUE);
    assert Print(Arr(NoItems)) == [91] + ([] + [93]);
  }

  /** A record: the keys sorted, the members separated by commas, no blanks. */
  lemma PrintedRecord()
    ensures Print(Obj(NoMembers)) == Ascii("{}")
    ensures Print(Obj(Member(Ascii("b"), Null, Member(Ascii("a"), Str(Ascii("x")), NoMembers))))
         == Ascii("{\"a\":\"x\",\"b\":null}")
  {
    hide Escape, PrintString, Print, Ascii;
    var (a, b, x) := (Ascii("a"), Ascii("b"), Ascii("x"));
    RecordTexts();
    PlainText(a);
    PlainText(b);
    PlainText(x);
    RecordParts(a, b, x);
    RecordJoins(NULL);
  }

  lemma RecordTexts()
    ensures Ascii("a") == [97] && Ascii("b") == [98] && Ascii("x") == [120] && Ascii("{}") == [123, 125]
    ensures Ascii("{\"a\":\"x\",\"b\":null}")
         == [123, 34, 97, 34, 58, 34, 120, 34, 44, 34, 98, 34, 58, 110, 117, 108, 108, 125]
  {
  }

  lemma RecordJoins(word: Text)
    requires word == [110, 117, 108, 108]
    ensures [123] + ([34] + ([97] + [34]) + ([58] + ([34] + ([120] + [34])))
                     + ([44] + ([34] + ([98] + [34]) + ([58] + word))) + [125])
         == [123, 34, 97, 34, 58, 34, 120, 34, 44, 34, 98, 34, 58, 110, 117, 108, 108, 125]
  {
  }

  lemma RecordParts(a: Text, b: Text, x: Text)
    requires a == [97] && b == [98]
    ensures Print(Obj(Member(b, Null, Member(a, Str(x), NoMembers))))
         == [123] + (PrintString(a) + ([58] + PrintString(x)) + ([44] + (PrintString(b) + ([58] + NULL))) + [125])
    ensures Print(Obj(NoMembers)) == [123] + ([] + [125])
  {
    hide PrintString;
    assert Less(a, b) && !Less(b, a);
    var second := Member(b, Null, NoMembers);
    var first := Member(a, Str(x), NoMembers);
    assert Sort(first) == Insert(a, Str(x), NoMembers) == first;
    assert Insert(b, Null, first) == Member(a, Str(x), Insert(b, Null, NoMembers)) == Member(a, Str(x), second);
    assert Sort(Member(b, Null, Member(a, Str(x), NoMembers))) == Member(a, Str(x), second);
    assert PrintMembers(second) == PrintMember(b, Null);
    assert PrintMembers(Member(a, Str(x), second)) == PrintMember(a, Str(x)) + ([COMMA] + PrintMembers(second));
  }

  lemma Two(a: CodeUnit, b: CodeUnit, t: Text)
    requires |t| == 2 && t[0] == a && t[1] == b
    ensures t == [a, b]
  {
  }

  /** Short escapes: quote, backslash and five controls. */
  lemma PrintedShortEscapes()
    ensures EscapeUnit(34) == Ascii("\\\"") && EscapeUnit(92) == Ascii("\\\\")
    ensures EscapeUnit(8) == Ascii("\\b") && EscapeUnit(9) == Ascii("\\t") && EscapeUnit(10) == Ascii("\\n")
    ensures EscapeUnit(12) == Ascii("\\f") && EscapeUnit(13) == Ascii("\\r")
  {
    Two(92, 34, Ascii("\\\""));
    Two(92, 92, Ascii("\\\\"));
    Two(92, 98, Ascii("\\b"));
    Two(92, 116, Ascii("\\t"));
    Two(92, 110, Ascii("\\n"));
    Two(92, 102, Ascii("\\f"));
    Two(92, 114, Ascii("\\r"));
  }

  /** The other controls, and halves of surrogate pairs, are written as four
      hexadecimal digits; every other unit stands for itself. */
  lemma PrintedHexEscapes(u: CodeUnit)
    ensures (u < 32 && u !in {8, 9, 10, 12, 13}) || 0xD800 <= u < 0xE000 ==>
      EscapeUnit(u) == [92, 117] + Hex4(u)
    ensures u >= 32 && u != 34 && u != 92 && !(0xD800 <= u < 0xE000) ==> EscapeUnit(u) == [u]
    ensures Hex4(0x1F) == Ascii("001f") && Hex4(0xDABC) == Ascii("dabc")
  {
    assert Ascii("001f") == [48, 48, 49, 102];
    assert Ascii("dabc") == [100, 97, 98, 99];
  }

  /** Only a high half before a low half is a pair. */
  lemma PrintedPairs(high: CodeUnit, low: CodeUnit)
    requires 0xD800 <= high < 0xDC00 <= low < 0xE000
    ensures Escape([high, low]) == [high, low]
    ensures Escape([low, high]) == EscapeUnit(low) + EscapeUnit(high)
  {
    var pair, back := [high, low], [low, high];
    assert pair[..2] == pair && pair[2..] == [];
    assert back[1..] == [high] && [high][1..] == [];
    assert Escape([]) == [] && Escape([high]) == EscapeUnit(high);
  }
}
