/** What a scope selects: which characters are code, which brace closes it, and
    which match lies in it. */
module ScopeLaws {
  import opened Wrappers
  import opened Texts
  import opened EditEngine

  // ----- Escapes -----

  /** Backslashes in a row that end just before i. */
  function BackslashRun(t: Text, from: nat, i: nat): nat
    requires i <= |t|
  {
    if i <= from || t[i - 1] != BACKSLASH then 0 else 1 + BackslashRun(t, from, i - 1)
  }

  predicate Escaped(t: Text, from: nat, i: nat)
    requires i <= |t|
  {
    BackslashRun(t, from, i) % 2 == 1
  }

  lemma {:induction false} EscapedIff(t: Text, from: nat, i: nat)
    requires i <= |t|
    ensures Lex(t, from, i).escaped <==> Escaped(t, from, i)
  {
    if i <= from {
    } else {
      EscapedIff(t, from, i - 1);
    }
  }

  // ----- Strings -----

  /** A quote of code at j, and no unescaped quote of the same kind between it and
      i. */
  ghost predicate Quoted(t: Text, from: nat, j: nat, i: nat)
    requires i <= |t|
  {
    && from <= j < i && t[j] in QUOTES && IsCode(t, from, j)
    && forall k :: j < k < i && t[k] == t[j] ==> Escaped(t, from, k)
  }

  ghost predicate InString(t: Text, from: nat, i: nat, q: CodeUnit)
    requires i <= |t|
  {
    exists j :: 0 <= j < i && t[j] == q && Quoted(t, from, j, i)
  }

  lemma StringOpens(t: Text, from: nat, i: nat)
    requires from <= i < |t| && IsCode(t, from, i) && t[i] in QUOTES
    ensures Lex(t, from, i + 1) == Lexer(Some(t[i]), false) && InString(t, from, i + 1, t[i])
  {
    assert Quoted(t, from, i, i + 1);
  }

  lemma StringGoesOn(t: Text, from: nat, i: nat, q: CodeUnit)
    requires from <= i < |t| && (t[i] == q ==> Escaped(t, from, i))
    ensures InString(t, from, i, q) ==> InString(t, from, i + 1, q)
  {
    if j :| 0 <= j < i && t[j] == q && Quoted(t, from, j, i) {
      assert Quoted(t, from, j, i + 1);
    }
  }

  lemma StringComesFrom(t: Text, from: nat, i: nat, q: CodeUnit)
    requires from <= i < |t| && InString(t, from, i + 1, q)
    ensures (t[i] == q && q in QUOTES && IsCode(t, from, i))
         || (InString(t, from, i, q) && (t[i] == q ==> Escaped(t, from, i)))
  {
    var j :| 0 <= j < i + 1 && t[j] == q && Quoted(t, from, j, i + 1);
    if j < i {
      assert Quoted(t, from, j, i);
    }
  }

  lemma OnlyQuotes(t: Text, from: nat, i: nat, q: CodeUnit)
    requires i <= |t| && InString(t, from, i, q)
    ensures q in QUOTES
  {
  }

  /** The scanner is inside a string with quote q iff a quote q of code came before
      and no unescaped q since. */
  lemma {:induction false} InStringIff(t: Text, from: nat, i: nat)
    requires from <= i <= |t|
    ensures forall q: CodeUnit :: Lex(t, from, i).quote == Some(q) <==> InString(t, from, i, q)
  {
    if i == from {
    } else {
      InStringIff(t, from, i - 1);
      EscapedIff(t, from, i - 1);
      forall q: CodeUnit
        ensures Lex(t, from, i).quote == Some(q) <==> InString(t, from, i, q)
      {
        InStringStep(t, from, i - 1, q);
      }
    }
  }

  lemma InStringStep(t: Text, from: nat, i: nat, q: CodeUnit)
    requires from <= i < |t| && (Lex(t, from, i).escaped <==> Escaped(t, from, i))
    requires forall c: CodeUnit :: Lex(t, from, i).quote == Some(c) <==> InString(t, from, i, c)
    ensures Lex(t, from, i + 1).quote == Some(q) <==> InString(t, from, i + 1, q)
  {
    hide InString, Escaped;
    var l := Lex(t, from, i);
    if l.quote == Some(q) {
      OnlyQuotes(t, from, i, q);
    }
    if InString(t, from, i + 1, q) {
      StringComesFrom(t, from, i, q);
    }
    if t[i] in QUOTES && IsCode(t, from, i) {
      StringOpens(t, from, i);
    }
    if t[i] == q ==> Escaped(t, from, i) {
      StringGoesOn(t, from, i, q);
    }
  }

  /** A character is no code iff it is escaped, that is, an odd number of
      backslashes ends just before it, or a quote of code came before it and none
      of the same kind that is not escaped since. */
  lemma CodeIff(t: Text, from: nat, i: nat)
    requires from <= i < |t|
    ensures !IsCode(t, from, i) <==> Escaped(t, from, i) || exists j :: 0 <= j < i && Quoted(t, from, j, i)
  {
    EscapedIff(t, from, i);
    InStringIff(t, from, i);
    if !IsCode(t, from, i) && !Escaped(t, from, i) {
      var q := Lex(t, from, i).quote.value;
      assert InString(t, from, i, q);
    }
    if j :| 0 <= j < i && Quoted(t, from, j, i) {
      assert InString(t, from, i, t[j]);
    }
  }

  // ----- A string changes no balance -----

  /** A string from the quote at i to the next unescaped quote of its kind at j. */
  ghost predicate IsString(t: Text, from: nat, i: nat, j: nat) {
    i < j < |t| && Quoted(t, from, i, j) && t[j] == t[i] && !Escaped(t, from, j)
  }

  lemma {:induction false} NoCodeInside(t: Text, from: nat, i: nat, j: nat, k: nat)
    requires IsString(t, from, i, j) && i < k <= j
    ensures !IsCode(t, from, k) && Balance(t, from, k) == Balance(t, from, i)
    decreases k
  {
    assert Quoted(t, from, i, k);
    CodeIff(t, from, k);
    if k > i + 1 {
      NoCodeInside(t, from, i, j, k - 1);
    }
  }

  /** Whatever other quotes and braces a string holds, the balance after it is the
      balance before it, and code goes on. */
  lemma StringKeepsBalance(t: Text, from: nat, i: nat, j: nat)
    requires IsString(t, from, i, j)
    ensures Balance(t, from, j + 1) == Balance(t, from, i) && Lex(t, from, j + 1) == Lexer(None, false)
  {
    NoCodeInside(t, from, i, j, j);
    EscapedIff(t, from, j);
    InStringIff(t, from, j);
    assert InString(t, from, j, t[i]);
  }

  lemma {:induction false} NoEscapes(t: Text, i: nat)
    requires i <= |t| && BACKSLASH !in t
    ensures !Escaped(t, 0, i)
  {
  }

  /** A string in braces, however many braces and other quotes it holds: the last
      brace closes the first. */
  lemma BracedString(q: CodeUnit, body: Text)
    requires q in QUOTES && q !in body && BACKSLASH !in body
    ensures var t := [OPEN, q] + body + [q, CLOSE]; ClosingBrace(t, 0) == Some(|t|)
  {
    var t := [OPEN, q] + body + [q, CLOSE];
    var j := |body| + 2;
    assert t[1] == t[j] == q && t[j + 1] == CLOSE;
    assert forall k :: 1 < k < j ==> t[k] == body[k - 2] && t[k] in body;
    assert forall k :: 0 <= k < |t| ==> t[k] in body || t[k] in [OPEN, q, CLOSE];
    NoEscapes(t, j);
    assert t[0] == OPEN && IsCode(t, 0, 0) && Lex(t, 0, 1) == Lexer(None, false);
    assert Balance(t, 0, 0) == 0 && Balance(t, 0, 1) == 1;
    assert IsString(t, 0, 1, j);
    StringKeepsBalance(t, 0, 1, j);
    assert ClosesAt(t, 0, j + 1);
    forall k | 0 <= k <= j
      ensures !ClosesAt(t, 0, k)
    {
      if 1 < k <= j {
        NoCodeInside(t, 0, 1, j, k);
      }
    }
  }

  /** In the text {"a'}"} the brace at 6 closes the one at 0. */
  lemma ApostropheInString()
    ensures ClosingBrace(Ascii("{\"a'}\"}"), 0) == Some(7)
  {
    var body := [97, 39, 125];
    assert Ascii("{\"a'}\"}") == [OPEN, 34] + body + [34, CLOSE];
    BracedString(34, body);
  }

  // ----- The range and the match of a scope -----

  /** Start i is the first with a closing brace. */
  ghost predicate FirstClosed(t: Text, starts: seq<nat>, i: int) {
    && 0 <= i < |starts| && ClosingBrace(t, starts[i]).Some?
    && forall k :: 0 <= k < i ==> ClosingBrace(t, starts[k]).None?
  }

  /** The range runs from the first matched start that has a closing brace to just
      after that brace; there is none iff no start has one. */
  lemma {:induction false} ScopeRangeIs(t: Text, starts: seq<nat>)
    ensures ScopeRange(t, starts).None? <==> forall i :: 0 <= i < |starts| ==> ClosingBrace(t, starts[i]).None?
    ensures forall i :: FirstClosed(t, starts, i) ==>
      ScopeRange(t, starts) == Some((starts[i], ClosingBrace(t, starts[i]).value))
  {
    if starts == [] {
    } else {
      var rest := starts[1..];
      ScopeRangeIs(t, rest);
      if ClosingBrace(t, starts[0]).None? {
        forall i | FirstClosed(t, starts, i)
          ensures ScopeRange(t, starts) == Some((starts[i], ClosingBrace(t, starts[i]).value))
        {
          assert i > 0 && rest[i - 1] == starts[i];
          assert forall k :: 0 <= k < i - 1 ==> rest[k] == starts[k + 1];
          assert FirstClosed(t, rest, i - 1);
        }
        assert forall i :: 0 <= i < |rest| ==> rest[i] == starts[i + 1];
        assert forall i :: 0 < i < |starts| ==> starts[i] == rest[i - 1];
      } else {
        assert forall i :: FirstClosed(t, starts, i) ==> !(0 < i);
      }
    }
  }

  /** The search occurs at p and lies inside the range. */
  predicate OccursWithin(t: Text, search: Text, start: nat, end: nat, p: int) {
    start <= p <= end - |search| && OccursAt(t, search, p)
  }

  lemma WithinIff(t: Text, search: Text, start: nat, end: nat, p: int)
    requires start <= end <= |t|
    ensures OccursAt(t[start..end], search, p - start) <==> OccursWithin(t, search, start, end, p)
  {
    if start <= p <= end - |search| {
      var inside, outside := t[start..end][p - start..p - start + |search|], t[p..p + |search|];
      assert forall k :: 0 <= k < |search| ==> inside[k] == outside[k];
    }
  }

  /** A scope selects position p iff it has a range and p is the only position at
      which the search lies inside it. */
  lemma ScopeSelectsIff(t: Text, search: Text, starts: seq<nat>, p: nat)
    ensures ScopePosition(t, search, starts) == Some(p) <==>
      ScopeRange(t, starts).Some? &&
      var (start, end) := ScopeRange(t, starts).value;
      OccursWithin(t, search, start, end, p) && forall q :: OccursWithin(t, search, start, end, q) ==> q == p
  {
    ScopeRangeBounds(t, starts);
    if ScopeRange(t, starts).Some? {
      var (start, end) := ScopeRange(t, starts).value;
      var slice := t[start..end];
      if |Occurrences(slice, search)| == 1 {
        OnlyWithin(t, search, start, end, start + Sole(slice, search));
        assert OccursWithin(t, search, start, end, start + Sole(slice, search));
      }
      if OccursWithin(t, search, start, end, p) && forall q :: OccursWithin(t, search, start, end, q) ==> q == p {
        OnlyWithin(t, search, start, end, p);
      }
    }
  }

  lemma OnlyWithin(t: Text, search: Text, start: nat, end: nat, p: nat)
    requires start <= end <= |t|
    ensures Occurrences(t[start..end], search) == {p - start} <==>
      OccursWithin(t, search, start, end, p) && forall q :: OccursWithin(t, search, start, end, q) ==> q == p
  {
    var found := Occurrences(t[start..end], search);
    forall q
      ensures q in found <==> OccursWithin(t, search, start, end, q + start)
    {
      WithinIff(t, search, start, end, q + start);
    }
    if found == {p - start} {
      assert p - start in found;
      forall q | OccursWithin(t, search, start, end, q)
        ensures q == p
      {
        assert (q - start) + start == q && q - start in found;
      }
    }
    if OccursWithin(t, search, start, end, p) && forall q :: OccursWithin(t, search, start, end, q) ==> q == p {
      assert (p - start) + start == p && p - start in found;
      assert forall r :: r in found ==> r + start == p;
    }
  }
}
