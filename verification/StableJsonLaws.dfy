/** Reading back what the stable printer writes. */
module StableJsonLaws {
  import opened Wrappers
  import opened Texts
  import opened JsonStrings
  import opened StableJson

  /** What may follow a printed value. */
  predicate Boundary(rest: Text) {
    rest == [] || rest[0] == COMMA || rest[0] == CLOSE_ARRAY || rest[0] == CLOSE_OBJECT
  }

  lemma DropHead(u: CodeUnit, t: Text)
    ensures ([u] + t)[0] == u && ([u] + t)[1..] == t
  {
  }

  lemma WordBack(word: Text, v: Json, rest: Text)
    requires word != []
    ensures ReadWord(word + rest, word, v) == Ok(v, rest)
  {
    assert (word + rest)[|word|..] == rest;
  }

  lemma {:induction false} NumSpanBack(literal: Text, rest: Text)
    requires forall i :: 0 <= i < |literal| ==> IsNumUnit(literal[i])
    requires Boundary(rest)
    ensures NumSpan(literal + rest) == |literal|
  {
    var t := literal + rest;
    var k := NumSpan(t);
    assert |literal| < |t| ==> t[|literal|] == rest[0];
    assert forall i :: 0 <= i < |literal| ==> t[i] == literal[i];
  }

  lemma NumberBack(literal: NumText, rest: Text)
    requires Boundary(rest)
    ensures ReadNumber(literal + rest) == Ok(Num(literal), rest)
  {
    NumSpanBack(literal, rest);
    Halves(literal, rest);
  }

  /** How each printed form starts. */
  lemma FirstUnit(v: Json)
    ensures Print(v) != [] && !Boundary(Print(v))
  {
  }

  lemma LiteralBack(literal: NumText, rest: Text)
    requires Boundary(rest)
    ensures ReadValue(literal + rest) == Ok(Num(literal), rest)
  {
    NumberBack(literal, rest);
    assert IsNumUnit((literal + rest)[0]);
  }

  lemma WordValueBack(v: Json, rest: Text)
    requires v.Undefined? || v.Null? || v.Bool?
    ensures ReadValue(Print(v) + rest) == Ok(v, rest)
  {
    match v
    case Undefined => WordBack(UNDEFINED, v, rest);
    case Null => WordBack(NULL, v, rest);
    case Bool(b) => WordBack(if b then TRUE else FALSE, v, rest);
  }

  lemma ScalarBack(v: Json, rest: Text)
    requires !v.Arr? && !v.Obj? && !v.Str? && Boundary(rest)
    ensures ReadValue(Print(v) + rest) == Ok(Plain(v), rest)
  {
    hide ReadValue;
    match v
    case MinusZero => LiteralBack(ZERO, rest);
    case Num(literal) => LiteralBack(literal, rest);
    case NotFinite(_) => WordValueBack(Null, rest);
    case _ => WordValueBack(v, rest);
  }

  lemma StringBack(s: Text, rest: Text)
    ensures ReadValue(Print(Str(s)) + rest) == Ok(Str(s), rest)
  {
    var t := Escape(s) + ([QUOTE] + rest);
    calc {
      ReadValue(Print(Str(s)) + rest);
      { assert PrintString(s) + rest == [QUOTE] + t; }
      ReadValue([QUOTE] + t);
      { DropHead(QUOTE, t); }
      ReadStringValue(t);
      { ReadPrinted(s, rest); }
      Ok(Str(s), rest);
    }
  }

  /** One step of the entry reader, once the entry itself has been read. */
  lemma EntryStep(t: Text, v: Json, rest: Text)
    requires rest != [] && (rest[0] == COMMA || rest[0] == CLOSE_ARRAY)
    requires t != [] && if t[0] == COMMA || t[0] == CLOSE_ARRAY then v == Undefined && rest == t
                        else ReadValue(t) == Ok(v, rest)
    ensures ReadItems(t) ==
      if rest[0] == CLOSE_ARRAY then Ok(Item(v, NoItems), rest[1..])
      else match ReadItems(rest[1..])
           case Fail => Fail
           case Ok(more, end) => Ok(Item(v, more), end)
  {
  }

  lemma Rejoin(e: Text, p: Text, q: Text)
    ensures (e + ([COMMA] + p)) + q == e + ([COMMA] + (p + q))
  {
  }

  lemma ItemsForm(items: Items)
    requires items.Item?
    ensures items.more.NoItems? ==>
      PrintItems(items) == PrintEntry(items.value) && CanonItems(items) == Item(Canon(items.value), NoItems)
    ensures items.more.Item? ==>
      && PrintItems(items) == PrintEntry(items.value) + ([COMMA] + PrintItems(items.more))
      && CanonItems(items) == Item(Canon(items.value), CanonItems(items.more))
  {
  }

  lemma MembersForm(m: Members)
    requires m.Member?
    ensures m.more.NoMembers? ==>
      PrintMembers(m) == PrintMember(m.key, m.value) && CanonMembers(m) == Member(m.key, Canon(m.value), NoMembers)
    ensures m.more.Member? ==>
      && PrintMembers(m) == PrintMember(m.key, m.value) + ([COMMA] + PrintMembers(m.more))
      && CanonMembers(m) == Member(m.key, Canon(m.value), CanonMembers(m.more))
  {
  }

  lemma {:induction false} ItemsBack(items: Items, rest: Text)
    requires items.Item?
    ensures ReadItems(PrintItems(items) + ([CLOSE_ARRAY] + rest)) == Ok(CanonItems(items), rest)
    decreases ItemsSize(items), 1
  {
    hide ReadItems, Canon, Print, PrintEntry, PrintItems, CanonItems;
    var v := items.value;
    ItemsForm(items);
    if items.more.NoItems? {
      var tail := [CLOSE_ARRAY] + rest;
      DropHead(CLOSE_ARRAY, rest);
      EntryBack(v, tail);
      EntryStep(PrintEntry(v) + tail, Canon(v), tail);
    } else {
      var next := PrintItems(items.more) + ([CLOSE_ARRAY] + rest);
      var tail := [COMMA] + next;
      DropHead(COMMA, next);
      EntryBack(v, tail);
      EntryStep(PrintEntry(v) + tail, Canon(v), tail);
      ItemsBack(items.more, rest);
      Rejoin(PrintEntry(v), PrintItems(items.more), [CLOSE_ARRAY] + rest);
    }
  }

  lemma {:induction false} EntryBack(v: Json, tail: Text)
    requires tail != [] && (tail[0] == COMMA || tail[0] == CLOSE_ARRAY)
    ensures var t := PrintEntry(v) + tail;
      if t[0] == COMMA || t[0] == CLOSE_ARRAY then Canon(v) == Undefined && tail == t
      else ReadValue(t) == Ok(Canon(v), tail)
    decreases Size(v), 1
  {
    if v.Undefined? {
      assert PrintEntry(v) + tail == tail;
    } else {
      FirstUnit(v);
      ValueBack(v, tail);
    }
  }

  lemma MemberStep(key: Text, v: Json, text: Text, rest: Text)
    requires ReadValue(text) == Ok(v, rest) && rest != [] && (rest[0] == COMMA || rest[0] == CLOSE_OBJECT)
    ensures ReadMembers(PrintString(key) + ([COLON] + text)) ==
      if rest[0] == CLOSE_OBJECT then Ok(Member(key, v, NoMembers), rest[1..])
      else match ReadMembers(rest[1..])
           case Fail => Fail
           case Ok(more, end) => Ok(Member(key, v, more), end)
  {
    var tail := [COLON] + text;
    var t := Escape(key) + ([QUOTE] + tail);
    assert PrintString(key) + tail == [QUOTE] + t;
    DropHead(QUOTE, t);
    ReadPrinted(key, tail);
    DropHead(COLON, text);
  }

  lemma MemberText(key: Text, v: Json, tail: Text)
    ensures PrintMember(key, v) + tail == PrintString(key) + ([COLON] + (Print(v) + tail))
  {
  }

  lemma {:induction false} MembersBack(m: Members, rest: Text)
    requires m.Member?
    ensures ReadMembers(PrintMembers(m) + ([CLOSE_OBJECT] + rest)) == Ok(CanonMembers(m), rest)
    decreases MembersSize(m), 1
  {
    hide ReadMembers, ReadValue, Canon, Print, PrintMember, PrintString, PrintMembers, CanonMembers;
    MembersForm(m);
    if m.more.NoMembers? {
      var tail := [CLOSE_OBJECT] + rest;
      DropHead(CLOSE_OBJECT, rest);
      ValueBack(m.value, tail);
      MemberStep(m.key, Canon(m.value), Print(m.value) + tail, tail);
      MemberText(m.key, m.value, tail);
    } else {
      var next := PrintMembers(m.more) + ([CLOSE_OBJECT] + rest);
      var tail := [COMMA] + next;
      DropHead(COMMA, next);
      ValueBack(m.value, tail);
      MemberStep(m.key, Canon(m.value), Print(m.value) + tail, tail);
      MemberText(m.key, m.value, tail);
      MembersBack(m.more, rest);
      Rejoin(PrintMember(m.key, m.value), PrintMembers(m.more), [CLOSE_OBJECT] + rest);
    }
  }

  lemma ArrayOpens(inner: Text)
    ensures ReadValue([OPEN_ARRAY] + inner) == ReadArray(inner)
  {
    DropHead(OPEN_ARRAY, inner);
  }

  lemma ObjectOpens(inner: Text)
    ensures ReadValue([OPEN_OBJECT] + inner) == ReadObject(inner)
  {
    DropHead(OPEN_OBJECT, inner);
  }

  lemma EmptyArray(rest: Text)
    ensures ReadArray([CLOSE_ARRAY] + rest) == Ok(Arr(NoItems), rest)
    ensures ReadObject([CLOSE_OBJECT] + rest) == Ok(Obj(NoMembers), rest)
  {
    DropHead(CLOSE_ARRAY, rest);
    DropHead(CLOSE_OBJECT, rest);
  }

  /** The printed items of an array that does not read as empty start with
      something other than the closing bracket. */
  lemma ItemsStart(items: Items)
    requires items.Item? && items != Item(Undefined, NoItems)
    ensures PrintItems(items) != [] && PrintItems(items)[0] != CLOSE_ARRAY
  {
    if !items.value.Undefined? {
      FirstUnit(items.value);
    }
  }

  lemma {:induction false} ArrayBack(items: Items, rest: Text)
    ensures ReadValue(Print(Arr(items)) + rest) == Ok(Canon(Arr(items)), rest)
    decreases ItemsSize(items), 2
  {
    var tail := [CLOSE_ARRAY] + rest;
    assert Print(Arr(items)) + rest == [OPEN_ARRAY] + (PrintItems(items) + tail);
    ArrayOpens(PrintItems(items) + tail);
    if items.NoItems? || items == Item(Undefined, NoItems) {
      assert PrintItems(items) + tail == tail;
      EmptyArray(rest);
    } else {
      ItemsStart(items);
      ItemsBack(items, rest);
    }
  }

  lemma {:induction false} ObjectBack(members: Members, rest: Text)
    ensures ReadValue(Print(Obj(members)) + rest) == Ok(Canon(Obj(members)), rest)
    decreases MembersSize(members), 2
  {
    var sorted, tail := Sort(members), [CLOSE_OBJECT] + rest;
    assert Print(Obj(members)) + rest == [OPEN_OBJECT] + (PrintMembers(sorted) + tail);
    ObjectOpens(PrintMembers(sorted) + tail);
    if sorted.NoMembers? {
      assert PrintMembers(sorted) + tail == tail;
      EmptyArray(rest);
    } else {
      MembersBack(sorted, rest);
      assert (PrintMembers(sorted) + tail)[0] == QUOTE;
    }
  }

  /** A printed value reads back as its canonical form, whatever follows. */
  lemma {:induction false} ValueBack(v: Json, rest: Text)
    requires Boundary(rest)
    ensures ReadValue(Print(v) + rest) == Ok(Canon(v), rest)
    decreases Size(v), 0
  {
    match v
    case Arr(items) => ArrayBack(items, rest);
    case Obj(members) => ObjectBack(members, rest);
    case Str(s) => StringBack(s, rest);
    case _ => ScalarBack(v, rest);
  }

  /** Parsing what was printed gives the canonical value, at every depth. */
  lemma ParsePrint(v: Json)
    ensures Parse(Print(v)) == Some(Canon(v))
  {
    ValueBack(v, []);
    assert Print(v) + [] == Print(v);
  }
}
