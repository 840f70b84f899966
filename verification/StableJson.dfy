/** The key-sorting printer of values, and a reader for what it prints. */
module StableJson {
  import opened Wrappers
  import opened Texts
  import opened JsonStrings

  const COMMA: CodeUnit := 44
  const COLON: CodeUnit := 58
  const OPEN_ARRAY: CodeUnit := 91
  const CLOSE_ARRAY: CodeUnit := 93
  const OPEN_OBJECT: CodeUnit := 123
  const CLOSE_OBJECT: CodeUnit := 125
  const NULL: Text := [110, 117, 108, 108]
  const TRUE: Text := [116, 114, 117, 101]
  const FALSE: Text := [102, 97, 108, 115, 101]
  const UNDEFINED: Text := [117, 110, 100, 101, 102, 105, 110, 101, 100]

  /** Digits, sign, point and exponent letters. */
  predicate IsNumUnit(u: CodeUnit) {
    48 <= u < 58 || u == 45 || u == 43 || u == 46 || u == 101 || u == 69
  }

  predicate IsNumText(t: Text) {
    t != [] && forall i :: 0 <= i < |t| ==> IsNumUnit(t[i])
  }

  /** The decimal form of a finite number. */
  type NumText = t: Text | IsNumText(t) witness [48]

  const ZERO: NumText := [48]

  datatype NonFinite = NaN | Infinity | MinusInfinity

  /** A value. A finite number other than -0 is its decimal form, which JavaScript
      makes a different text for every number. `Undefined` and the numbers that
      are not finite are no JSON, but the printer meets them. */
  datatype Json =
    | Undefined
    | Null
    | Bool(b: bool)
    | Num(literal: NumText)
    | MinusZero
    | NotFinite(number: NonFinite)
    | Str(s: Text)
    | Arr(items: Items)
    | Obj(members: Members)

  datatype Items = NoItems | Item(value: Json, more: Items)

  /** Own properties in insertion order. */
  datatype Members = NoMembers | Member(key: Text, value: Json, more: Members)

  // ----- Sizes, for recursion over sorted members -----

  function Size(v: Json): nat {
    match v
    case Arr(items) => 1 + ItemsSize(items)
    case Obj(members) => 1 + MembersSize(members)
    case _ => 1
  }

  function ItemsSize(items: Items): nat {
    match items
    case NoItems => 0
    case Item(v, more) => 1 + Size(v) + ItemsSize(more)
  }

  function MembersSize(m: Members): nat {
    match m
    case NoMembers => 0
    case Member(_, v, more) => 1 + Size(v) + MembersSize(more)
  }

  // ----- Sorting by code units -----

  predicate Less(a: Text, b: Text) {
    b != [] && (a == [] || a[0] < b[0] || (a[0] == b[0] && Less(a[1..], b[1..])))
  }

  function Insert(key: Text, value: Json, m: Members): (r: Members)
    ensures MembersSize(r) == 1 + Size(value) + MembersSize(m)
  {
    match m
    case NoMembers => Member(key, value, NoMembers)
    case Member(k, v, more) =>
      if Less(k, key) then Member(k, v, Insert(key, value, more)) else Member(key, value, m)
  }

  /** Members in the order of `Object.keys(record).sort()`. */
  function Sort(m: Members): (r: Members)
    ensures MembersSize(r) == MembersSize(m)
  {
    match m
    case NoMembers => NoMembers
    case Member(k, v, more) => Insert(k, v, Sort(more))
  }

  // ----- Printing -----

  function Print(v: Json): Text
    decreases Size(v), 0
  {
    match v
    case Undefined => UNDEFINED
    case Null => NULL
    case Bool(b) => if b then TRUE else FALSE
    case Num(literal) => literal
    case MinusZero => ZERO
    case NotFinite(_) => NULL
    case Str(s) => PrintString(s)
    case Arr(items) => [OPEN_ARRAY] + (PrintItems(items) + [CLOSE_ARRAY])
    case Obj(members) => [OPEN_OBJECT] + (PrintMembers(Sort(members)) + [CLOSE_OBJECT])
  }

  /** `join` writes an undefined entry as nothing. */
  function PrintEntry(v: Json): Text
    decreases Size(v), 1
  {
    if v.Undefined? then [] else Print(v)
  }

  function PrintItems(items: Items): Text
    decreases ItemsSize(items), 0
  {
    match items
    case NoItems => []
    case Item(v, NoItems) => PrintEntry(v)
    case Item(v, more) => PrintEntry(v) + ([COMMA] + PrintItems(more))
  }

  function PrintMember(key: Text, v: Json): Text
    decreases Size(v), 1
  {
    PrintString(key) + ([COLON] + Print(v))
  }

  function PrintMembers(m: Members): Text
    decreases MembersSize(m), 0
  {
    match m
    case NoMembers => []
    case Member(k, v, NoMembers) => PrintMember(k, v)
    case Member(k, v, more) => PrintMember(k, v) + ([COMMA] + PrintMembers(more))
  }

  /** `stableStringify`: undefined itself has no text. */
  function StableStringify(v: Json): Option<Text> {
    if v.Undefined? then None else Some(Print(v))
  }

  // ----- The value that a printed text stands for -----

  /** What a value without parts reads as: -0 as 0, a number that is not finite as
      null. */
  function Plain(v: Json): Json {
    match v
    case MinusZero => Num(ZERO)
    case NotFinite(_) => Null
    case _ => v
  }

  /** Keys sorted at every depth; the array of one undefined entry reads as the
      empty array. */
  function Canon(v: Json): Json
    decreases Size(v)
  {
    match v
    case Arr(items) => if items == Item(Undefined, NoItems) then Arr(NoItems) else Arr(CanonItems(items))
    case Obj(members) => Obj(CanonMembers(Sort(members)))
    case _ => Plain(v)
  }

  function CanonItems(items: Items): Items
    decreases ItemsSize(items)
  {
    match items
    case NoItems => NoItems
    case Item(v, more) => Item(Canon(v), CanonItems(more))
  }

  function CanonMembers(m: Members): Members
    decreases MembersSize(m)
  {
    match m
    case NoMembers => NoMembers
    case Member(k, v, more) => Member(k, Canon(v), CanonMembers(more))
  }

  // ----- Reading -----

  function NumSpan(t: Text): (k: nat)
    ensures k <= |t|
    ensures forall i :: 0 <= i < k ==> IsNumUnit(t[i])
    ensures k < |t| ==> !IsNumUnit(t[k])
  {
    if t == [] || !IsNumUnit(t[0]) then 0 else 1 + NumSpan(t[1..])
  }

  function ReadWord(t: Text, word: Text, v: Json): (r: Parsed<Json>)
    requires word != []
    ensures r.Ok? ==> |r.rest| < |t|
  {
    if word <= t then Ok(v, t[|word|..]) else Fail
  }

  function ReadNumber(t: Text): (r: Parsed<Json>)
    ensures r.Ok? ==> |r.rest| < |t|
  {
    var k := NumSpan(t);
    if k > 0 && IsNumText(t[..k]) then Ok(Num(t[..k]), t[k..]) else Fail
  }

  function ReadStringValue(t: Text): (r: Parsed<Json>)
    ensures r.Ok? ==> |r.rest| < |t|
  {
    match ReadString(t)
    case Fail => Fail
    case Ok(s, rest) => Ok(Str(s), rest)
  }

  function ReadArray(t: Text): (r: Parsed<Json>)
    ensures r.Ok? ==> |r.rest| < |t|
    decreases |t|, 2
  {
    if t != [] && t[0] == CLOSE_ARRAY then Ok(Arr(NoItems), t[1..])
    else match ReadItems(t)
      case Fail => Fail
      case Ok(items, rest) => Ok(Arr(items), rest)
  }

  function ReadObject(t: Text): (r: Parsed<Json>)
    ensures r.Ok? ==> |r.rest| < |t|
    decreases |t|, 2
  {
    if t != [] && t[0] == CLOSE_OBJECT then Ok(Obj(NoMembers), t[1..])
    else match ReadMembers(t)
      case Fail => Fail
      case Ok(members, rest) => Ok(Obj(members), rest)
  }

  function ReadValue(t: Text): (r: Parsed<Json>)
    ensures r.Ok? ==> |r.rest| < |t|
    decreases |t|, 0
  {
    if t == [] then Fail
    else if t[0] == QUOTE then ReadStringValue(t[1..])
    else if t[0] == OPEN_ARRAY then ReadArray(t[1..])
    else if t[0] == OPEN_OBJECT then ReadObject(t[1..])
    else if t[0] == NULL[0] then ReadWord(t, NULL, Null)
    else if t[0] == TRUE[0] then ReadWord(t, TRUE, Bool(true))
    else if t[0] == FALSE[0] then ReadWord(t, FALSE, Bool(false))
    else if t[0] == UNDEFINED[0] then ReadWord(t, UNDEFINED, Undefined)
    else ReadNumber(t)
  }

  /** Entries up to and with the closing bracket. */
  function ReadItems(t: Text): (r: Parsed<Items>)
    ensures r.Ok? ==> |r.rest| < |t|
    decreases |t|, 1
  {
    match if t != [] && (t[0] == COMMA || t[0] == CLOSE_ARRAY) then Ok(Undefined, t) else ReadValue(t)
    case Fail => Fail
    case Ok(v, rest) =>
      if rest == [] then Fail
      else if rest[0] == CLOSE_ARRAY then Ok(Item(v, NoItems), rest[1..])
      else if rest[0] == COMMA then
        match ReadItems(rest[1..])
        case Fail => Fail
        case Ok(more, end) => Ok(Item(v, more), end)
      else Fail
  }

  /** Members up to and with the closing brace. */
  function ReadMembers(t: Text): (r: Parsed<Members>)
    ensures r.Ok? ==> |r.rest| < |t|
    decreases |t|, 1
  {
    if t == [] || t[0] != QUOTE then Fail
    else match ReadString(t[1..])
      case Fail => Fail
      case Ok(key, colon) =>
        if colon == [] || colon[0] != COLON then Fail
        else match ReadValue(colon[1..])
          case Fail => Fail
          case Ok(v, rest) =>
            if rest == [] then Fail
            else if rest[0] == CLOSE_OBJECT then Ok(Member(key, v, NoMembers), rest[1..])
            else if rest[0] == COMMA then
              match ReadMembers(rest[1..])
              case Fail => Fail
              case Ok(more, end) => Ok(Member(key, v, more), end)
            else Fail
  }

  /** The whole text as one value. */
  function Parse(t: Text): Option<Json> {
    var r := ReadValue(t);
    if r.Ok? && r.rest == [] then Some(r.value) else None
  }
}
