/** When two values print alike. */
module StableJsonCanon {
  import opened Texts
  import opened StableJson
  import opened StableJsonLaws

  ghost predicate HasKey(m: Members, k: Text) {
    m.Member? && (m.key == k || HasKey(m.more, k))
  }

  ghost function Lookup(m: Members, k: Text): (v: Json)
    requires HasKey(m, k)
    ensures Size(v) < MembersSize(m)
  {
    if m.key == k then m.value else Lookup(m.more, k)
  }

  /** No object holds a key twice. */
  ghost predicate Valid(v: Json) {
    match v
    case Arr(items) => ValidItems(items)
    case Obj(members) => ValidMembers(members)
    case _ => true
  }

  ghost predicate ValidItems(items: Items) {
    items.Item? ==> Valid(items.value) && ValidItems(items.more)
  }

  ghost predicate ValidMembers(m: Members) {
    m.Member? ==> Valid(m.value) && !HasKey(m.more, m.key) && ValidMembers(m.more)
  }

  function Tidy(items: Items): (r: Items)
    ensures ItemsSize(r) <= ItemsSize(items)
  {
    if items == Item(Undefined, NoItems) then NoItems else items
  }

  /** Equal up to the order of keys; -0 counts as 0, a number that is not finite as
      null, and the array of one undefined entry as the empty array. */
  ghost predicate SameValue(v: Json, w: Json)
    decreases Size(v)
  {
    if v.Arr? && w.Arr? then SameItems(Tidy(v.items), Tidy(w.items))
    else if v.Obj? && w.Obj? then SameMembers(v.members, w.members)
    else Plain(v) == Plain(w)
  }

  ghost predicate SameItems(a: Items, b: Items)
    decreases ItemsSize(a)
  {
    if a.Item? && b.Item? then SameValue(a.value, b.value) && SameItems(a.more, b.more) else a == b
  }

  /** The same keys with the same values under them. */
  ghost predicate SameMembers(m: Members, n: Members)
    decreases MembersSize(m)
  {
    && (forall k :: HasKey(m, k) <==> HasKey(n, k))
    && (forall k :: HasKey(m, k) && HasKey(n, k) ==> SameValue(Lookup(m, k), Lookup(n, k)))
  }

  // ----- The order of keys -----

  lemma {:induction false} LessTransitive(a: Text, b: Text, c: Text)
    requires Less(a, b) && Less(b, c)
    ensures Less(a, c)
    decreases |a|
  {
    if a != [] && a[0] == b[0] && b[0] == c[0] {
      LessTransitive(a[1..], b[1..], c[1..]);
    }
  }

  lemma {:induction false} LessTotal(a: Text, b: Text)
    ensures Less(a, b) || a == b || Less(b, a)
    decreases |a|
  {
    if a != [] && b != [] && a[0] == b[0] {
      LessTotal(a[1..], b[1..]);
      assert a == [a[0]] + a[1..] && b == [b[0]] + b[1..];
    }
  }

  lemma {:induction false} LessIrreflexive(a: Text)
    ensures !Less(a, a)
    decreases |a|
  {
    if a == [] {
    } else {
      LessIrreflexive(a[1..]);
    }
  }

  // ----- Sorting keeps the members and orders the keys -----

  ghost predicate Sorted(m: Members) {
    m.Member? && m.more.Member? ==> Less(m.key, m.more.key) && Sorted(m.more)
  }

  lemma {:induction false} HeadIsLeast(m: Members, k: Text)
    requires m.Member? && Sorted(m) && HasKey(m.more, k)
    ensures Less(m.key, k)
  {
    if m.more.key == k {
    } else {
      HeadIsLeast(m.more, k);
      LessTransitive(m.key, m.more.key, k);
    }
  }

  lemma {:induction false} InsertKeeps(key: Text, value: Json, m: Members)
    requires !HasKey(m, key)
    ensures forall k :: HasKey(Insert(key, value, m), k) <==> k == key || HasKey(m, k)
    ensures forall k :: HasKey(Insert(key, value, m), k) ==>
      Lookup(Insert(key, value, m), k) == if k == key then value else Lookup(m, k)
  {
    if m.Member? && Less(m.key, key) {
      InsertKeeps(key, value, m.more);
    }
  }

  lemma {:induction false} InsertSorted(key: Text, value: Json, m: Members)
    requires Sorted(m) && !HasKey(m, key)
    ensures Sorted(Insert(key, value, m))
    ensures Insert(key, value, m).key == if m.Member? && Less(m.key, key) then m.key else key
  {
    if m.Member? {
      LessTotal(m.key, key);
      if Less(m.key, key) {
        InsertSorted(key, value, m.more);
      }
    }
  }

  lemma {:induction false} InsertValid(key: Text, value: Json, m: Members)
    requires ValidMembers(m) && Valid(value) && !HasKey(m, key)
    ensures ValidMembers(Insert(key, value, m))
  {
    if m.Member? && Less(m.key, key) {
      InsertValid(key, value, m.more);
      InsertKeeps(key, value, m.more);
    }
  }

  /** The sorted members have ascending keys and are the same members. */
  lemma {:induction false} SortSorts(m: Members)
    requires ValidMembers(m)
    ensures Sorted(Sort(m)) && ValidMembers(Sort(m))
    ensures forall k :: HasKey(Sort(m), k) <==> HasKey(m, k)
    ensures forall k :: HasKey(m, k) ==> Lookup(Sort(m), k) == Lookup(m, k)
  {
    if m.Member? {
      SortSorts(m.more);
      InsertKeeps(m.key, m.value, Sort(m.more));
      InsertSorted(m.key, m.value, Sort(m.more));
      InsertValid(m.key, m.value, Sort(m.more));
    }
  }

  // ----- Values that are the same print the same -----

  lemma {:induction false} SortedFirstKey(a: Members, b: Members)
    requires Sorted(a) && Sorted(b) && a.Member? && b.Member?
    requires HasKey(b, a.key) && HasKey(a, b.key)
    ensures a.key == b.key
  {
    if a.key == b.key {
    } else {
      HeadIsLeast(a, b.key);
      HeadIsLeast(b, a.key);
      LessTransitive(a.key, b.key, a.key);
      LessIrreflexive(a.key);
    }
  }

  lemma SameTails(a: Members, b: Members)
    requires ValidMembers(a) && ValidMembers(b) && a.Member? && b.Member? && a.key == b.key
    requires SameMembers(a, b)
    ensures SameMembers(a.more, b.more) && SameValue(a.value, b.value)
  {
    forall k
      ensures HasKey(a.more, k) <==> HasKey(b.more, k)
      ensures HasKey(a.more, k) && HasKey(b.more, k) ==> SameValue(Lookup(a.more, k), Lookup(b.more, k))
    {
      assert HasKey(a, k) <==> HasKey(b, k);
    }
    assert HasKey(a, a.key) && HasKey(b, a.key);
    assert Lookup(a, a.key) == a.value;
  }

  lemma {:induction false} SamePrint(v: Json, w: Json)
    requires Valid(v) && Valid(w) && SameValue(v, w)
    ensures Print(v) == Print(w)
    decreases Size(v), 0
  {
    if v.Arr? && w.Arr? {
      SameItemsPrint(Tidy(v.items), Tidy(w.items));
      assert PrintItems(Item(Undefined, NoItems)) == [];
    } else if v.Obj? && w.Obj? {
      SortSorts(v.members);
      SortSorts(w.members);
      SortedPrint(Sort(v.members), Sort(w.members));
    }
  }

  lemma {:induction false} SameItemsPrint(a: Items, b: Items)
    requires ValidItems(a) && ValidItems(b) && SameItems(a, b)
    ensures PrintItems(a) == PrintItems(b)
    decreases ItemsSize(a), 0
  {
    if a.Item? && b.Item? {
      SamePrint(a.value, b.value);
      SameItemsPrint(a.more, b.more);
    }
  }

  lemma {:induction false} SortedPrint(a: Members, b: Members)
    requires Sorted(a) && Sorted(b) && ValidMembers(a) && ValidMembers(b) && SameMembers(a, b)
    ensures PrintMembers(a) == PrintMembers(b)
    decreases MembersSize(a), 0
  {
    if a.Member? && b.Member? {
      assert HasKey(a, a.key) && HasKey(b, b.key);
      SortedFirstKey(a, b);
      SameTails(a, b);
      SamePrint(a.value, b.value);
      SortedPrint(a.more, b.more);
    } else if a.Member? {
      assert HasKey(a, a.key);
    } else if b.Member? {
      assert HasKey(b, b.key);
    }
  }

  // ----- Values with one canonical form are the same -----

  lemma {:induction false} CanonSame(v: Json, w: Json)
    requires Valid(v) && Valid(w) && Canon(v) == Canon(w)
    ensures SameValue(v, w)
    decreases Size(v), 1
  {
    if v.Arr? && w.Arr? {
      CanonTidy(v.items);
      CanonTidy(w.items);
      CanonItemsSame(Tidy(v.items), Tidy(w.items));
    } else if v.Obj? && w.Obj? {
      SortSorts(v.members);
      SortSorts(w.members);
      CanonMembersSame(Sort(v.members), Sort(w.members));
    }
  }

  lemma CanonTidy(items: Items)
    ensures Canon(Arr(items)) == Arr(CanonItems(Tidy(items)))
  {
  }

  lemma {:induction false} CanonItemsSame(a: Items, b: Items)
    requires ValidItems(a) && ValidItems(b) && CanonItems(a) == CanonItems(b)
    ensures SameItems(a, b)
    decreases ItemsSize(a), 1
  {
    if a.Item? && b.Item? {
      CanonSame(a.value, b.value);
      CanonItemsSame(a.more, b.more);
    }
  }

  lemma {:induction false} CanonMembersSame(a: Members, b: Members)
    requires ValidMembers(a) && ValidMembers(b) && CanonMembers(a) == CanonMembers(b)
    ensures SameMembers(a, b)
    decreases MembersSize(a), 1
  {
    if a.Member? && b.Member? {
      CanonSame(a.value, b.value);
      CanonMembersSame(a.more, b.more);
      forall k
        ensures HasKey(a, k) <==> HasKey(b, k)
        ensures HasKey(a, k) && HasKey(b, k) ==> SameValue(Lookup(a, k), Lookup(b, k))
      {
        assert HasKey(a.more, k) <==> HasKey(b.more, k);
      }
    }
  }

  /** Two values print the same text iff they are equal up to key order, up to the
      array of one undefined entry, and up to -0 and numbers that are not
      finite. */
  lemma PrintIffSame(v: Json, w: Json)
    requires Valid(v) && Valid(w)
    ensures Print(v) == Print(w) <==> SameValue(v, w)
  {
    if Print(v) == Print(w) {
      ParsePrint(v);
      ParsePrint(w);
      CanonSame(v, w);
    }
    if SameValue(v, w) {
      SamePrint(v, w);
    }
  }

  // ----- JSON values proper -----

  /** No undefined and no infinite or undefined number anywhere inside. */
  ghost predicate IsJson(v: Json) {
    match v
    case Undefined => false
    case NotFinite(_) => false
    case Arr(items) => AllJson(items)
    case Obj(members) => AllJsonMembers(members)
    case _ => true
  }

  ghost predicate AllJson(items: Items) {
    items.Item? ==> IsJson(items.value) && AllJson(items.more)
  }

  ghost predicate AllJsonMembers(m: Members) {
    m.Member? ==> IsJson(m.value) && AllJsonMembers(m.more)
  }

  /** Equal up to key order; -0 and 0 are equal numbers. */
  ghost predicate EqualUpToOrder(v: Json, w: Json)
    decreases Size(v)
  {
    if v.Arr? && w.Arr? then EqualItems(v.items, w.items)
    else if v.Obj? && w.Obj? then
      && (forall k :: HasKey(v.members, k) <==> HasKey(w.members, k))
      && (forall k :: HasKey(v.members, k) && HasKey(w.members, k) ==>
            EqualUpToOrder(Lookup(v.members, k), Lookup(w.members, k)))
    else Plain(v) == Plain(w)
  }

  ghost predicate EqualItems(a: Items, b: Items)
    decreases ItemsSize(a)
  {
    if a.Item? && b.Item? then EqualUpToOrder(a.value, b.value) && EqualItems(a.more, b.more) else a == b
  }

  lemma {:induction false} JsonMember(m: Members, k: Text)
    requires AllJsonMembers(m) && HasKey(m, k)
    ensures IsJson(Lookup(m, k))
  {
    if m.key == k {
    } else {
      JsonMember(m.more, k);
    }
  }

  lemma {:induction false} JsonSame(v: Json, w: Json)
    requires IsJson(v) && IsJson(w)
    ensures SameValue(v, w) <==> EqualUpToOrder(v, w)
    decreases Size(v), 0
  {
    if v.Arr? && w.Arr? {
      JsonSameItems(v.items, w.items);
    } else if v.Obj? && w.Obj? {
      forall k | HasKey(v.members, k) && HasKey(w.members, k)
        ensures SameValue(Lookup(v.members, k), Lookup(w.members, k))
           <==> EqualUpToOrder(Lookup(v.members, k), Lookup(w.members, k))
      {
        JsonMember(v.members, k);
        JsonMember(w.members, k);
        JsonSame(Lookup(v.members, k), Lookup(w.members, k));
      }
    }
  }

  lemma {:induction false} JsonSameItems(a: Items, b: Items)
    requires AllJson(a) && AllJson(b)
    ensures SameItems(a, b) <==> EqualItems(a, b)
    decreases ItemsSize(a), 0
  {
    if a.Item? && b.Item? {
      JsonSame(a.value, b.value);
      JsonSameItems(a.more, b.more);
    }
  }

  /** Different JSON values never print alike; equal ones always do. */
  lemma StableStringifyIsCanonical(v: Json, w: Json)
    requires Valid(v) && Valid(w) && IsJson(v) && IsJson(w)
    ensures StableStringify(v) == StableStringify(w) <==> EqualUpToOrder(v, w)
  {
    PrintIffSame(v, w);
    JsonSame(v, w);
  }

  /** Outside JSON the printer is not injective: on undefined entries, and on
      numbers that are not finite. */
  lemma UndefinedEntryCollides()
    ensures StableStringify(NotFinite(NaN)) == StableStringify(Null)
    ensures StableStringify(Arr(Item(Undefined, NoItems))) == StableStringify(Arr(NoItems))
    ensures !EqualUpToOrder(Arr(Item(Undefined, NoItems)), Arr(NoItems))
  {
    var v, w := Arr(Item(Undefined, NoItems)), Arr(NoItems);
    assert SameValue(v, w);
    SamePrint(v, w);
  }
}
