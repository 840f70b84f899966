/** Runs of edits: what each edit selects, what a whole run does, and why the
    region cut out of the text is the one the view showed. */
module EditRuns {
  import opened Wrappers
  import opened Texts
  import opened WhitespaceView
  import opened EditEngine

  /** What one edit does to the current content. */
  datatype Choice = Region(start: nat, len: nat) | Rejected(reason: Reason)

  function View(t: Text, strict: bool): Text {
    if strict then t else NormalizeWhitespace(t)
  }

  /** The region of the content behind the match at p of the view. */
  ghost function RegionAt(content: Text, search: Text, p: nat, strict: bool): (c: Choice)
    requires OccursAt(View(content, strict), search, p)
    ensures c.Region? && c.start + c.len <= |content|
  {
    if strict then Region(p, |search|)
    else
      MapsBack(content, p);
      var oi := RawIndex(ToDoc(content), p);
      ViewDoc(content[oi..]);
      MapsBack(content[oi..], |search|);
      Region(oi, RegionLength(content, oi, search))
  }

  ghost function ScopeChoice(view: Text, search: Text, edit: Edit, scopes: ScopeMatcher): Option<nat> {
    if edit.scope == None || edit.scope == Some([]) then None
    else ScopePosition(view, search, scopes(view, edit.scope.value))
  }

  ghost function Choose(content: Text, edit: Edit, strict: bool, scopes: ScopeMatcher): (c: Choice)
    ensures c.Region? ==> c.start + c.len <= |content|
  {
    var search, view := View(edit.search, strict), View(content, strict);
    var n := |Occurrences(view, search)|;
    if |edit.search| < MIN_SEARCH_LENGTH then Rejected(TooShort)
    else if n == 0 then Rejected(NotFound)
    else if n == 1 then RegionAt(content, search, Sole(view, search), strict)
    else
      ScopeOccurs(view, search, edit, scopes);
      match ScopeChoice(view, search, edit, scopes)
      case Some(p) => RegionAt(content, search, p, strict)
      case None => Rejected(AmbiguousMatch(n))
  }

  lemma ScopeOccurs(view: Text, search: Text, edit: Edit, scopes: ScopeMatcher)
    ensures var p := ScopeChoice(view, search, edit, scopes); p.Some? ==> OccursAt(view, search, p.value)
  {
    if edit.scope != None && edit.scope != Some([]) {
      ScopePositionOccurs(view, search, scopes(view, edit.scope.value));
    }
  }

  function Splice(content: Text, start: nat, len: nat, replace: Text): Text
    requires start + len <= |content|
  {
    content[..start] + replace + content[start + len..]
  }

  ghost function ApplyOne(r: ApplyResult, edit: Edit, strict: bool, scopes: ScopeMatcher): ApplyResult {
    match Choose(r.content, edit, strict, scopes)
    case Region(start, len) =>
      r.(content := Splice(r.content, start, len, edit.replace), appliedEdits := r.appliedEdits + 1)
    case Rejected(reason) =>
      r.(success := false, failedEdits := r.failedEdits + [EditFailure(edit, reason)])
  }

  ghost function ApplyAll(r: ApplyResult, edits: seq<Edit>, strict: bool, scopes: ScopeMatcher): ApplyResult
    decreases |edits|
  {
    if edits == [] then r else ApplyAll(ApplyOne(r, edits[0], strict, scopes), edits[1..], strict, scopes)
  }

  // ----- The loop -----

  lemma OccursIsPrefix(t: Text, search: Text, p: nat)
    requires OccursAt(t, search, p)
    ensures search <= t[p..]
  {
  }

  method LocateRegion(content: Text, search: Text, p: nat, strict: bool) returns (start: nat, len: nat)
    requires OccursAt(View(content, strict), search, p)
    ensures Region(start, len) == RegionAt(content, search, p, strict)
    ensures start + len <= |content|
  {
    if strict {
      start, len := p, |search|;
    } else {
      start := FindOriginalIndex(content, NormalizeWhitespace(content), p);
      MapsBack(content, p);
      OccursIsPrefix(NormalizeWhitespace(content), search, p);
      len := FindOriginalLength(content, start, search);
    }
  }

  /** The match an edit selects in the view, or why there is none. */
  method SelectMatch(view: Text, search: Text, edit: Edit, scopes: ScopeMatcher)
    returns (index: int, occurrences: nat)
    requires search != []
    ensures occurrences == |Occurrences(view, search)|
    ensures occurrences == 0 ==> index == -1
    ensures occurrences == 1 ==> index == Sole(view, search)
    ensures occurrences > 1 ==>
      ScopeChoice(view, search, edit, scopes) == if index >= 0 then Some(index) else None
  {
    occurrences := CountOccurrences(view, search);
    index := -1;
    if occurrences > 1 {
      if edit.scope.Some? && edit.scope.value != [] {
        index := FindInScope(view, search, scopes(view, edit.scope.value));
      }
    } else if occurrences == 1 {
      index := IndexOf(view, search, 0);
      assert OccursAt(view, search, Sole(view, search));
      SoleOccurrence(view, search, index);
    }
  }

  method ApplyEdit(content: Text, edit: Edit, strict: bool, scopes: ScopeMatcher)
    returns (choice: Choice)
    ensures choice == Choose(content, edit, strict, scopes)
    ensures choice.Region? ==> choice.start + choice.len <= |content|
  {
    if |edit.search| < MIN_SEARCH_LENGTH {
      return Rejected(TooShort);
    }
    var search, view := View(edit.search, strict), View(content, strict);
    NormNonempty(edit.search);
    var index, occurrences := SelectMatch(view, search, edit, scopes);
    if occurrences == 0 {
      return Rejected(NotFound);
    }
    if occurrences > 1 && index < 0 {
      return Rejected(AmbiguousMatch(occurrences));
    }
    ScopeOccurs(view, search, edit, scopes);
    var start, len := LocateRegion(content, search, index, strict);
    choice := Region(start, len);
  }

  lemma ApplyAllStep(r: ApplyResult, edits: seq<Edit>, i: nat, strict: bool, scopes: ScopeMatcher)
    requires i < |edits|
    ensures ApplyAll(r, edits[i..], strict, scopes)
         == ApplyAll(ApplyOne(r, edits[i], strict, scopes), edits[i + 1..], strict, scopes)
  {
    assert edits[i..][0] == edits[i] && edits[i..][1..] == edits[i + 1..];
  }

  lemma NoMoreEdits(r: ApplyResult, strict: bool, scopes: ScopeMatcher)
    ensures ApplyAll(r, [], strict, scopes) == r
  {
  }

  method ApplyEdits(original: Text, edits: seq<Edit>, strict: bool, scopes: ScopeMatcher) returns (r: ApplyResult)
    ensures r == ApplyAll(ApplyResult(true, original, 0, []), edits, strict, scopes)
  {
    hide Choose, View, ApplyAll;
    var content := original;
    var appliedEdits: nat := 0;
    var failedEdits: seq<EditFailure> := [];
    ghost var current := ApplyResult(true, original, 0, []);
    ghost var final := ApplyAll(current, edits, strict, scopes);
    assert edits[0..] == edits;
    for i := 0 to |edits|
      invariant current == ApplyResult(failedEdits == [], content, appliedEdits, failedEdits)
      invariant final == ApplyAll(current, edits[i..], strict, scopes)
    {
      var edit := edits[i];
      ApplyAllStep(current, edits, i, strict, scopes);
      current := ApplyOne(current, edit, strict, scopes);
      var choice := ApplyEdit(content, edit, strict, scopes);
      match choice {
        case Rejected(reason) =>
          failedEdits := failedEdits + [EditFailure(edit, reason)];
        case Region(at, len) =>
          content := content[..at] + edit.replace + content[at + len..];
          appliedEdits := appliedEdits + 1;
      }
    }
    assert edits[|edits|..] == [];
    NoMoreEdits(current, strict, scopes);
    r := ApplyResult(failedEdits == [], content, appliedEdits, failedEdits);
  }
}
