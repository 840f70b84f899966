/** Laws of the edit engine that span several of its functions. */
module EditLaws {
  import opened Wrappers
  import opened Texts
  import opened WhitespaceView
  import opened EditEngine
  import opened EditRuns

  /** Cutting the region out leaves a text whose view is the old view with the
      search cut out, and the region itself shows as the search. */
  ghost predicate ShowsAs(content: Text, start: nat, len: nat, search: Text) {
    && start + len <= |content|
    && NormalizeWhitespace(content[..start]) + search + NormalizeWhitespace(content[start + len..])
       == NormalizeWhitespace(content)
    && NormalizeWhitespace(content[start..start + len]) == search
  }

  lemma Slices(t: Text, start: nat, len: nat)
    requires start + len <= |t|
    ensures t[start..start + len] == t[start..][..len]
    ensures t[start + len..] == t[start..][len..]
  {
  }

  lemma OccurrenceSplits(view: Text, search: Text, p: nat)
    requires OccursAt(view, search, p)
    ensures view[p..][..|search|] == search
    ensures view[..p] + search + view[p..][|search|..] == view
  {
  }

  /** The text from the region on, cut at the region's length. */
  lemma RegionTail(content: Text, search: Text, start: nat)
    requires start <= |content| && search <= NormalizeWhitespace(content[start..])
    ensures var len := RegionLength(content, start, search);
      && start + len <= |content|
      && NormalizeWhitespace(content[start..start + len]) == search
      && NormalizeWhitespace(content[start + len..]) == NormalizeWhitespace(content[start..])[|search|..]
  {
    hide NormalizeWhitespace, RawIndex, ToDoc;
    var tail := content[start..];
    MapsBack(tail, |search|);
    Slices(content, start, RegionLength(content, start, search));
  }

  /** The region cut out of the text shows as the search and everything around
      it shows as the rest of the view, for every match of the view. */
  lemma RegionShows(content: Text, search: Text, p: nat)
    requires OccursAt(NormalizeWhitespace(content), search, p)
    ensures var c := RegionAt(content, search, p, false);
      && NormalizeWhitespace(content[..c.start]) == NormalizeWhitespace(content)[..p]
      && NormalizeWhitespace(content[c.start + c.len..]) == NormalizeWhitespace(content)[p + |search|..]
      && ShowsAs(content, c.start, c.len, search)
  {
    hide NormalizeWhitespace, RawIndex, ToDoc, RegionLength;
    var view := NormalizeWhitespace(content);
    MapsBack(content, p);
    OccursIsPrefix(view, search, p);
    var start := RawIndex(ToDoc(content), p);
    RegionTail(content, search, start);
    var after := content[start + RegionLength(content, start, search)..];
    calc {
      NormalizeWhitespace(content[..start]) + search + NormalizeWhitespace(after);
      view[..p] + search + view[p..][|search|..];
      { OccurrenceSplits(view, search, p); }
      view;
    }
    Slices(view, p, |search|);
  }

  lemma ShowsOccurrence(content: Text, start: nat, len: nat, search: Text)
    requires ShowsAs(content, start, len, search)
    ensures OccursAt(NormalizeWhitespace(content), search, |NormalizeWhitespace(content[..start])|)
    ensures NormalizeWhitespace(content)[..|NormalizeWhitespace(content[..start])|]
        == NormalizeWhitespace(content[..start])
  {
    var x, y := NormalizeWhitespace(content[..start]), NormalizeWhitespace(content[start + len..]);
    assert (x + search + y)[..|x|] == x;
    assert (x + search + y)[|x|..|x| + |search|] == search;
  }

  /** The engine's region for a match is the only region of the text that shows
      as that match. */
  lemma RegionExact(content: Text, search: Text, p: nat, start: nat, len: nat)
    requires OccursAt(NormalizeWhitespace(content), search, p)
    ensures RegionAt(content, search, p, false) == Region(start, len)
       <==> ShowsAs(content, start, len, search) && |NormalizeWhitespace(content[..start])| == p
  {
    RegionShows(content, search, p);
    var c := RegionAt(content, search, p, false);
    if ShowsAs(content, start, len, search) && |NormalizeWhitespace(content[..start])| == p {
      ShowsOccurrence(content, start, len, search);
      PrefixUnique(content, start, c.start);
      Slices(content, start, len);
      Slices(content, start, c.len);
      PrefixUnique(content[start..], len, c.len);
    }
  }

  /** When the view has one match, the region is determined by what it shows. */
  lemma UniqueRegion(content: Text, search: Text, start: nat, len: nat)
    requires |Occurrences(NormalizeWhitespace(content), search)| == 1
    ensures RegionAt(content, search, Sole(NormalizeWhitespace(content), search), false) == Region(start, len)
       <==> ShowsAs(content, start, len, search)
  {
    var p := Sole(NormalizeWhitespace(content), search);
    RegionExact(content, search, p, start, len);
    if ShowsAs(content, start, len, search) {
      ShowsOccurrence(content, start, len, search);
      assert |NormalizeWhitespace(content[..start])| in Occurrences(NormalizeWhitespace(content), search);
    }
  }

  /** An edit that is applied without strict matching replaces a region that
      shows as the normalised search, and keeps the text around it as it is. */
  lemma AppliedEditShows(r: ApplyResult, edit: Edit, scopes: ScopeMatcher)
    requires ApplyOne(r, edit, false, scopes).appliedEdits == r.appliedEdits + 1
    ensures exists start: nat, len: nat ::
      && ShowsAs(r.content, start, len, NormalizeWhitespace(edit.search))
      && ApplyOne(r, edit, false, scopes).content
         == r.content[..start] + edit.replace + r.content[start + len..]
  {
    var c := Choose(r.content, edit, false, scopes);
    var search, view := NormalizeWhitespace(edit.search), NormalizeWhitespace(r.content);
    ScopeOccurs(view, search, edit, scopes);
    if |Occurrences(view, search)| == 1 {
      RegionShows(r.content, search, Sole(view, search));
    } else {
      RegionShows(r.content, search, ScopeChoice(view, search, edit, scopes).value);
    }
    assert ShowsAs(r.content, c.start, c.len, search);
  }

  /** An edit without a scope is applied iff its search is long enough and the
      view has exactly one match. */
  lemma AppliedIff(content: Text, edit: Edit, strict: bool, scopes: ScopeMatcher)
    requires edit.scope == None
    ensures Choose(content, edit, strict, scopes).Region?
       <==> |edit.search| >= MIN_SEARCH_LENGTH
            && |Occurrences(View(content, strict), View(edit.search, strict))| == 1
  {
  }

  /** What an edit comes to: too short below ten characters, not found without a match,
      ambiguous with several matches and no scope that selects one, and otherwise a
      region. */
  lemma OutcomeIff(content: Text, edit: Edit, strict: bool, scopes: ScopeMatcher, m: nat)
    ensures var c := Choose(content, edit, strict, scopes);
      var (view, search) := (View(content, strict), View(edit.search, strict));
      var n := |Occurrences(view, search)|;
      && (c == Rejected(TooShort) <==> |edit.search| < 10)
      && (c == Rejected(NotFound) <==> |edit.search| >= 10 && n == 0)
      && (c == Rejected(AmbiguousMatch(m)) <==>
            |edit.search| >= 10 && n > 1 && m == n && !ScopeSelects(view, search, edit, scopes))
      && (c.Region? <==> |edit.search| >= 10 && (n == 1 || (n > 1 && ScopeSelects(view, search, edit, scopes))))
  {
  }

  /** The edit names a scope, and the scope selects a match. */
  ghost predicate ScopeSelects(view: Text, search: Text, edit: Edit, scopes: ScopeMatcher) {
    && edit.scope.Some? && edit.scope.value != []
    && ScopePosition(view, search, scopes(view, edit.scope.value)).Some?
  }

  /** Every edit is either applied or reported, failures keep their order and
      reasons, and a run without applied edits leaves the text alone. */
  lemma {:induction false} RunConserves(r: ApplyResult, edits: seq<Edit>, strict: bool, scopes: ScopeMatcher)
    requires r.success <==> r.failedEdits == []
    ensures var out := ApplyAll(r, edits, strict, scopes);
      && out.appliedEdits + |out.failedEdits| == r.appliedEdits + |r.failedEdits| + |edits|
      && r.appliedEdits <= out.appliedEdits && r.failedEdits <= out.failedEdits
      && (out.success <==> out.failedEdits == [])
      && (out.appliedEdits == r.appliedEdits ==> out.content == r.content)
    decreases |edits|
  {
    if edits == [] {
    } else {
      RunConserves(ApplyOne(r, edits[0], strict, scopes), edits[1..], strict, scopes);
    }
  }

  /** A strict edit cuts out the search itself. */
  lemma StrictRegion(content: Text, edit: Edit, scopes: ScopeMatcher)
    requires Choose(content, edit, true, scopes).Region?
    ensures var c := Choose(content, edit, true, scopes);
      c.len == |edit.search| && OccursAt(content, edit.search, c.start)
  {
    ScopeOccurs(content, edit.search, edit, scopes);
  }

  lemma SpliceBack(content: Text, start: nat, search: Text, replace: Text)
    requires OccursAt(content, search, start)
    ensures var edited := Splice(content, start, |search|, replace);
      OccursAt(edited, replace, start) && Splice(edited, start, |replace|, search) == content
  {
    var edited := Splice(content, start, |search|, replace);
    assert edited[..start] == content[..start];
    assert edited[start..start + |replace|] == replace;
    assert edited[start + |replace|..] == content[start + |search|..];
  }

  /** A strict edit is undone by the reversed edit whenever the replacement is
      long enough to be a search and occurs once in the edited text. */
  lemma ReversedEditRestores(r: ApplyResult, edit: Edit, scopes: ScopeMatcher)
    requires Choose(r.content, edit, true, scopes).Region?
    ensures var edited := ApplyOne(r, edit, true, scopes);
      |edit.replace| >= MIN_SEARCH_LENGTH && |Occurrences(edited.content, edit.replace)| == 1 ==>
        ApplyOne(edited, Edit(edit.replace, edit.search, None), true, scopes).content == r.content
  {
    var c := Choose(r.content, edit, true, scopes);
    StrictRegion(r.content, edit, scopes);
    SpliceBack(r.content, c.start, edit.search, edit.replace);
    var edited := ApplyOne(r, edit, true, scopes);
    if |Occurrences(edited.content, edit.replace)| == 1 {
      SoleOccurrence(edited.content, edit.replace, c.start);
      assert Sole(edited.content, edit.replace) in {c.start};
    }
  }

  // ----- Texts that are their own view -----

  lemma {:induction false} PlainIndex(d: Doc, n: nat)
    requires NormDoc(d) == d && n <= |Flatten(d)|
    ensures RawIndex(d, n) == n
  {
    if d.More? && n > |d.line| {
      PlainIndex(d.rest, n - |d.line| - 1);
    }
  }

  lemma PlainText(t: Text, n: nat)
    requires NormalizeWhitespace(t) == t && n <= |t|
    ensures n <= ViewSize(ToDoc(t)) && RawIndex(ToDoc(t), n) == n
  {
    ViewDoc(t);
    PlainIndex(ToDoc(t), n);
  }

  /** On texts without stray whitespace the tolerant engine is the strict one. */
  lemma PlainRegion(content: Text, search: Text, p: nat)
    requires NormalizeWhitespace(content) == content && OccursAt(content, search, p)
    ensures RegionAt(content, search, p, false) == RegionAt(content, search, p, true)
  {
    PlainText(content, p);
    MapsBack(content, p);
    assert NormalizeWhitespace(content[p..]) == content[p..];
    PlainText(content[p..], |search|);
  }

  lemma TolerantEqualsStrict(content: Text, edit: Edit, scopes: ScopeMatcher)
    requires NormalizeWhitespace(content) == content && NormalizeWhitespace(edit.search) == edit.search
    ensures Choose(content, edit, false, scopes) == Choose(content, edit, true, scopes)
  {
    ScopeOccurs(content, edit.search, edit, scopes);
    if |Occurrences(content, edit.search)| == 1 {
      PlainRegion(content, edit.search, Sole(content, edit.search));
    } else if ScopeChoice(content, edit.search, edit, scopes).Some? {
      PlainRegion(content, edit.search, ScopeChoice(content, edit.search, edit, scopes).value);
    }
  }

  // ----- Normalising twice -----

  /** A carriage return, then blanks up to k, where the line ends with the line
      feed at n or with a carriage return before it; not the plain pair of
      carriage return and line feed. */
  ghost predicate StrayAt(t: Text, p: int, k: int, n: int) {
    && 0 <= p < k <= n <= |t| && t[p] == CR
    && (forall j :: p < j < k ==> IsBlank(t[j]))
    && ((k == n && k > p + 1) || (k == n - 1 && t[k] == CR))
  }

  /** The text has a line end that normalising shortens to a carriage return
      before a line feed: `\r([ \t]+\r?|\r)\n` matches somewhere. */
  ghost predicate HasStrayReturn(t: Text) {
    exists p, k, n :: StrayAt(t, p, k, n) && 0 <= n < |t| && t[n] == LF
  }

  /** The same for one line without its line feed. */
  ghost predicate StrayLine(line: Text) {
    exists p, k :: StrayAt(line, p, k, |line|)
  }

  ghost predicate StrayDoc(d: Doc) {
    d.More? && (StrayLine(d.line) || StrayDoc(d.rest))
  }

  lemma StrayMoves(line: Text, tail: Text, p: int, k: int, n: int)
    requires NoLf(line)
    ensures var t := line + ([LF] + tail);
      && (n <= |line| ==> (StrayAt(t, p, k, n) <==> StrayAt(line, p, k, n)))
      && (p > |line| ==> (StrayAt(t, p, k, n) <==> StrayAt(tail, p - |line| - 1, k - |line| - 1, n - |line| - 1)))
  {
    var t, m := line + ([LF] + tail), |line| + 1;
    assert forall i :: 0 <= i < |line| ==> t[i] == line[i];
    assert forall i :: m <= i < |t| ==> t[i] == tail[i - m];
    if p >= m && StrayAt(tail, p - m, k - m, n - m) {
      forall j | p < j < k
        ensures IsBlank(t[j])
      {
        assert t[j] == tail[j - m];
      }
    }
    if p >= m && StrayAt(t, p, k, n) {
      forall j | p - m < j < k - m
        ensures IsBlank(tail[j])
      {
        assert t[j + m] == tail[j];
      }
    }
  }

  /** A stray return does not reach over a line feed. */
  lemma StrayStaysInLine(line: Text, tail: Text, p: int, k: int, n: int)
    requires var t := line + ([LF] + tail); StrayAt(t, p, k, n) && 0 <= n < |t| && t[n] == LF && p <= |line|
    requires NoLf(line)
    ensures n == |line|
  {
    var t := line + ([LF] + tail);
    assert t[|line|] == LF && !IsBlank(LF);
    assert forall i :: 0 <= i < |line| ==> t[i] == line[i] && line[i] != LF;
  }

  lemma StrayFound(line: Text, tail: Text, p: int, k: int, n: int)
    requires NoLf(line)
    requires var t := line + ([LF] + tail); StrayAt(t, p, k, n) && 0 <= n < |t| && t[n] == LF
    ensures StrayLine(line) || HasStrayReturn(tail)
  {
    hide StrayAt;
    var t, m := line + ([LF] + tail), |line| + 1;
    StrayMoves(line, tail, p, k, n);
    if p <= |line| {
      StrayStaysInLine(line, tail, p, k, n);
      assert StrayAt(line, p, k, |line|);
    } else {
      StrayBounds(t, p, k, n);
      assert tail[n - m] == LF;
      assert StrayAt(tail, p - m, k - m, n - m);
    }
  }

  lemma StrayBounds(t: Text, p: int, k: int, n: int)
    requires StrayAt(t, p, k, n)
    ensures 0 <= p < k <= n <= |t|
  {
  }

  lemma StrayInFirst(line: Text, tail: Text)
    requires NoLf(line)
    ensures HasStrayReturn(line + ([LF] + tail)) <==> StrayLine(line) || HasStrayReturn(tail)
  {
    hide StrayAt;
    var t, m := line + ([LF] + tail), |line| + 1;
    if HasStrayReturn(t) {
      var p, k, n :| StrayAt(t, p, k, n) && 0 <= n < |t| && t[n] == LF;
      StrayFound(line, tail, p, k, n);
    }
    if StrayLine(line) {
      var p, k :| StrayAt(line, p, k, |line|);
      StrayMoves(line, tail, p, k, |line|);
      assert t[|line|] == LF;
    }
    if HasStrayReturn(tail) {
      var p, k, n :| StrayAt(tail, p, k, n) && 0 <= n < |tail| && tail[n] == LF;
      StrayBounds(tail, p, k, n);
      StrayMoves(line, tail, p + m, k + m, n + m);
      assert t[n + m] == LF;
    }
  }

  lemma {:induction false} StrayByLines(d: Doc)
    requires Clean(d)
    ensures HasStrayReturn(Flatten(d)) <==> StrayDoc(d)
  {
    if d.Last? {
      assert forall n :: 0 <= n < |d.line| ==> d.line[n] != LF;
    } else {
      StrayInFirst(d.line, Flatten(d.rest));
      StrayByLines(d.rest);
    }
  }

  /** What is left of a line ends in a carriage return iff the line is stray. */
  lemma LineTwice(line: Text)
    ensures NormLine(NormLine(line)) == NormLine(line) <==> !StrayLine(line)
  {
    var s, r := StripCr(line), NormLine(line);
    assert forall j :: |r| <= j < |s| ==> IsBlank(s[j]) && s[j] == line[j];
    if r != [] && r[|r| - 1] == CR {
      assert StrayAt(line, |r| - 1, |s|, |line|);
    } else {
      TrimUnique(r, r);
    }
    if StrayLine(line) {
      var p, k :| StrayAt(line, p, k, |line|);
      StrayIsLast(line, p, k);
    }
  }

  lemma StrayIsLast(line: Text, p: int, k: int)
    requires StrayAt(line, p, k, |line|)
    ensures NormLine(line) == line[..p + 1]
  {
    var s := StripCr(line);
    assert s == line[..k];
    assert forall j :: p < j < k ==> s[j] == line[j];
    TrimUnique(s, line[..p + 1]);
  }

  lemma {:induction false} DocTwice(d: Doc)
    ensures NormDoc(NormDoc(d)) == NormDoc(d) <==> !StrayDoc(d)
  {
    if d.Last? {
    } else {
      LineTwice(d.line);
      DocTwice(d.rest);
    }
  }

  /** Normalising again changes the view iff the text has a carriage return whose
      line goes on with blanks alone, or with blanks and the line's own carriage
      return, or with that carriage return at once. */
  lemma NormalizeTwiceIff(t: Text)
    ensures NormalizeWhitespace(NormalizeWhitespace(t)) == NormalizeWhitespace(t) <==> !HasStrayReturn(t)
  {
    hide NormalizeWhitespace, NormDoc, Clean, HasStrayReturn, StrayDoc;
    var view := NormalizeWhitespace(t);
    ViewDoc(t);
    ViewDoc(view);
    StrayByLines(ToDoc(t));
    DocTwice(ToDoc(t));
    if ToDoc(NormalizeWhitespace(view)) == ToDoc(view) {
      assert NormalizeWhitespace(view) == view;
    }
  }

  lemma TrimsToItself(line: Text, r: Text)
    requires StripCr(line) == r && (r == [] || !IsBlank(r[|r| - 1]))
    ensures NormLine(line) == r
  {
    TrimUnique(r, r);
  }

  /** Two carriage returns before a line feed: normalising is not idempotent. */
  lemma StrayReturn()
    ensures NormalizeWhitespace([CR, CR, LF]) == [CR, LF] && NormalizeWhitespace([CR, LF]) == [LF]
  {
    hide NormLine, NormalizeWhitespace;
    NormalizeLine([CR, CR], []);
    NormalizeLine([CR], []);
    assert [CR, CR, LF] == [CR, CR] + ([LF] + []) && [CR, LF] == [CR] + ([LF] + []);
    EmptyView();
    TrimsToItself([CR, CR], [CR]);
    TrimsToItself([CR], []);
  }

  /** Blanks, a tab and a carriage return before a line feed go; at the end they
      stay. */
  lemma NormalizedText()
    ensures NormalizeWhitespace(Ascii("a \t\r\nb \t")) == Ascii("a\nb \t")
  {
    hide NormLine, NormalizeWhitespace;
    var (first, last) := ([97, 32, 9, 13], [98, 32, 9]);
    assert Ascii("a \t\r\nb \t") == first + ([10] + last) && Ascii("a\nb \t") == [97] + ([10] + last);
    NormalizeLine(first, last);
    LastLineStays(last);
    StripsTo(first, [97, 32, 9]);
    TrimUnique([97, 32, 9], [97]);
  }

  lemma StripsTo(line: Text, r: Text)
    requires line == r + [13]
    ensures NormLine(line) == TrimBlanks(r)
  {
    assert line[..|line| - 1] == r;
  }

  lemma LastLineStays(line: Text)
    requires NoLf(line)
    ensures NormalizeWhitespace(line) == line
  {
    NormalizeDoc(Last(line));
  }

  lemma EmptyView()
    ensures NormalizeWhitespace([]) == []
  {
  }
}
