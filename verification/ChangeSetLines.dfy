// What preparation makes of a list field's text, and what a prepared item says.
module ChangeSetLines {
  import opened Wrappers
  import opened JsonText
  import opened CanonicalJson
  import opened ChangeSet

  // ---- Clean lines ----

  ghost predicate CleanLine(line: Text) {
    line != [] && !Space(line[0]) && !Space(line[|line| - 1]) && LF !in line
  }

  function JoinLines(lines: seq<Text>): Text {
    if lines == [] then []
    else if |lines| == 1 then lines[0]
    else lines[0] + [LF] + JoinLines(lines[1..])
  }

  lemma {:induction false} SplitHasNoBreaks(t: Text)
    ensures forall i :: 0 <= i < |SplitLines(t)| ==> LF !in SplitLines(t)[i]
  {
    if t == [] {
    } else if t[0] == LF {
      SplitHasNoBreaks(t[1..]);
    } else if t[0] == CR && |t| >= 2 && t[1] == LF {
      SplitHasNoBreaks(t[2..]);
    } else {
      SplitHasNoBreaks(t[1..]);
      var rest := SplitLines(t[1..]);
      assert LF !in rest[0];
      assert LF !in [t[0]] + rest[0];
    }
  }

  lemma {:induction false} TrimStartClean(t: Text)
    ensures TrimStart(t) != [] ==> !Space(TrimStart(t)[0])
    ensures forall c :: c in TrimStart(t) ==> c in t
  {
    if t != [] && Space(t[0]) {
      TrimStartClean(t[1..]);
    }
  }

  lemma {:induction false} TrimEndClean(t: Text)
    ensures TrimEnd(t) != [] ==> !Space(TrimEnd(t)[|TrimEnd(t)| - 1])
    ensures TrimEnd(t) <= t
  {
    if t != [] && Space(t[|t| - 1]) {
      TrimEndClean(t[..|t| - 1]);
    }
  }

  lemma TrimClean(t: Text)
    requires LF !in t
    ensures Trim(t) != [] ==> CleanLine(Trim(t))
  {
    TrimStartClean(t);
    TrimEndClean(TrimStart(t));
  }

  lemma TrimFixed(line: Text)
    requires CleanLine(line)
    ensures Trim(line) == line
  {
  }

  // Every line kept is non-empty, trimmed and unbroken.
  lemma LinesAreClean(t: Text)
    ensures forall i :: 0 <= i < |Lines(t)| ==> CleanLine(Lines(t)[i])
  {
    SplitHasNoBreaks(t);
    FilteredAreClean(SplitLines(t));
  }

  lemma {:induction false} FilteredAreClean(lines: seq<Text>)
    requires forall i :: 0 <= i < |lines| ==> LF !in lines[i]
    ensures forall i :: 0 <= i < |TrimmedNonEmpty(lines)| ==> CleanLine(TrimmedNonEmpty(lines)[i])
  {
    if lines != [] {
      TrimClean(lines[0]);
      FilteredAreClean(lines[1..]);
    }
  }

  lemma {:induction false} FilterFixed(lines: seq<Text>)
    requires forall i :: 0 <= i < |lines| ==> CleanLine(lines[i])
    ensures TrimmedNonEmpty(lines) == lines
  {
    if lines != [] {
      TrimFixed(lines[0]);
      FilterFixed(lines[1..]);
    }
  }

  lemma {:induction false} SplitFront(line: Text, rest: Text)
    requires LF !in line
    requires line != [] && line[|line| - 1] != CR
    ensures SplitLines(line + [LF] + rest) == [line] + SplitLines(rest)
  {
    var t := line + [LF] + rest;
    assert t[0] == line[0];
    if |line| == 1 {
      assert t[1..] == [LF] + rest && ([LF] + rest)[1..] == rest;
      assert SplitLines(t[1..]) == [[]] + SplitLines(rest);
      assert [line[0]] + [] == line;
    } else {
      assert t[1] == line[1];
      assert t[1..] == line[1..] + [LF] + rest;
      SplitFront(line[1..], rest);
      assert [line[0]] + line[1..] == line;
    }
  }

  lemma {:induction false} SplitLast(line: Text)
    requires LF !in line
    ensures SplitLines(line) == [line]
  {
    if line != [] {
      SplitLast(line[1..]);
      assert [line[0]] + line[1..] == line;
    }
  }

  lemma {:induction false} SplitJoined(lines: seq<Text>)
    requires lines != []
    requires forall i :: 0 <= i < |lines| ==> CleanLine(lines[i])
    ensures SplitLines(JoinLines(lines)) == lines
  {
    if |lines| == 1 {
      SplitLast(lines[0]);
    } else {
      SplitJoined(lines[1..]);
      SplitFront(lines[0], JoinLines(lines[1..]));
    }
  }

  // Entering the kept lines again, one a line, gives the same list.
  lemma LinesRoundTrip(t: Text)
    ensures Lines(JoinLines(Lines(t))) == Lines(t)
  {
    var lines := Lines(t);
    LinesAreClean(t);
    if lines != [] {
      SplitJoined(lines);
      FilterFixed(lines);
    }
  }

  // ---- The lines cover the text ----

  ghost predicate AllSpace(t: Text) {
    forall i :: 0 <= i < |t| ==> Space(t[i])
  }

  // After white space, with a line break in it unless this is the first line, the
  // line stands at n.
  ghost predicate StandsAt(t: Text, line: Text, first: bool, n: nat) {
    && n + |line| <= |t|
    && AllSpace(t[..n])
    && (first || LF in t[..n])
    && t[n..n + |line|] == line
  }

  // The text is white space, a line, white space with a line break, the next line,
  // and so on.
  ghost predicate Covers(t: Text, lines: seq<Text>, first: bool)
    decreases |lines|
  {
    if lines == [] then AllSpace(t)
    else exists n: nat :: StandsAt(t, lines[0], first, n) && Covers(t[n + |lines[0]|..], lines[1..], false)
  }

  lemma StandsShifted(gap: Text, t: Text, line: Text, n: nat)
    requires AllSpace(gap) && StandsAt(t, line, true, n)
    ensures StandsAt(gap + t, line, true, |gap| + n)
    ensures LF in gap ==> StandsAt(gap + t, line, false, |gap| + n)
    ensures (gap + t)[|gap| + n + |line|..] == t[n + |line|..]
  {
    var all, m := gap + t, |gap| + n;
    assert all[..m] == gap + t[..n];
    assert all[m..m + |line|] == t[n..n + |line|];
  }

  lemma SpaceFront(gap: Text, t: Text, lines: seq<Text>)
    requires AllSpace(gap) && Covers(t, lines, true)
    ensures Covers(gap + t, lines, true)
    ensures LF in gap ==> Covers(gap + t, lines, false)
  {
    if lines != [] {
      var line := lines[0];
      var n: nat :| StandsAt(t, line, true, n) && Covers(t[n + |line|..], lines[1..], false);
      StandsShifted(gap, t, line, n);
      hide StandsAt, AllSpace;
    }
  }

  // The first line, what breaks it off, and the text after that.
  lemma {:induction false} SplitFirst(t: Text) returns (mark: Text, rest: Text)
    ensures LF !in SplitLines(t)[0]
    ensures (mark == [] && rest == [] && |SplitLines(t)| == 1 && t == SplitLines(t)[0])
            || ((mark == [LF] || mark == [CR, LF]) && t == SplitLines(t)[0] + mark + rest
                && SplitLines(t)[1..] == SplitLines(rest))
    ensures mark != [] ==> |rest| < |t|
  {
    SplitHasNoBreaks(t);
    if t == [] {
      mark, rest := [], [];
    } else if t[0] == LF {
      mark, rest := [LF], t[1..];
      assert t == [] + [LF] + t[1..];
    } else if t[0] == CR && |t| >= 2 && t[1] == LF {
      mark, rest := [CR, LF], t[2..];
      assert t == [] + [CR, LF] + t[2..];
    } else {
      mark, rest := SplitFirst(t[1..]);
      assert t == [t[0]] + t[1..];
    }
  }

  lemma {:induction false} TrimStartSplits(t: Text) returns (n: nat)
    ensures n <= |t| && AllSpace(t[..n]) && TrimStart(t) == t[n..]
  {
    if t != [] && Space(t[0]) {
      n := TrimStartSplits(t[1..]);
      assert t[..n + 1] == [t[0]] + t[1..][..n];
      n := n + 1;
    } else {
      n := 0;
    }
  }

  lemma {:induction false} TrimEndSplits(t: Text) returns (n: nat)
    ensures n <= |t| && AllSpace(t[n..]) && TrimEnd(t) == t[..n]
  {
    if t != [] && Space(t[|t| - 1]) {
      var init := t[..|t| - 1];
      n := TrimEndSplits(init);
      assert t[n..] == init[n..] + [t[|t| - 1]];
      assert t[..n] == init[..n];
    } else {
      n := |t|;
    }
  }

  lemma TrimSplits(t: Text) returns (left: Text, right: Text)
    ensures AllSpace(left) && AllSpace(right) && t == left + Trim(t) + right
  {
    var n := TrimStartSplits(t);
    var m := TrimEndSplits(t[n..]);
    left, right := t[..n], t[n..][m..];
    assert t == t[..n] + t[n..] && t[n..] == t[n..][..m] + t[n..][m..];
  }

  lemma TrimmedFirst(lines: seq<Text>)
    requires lines != []
    ensures TrimmedNonEmpty(lines)
         == (if Trim(lines[0]) == [] then [] else [Trim(lines[0])]) + TrimmedNonEmpty(lines[1..])
  {
    hide Trim;
  }

  // Nothing but white space is dropped, and no two lines are joined.
  lemma {:induction false} LinesCover(t: Text)
    ensures Covers(t, Lines(t), true)
    decreases |t|
  {
    hide Covers, Trim, SplitLines, TrimmedNonEmpty, AllSpace;
    var mark, rest := SplitFirst(t);
    var lines := SplitLines(t);
    var left, right := TrimSplits(lines[0]);
    TrimmedFirst(lines);
    if mark == [] {
      NothingElse(t, left, Trim(lines[0]), right);
      assert lines[1..] == [] && TrimmedNonEmpty([]) == [] by { NoLines(); }
    } else {
      LinesCover(rest);
      OneMoreLine(t, left, Trim(lines[0]), right, mark, rest, Lines(rest));
    }
  }

  lemma NoLines()
    ensures TrimmedNonEmpty([]) == []
  {
  }

  lemma NothingElse(t: Text, left: Text, line: Text, right: Text)
    requires AllSpace(left) && AllSpace(right) && t == left + line + right
    ensures Covers(t, (if line == [] then [] else [line]) + [], true)
  {
    if line == [] {
      assert t == left + right;
    } else {
      OneLine(left, line, right, []);
      assert [line] + [] == [line];
    }
  }

  lemma OneMoreLine(t: Text, left: Text, line: Text, right: Text, mark: Text, rest: Text, after: seq<Text>)
    requires AllSpace(left) && AllSpace(right) && (mark == [LF] || mark == [CR, LF])
    requires t == left + line + right + mark + rest && Covers(rest, after, true)
    ensures Covers(t, (if line == [] then [] else [line]) + after, true)
  {
    MarkIsSpace(left, right, mark);
    hide Covers, AllSpace;
    if line == [] {
      SpaceFront(left + right + mark, rest, after);
      assert t == left + right + mark + rest && [] + after == after;
    } else {
      SpaceFront(right + mark, rest, after);
      OneLine(left, line, right + mark + rest, after);
      assert t == left + line + (right + mark + rest);
    }
  }

  lemma MarkIsSpace(left: Text, right: Text, mark: Text)
    requires AllSpace(left) && AllSpace(right) && (mark == [LF] || mark == [CR, LF])
    ensures AllSpace(left + right + mark) && AllSpace(right + mark)
    ensures LF in left + right + mark && LF in right + mark
  {
    assert Space(LF) && Space(CR) && LF in mark;
  }

  lemma OneLine(left: Text, line: Text, tail: Text, after: seq<Text>)
    requires AllSpace(left) && Covers(tail, after, false)
    ensures Covers(left + line + tail, [line] + after, true)
  {
    var t, n := left + line + tail, |left|;
    assert t[..n] == left && t[n..n + |line|] == line && t[n + |line|..] == tail;
    assert ([line] + after)[1..] == after;
    assert StandsAt(t, line, true, n);
  }

  // ---- What a prepared item says ----

  // The four fields whose text is a list.
  ghost predicate ListField(path: Path) {
    && path.Own?
    && path.name in {"definition.includes", "definition.excludes", "wiki.disambiguation", "ontology.relations"}
  }

  // A list field's text is sent as the array of its clean lines; any other value is
  // sent as it is.
  ghost predicate SentAs(path: Path, given: Option<Value>, sent: Option<Value>) {
    match given
    case None => sent.None?
    case Some(v) =>
      && sent.Some?
      && if ListField(path) && v.Str? then
           && sent.value.Arr?
           && exists lines ::
                && Covers(v.s, lines, true)
                && (forall i :: 0 <= i < |lines| ==> CleanLine(lines[i]))
                && |sent.value.items| == |lines|
                && forall i :: 0 <= i < |lines| ==> sent.value.items[i] == Str(lines[i])
         else sent.value == v
  }

  lemma NormalisedIsSent(path: Path, given: Option<Value>)
    ensures SentAs(path, given, Normalised(path, given))
  {
    if given.Some? && ListField(path) && given.value.Str? {
      LinesCover(given.value.s);
      LinesAreClean(given.value.s);
      hide Lines, Covers;
    }
  }

  // A prepared item has the catalog's name for its field, the values as they are
  // sent, a digest for each value there is, and all else as given.
  lemma PreparedSays(hash: seq<int> -> Digest, crypto: bool, item: Item)
    requires PrepareItem(hash, crypto, item).Ok?
    ensures var out := PrepareItem(hash, crypto, item).value;
            && out.path == CatalogPath(item.path) && out.op == item.op
            && SentAs(item.path, item.before, out.before)
            && SentAs(item.path, item.after, out.after)
            && (out.before.Some? <==> out.beforeDigest.Some?)
            && (out.after.Some? <==> out.afterDigest.Some?)
  {
    NormalisedIsSent(item.path, item.before);
    NormalisedIsSent(item.path, item.after);
    hide CatalogPath, SentAs, CatalogValue;
  }

  // The catalog's names: six fields are renamed, all others keep theirs.
  lemma CatalogNames(name: string)
    ensures CatalogPath(Own("definition.boundary")) == Own("definition")
    ensures CatalogPath(Own("definition.includes")) == Own("includes")
    ensures CatalogPath(Own("definition.excludes")) == Own("excludes")
    ensures CatalogPath(Own("spec.expression")) == Own("expression")
    ensures CatalogPath(Own("wiki.disambiguation")) == Own("disambiguationRules")
    ensures CatalogPath(Own("ontology.relations")) == Own("relations")
    ensures name !in PATH_NAMES && name !in PROTOTYPE_NAMES ==> CatalogPath(Own(name)) == Own(name)
  {
  }

  // Clean lines that cover a text are its lines: there is one way to read a list.
  lemma {:induction false} LinesAreTheOnlyCover(t: Text, a: seq<Text>, b: seq<Text>, first: bool)
    requires Covers(t, a, first) && Covers(t, b, first)
    requires forall i :: 0 <= i < |a| ==> CleanLine(a[i])
    requires forall i :: 0 <= i < |b| ==> CleanLine(b[i])
    ensures a == b
    decreases |a|
  {
    hide CleanLine, AllSpace, Covers;
    if a != [] && b != [] {
      var n := FirstLines(t, a, b, first);
      LinesAreTheOnlyCover(t[n + |a[0]|..], a[1..], b[1..], false);
      assert a == [a[0]] + a[1..] && b == [b[0]] + b[1..];
    } else {
      if a != [] { NotAllSpace(t, a, first); NothingCovered(t, first); }
      if b != [] { NotAllSpace(t, b, first); NothingCovered(t, first); }
    }
  }

  lemma NothingCovered(t: Text, first: bool)
    ensures Covers(t, [], first) <==> AllSpace(t)
  {
  }

  lemma FirstStands(t: Text, lines: seq<Text>, first: bool) returns (n: nat)
    requires lines != [] && Covers(t, lines, first)
    ensures n + |lines[0]| <= |t| && StandsAt(t, lines[0], first, n)
    ensures Covers(t[n + |lines[0]|..], lines[1..], false)
  {
    hide AllSpace;
    n :| StandsAt(t, lines[0], first, n) && Covers(t[n + |lines[0]|..], lines[1..], false);
  }

  lemma FirstLines(t: Text, a: seq<Text>, b: seq<Text>, first: bool) returns (n: nat)
    requires a != [] && b != [] && Covers(t, a, first) && Covers(t, b, first) && CleanLine(a[0]) && CleanLine(b[0])
    ensures a[0] == b[0] && n + |a[0]| <= |t|
    ensures Covers(t[n + |a[0]|..], a[1..], false) && Covers(t[n + |a[0]|..], b[1..], false)
  {
    hide CleanLine, AllSpace, Covers, StandsAt;
    n := FirstStands(t, a, first);
    var m := FirstStands(t, b, first);
    SameStart(t, n, a[0], m, b[0], first);
    SameStart(t, m, b[0], n, a[0], first);
    SameLine(t, n, a, b, first);
    SameLine(t, n, b, a, first);
    SameText(t, n, a[0], b[0], first);
  }

  lemma SameText(t: Text, n: nat, a: Text, b: Text, first: bool)
    requires StandsAt(t, a, first, n) && StandsAt(t, b, first, n) && |a| == |b|
    ensures a == b
  {
  }

  lemma NotAllSpace(t: Text, lines: seq<Text>, first: bool)
    requires lines != [] && CleanLine(lines[0]) && Covers(t, lines, first)
    ensures !AllSpace(t)
  {
    var line := lines[0];
    var n: nat :| StandsAt(t, line, first, n);
    assert t[n] == t[n..n + |line|][0] == line[0];
  }

  lemma SameStart(t: Text, n: nat, a: Text, m: nat, b: Text, first: bool)
    requires StandsAt(t, a, first, n) && CleanLine(a) && StandsAt(t, b, first, m)
    ensures n >= m
  {
    assert t[n] == t[n..n + |a|][0] == a[0];
    assert forall i :: 0 <= i < m ==> t[..m][i] == t[i];
  }

  // A line ends where the white space up to the next break, or to the end, begins.
  lemma SameLine(t: Text, n: nat, a: seq<Text>, b: seq<Text>, first: bool)
    requires a != [] && b != [] && CleanLine(b[0])
    requires StandsAt(t, a[0], first, n) && Covers(t[n + |a[0]|..], a[1..], false) && StandsAt(t, b[0], first, n)
    ensures |b[0]| <= |a[0]|
  {
    var rest := t[n + |a[0]|..];
    var k := SpaceUpTo(rest, a[1..]);
    hide Covers;
    assert forall i :: |a[0]| <= i < |b[0]| ==> b[0][i] == t[n..n + |b[0]|][i] == t[n + i] == rest[i - |a[0]|];
    assert forall i :: 0 <= i < k ==> rest[..k][i] == rest[i];
  }

  lemma SpaceUpTo(rest: Text, lines: seq<Text>) returns (k: nat)
    requires Covers(rest, lines, false)
    ensures k <= |rest| && AllSpace(rest[..k]) && (k == |rest| || LF in rest[..k])
  {
    if lines == [] {
      k := |rest|;
      assert rest[..k] == rest;
    } else {
      k :| StandsAt(rest, lines[0], false, k);
    }
  }
}
