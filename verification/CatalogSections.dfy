// A cursor of an authority section is used once: over a whole run of one visit in
// which nothing replaces the asset, a section never loses a page, and a late
// answer for a page that it holds changes nothing.
module CatalogSections {
  import opened Wrappers
  import opened CatalogModel
  import opened CatalogAnswers
  import opened CatalogProvenance
  import opened Paging
  import opened CatalogPaging

  // ---- The first match ----

  ghost predicate FirstAsset(assets: seq<Asset>, id: Id, i: nat) {
    i < |assets| && assets[i].id == id && forall j :: 0 <= j < i ==> assets[j].id != id
  }

  lemma {:induction false} FoundAt(assets: seq<Asset>, id: Id) returns (i: nat)
    requires FindAsset(assets, id).Some?
    ensures FirstAsset(assets, id, i) && FindAsset(assets, id) == Some(assets[i])
  {
    if assets[0].id == id {
      i := 0;
    } else {
      i := FoundAt(assets[1..], id);
      i := i + 1;
    }
  }

  lemma {:induction false} FirstIsFound(assets: seq<Asset>, id: Id, i: nat)
    requires FirstAsset(assets, id, i)
    ensures FindAsset(assets, id) == Some(assets[i])
  {
    if i > 0 { FirstIsFound(assets[1..], id, i - 1); }
  }

  lemma {:induction false} FindInAppended(
    sections: seq<Section>, kind: string, changed: string, cursor: Cursor, page: Page<Authority>, o: Origin)
    ensures FindSection(seq(|sections|,
            j requires 0 <= j < |sections| => AppendSection(sections[j], changed, cursor, page, o)), kind)
         == match FindSection(sections, kind)
            case None => None
            case Some(section) => Some(AppendSection(section, changed, cursor, page, o))
  {
    hide Merge, NextCursor;
    var after := seq(|sections|,
      j requires 0 <= j < |sections| => AppendSection(sections[j], changed, cursor, page, o));
    if sections != [] {
      FindInAppended(sections[1..], kind, changed, cursor, page, o);
      assert after[1..]
          == seq(|sections[1..]|,
            j requires 0 <= j < |sections[1..]| => AppendSection(sections[1..][j], changed, cursor, page, o));
    }
  }

  // ---- What keeps an asset ----

  // The first asset with this id is loaded, as it was.
  ghost predicate Holds(assets: seq<Asset>, a: Asset) {
    a.loaded && FindAsset(assets, a.id) == Some(a)
  }

  ghost predicate OtherRevision(items: seq<Summary>, a: Asset) {
    exists i :: 0 <= i < |items| && items[i].id == a.id && items[i].revisionId != a.revisionId
  }

  ghost predicate NotOnPage(items: seq<Summary>, id: Id) {
    forall i :: 0 <= i < |items| ==> items[i].id != id
  }

  lemma {:induction false} FindLoadedHeld(assets: seq<Asset>, id: Id)
    ensures FindLoaded(assets, id).Some? ==> FindLoaded(assets, id).value.id == id
    ensures FindAsset(assets, id).Some? && FindAsset(assets, id).value.loaded ==>
            FindLoaded(assets, id) == FindAsset(assets, id)
  {
    if assets != [] { FindLoadedHeld(assets[1..], id); }
  }

  lemma {:induction false} ElsewhereHolds(current: seq<Asset>, items: seq<Summary>, a: Asset)
    requires Holds(current, a) && NotOnPage(items, a.id)
    ensures Holds(LoadedElsewhere(current, items), a)
  {
    if current[0].id != a.id {
      ElsewhereHolds(current[1..], items, a);
      var rest := LoadedElsewhere(current[1..], items);
      assert ([current[0]] + rest)[1..] == rest && [] + rest == rest;
    }
  }

  lemma {:induction false} FindAfter(before: seq<Asset>, rest: seq<Asset>, id: Id)
    requires forall i :: 0 <= i < |before| ==> before[i].id != id
    ensures FindAsset(before + rest, id) == FindAsset(rest, id)
  {
    if before == [] {
      assert before + rest == rest;
    } else {
      FindAfter(before[1..], rest, id);
      assert (before + rest)[1..] == before[1..] + rest;
    }
  }

  lemma FirstOnPage(items: seq<Summary>, id: Id) returns (i: nat)
    requires !NotOnPage(items, id)
    ensures i < |items| && items[i].id == id && forall j :: 0 <= j < i ==> items[j].id != id
  {
    i := 0;
    while items[i].id != id
      invariant i < |items| && forall j :: 0 <= j < i ==> items[j].id != id
      decreases |items| - i
    {
      i := i + 1;
    }
  }

  lemma ReplaceHolds(current: seq<Asset>, items: seq<Summary>, o: Origin, a: Asset)
    requires Holds(current, a) && !OtherRevision(items, a)
    ensures Holds(ReplaceAssets(current, items, o), a)
  {
    var listed, rest := ListedAssets(current, items, o), LoadedElsewhere(current, items);
    forall i | 0 <= i < |items|
      ensures listed[i].id == items[i].id
      ensures items[i].id == a.id ==> listed[i] == a
    {
      FindLoadedHeld(current, items[i].id);
    }
    if NotOnPage(items, a.id) {
      ElsewhereHolds(current, items, a);
      FindAfter(listed, rest, a.id);
    } else {
      var i := FirstOnPage(items, a.id);
      FirstIsFound(listed + rest, a.id, i);
    }
  }

  lemma AppendOneHolds(assets: seq<Asset>, item: Summary, o: Origin, a: Asset)
    requires Holds(assets, a) && (item.id == a.id ==> item.revisionId == a.revisionId)
    ensures Holds(AppendAsset(assets, item, o), a)
  {
    var i := FoundAt(assets, a.id);
    FirstIndexIs(assets, item.id);
    FirstIsFound(AppendAsset(assets, item, o), a.id, i);
  }

  lemma {:induction false} FirstIndexIs(assets: seq<Asset>, id: Id)
    ensures IndexOfAsset(assets, id) >= 0 ==> FirstAsset(assets, id, IndexOfAsset(assets, id))
  {
    if assets != [] && assets[0].id != id { FirstIndexIs(assets[1..], id); }
  }

  lemma {:induction false} MergeHolds(assets: seq<Asset>, items: seq<Summary>, o: Origin, a: Asset)
    requires Holds(assets, a) && !OtherRevision(items, a)
    ensures Holds(MergeAssets(assets, items, o), a)
  {
    if items != [] {
      var before, last := items[..|items| - 1], items[|items| - 1];
      assert !OtherRevision(before, a) by {
        assert forall i :: 0 <= i < |before| ==> before[i] == items[i];
      }
      MergeHolds(assets, before, o, a);
      AppendOneHolds(MergeAssets(assets, before, o), last, o, a);
    }
  }

  lemma PutOtherHolds(assets: seq<Asset>, other: Asset, a: Asset)
    requires Holds(assets, a) && other.id != a.id
    ensures Holds(PutDetail(assets, other), a)
  {
    var i := FoundAt(assets, a.id);
    var after := PutDetail(assets, other);
    FirstIsFound(after, a.id, i + |after| - |assets|);
  }

  lemma {:induction false} WithoutOtherHolds(assets: seq<Asset>, id: Id, a: Asset)
    requires Holds(assets, a) && id != a.id
    ensures Holds(WithoutAsset(assets, id), a)
  {
    if assets[0].id != a.id {
      WithoutOtherHolds(assets[1..], id, a);
      var rest := WithoutAsset(assets[1..], id);
      assert ([assets[0]] + rest)[1..] == rest && [] + rest == rest;
    }
  }

  // ---- What is held of a section ----

  ghost function HeldSection(assets: seq<Asset>, asset: Id, kind: string): Option<Section> {
    match FindAsset(assets, asset)
    case None => None
    case Some(a) => if a.loaded && a.sections.Some? then FindSection(a.sections.value, kind) else None
  }

  ghost predicate PagesFrom(pages: seq<Page<Authority>>, section: Section, k: nat) {
    exists n: nat :: k <= n && HoldsPages(AuthorityKey, pages, n, section.records, section.next)
  }

  // The asset's section holds at least k of the server's pages.
  ghost predicate SectionAtLeast(server: Server, s: State, asset: Id, kind: string, k: nat) {
    var held := HeldSection(s.shown.assets, asset, kind);
    held.Some? && PagesFrom(server.authority(s.nav.workspace, asset, kind), held.value, k)
  }

  lemma KeptAssetKeepsSection(before: seq<Asset>, after: seq<Asset>, asset: Id, kind: string)
    requires HeldSection(before, asset, kind).Some?
    requires Holds(after, FindAsset(before, asset).value)
    ensures HeldSection(after, asset, kind) == HeldSection(before, asset, kind)
  {
    FindIdIs(before, asset);
  }

  lemma FindIdIs(assets: seq<Asset>, id: Id)
    ensures FindAsset(assets, id).Some? ==> FindAsset(assets, id).value.id == id
  {
    if FindAsset(assets, id).Some? { var _ := FoundAt(assets, id); }
  }

  lemma SectionAppended(
    assets: seq<Asset>, asset: Id, kind: string, id: Id, changed: string, cursor: Cursor, page: Page<Authority>,
      o: Origin)
    requires HeldSection(assets, asset, kind).Some?
    ensures var section := HeldSection(assets, asset, kind).value;
            HeldSection(AppendRecords(assets, id, changed, cursor, page, o), asset, kind)
            == Some(if id == asset then AppendSection(section, changed, cursor, page, o) else section)
  {
    var i := FoundAt(assets, asset);
    var after := AppendRecords(assets, id, changed, cursor, page, o);
    FirstIsFound(after, asset, i);
    FindInAppended(assets[i].sections.value, kind, changed, cursor, page, o);
    hide AppendSection, FindSection;
  }

  lemma {:induction false} FindKindIs(sections: seq<Section>, kind: string)
    ensures FindSection(sections, kind).Some? ==> FindSection(sections, kind).value.kind == kind
  {
    if sections != [] { FindKindIs(sections[1..], kind); }
  }

  lemma AppendKeepsPages(
    pages: seq<Page<Authority>>, section: Section, kind: string, changed: string, cursor: Cursor, page: Page<Authority>,
    o: Origin, k: nat)
    requires Chain(pages) && section.kind == kind && PagesFrom(pages, section, k)
    requires changed == kind ==> Follows(pages, cursor, page)
    ensures PagesFrom(pages, AppendSection(section, changed, cursor, page, o), k)
  {
    hide Chain, HoldsPages, Follows, Merge, NextCursor;
    var n: nat :| k <= n && HoldsPages(AuthorityKey, pages, n, section.records, section.next);
    if changed == kind {
      AppendSectionMoves(pages, section, changed, cursor, page, o);
      if section.next == Some(cursor) {
        var after := AppendSection(section, changed, cursor, page, o);
        assert HoldsPages(AuthorityKey, pages, n + 1, after.records, after.next);
      }
    }
  }

  // ---- Steps ----

  // The step's answer replaces the asset: a detail of it, the asset created, or a
  // list that names it at another revision.
  ghost predicate Replaces(s: State, step: Step, asset: Id) {
    step.Deliver? && step.request in s.net.requests &&
    var r := s.net.requests[step.request];
    && Current(s.nav, r)
    && match r.kind
       case DetailOf(a) => a == asset && step.answer.OneDetail?
       case NewAsset => step.answer.OneDetail? && step.answer.detail.id == asset
       case ListAssets(_, _, _) => NamesOtherRevision(s.shown.assets, step.answer, asset)
       case AppendAssets(_, _, _) => NamesOtherRevision(s.shown.assets, step.answer, asset)
       case _ => false
  }

  ghost predicate NamesOtherRevision(assets: seq<Asset>, answer: Answer, asset: Id) {
    answer.AssetPage? && FindAsset(assets, asset).Some?
      && OtherRevision(answer.page.items, FindAsset(assets, asset).value)
  }

  // The run stays in one visit, and nothing replaces the asset.
  ghost predicate SameAsset(s: State, steps: seq<Step>, asset: Id)
    decreases |steps|
  {
    steps == [] ||
    (!Replaces(s, steps[0], asset)
     && (Enabled(s, steps[0]) ==>
           Next(s, steps[0]).nav.visit == s.nav.visit && SameAsset(Next(s, steps[0]), steps[1..], asset)))
  }

  lemma ListAnswerKeepsSection(shown: Shown, r: Request, answer: Answer, asset: Id, kind: string)
    requires HeldSection(shown.assets, asset, kind).Some?
    requires r.kind.ListAssets? || r.kind.AppendAssets?
    requires !NamesOtherRevision(shown.assets, answer, asset)
    ensures HeldSection(Show(shown, r, answer).assets, asset, kind) == HeldSection(shown.assets, asset, kind)
  {
    var a := FindAsset(shown.assets, asset).value;
    FindIdIs(shown.assets, asset);
    hide ReplaceAssets, MergeAssets, OtherRevision, PageIds, NewIds, SameExact;
    if answer.AssetPage? {
      ReplaceHolds(shown.assets, answer.page.items, r.origin, a);
      MergeHolds(shown.assets, answer.page.items, r.origin, a);
      KeptAssetKeepsSection(shown.assets, Show(shown, r, answer).assets, asset, kind);
    }
  }

  lemma DetailAnswerKeepsSection(shown: Shown, r: Request, answer: Answer, asset: Id, kind: string)
    requires HeldSection(shown.assets, asset, kind).Some?
    requires (r.kind.DetailOf? && !(answer.OneDetail? && r.kind.asset == asset))
             || (r.kind.NewAsset? && !(answer.OneDetail? && answer.detail.id == asset))
    ensures HeldSection(Show(shown, r, answer).assets, asset, kind) == HeldSection(shown.assets, asset, kind)
  {
    hide PutDetail, WithoutAsset, WithoutSections, ProjectDetail, HeldSection, SameExact;
    if answer.OneDetail? && answer.detail.id != asset {
      ProjectedId(answer.detail, r.origin);
      OtherDetailKeepsSection(shown.assets, ProjectDetail(answer.detail, r.origin), asset, kind);
    }
  }

  lemma ProjectedId(detail: Detail, o: Origin)
    ensures ProjectDetail(detail, o).id == detail.id
  {
  }

  lemma OtherDetailKeepsSection(assets: seq<Asset>, other: Asset, asset: Id, kind: string)
    requires HeldSection(assets, asset, kind).Some? && other.id != asset
    ensures HeldSection(PutDetail(assets, other), asset, kind) == HeldSection(assets, asset, kind)
    ensures HeldSection([other] + WithoutAsset(assets, other.id), asset, kind) == HeldSection(assets, asset, kind)
  {
    var a := FindAsset(assets, asset).value;
    FindIdIs(assets, asset);
    hide PutDetail, WithoutAsset;
    PutOtherHolds(assets, other, a);
    WithoutOtherHolds(assets, other.id, a);
    var rest := WithoutAsset(assets, other.id);
    assert ([other] + rest)[1..] == rest;
    KeptAssetKeepsSection(assets, PutDetail(assets, other), asset, kind);
    KeptAssetKeepsSection(assets, [other] + rest, asset, kind);
  }

  lemma AuthorityAnswerKeepsSection(server: Server, s: State, r: Request, answer: Answer, asset: Id, kind: string,
      k: nat)
    requires Steady(server) && Serves(server, r, answer) && r.kind.MoreAuthority? && r.origin == Here(s.nav)
    requires SectionAtLeast(server, s, asset, kind, k)
    ensures SectionAtLeast(server, s.(shown := Show(s.shown, r, answer)), asset, kind, k)
  {
    hide AppendRecords, AppendSection, HeldSection, PagesFrom, Follows, SectionCursor, Chain, SameExact;
    var section := HeldSection(s.shown.assets, asset, kind).value;
    if answer.AuthorityPage? {
      var pages := server.authority(s.nav.workspace, asset, kind);
      SectionAppended(s.shown.assets, asset, kind, r.kind.asset, r.kind.section, r.kind.cursor, answer.records,
        r.origin);
      HeldKindIs(s.shown.assets, asset, kind);
      if r.kind.asset == asset {
        AppendKeepsPages(pages, section, kind, r.kind.section, r.kind.cursor, answer.records, r.origin, k);
      }
    }
  }

  lemma HeldKindIs(assets: seq<Asset>, asset: Id, kind: string)
    requires HeldSection(assets, asset, kind).Some?
    ensures HeldSection(assets, asset, kind).value.kind == kind
  {
    FindKindIs(FindAsset(assets, asset).value.sections.value, kind);
  }

  lemma AnswerKeepsSection(server: Server, s: State, id: nat, answer: Answer, asset: Id, kind: string, k: nat)
    requires Steady(server) && RequestsIssued(s) && SectionAtLeast(server, s, asset, kind, k) && id in s.net.requests
    requires Current(s.nav, s.net.requests[id]) && Serves(server, s.net.requests[id], answer)
    requires !Replaces(s, Deliver(id, answer), asset) && !s.net.requests[id].kind.NewWorkspace?
    ensures SectionAtLeast(server, s.(shown := Show(s.shown, s.net.requests[id], answer)), asset, kind, k)
  {
    var r := s.net.requests[id];
    CurrentIsHere(s.nav, r);
    hide Show, HeldSection, PagesFrom, Steady, Serves, RequestIssued, NamesOtherRevision;
    match r.kind
    case ListAssets(_, _, _) => ListAnswerKeepsSection(s.shown, r, answer, asset, kind);
    case AppendAssets(_, _, _) => ListAnswerKeepsSection(s.shown, r, answer, asset, kind);
    case DetailOf(_) => DetailAnswerKeepsSection(s.shown, r, answer, asset, kind);
    case NewAsset => DetailAnswerKeepsSection(s.shown, r, answer, asset, kind);
    case MoreAuthority(_, _, _) => AuthorityAnswerKeepsSection(server, s, r, answer, asset, kind, k);
    case _ => OtherAnswersKeepAssets(s.shown, r, answer);
  }

  lemma WaitingKeepsAssets(shown: Shown, kind: Kind, workspace: string)
    ensures Waiting(shown, kind, workspace).assets == shown.assets
  {
  }

  lemma StepKeepsSection(server: Server, s: State, step: Step, asset: Id, kind: string, k: nat)
    requires Steady(server) && RequestsIssued(s) && SectionAtLeast(server, s, asset, kind, k)
    requires Enabled(s, step) && ServedStep(server, s, step)
    requires !Replaces(s, step, asset) && Next(s, step).nav.visit == s.nav.visit
    ensures SectionAtLeast(server, Next(s, step), asset, kind, k)
  {
    hide HeldSection, PagesFrom, Show, Wanted, Waiting, CleanUp, Serves, Steady, RequestsIssued, Replaces, Fits;
    match step
    case Do(seen, command) =>
      var wanted := Wanted(s, seen, command);
      if wanted.Some? {
        WaitingKeepsAssets(s.shown, wanted.value, if wanted.value.NewWorkspace? then "" else seen.workspace);
      }
    case Deliver(id, answer) =>
      var r := s.net.requests[id];
      if Current(s.nav, r) && !r.kind.NewWorkspace? {
        AnswerKeepsSection(server, s, id, answer, asset, kind, k);
      }
    case _ =>
  }

  // ---- Runs ----

  // Over any such run the section keeps its pages, and an answer for the cursor of
  // a page whose successor is held changes nothing that is shown.
  lemma {:induction false} SectionCursorUsedOnce(
    server: Server, s: State, steps: seq<Step>, asset: Id, kind: string, i: nat, id: nat, page: Page<Authority>)
    requires Steady(server) && RequestsIssued(s) && SectionAtLeast(server, s, asset, kind, i + 2)
    requires ServedRun(server, s, steps) && SameAsset(s, steps, asset) && Run(s, steps).Some?
    requires var t := Run(s, steps).value;
             && i < |server.authority(t.nav.workspace, asset, kind)| - 1
             && id in t.net.requests
             && t.net.requests[id].kind
                == MoreAuthority(asset, kind, server.authority(t.nav.workspace, asset, kind)[i].next.value)
    ensures var t := Run(s, steps).value;
            && SectionAtLeast(server, t, asset, kind, i + 2)
            && Receive(t, id, AuthorityPage(page)).shown == t.shown
    decreases |steps|
  {
    if steps == [] {
      UsedCursor(server, s, asset, kind, i);
      hide SectionAtLeast, Steady, RequestsIssued, AppendRecords, SectionCursor;
    } else {
      hide Steady, RequestsIssued, SectionAtLeast, Next, ServedStep, Replaces;
      StepKeepsSection(server, s, steps[0], asset, kind, i + 2);
      StepKeepsIssued(s, steps[0]);
      SectionCursorUsedOnce(server, Next(s, steps[0]), steps[1..], asset, kind, i, id, page);
    }
  }

  lemma UsedCursor(server: Server, s: State, asset: Id, kind: string, i: nat)
    requires Steady(server) && SectionAtLeast(server, s, asset, kind, i + 2)
    requires i < |server.authority(s.nav.workspace, asset, kind)| - 1
    ensures var pages := server.authority(s.nav.workspace, asset, kind);
            pages[i].next.Some? && SectionCursor(s.shown.assets, asset, kind) != pages[i].next
  {
    hide Plain, Firsts, Concat;
    var pages, section := server.authority(s.nav.workspace, asset, kind),
      HeldSection(s.shown.assets, asset, kind).value;
    var n: nat :| i + 2 <= n && HoldsPages(AuthorityKey, pages, n, section.records, section.next);
    assert Chain(pages);
    CursorTellsPosition(pages, n, i);
  }
}
