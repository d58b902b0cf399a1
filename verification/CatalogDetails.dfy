// That details load into their place: an answered detail stands where its asset was
// listed, section pages extend the section, a created asset comes first; and when
// nothing is asked, and what a change of workspace or query leaves.
module CatalogDetails {
  import opened Wrappers
  import opened CatalogModel
  import opened Paging
  import opened CatalogPaging
  import opened CatalogSections
  import opened CatalogListRuns
  import opened CatalogProgress

  // ---- Details ----

  // The asset shows the detail, with every section's first page.
  ghost predicate ShowsDetail(a: Asset, detail: Detail) {
    && a.id == detail.id && a.revisionId == detail.revisionId && a.loaded
    && a.sections.Some? && |a.sections.value| == |detail.sections|
    && forall i :: 0 <= i < |detail.sections| ==>
         var section, page := a.sections.value[i], detail.sections[i].page;
         section.kind == detail.sections[i].kind && Plain(section.records) == page.items && section.next == page.next
  }

  // The detail stands in place of the asset that is listed, or first if it is not;
  // every other asset stays where it was.
  ghost predicate InPlace(before: seq<Asset>, after: seq<Asset>, detail: Detail) {
    if exists i :: 0 <= i < |before| && before[i].id == detail.id then
      && |after| == |before|
      && forall i :: 0 <= i < |after| ==>
           if before[i].id == detail.id then ShowsDetail(after[i], detail) else after[i] == before[i]
    else |after| == |before| + 1 && ShowsDetail(after[0], detail) && after[1..] == before
  }

  lemma ProjectedShows(detail: Detail, o: Origin)
    ensures ShowsDetail(ProjectDetail(detail, o), detail)
  {
    var a := ProjectDetail(detail, o);
    forall i | 0 <= i < |detail.sections|
      ensures Plain(a.sections.value[i].records) == detail.sections[i].page.items
    {
      assert Plain(HoldAll(detail.sections[i].page.items, o)) == detail.sections[i].page.items;
    }
  }

  lemma PutInPlace(assets: seq<Asset>, detail: Detail, o: Origin)
    ensures InPlace(assets, PutDetail(assets, ProjectDetail(detail, o)), detail)
  {
    ProjectedShows(detail, o);
    assert ProjectDetail(detail, o).id == detail.id;
    hide ProjectDetail, ShowsDetail;
  }

  // What a detail leaves alone.
  ghost predicate SameList(a: Shown, b: Shown) {
    && a.catalogIds == b.catalogIds && a.page == b.page && a.loading == b.loading
    && a.exactStates == b.exactStates && a.exactCache == b.exactCache
  }

  // The page states of the asset's sections are gone, the others are as they were.
  ghost predicate SectionsReset(a: Shown, b: Shown, asset: Id) {
    && (forall key :: key in b.sectionStates <==> key in a.sectionStates && key.asset != asset)
    && (forall key :: key in b.sectionStates ==> b.sectionStates[key] == a.sectionStates[key])
  }

  // A detail that is not on its way is fetched; if it is the one asked for, it is put
  // in its place, and revisions and section pages of the asset are forgotten.
  lemma DetailLoads(s: State, asset: Id, detail: Detail)
    requires s.nav.workspace != "" && DetailKey(s.nav.workspace, asset) !in s.net.detailPending
    requires detail.id == asset && (detail.revisionAsset.Some? ==> detail.revisionAsset.value == asset)
    ensures var steps := Ask(s, EnsureAsset(asset), OneDetail(detail));
            && Run(s, steps).Some?
            && var t := Run(s, steps).value;
               && t.nav == s.nav && InPlace(s.shown.assets, t.shown.assets, detail)
               && t.shown.details == s.shown.details[asset := Loaded]
               && t.shown.revisions == s.shown.revisions - {asset}
               && SectionsReset(s.shown, t.shown, asset) && t.shown.error == ""
               && SameList(s.shown, t.shown)
  {
    var steps := Ask(s, EnsureAsset(asset), OneDetail(detail));
    AskRuns(s, EnsureAsset(asset), DetailOf(asset), OneDetail(detail));
    PutInPlace(s.shown.assets, detail, Origin(s.nav.workspace, s.nav.visit));
    hide Run, PutDetail, ProjectDetail, InPlace;
    PutTwice(s.shown.details, asset, Loading, Loaded);
  }

  // Any other detail, and a failure, is a message and nothing else.
  lemma DetailFails(s: State, asset: Id, answer: Answer)
    requires s.nav.workspace != "" && DetailKey(s.nav.workspace, asset) !in s.net.detailPending
    requires match answer
             case OneDetail(d) => d.id != asset || (d.revisionAsset.Some? && d.revisionAsset.value != asset)
             case Failure(_) => true
             case _ => false
    ensures var steps := Ask(s, EnsureAsset(asset), answer);
            && Run(s, steps).Some?
            && Run(s, steps).value.shown == s.shown.(
                 details := s.shown.details[asset := LoadFailed(
                   if answer.Failure? then answer.message else WRONG_ASSET)])
  {
    AskRuns(s, EnsureAsset(asset), DetailOf(asset), answer);
    hide Run;
    PutTwice(s.shown.details, asset, Loading, LoadFailed(if answer.Failure? then answer.message else WRONG_ASSET));
  }

  // ---- Sections ----

  // With k pages of a section held, loading more holds one more of that section and
  // leaves every other section as it was.
  lemma MoreAuthorityLoads(s: State, asset: Id, kind: string, pages: seq<Page<Authority>>, k: nat)
    requires s.nav.workspace != "" && Chain(pages) && k < |pages|
    requires HeldSection(s.shown.assets, asset, kind).Some?
    requires var section := HeldSection(s.shown.assets, asset, kind).value;
             HoldsPages(AuthorityKey, pages, k, section.records, section.next)
    requires SectionKey(asset, kind) in s.shown.sectionStates ==>
               !s.shown.sectionStates[SectionKey(asset, kind)].loadingMore
    ensures var steps := Ask(s, LoadMoreAuthority(asset, kind), AuthorityPage(pages[k]));
            && Run(s, steps).Some?
            && var t := Run(s, steps).value;
               && t.nav == s.nav
               && HeldSection(t.shown.assets, asset, kind).Some?
               && var section := HeldSection(t.shown.assets, asset, kind).value;
                  && HoldsPages(AuthorityKey, pages, k + 1, section.records, section.next)
                  && t.shown.sectionStates == s.shown.sectionStates[SectionKey(asset, kind) :=
                       PageState(None, false, if pages[k].next == pages[k - 1].next then REPEATED else "")]
  {
    var section := HeldSection(s.shown.assets, asset, kind).value;
    LastPageStops(pages, k);
    var cursor, o := section.next.value, Origin(s.nav.workspace, s.nav.visit);
    assert Follows(pages, cursor, pages[k]) && cursor == pages[k - 1].next.value;
    NextPage(AuthorityKey, pages, k, section.records, section.next, cursor, pages[k], o);
    HeldKindIs(s.shown.assets, asset, kind);
    HeldCursor(s.shown.assets, asset, kind);
    SectionAppended(s.shown.assets, asset, kind, asset, kind, cursor, pages[k], o);
    hide HoldsPages, Chain, Follows, Merge, HeldSection, SectionCursor, AppendRecords;
    var key := SectionKey(asset, kind);
    AskRuns(s, LoadMoreAuthority(asset, kind), MoreAuthority(asset, kind, cursor), AuthorityPage(pages[k]));
    hide Run;
    PutTwice(s.shown.sectionStates, key, PageState(None, true, ""),
      PageState(None, false, AppendMessage(cursor, pages[k].next)));
  }

  lemma HeldCursor(assets: seq<Asset>, asset: Id, kind: string)
    requires HeldSection(assets, asset, kind).Some?
    ensures SectionCursor(assets, asset, kind) == HeldSection(assets, asset, kind).value.next
  {
  }

  // ---- Creation ----

  // A created asset comes first, once, and the list is asked for again.
  lemma CreatedComesFirst(s: State, detail: Detail)
    requires s.nav.workspace != ""
    ensures var steps := Ask(s, CreateAsset, OneDetail(detail));
            && Run(s, steps).Some?
            && var t := Run(s, steps).value;
               && t.shown.assets != [] && ShowsDetail(t.shown.assets[0], detail)
               && (forall a :: a in t.shown.assets[1..] <==> a in s.shown.assets && a.id != detail.id)
               && t.shown == s.shown.(assets := t.shown.assets)
               && t.nav.workspace == s.nav.workspace && t.nav.visit == s.nav.visit && t.nav.timer
               && t.nav.fingerprint == s.nav.fingerprint.(generation := s.nav.fingerprint.generation + 1)
               && t.nav.effect == s.nav.effect + 1
  {
    var steps := Ask(s, CreateAsset, OneDetail(detail));
    var o := Origin(s.nav.workspace, s.nav.visit);
    var asked := Next(s, steps[0]);
    assert asked.nav == s.nav && asked.shown == s.shown;
    assert asked.net.requests[s.net.nextRequest] == Request(NewAsset, o);
    ProjectedShows(detail, o);
    WithoutIs(s.shown.assets, detail.id);
    hide ProjectDetail, ShowsDetail, WithoutAsset, Perform;
    var t := Next(asked, steps[1]);
    assert t.shown.assets == [ProjectDetail(detail, o)] + WithoutAsset(s.shown.assets, detail.id);
    assert t.shown.assets[1..] == WithoutAsset(s.shown.assets, detail.id);
    TwoSteps(s, steps);
  }

  lemma {:induction false} WithoutIs(assets: seq<Asset>, id: Id)
    ensures forall a :: a in WithoutAsset(assets, id) <==> a in assets && a.id != id
  {
    if assets != [] {
      WithoutIs(assets[1..], id);
      assert assets == [assets[0]] + assets[1..];
    }
  }

  // ---- Leaving ----

  // Nothing is shown.
  ghost predicate Empty(shown: Shown) {
    && shown.assets == [] && shown.catalogIds == [] && shown.error == ""
    && shown.page == PageState(None, false, "")
    && shown.details == map[] && shown.revisions == map[] && shown.sectionStates == map[]
    && shown.exactStates == map[] && shown.exactCache == map[]
  }

  // A step that changes the workspace leaves nothing of what was shown or asked for,
  // and starts a list of the new one, if there is one.
  lemma SwitchLeavesNothing(s: State, step: Step)
    requires Enabled(s, step) && Next(s, step).nav.workspace != s.nav.workspace
    ensures var t := Next(s, step);
            && Empty(t.shown) && t.nav.visit == s.nav.visit + 1
            && t.net.exactPending == map[] && t.net.detailPending == map[]
            && (t.nav.timer <==> t.nav.workspace != "") && (t.shown.loading <==> t.nav.workspace != "")
            && t.nav.fingerprint.workspace == t.nav.workspace
            && t.nav.fingerprint.generation > s.nav.fingerprint.generation
  {
    hide Show, Waiting, Wanted, Fits;
    match step
    case Do(seen, command) => SwitchingCommand(s, seen, command);
    case Deliver(id, answer) => SwitchingAnswer(s, id, answer);
    case _ =>
  }

  lemma SwitchingCommand(s: State, seen: Render, command: Command)
    requires Perform(s, seen, command).nav.workspace != s.nav.workspace
    ensures command.SetWorkspace? && Perform(s, seen, command) == ApplyWorkspace(s, command.next)
  {
    hide Waiting, Wanted;
  }

  lemma SwitchingAnswer(s: State, id: nat, answer: Answer)
    requires id in s.net.requests && Receive(s, id, answer).nav.workspace != s.nav.workspace
    ensures var t := Receive(s, id, answer);
            && t.shown == Blank(t.nav.workspace != "") && t.nav.visit == s.nav.visit + 1
            && t.net.exactPending == map[] && t.net.detailPending == map[]
            && (t.nav.timer <==> t.nav.workspace != "")
            && t.nav.fingerprint.workspace == t.nav.workspace
            && t.nav.fingerprint.generation > s.nav.fingerprint.generation
  {
    hide Show;
    assert s.net.requests[id].kind.NewWorkspace? && answer.Created?;
  }

  // Another query empties the list and asks for the new one; the same query does
  // nothing. What is loaded stays.
  lemma QueryStartsOver(s: State, query: string, assetType: string)
    ensures var t := Next(s, Do(RenderOf(s), SetQuery(query, assetType)));
            if query == s.nav.query && assetType == s.nav.assetType then t == s
            else
              && t.shown == s.shown.(catalogIds := [], page := PageState(None, false, "")) && t.net == s.net
              && t.nav.query == query && t.nav.assetType == assetType
              && t.nav.workspace == s.nav.workspace && t.nav.visit == s.nav.visit
              && t.nav.effect == s.nav.effect + 1 && (t.nav.timer <==> s.nav.workspace != "")
              && t.nav.fingerprint == Fingerprint(s.nav.workspace, query, assetType, s.nav.fingerprint.generation + 1)
  {
  }

  // A created workspace is entered without a query, whatever was queried before.
  lemma CreatedIsEntered(s: State, id: string)
    ensures var steps := Ask(s, CreateWorkspace, Created(id));
            && Run(s, steps).Some?
            && var t := Run(s, steps).value;
               && t.nav.workspace == id && t.nav.query == "" && t.nav.assetType == ""
               && t.nav.fingerprint == Fingerprint(id, "", "", t.nav.fingerprint.generation)
               && t.nav.fingerprint.generation > s.nav.fingerprint.generation
               && (id != s.nav.workspace ==> Empty(t.shown) && t.nav.visit == s.nav.visit + 1)
               && (id == s.nav.workspace ==> t.shown == s.shown && t.nav.visit == s.nav.visit)
               && (id != s.nav.workspace || s.nav.query != "" || s.nav.assetType != "" ==>
                     t.nav.effect > s.nav.effect && (t.nav.timer <==> id != ""))
  {
    var steps := Ask(s, CreateWorkspace, Created(id));
    var asked := Next(s, steps[0]);
    assert asked.nav == s.nav && asked.shown == s.shown;
    assert asked.net.requests[s.net.nextRequest].kind.NewWorkspace?;
    hide Perform;
    TwoSteps(s, steps);
  }

  // The list of workspaces keeps the wanted one if it is there, else the current one,
  // else takes the first; entering another one shows nothing of the old.
  lemma WorkspacesChosen(s: State, ids: seq<string>, wanted: string)
    ensures var t := Next(s, WorkspacesListed(ids, wanted));
            && (ids == [] ==> t.nav.workspace == "" && !t.shown.loading)
            && (ids != [] ==> t.nav.workspace in ids)
            && (wanted in ids ==> t.nav.workspace == wanted)
            && (wanted !in ids && s.nav.workspace in ids ==> t.nav == s.nav)
            && (wanted !in ids && s.nav.workspace !in ids && ids != [] ==> t.nav.workspace == ids[0])
            && (t.nav.workspace != s.nav.workspace ==> Empty(t.shown))
            && (t.nav.workspace == s.nav.workspace ==>
                  t.shown == s.shown.(error := "", loading := t.shown.loading) && t.nav == s.nav)
  {
  }

  // ---- When nothing is asked ----

  function SectionOf(assets: seq<Asset>, asset: Id, kind: string): Option<Section> {
    var a := FindAsset(assets, asset);
    if a.Some? && a.value.sections.Some? then FindSection(a.value.sections.value, kind) else None
  }

  // What is there, on its way or at its end is not asked for again.
  predicate NothingToAsk(s: State, command: Command) {
    s.nav.workspace == "" ||
    match command
    case LoadMoreAssets => !HasCursor(s.shown.page.next) || s.shown.page.loadingMore
    case EnsureRevisions(asset) =>
      asset in s.shown.revisions
      && (s.shown.revisions[asset].status.Ready? || s.shown.revisions[asset].status.ListLoading?)
    case LoadMoreRevisions(asset) =>
      asset in s.shown.revisions ==>
        !HasCursor(s.shown.revisions[asset].next) || s.shown.revisions[asset].loadingMore
    case LoadMoreAuthority(asset, kind) =>
      var section := SectionOf(s.shown.assets, asset, kind);
      section.Some? ==>
        || !HasCursor(section.value.next)
        || (SectionKey(asset, kind) in s.shown.sectionStates
            && s.shown.sectionStates[SectionKey(asset, kind)].loadingMore)
    case EnsureRevision(asset, revision) =>
      var key := ExactKey(s.nav.workspace, asset, revision);
      key in s.shown.exactCache || key in s.net.exactPending
    case EnsureAsset(asset) => DetailKey(s.nav.workspace, asset) in s.net.detailPending
    case _ => false
  }

  // From the render at hand a request is sent if and only if there is something to
  // ask for; otherwise nothing changes.
  lemma AsksIff(s: State, command: Command)
    requires !command.SetWorkspace? && !command.SetQuery? && !command.Refresh? && !command.CreateWorkspace?
    ensures var t := Next(s, Do(RenderOf(s), command));
            if NothingToAsk(s, command) then t == s
            else t.net.nextRequest == s.net.nextRequest + 1 && s.net.nextRequest in t.net.requests && t.nav == s.nav
  {
    if command.LoadMoreAuthority? { CursorHeld(s.shown.assets, command.asset, command.section); }
    hide SectionCursor, SectionOf, Waiting;
  }

  // What was just asked for is on its way: the next render does not ask again.
  lemma AskedOnce(s: State, command: Command)
    requires match command
             case SetWorkspace(_) => false
             case SetQuery(_, _) => false
             case Refresh => false
             case CreateAsset => false
             case CreateWorkspace => false
             case _ => true
    ensures var t := Next(s, Do(RenderOf(s), command));
            NothingToAsk(t, command) && Next(t, Do(RenderOf(t), command)) == t
  {
    var t := Next(s, Do(RenderOf(s), command));
    AsksIff(s, command);
    if command.LoadMoreAuthority? {
      CursorHeld(s.shown.assets, command.asset, command.section);
      CursorHeld(t.shown.assets, command.asset, command.section);
    }
    assert NothingToAsk(t, command) by { hide SectionCursor, SectionOf; }
    hide *;
    AsksIff(t, command);
  }

  lemma CursorHeld(assets: seq<Asset>, asset: Id, kind: string)
    ensures SectionCursor(assets, asset, kind)
         == match SectionOf(assets, asset, kind) case None => None case Some(section) => section.next
  {
  }
}
