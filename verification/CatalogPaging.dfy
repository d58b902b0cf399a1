// Revision and authority paging refine the server's lists: what is held is a
// prefix of the pages, each key once, and each cursor is used once per load.
module CatalogPaging {
  import opened Wrappers
  import opened CatalogModel
  import opened CatalogAnswers
  import opened CatalogProvenance
  import opened Paging

  // The server's pages, which stay the same while the run lasts.
  datatype Server = Server(
    revisions: (string, Id) -> seq<Page<Revision>>,
    authority: (string, Id, string) -> seq<Page<Authority>>)

  ghost predicate Steady(server: Server) {
    && (forall w, a :: Chain(server.revisions(w, a)) && KeysOnce(RevisionId, server.revisions(w, a)[0].items))
    && (forall w, a, k ::
      Chain(server.authority(w, a, k))
      && KeysOnce(AuthorityKey, server.authority(w, a, k)[0].items))
  }

  ghost predicate SectionsFirst(server: Server, workspace: string, detail: Detail)
    requires Steady(server)
  {
    forall i :: 0 <= i < |detail.sections| ==>
      detail.sections[i].page == server.authority(workspace, detail.id, detail.sections[i].kind)[0]
  }

  // The answer is the one that the server gives to the request.
  ghost predicate Serves(server: Server, r: Request, answer: Answer)
    requires Steady(server)
  {
    var w := r.origin.workspace;
    match answer
    case RevisionPage(page) =>
      && (r.kind.Revisions? ==> page == server.revisions(w, r.kind.asset)[0])
      && (r.kind.MoreRevisions? ==> Follows(server.revisions(w, r.kind.asset), r.kind.cursor, page))
    case AuthorityPage(page) =>
      r.kind.MoreAuthority? ==> Follows(server.authority(w, r.kind.asset, r.kind.section), r.kind.cursor, page)
    case OneDetail(detail) => SectionsFirst(server, w, detail)
    case _ => true
  }

  // ---- What is held ----

  ghost predicate SomePages<T, K>(key: T -> K, pages: seq<Page<T>>, items: seq<Held<T>>, next: Option<Cursor>) {
    exists k :: HoldsPages(key, pages, k, items, next)
  }

  ghost predicate EntryRefines(pages: seq<Page<Revision>>, entry: RevisionList) {
    if entry.status.Ready? then SomePages(RevisionId, pages, entry.items, entry.next)
    else entry.items == [] && entry.next == None
  }

  ghost predicate RevisionsRefine(server: Server, workspace: string, revisions: map<Id, RevisionList>) {
    forall a :: a in revisions ==> EntryRefines(server.revisions(workspace, a), revisions[a])
  }

  ghost predicate AssetRefines(server: Server, workspace: string, asset: Asset) {
    asset.sections.Some? ==>
      forall i :: 0 <= i < |asset.sections.value| ==>
        var section := asset.sections.value[i];
        SomePages(AuthorityKey, server.authority(workspace, asset.id, section.kind), section.records, section.next)
  }

  ghost predicate AssetsRefine(server: Server, workspace: string, assets: seq<Asset>) {
    forall i :: 0 <= i < |assets| ==> AssetRefines(server, workspace, assets[i])
  }

  ghost predicate PagesRefine(server: Server, workspace: string, shown: Shown) {
    RevisionsRefine(server, workspace, shown.revisions) && AssetsRefine(server, workspace, shown.assets)
  }

  // ---- One answer ----

  lemma FirstRevisions(server: Server, o: Origin, asset: Id, answer: Answer)
    requires Steady(server) && Serves(server, Request(Revisions(asset), o), answer)
    ensures EntryRefines(server.revisions(o.workspace, asset), RevisionsAnswered(o, answer))
  {
    if answer.RevisionPage? {
      var pages := server.revisions(o.workspace, asset);
      FirstPage(RevisionId, pages, o);
      assert HoldsPages(RevisionId, pages, 1, HoldAll(pages[0].items, o), pages[0].next);
    }
  }

  // An answer for the cursor at hand moves on by one page; any other changes
  // neither the items nor the cursor.
  lemma MoreRevisionsMove(server: Server, o: Origin, entry: RevisionList, asset: Id, cursor: Cursor, answer: Answer)
    requires Steady(server) && Serves(server, Request(MoreRevisions(asset, cursor), o), answer)
    requires EntryRefines(server.revisions(o.workspace, asset), entry)
    ensures var pages, after := server.revisions(o.workspace, asset), MoreRevisionsAnswered(entry, o, cursor, answer);
            && EntryRefines(pages, after)
            && (answer.RevisionPage? && entry.next == Some(cursor) ==>
                  forall k: nat :: HoldsPages(RevisionId, pages, k, entry.items, entry.next) ==>
                    k < |pages| && HoldsPages(RevisionId, pages, k + 1, after.items, after.next))
            && (!(answer.RevisionPage? && entry.next == Some(cursor)) ==>
                  after.items == entry.items && after.next == entry.next && after.status == entry.status)
  {
    hide HoldsPages, Merge, NextCursor, AppendMessage, Follows;
    if answer.RevisionPage? && entry.next == Some(cursor) {
      var pages := server.revisions(o.workspace, asset);
      forall k: nat | HoldsPages(RevisionId, pages, k, entry.items, entry.next)
        ensures k < |pages|
        ensures HoldsPages(RevisionId, pages, k + 1, Merge(RevisionId, entry.items, answer.revisions.items, o),
                           NextCursor(cursor, answer.revisions.next))
      {
        NextPage(RevisionId, pages, k, entry.items, entry.next, cursor, answer.revisions, o);
      }
    }
  }

  lemma AppendSectionMoves(
    pages: seq<Page<Authority>>, section: Section, kind: string, cursor: Cursor, page: Page<Authority>, o: Origin)
    requires Chain(pages) && SomePages(AuthorityKey, pages, section.records, section.next)
    requires section.kind == kind ==> Follows(pages, cursor, page)
    ensures var after := AppendSection(section, kind, cursor, page, o);
            && after.kind == section.kind
            && SomePages(AuthorityKey, pages, after.records, after.next)
            && (section.kind == kind && section.next == Some(cursor) ==>
                  forall k: nat :: HoldsPages(AuthorityKey, pages, k, section.records, section.next) ==>
                    k < |pages| && HoldsPages(AuthorityKey, pages, k + 1, after.records, after.next))
  {
    hide HoldsPages, Merge, NextCursor, Follows;
    if section.kind == kind && section.next == Some(cursor) {
      forall k: nat | HoldsPages(AuthorityKey, pages, k, section.records, section.next)
        ensures k < |pages|
        ensures HoldsPages(AuthorityKey, pages, k + 1, Merge(AuthorityKey, section.records, page.items, o),
                           NextCursor(cursor, page.next))
      {
        NextPage(AuthorityKey, pages, k, section.records, section.next, cursor, page, o);
      }
    }
  }

  lemma AppendRecordsRefine(
    server: Server, o: Origin, assets: seq<Asset>, id: Id, kind: string, cursor: Cursor, page: Page<Authority>)
    requires Steady(server) && AssetsRefine(server, o.workspace, assets)
    requires Follows(server.authority(o.workspace, id, kind), cursor, page)
    ensures AssetsRefine(server, o.workspace, AppendRecords(assets, id, kind, cursor, page, o))
  {
    hide SomePages, Follows, Chain, AppendSection;
    var after := AppendRecords(assets, id, kind, cursor, page, o);
    forall i | 0 <= i < |assets|
      ensures AssetRefines(server, o.workspace, after[i])
    {
      assert AssetRefines(server, o.workspace, assets[i]);
      if assets[i].id == id && assets[i].sections.Some? {
        var sections := assets[i].sections.value;
        forall j | 0 <= j < |sections|
          ensures var section := AppendSection(sections[j], kind, cursor, page, o);
                  SomePages(AuthorityKey, server.authority(o.workspace, id, section.kind), section.records,
                    section.next)
        {
          AppendSectionMoves(server.authority(o.workspace, id, sections[j].kind), sections[j], kind, cursor, page, o);
        }
      }
    }
  }

  lemma DetailRefines(server: Server, o: Origin, detail: Detail)
    requires Steady(server) && SectionsFirst(server, o.workspace, detail)
    ensures AssetRefines(server, o.workspace, ProjectDetail(detail, o))
  {
    hide HoldsPages;
    forall i | 0 <= i < |detail.sections|
      ensures var section := ProjectSections(detail.sections, o)[i];
              SomePages(AuthorityKey, server.authority(o.workspace, detail.id, section.kind), section.records,
                section.next)
    {
      var pages := server.authority(o.workspace, detail.id, detail.sections[i].kind);
      FirstPage(AuthorityKey, pages, o);
      assert HoldsPages(AuthorityKey, pages, 1, HoldAll(pages[0].items, o), pages[0].next);
    }
  }

  // Lists of assets only take over held assets or summaries.
  lemma {:induction false} FindLoadedRefines(server: Server, w: string, assets: seq<Asset>, id: Id)
    requires AssetsRefine(server, w, assets)
    ensures FindLoaded(assets, id).Some? ==> AssetRefines(server, w, FindLoaded(assets, id).value)
  {
    hide AssetRefines;
    if assets != [] { FindLoadedRefines(server, w, assets[1..], id); }
  }

  lemma {:induction false} ElsewhereRefines(server: Server, w: string, assets: seq<Asset>, items: seq<Summary>)
    requires AssetsRefine(server, w, assets)
    ensures AssetsRefine(server, w, LoadedElsewhere(assets, items))
  {
    hide AssetRefines;
    if assets != [] { ElsewhereRefines(server, w, assets[1..], items); }
  }

  lemma ReplaceRefines(server: Server, o: Origin, assets: seq<Asset>, items: seq<Summary>)
    requires AssetsRefine(server, o.workspace, assets)
    ensures AssetsRefine(server, o.workspace, ReplaceAssets(assets, items, o))
  {
    ElsewhereRefines(server, o.workspace, assets, items);
    forall i | 0 <= i < |items|
      ensures AssetRefines(server, o.workspace, ListedAssets(assets, items, o)[i])
    {
      FindLoadedRefines(server, o.workspace, assets, items[i].id);
    }
    hide AssetRefines;
  }

  // Summaries have no sections, wherever they come from.
  lemma {:induction false} MergeAssetsRefine(server: Server, w: string, o: Origin, assets: seq<Asset>,
      items: seq<Summary>)
    requires AssetsRefine(server, w, assets)
    ensures AssetsRefine(server, w, MergeAssets(assets, items, o))
  {
    if items != [] {
      var last := items[|items| - 1];
      assert AssetRefines(server, w, ProjectSummary(last, o));
      hide AssetRefines;
      MergeAssetsRefine(server, w, o, assets, items[..|items| - 1]);
    }
  }

  lemma {:induction false} WithoutAssetRefines(server: Server, w: string, assets: seq<Asset>, id: Id)
    requires AssetsRefine(server, w, assets)
    ensures AssetsRefine(server, w, WithoutAsset(assets, id))
  {
    hide AssetRefines;
    if assets != [] { WithoutAssetRefines(server, w, assets[1..], id); }
  }

  lemma PutDetailRefines(server: Server, w: string, assets: seq<Asset>, asset: Asset)
    requires AssetsRefine(server, w, assets) && AssetRefines(server, w, asset)
    ensures AssetsRefine(server, w, PutDetail(assets, asset))
  {
    hide AssetRefines;
  }

  lemma DetailAnswerRefines(server: Server, o: Origin, shown: Shown, asset: Id, answer: Answer)
    requires Steady(server) && AssetsRefine(server, o.workspace, shown.assets)
    requires answer.OneDetail? ==> SectionsFirst(server, o.workspace, answer.detail)
    ensures AssetsRefine(server, o.workspace, ShowDetail(shown, o, asset, answer).assets)
    ensures AssetsRefine(server, o.workspace, ShowNewAsset(shown, o, answer).assets)
  {
    hide AssetsRefine, Steady, PutDetail, WithoutAsset, WithoutSections, SectionsFirst, SameExact, AssetRefines;
    if answer.OneDetail? {
      DetailRefines(server, o, answer.detail);
      hide ProjectDetail;
      PutDetailRefines(server, o.workspace, shown.assets, ProjectDetail(answer.detail, o));
      WithoutAssetRefines(server, o.workspace, shown.assets, answer.detail.id);
      ConsRefines(server, o.workspace, ProjectDetail(answer.detail, o), WithoutAsset(shown.assets, answer.detail.id));
    }
  }

  lemma ListAnswersRefine(server: Server, w: string, shown: Shown, o: Origin, cursor: Cursor, answer: Answer)
    requires AssetsRefine(server, w, shown.assets)
    ensures o.workspace == w ==> AssetsRefine(server, w, ShowList(shown, o, answer).assets)
    ensures AssetsRefine(server, w, ShowAppended(shown, o, cursor, answer).assets)
  {
    hide AssetsRefine, ReplaceAssets, MergeAssets, PageIds, NewIds, SameExact;
    if answer.AssetPage? {
      if o.workspace == w { ReplaceRefines(server, o, shown.assets, answer.page.items); }
      MergeAssetsRefine(server, w, o, shown.assets, answer.page.items);
    }
  }

  lemma AuthorityAnswersRefine(
    server: Server, shown: Shown, o: Origin, asset: Id, section: string, cursor: Cursor, answer: Answer)
    requires Steady(server) && Serves(server, Request(MoreAuthority(asset, section, cursor), o), answer)
    requires AssetsRefine(server, o.workspace, shown.assets)
    ensures AssetsRefine(server, o.workspace, ShowMoreAuthority(shown, o, asset, section, cursor, answer).assets)
  {
    hide Steady, AssetsRefine, AppendRecords, SectionCursor, SectionsFirst, Follows, SameExact;
    if answer.AuthorityPage? {
      AppendRecordsRefine(server, o, shown.assets, asset, section, cursor, answer.records);
    }
  }

  lemma AssetAnswersRefine(server: Server, w: string, shown: Shown, r: Request, answer: Answer)
    requires Steady(server) && Serves(server, r, answer)
    requires AssetsRefine(server, w, shown.assets) && (r.origin.workspace == w || r.kind.AppendAssets?)
    ensures AssetsRefine(server, w, Show(shown, r, answer).assets)
  {
    var o := r.origin;
    hide AssetsRefine, Steady, ShowList, ShowAppended, ShowMoreAuthority, ShowDetail, ShowNewAsset, SameExact;
    hide SectionsFirst, Follows;
    match r.kind
    case ListAssets(_, _, _) => ListAnswersRefine(server, w, shown, o, "", answer);
    case AppendAssets(_, _, cursor) => ListAnswersRefine(server, w, shown, o, cursor, answer);
    case MoreAuthority(asset, section, cursor) =>
      AuthorityAnswersRefine(server, shown, o, asset, section, cursor, answer);
    case DetailOf(asset) => DetailAnswerRefines(server, o, shown, asset, answer);
    case NewAsset => DetailAnswerRefines(server, o, shown, "", answer);
    case _ => hide Show; OtherAnswersKeepAssets(shown, r, answer);
  }

  lemma ConsRefines(server: Server, w: string, asset: Asset, assets: seq<Asset>)
    requires AssetRefines(server, w, asset) && AssetsRefine(server, w, assets)
    ensures AssetsRefine(server, w, [asset] + assets)
  {
    hide AssetRefines;
  }

  lemma PutEntry(server: Server, w: string, revisions: map<Id, RevisionList>, asset: Id, entry: RevisionList)
    requires RevisionsRefine(server, w, revisions) && EntryRefines(server.revisions(w, asset), entry)
    ensures RevisionsRefine(server, w, revisions[asset := entry])
  {
    hide EntryRefines;
  }

  lemma EntryOrRefines(server: Server, w: string, revisions: map<Id, RevisionList>, asset: Id)
    requires RevisionsRefine(server, w, revisions)
    ensures EntryRefines(server.revisions(w, asset), EntryOr(revisions, asset))
  {
  }

  lemma FirstAnswerRefines(server: Server, shown: Shown, o: Origin, asset: Id, answer: Answer)
    requires Steady(server) && Serves(server, Request(Revisions(asset), o), answer)
    requires RevisionsRefine(server, o.workspace, shown.revisions)
    ensures RevisionsRefine(server, o.workspace, ShowRevisions(shown, o, asset, answer).revisions)
  {
    FirstRevisions(server, o, asset, answer);
    PutEntry(server, o.workspace, shown.revisions, asset, RevisionsAnswered(o, answer));
    hide Steady, Serves, RevisionsRefine, EntryRefines, RevisionsAnswered, SameExact;
  }

  lemma NextAnswerRefines(server: Server, shown: Shown, o: Origin, asset: Id, cursor: Cursor, answer: Answer)
    requires Steady(server) && Serves(server, Request(MoreRevisions(asset, cursor), o), answer)
    requires RevisionsRefine(server, o.workspace, shown.revisions)
    ensures RevisionsRefine(server, o.workspace, ShowMoreRevisions(shown, o, asset, cursor, answer).revisions)
  {
    var entry := EntryOr(shown.revisions, asset);
    EntryOrRefines(server, o.workspace, shown.revisions, asset);
    hide Steady, RevisionsRefine, EntryRefines, MoreRevisionsAnswered, EntryOr, SameExact;
    MoreRevisionsMove(server, o, entry, asset, cursor, answer);
    hide Serves;
    PutEntry(server, o.workspace, shown.revisions, asset, MoreRevisionsAnswered(entry, o, cursor, answer));
  }

  lemma RevisionAnswersRefine(server: Server, w: string, shown: Shown, r: Request, answer: Answer)
    requires Steady(server) && Serves(server, r, answer)
    requires RevisionsRefine(server, w, shown.revisions) && (r.origin.workspace == w || r.kind.AppendAssets?)
    ensures RevisionsRefine(server, w, Show(shown, r, answer).revisions)
  {
    hide Steady, Serves, EntryRefines, ShowRevisions, ShowMoreRevisions, ShowDetail, SameExact;
    match r.kind
    case Revisions(asset) => hide RevisionsRefine; FirstAnswerRefines(server, shown, r.origin, asset, answer);
    case MoreRevisions(asset, cursor) =>
      hide RevisionsRefine;
      NextAnswerRefines(server, shown, r.origin, asset, cursor, answer);
    case DetailOf(asset) => DetailDropsRevisions(shown, r.origin, asset, answer);
    case _ => hide RevisionsRefine, Show; OtherAnswersKeepRevisions(shown, r, answer);
  }

  lemma WaitingRefines(server: Server, w: string, shown: Shown, kind: Kind, workspace: string)
    requires PagesRefine(server, w, shown)
    ensures PagesRefine(server, w, Waiting(shown, kind, workspace))
  {
    hide AssetsRefine, SomePages;
  }

  // ---- Steps and runs ----

  ghost predicate ServedStep(server: Server, s: State, step: Step)
    requires Steady(server)
  {
    step.Deliver? && step.request in s.net.requests ==> Serves(server, s.net.requests[step.request], step.answer)
  }

  lemma SwitchRefines(server: Server, s: State, next: string)
    requires PagesRefine(server, s.nav.workspace, s.shown)
    ensures var t := ApplyWorkspace(s, next); PagesRefine(server, t.nav.workspace, t.shown)
  {
    BlankRefines(server, next);
    hide PagesRefine, Blank;
    assert Blank(next != "") == Blank(true) || Blank(next != "") == Blank(false);
  }

  lemma SamePagesRefine(server: Server, w: string, shown: Shown, other: Shown)
    requires PagesRefine(server, w, shown) && other.revisions == shown.revisions && other.assets == shown.assets
    ensures PagesRefine(server, w, other)
  {
  }

  lemma PerformRefines(server: Server, s: State, seen: Render, command: Command)
    requires PagesRefine(server, s.nav.workspace, s.shown)
    ensures var t := Perform(s, seen, command); PagesRefine(server, t.nav.workspace, t.shown)
  {
    hide PagesRefine, Wanted, Waiting, ApplyWorkspace, Issue;
    match command
    case SetWorkspace(next) => SwitchRefines(server, s, next);
    case SetQuery(query, assetType) =>
      SamePagesRefine(server, s.nav.workspace, s.shown, s.shown.(catalogIds := [], page := NO_PAGE));
    case Refresh =>
    case _ =>
      var wanted := Wanted(s, seen, command);
      if wanted.Some? {
        var workspace := if wanted.value.NewWorkspace? then "" else seen.workspace;
        WaitingRefines(server, s.nav.workspace, s.shown, wanted.value, workspace);
        IssueChanges(s.(shown := Waiting(s.shown, wanted.value, workspace)), wanted.value, workspace);
      }
  }

  lemma AcceptRefines(server: Server, s: State, r: Request, answer: Answer)
    requires Steady(server) && PagesRefine(server, s.nav.workspace, s.shown) && RequestIssued(s.nav, r)
    requires Current(s.nav, r) && Serves(server, r, answer)
    ensures var t := Accept(s, r, answer); PagesRefine(server, t.nav.workspace, t.shown)
  {
    hide Steady, Serves, Show, ApplyWorkspace, AssetsRefine, RevisionsRefine, RequestIssued, Current;
    if r.kind.NewWorkspace? {
      if answer.Created? {
        hide PagesRefine;
        SwitchRefines(server, s, answer.workspace);
      }
    } else {
      CurrentIsHere(s.nav, r);
      AssetAnswersRefine(server, s.nav.workspace, s.shown, r, answer);
      RevisionAnswersRefine(server, s.nav.workspace, s.shown, r, answer);
    }
  }

  lemma StepRefines(server: Server, s: State, step: Step)
    requires Steady(server) && PagesRefine(server, s.nav.workspace, s.shown)
    requires RequestsIssued(s) && Enabled(s, step) && ServedStep(server, s, step)
    ensures PagesRefine(server, Next(s, step).nav.workspace, Next(s, step).shown)
  {
    hide Steady, PagesRefine, Perform, ApplyWorkspace, Accept, CleanUp, Serves, Current, Fits, RequestIssued, Issue;
    match step
    case Do(seen, command) => PerformRefines(server, s, seen, command);
    case Prefer(preferred) => SwitchRefines(server, s, preferred);
    case WorkspacesListed(ids, wanted) =>
      var next := Chosen(s, ids, wanted);
      var t := ApplyWorkspace(s, next);
      SwitchRefines(server, s, next);
      SamePagesRefine(server, t.nav.workspace, t.shown, ShowWorkspaces(s, ids, wanted).shown);
    case WorkspacesFailed(message) =>
      SamePagesRefine(server, s.nav.workspace, s.shown, s.shown.(error := message, loading := false));
    case TimerFires =>
      var t := s.(nav := s.nav.(timer := false), shown := s.shown.(loading := true));
      SamePagesRefine(server, s.nav.workspace, s.shown, t.shown);
      IssueChanges(t, ListAssets(s.nav.fingerprint, s.nav.effect, FilterOf(s.nav)), s.nav.workspace);
    case Deliver(id, answer) =>
      var r := s.net.requests[id];
      if Current(s.nav, r) { AcceptRefines(server, s, r, answer); }
  }

  lemma BlankRefines(server: Server, w: string)
    ensures PagesRefine(server, w, Blank(true)) && PagesRefine(server, w, Blank(false))
  {
  }

  ghost predicate ServedRun(server: Server, s: State, steps: seq<Step>)
    requires Steady(server)
    decreases |steps|
  {
    steps == [] ||
    (ServedStep(server, s, steps[0]) && (Enabled(s, steps[0]) ==> ServedRun(server, Next(s, steps[0]), steps[1..])))
  }

  // In every run against a steady server, in any interleaving and with any
  // closures, each revision list and each authority section is a prefix of the
  // server's pages.
  lemma {:induction false} RunRefines(server: Server, s: State, steps: seq<Step>)
    requires Steady(server) && PagesRefine(server, s.nav.workspace, s.shown) && RequestsIssued(s)
    requires ServedRun(server, s, steps) && Run(s, steps).Some?
    ensures var t := Run(s, steps).value;
            PagesRefine(server, t.nav.workspace, t.shown) && RequestsIssued(t)
    decreases |steps|
  {
    hide Steady, Next, PagesRefine, RequestsIssued, ServedStep;
    if steps != [] {
      StepRefines(server, s, steps[0]);
      StepKeepsIssued(s, steps[0]);
      RunRefines(server, Next(s, steps[0]), steps[1..]);
    }
  }

  // ---- A cursor is used once per load ----

  // The step loads the asset's revisions anew, or drops them.
  ghost predicate Reloads(s: State, step: Step, asset: Id) {
    match step
    case Do(seen, command) => Wanted(s, seen, command) == Some(Revisions(asset))
    case Deliver(id, _) =>
      id in s.net.requests
        && (s.net.requests[id].kind == Revisions(asset) || s.net.requests[id].kind == DetailOf(asset))
    case _ => false
  }

  ghost predicate SameLoad(s: State, steps: seq<Step>, asset: Id)
    decreases |steps|
  {
    steps == [] ||
    (!Reloads(s, steps[0], asset)
     && (Enabled(s, steps[0]) ==>
           Next(s, steps[0]).nav.visit == s.nav.visit && SameLoad(Next(s, steps[0]), steps[1..], asset)))
  }

  ghost predicate AtLeast(server: Server, s: State, asset: Id, k: nat) {
    && asset in s.shown.revisions
    && s.shown.revisions[asset].status.Ready?
    && exists n: nat :: k <= n && HoldsPages(RevisionId, server.revisions(s.nav.workspace, asset), n,
                                        s.shown.revisions[asset].items, s.shown.revisions[asset].next)
  }

  lemma AnswerKeepsOthers(shown: Shown, r: Request, answer: Answer, asset: Id)
    requires asset in shown.revisions
    requires r.kind != Revisions(asset) && r.kind != DetailOf(asset)
            && !(r.kind.MoreRevisions? && r.kind.asset == asset)
    ensures asset in Show(shown, r, answer).revisions
    ensures Show(shown, r, answer).revisions[asset] == shown.revisions[asset]
  {
    hide RevisionsAnswered, MoreRevisionsAnswered, EntryOr, ShowDetail, SameExact;
    match r.kind
    case Revisions(_) =>
    case MoreRevisions(_, _) =>
    case DetailOf(other) => DetailDropsRevisions(shown, r.origin, other, answer);
    case _ => hide Show; OtherAnswersKeepRevisions(shown, r, answer);
  }

  lemma AnswerNeverGoesBack(server: Server, s: State, id: nat, answer: Answer, asset: Id, k: nat)
    requires Steady(server) && RequestsIssued(s) && AtLeast(server, s, asset, k) && id in s.net.requests
    requires Current(s.nav, s.net.requests[id]) && Serves(server, s.net.requests[id], answer)
    requires !Reloads(s, Deliver(id, answer), asset) && !s.net.requests[id].kind.NewWorkspace?
    ensures AtLeast(server, s.(shown := Show(s.shown, s.net.requests[id], answer)), asset, k)
  {
    var r := s.net.requests[id];
    hide HoldsPages, Steady, Follows, RequestIssued;
    CurrentIsHere(s.nav, r);
    if r.kind.MoreRevisions? && r.kind.asset == asset {
      var entry := s.shown.revisions[asset];
      assert EntryRefines(server.revisions(s.nav.workspace, asset), entry);
      MoreRevisionsMove(server, r.origin, entry, asset, r.kind.cursor, answer);
      hide MoreRevisionsAnswered;
    } else {
      AnswerKeepsOthers(s.shown, r, answer, asset);
      hide Show;
    }
  }

  lemma WaitingKeepsEntry(shown: Shown, kind: Kind, workspace: string, asset: Id)
    requires asset in shown.revisions && kind != Revisions(asset)
    ensures asset in Waiting(shown, kind, workspace).revisions
    ensures var before, after := shown.revisions[asset], Waiting(shown, kind, workspace).revisions[asset];
            after.status == before.status && after.items == before.items && after.next == before.next
  {
  }

  lemma StepNeverGoesBack(server: Server, s: State, step: Step, asset: Id, k: nat)
    requires Steady(server) && RequestsIssued(s) && AtLeast(server, s, asset, k)
    requires Enabled(s, step) && ServedStep(server, s, step)
    requires !Reloads(s, step, asset) && Next(s, step).nav.visit == s.nav.visit
    ensures AtLeast(server, Next(s, step), asset, k)
  {
    hide HoldsPages, Show, Wanted, Waiting, CleanUp, Serves, Steady, RequestsIssued;
    match step
    case Do(seen, command) =>
      var wanted := Wanted(s, seen, command);
      if wanted.Some? {
        WaitingKeepsEntry(s.shown, wanted.value, if wanted.value.NewWorkspace? then "" else seen.workspace, asset);
      }
    case Deliver(id, answer) =>
      var r := s.net.requests[id];
      if Current(s.nav, r) && !r.kind.NewWorkspace? {
        AnswerNeverGoesBack(server, s, id, answer, asset, k);
      }
    case _ =>
  }

  // Once the page after a cursor has been appended, no later answer for that
  // cursor changes the list until the list is loaded anew.
  lemma {:induction false} CursorUsedOnce(
    server: Server, s: State, steps: seq<Step>, asset: Id, i: nat, id: nat, page: Page<Revision>)
    requires Steady(server) && RequestsIssued(s) && AtLeast(server, s, asset, i + 2)
    requires ServedRun(server, s, steps) && SameLoad(s, steps, asset) && Run(s, steps).Some?
    requires var t := Run(s, steps).value;
             && i < |server.revisions(t.nav.workspace, asset)| - 1
             && id in t.net.requests
             && t.net.requests[id].kind
                == MoreRevisions(asset, server.revisions(t.nav.workspace, asset)[i].next.value)
    ensures var t := Run(s, steps).value;
            && AtLeast(server, t, asset, i + 2)
            && Receive(t, id, RevisionPage(page)).shown == t.shown
    decreases |steps|
  {
    if steps == [] {
      var pages, entry := server.revisions(s.nav.workspace, asset), s.shown.revisions[asset];
      var n :| i + 2 <= n && HoldsPages(RevisionId, pages, n, entry.items, entry.next);
      CursorTellsPosition(pages, n, i);
      assert entry.next != pages[i].next;
      assert s.shown.revisions[asset := entry] == s.shown.revisions;
      hide Steady, RequestsIssued, Merge;
    } else {
      hide Steady, RequestsIssued, AtLeast, Next, ServedStep, Reloads;
      StepNeverGoesBack(server, s, steps[0], asset, i + 2);
      StepKeepsIssued(s, steps[0]);
      CursorUsedOnce(server, Next(s, steps[0]), steps[1..], asset, i, id, page);
    }
  }

  // For authority records, whatever the server sends: after the page is appended
  // the section no longer waits for that cursor.
  lemma AuthorityCursorUsedUp(assets: seq<Asset>, id: Id, kind: string, cursor: Cursor, page: Page<Authority>,
      o: Origin)
    ensures SectionCursor(AppendRecords(assets, id, kind, cursor, page, o), id, kind) != Some(cursor)
  {
    hide Merge;
    var after := AppendRecords(assets, id, kind, cursor, page, o);
    FindAssetAfter(after, id);
    if FindAsset(after, id).Some? && FindAsset(after, id).value.sections.Some? {
      FindSectionIn(FindAsset(after, id).value.sections.value, kind);
    }
  }

  lemma {:induction false} FindAssetAfter(assets: seq<Asset>, id: Id)
    ensures FindAsset(assets, id).Some? ==>
            FindAsset(assets, id).value in assets
            && FindAsset(assets, id).value.id == id
  {
    if assets != [] {
      FindAssetAfter(assets[1..], id);
      assert assets == [assets[0]] + assets[1..];
    }
  }

  lemma {:induction false} FindSectionIn(sections: seq<Section>, kind: string)
    ensures FindSection(sections, kind).Some? ==>
              FindSection(sections, kind).value in sections && FindSection(sections, kind).value.kind == kind
  {
    if sections != [] {
      FindSectionIn(sections[1..], kind);
      assert sections == [sections[0]] + sections[1..];
    }
  }
}
