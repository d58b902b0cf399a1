// The callbacks of CatalogRuntimeProvider: refs, setters and request maps that are
// updated in place, and loops that merge pages. Each callback is the step of
// CatalogModel with its name.
module CatalogRuntime {
  import opened Wrappers
  import M = CatalogModel
  import opened CatalogModel

  // ---- Merging loops ----

  method KnownKey<T, K(==)>(key: T -> K, held: seq<Held<T>>, k: K) returns (known: bool)
    ensures known <==> exists i :: 0 <= i < |held| && key(held[i].item) == k
  {
    for i := 0 to |held|
      invariant forall j :: 0 <= j < i ==> key(held[j].item) != k
    {
      if key(held[i].item) == k { return true; }
    }
    return false;
  }

  method MergeInto<T, K(==)>(key: T -> K, held: seq<Held<T>>, items: seq<T>, o: Origin) returns (merged: seq<Held<T>>)
    ensures merged == Merge(key, held, items, o)
  {
    merged := held;
    for n := 0 to |items|
      invariant Merge(key, merged, items[n..], o) == Merge(key, held, items, o)
    {
      assert items[n..][0] == items[n] && items[n..][1..] == items[n + 1..];
      var known := KnownKey(key, merged, key(items[n]));
      if !known { merged := merged + [Held(items[n], o)]; }
    }
  }

  method IndexOf(assets: seq<Asset>, id: Id) returns (index: int)
    ensures index == IndexOfAsset(assets, id)
  {
    for i := 0 to |assets|
      invariant forall j :: 0 <= j < i ==> assets[j].id != id
    {
      if assets[i].id == id {
        FirstIndex(assets, id, i);
        return i;
      }
    }
    return -1;
  }

  lemma {:induction false} FirstIndex(assets: seq<Asset>, id: Id, i: nat)
    requires i < |assets| && assets[i].id == id && forall j :: 0 <= j < i ==> assets[j].id != id
    ensures IndexOfAsset(assets, id) == i
  {
    if i > 0 { FirstIndex(assets[1..], id, i - 1); }
  }

  method MergeAssetsInto(current: seq<Asset>, items: seq<Summary>, o: Origin) returns (next: seq<Asset>)
    ensures next == MergeAssets(current, items, o)
  {
    next := current;
    for n := 0 to |items|
      invariant next == MergeAssets(current, items[..n], o)
    {
      var item := items[n];
      var summary := ProjectSummary(item, o);
      var index := IndexOf(next, item.id);
      if index < 0 {
        next := next + [summary];
      } else if !next[index].loaded || next[index].revisionId != item.revisionId {
        next := next[index := summary];
      }
      assert items[..n + 1][..n] == items[..n];
    }
    assert items[..|items|] == items;
  }

  method AppendRecordsInto(
    current: seq<Asset>, id: Id, kind: string, cursor: Cursor, page: Page<Authority>, o: Origin)
      returns (next: seq<Asset>)
    ensures next == AppendRecords(current, id, kind, cursor, page, o)
  {
    hide AppendSection;
    next := [];
    for i := 0 to |current|
      invariant next == AppendRecords(current, id, kind, cursor, page, o)[..i]
    {
      if current[i].id != id || current[i].sections.None? {
        next := next + [current[i]];
      } else {
        var sections := current[i].sections.value;
        var after: seq<Section> := [];
        for j := 0 to |sections|
          invariant |after| == j
          invariant forall m :: 0 <= m < j ==> after[m] == AppendSection(sections[m], kind, cursor, page, o)
        {
          var section := AppendSectionInto(sections[j], kind, cursor, page, o);
          after := after + [section];
        }
        assert after == seq(|sections|,
          j requires 0 <= j < |sections| => AppendSection(sections[j], kind, cursor, page, o));
        next := next + [current[i].(sections := Some(after))];
      }
    }
  }

  method AppendSectionInto(section: Section, kind: string, cursor: Cursor, page: Page<Authority>, o: Origin)
    returns (after: Section)
    ensures after == AppendSection(section, kind, cursor, page, o)
  {
    if section.kind != kind || section.next != Some(cursor) { return section; }
    var records := MergeInto(AuthorityKey, section.records, page.items, o);
    return Section(kind, records, if page.next == Some(cursor) then None else page.next);
  }

  // ---- The provider ----

  class CatalogRuntimeProvider {
    var workspaceRef: string
    var workspaceGeneration: nat
    var catalogRequest: Fingerprint
    var query: string
    var assetType: string
    var effect: nat
    var timer: bool
    var assets: seq<Asset>
    var catalogAssetIds: seq<Id>
    var loading: bool
    var error: string
    var pageState: PageState
    var detailStates: map<Id, Load>
    var revisionStates: map<Id, RevisionList>
    var exactRevisionStates: map<ExactKey, ExactState>
    var exactRevisions: map<ExactKey, Held<Revision>>
    var authorityPageStates: map<SectionKey, PageState>
    var revisionRequests: map<ExactKey, nat>
    var detailRequests: map<DetailKey, nat>
    var inFlight: map<nat, Request>
    var nextRequest: nat

    ghost function NavView(): Nav
      reads `workspaceRef, `workspaceGeneration, `catalogRequest, `query, `assetType, `effect, `timer
    {
      Nav(workspaceRef, workspaceGeneration, catalogRequest, query, assetType, effect, timer)
    }

    ghost function ShownView(): Shown
      reads `assets, `catalogAssetIds, `loading, `error, `pageState, `detailStates, `revisionStates
      reads `exactRevisionStates, `exactRevisions, `authorityPageStates
    {
      Shown(assets, catalogAssetIds, loading, error, pageState, detailStates, revisionStates, exactRevisionStates,
            exactRevisions, authorityPageStates)
    }

    ghost function NetView(): Net
      reads `revisionRequests, `detailRequests, `inFlight, `nextRequest
    {
      Net(revisionRequests, detailRequests, inFlight, nextRequest)
    }

    ghost function View(): State
      reads this
    {
      State(NavView(), ShownView(), NetView())
    }

    constructor ()
      ensures View() == INITIAL
    {
      workspaceRef, workspaceGeneration, catalogRequest := "", 0, Fingerprint("", "", "", 0);
      query, assetType, effect, timer := "", "", 0, false;
      assets, catalogAssetIds, loading, error, pageState := [], [], true, "", NO_PAGE;
      detailStates, revisionStates, authorityPageStates := map[], map[], map[];
      exactRevisionStates, exactRevisions := map[], map[];
      revisionRequests, detailRequests, inFlight, nextRequest := map[], map[], map[], 0;
    }

    method ClearShown(next: string)
      modifies `assets, `catalogAssetIds, `loading, `error, `pageState, `detailStates, `revisionStates
      modifies `exactRevisionStates, `exactRevisions, `authorityPageStates
      ensures ShownView() == Blank(next != "")
    {
      exactRevisions := map[];
      assets := [];
      catalogAssetIds := [];
      detailStates := map[];
      revisionStates := map[];
      exactRevisionStates := map[];
      authorityPageStates := map[];
      pageState := NO_PAGE;
      loading := next != "";
      error := "";
    }

    // The list effect's clean-up and its next run.
    method RestartListEffect()
      modifies `effect, `timer
      ensures NavView() == RestartList(old(NavView()))
    {
      effect := effect + 1;
      timer := workspaceRef != "";
    }

    method MoveTo(next: string)
      modifies `workspaceRef, `workspaceGeneration, `catalogRequest, `effect, `timer
      ensures NavView() == RestartList(old(NavView()).(
                workspace := next,
                visit := old(workspaceGeneration) + 1,
                fingerprint := Bump(old(catalogRequest).(workspace := next))))
    {
      workspaceRef := next;
      workspaceGeneration := workspaceGeneration + 1;
      catalogRequest := catalogRequest.(workspace := next, generation := catalogRequest.generation + 1);
      RestartListEffect();
    }

    method ForgetPending()
      modifies `revisionRequests, `detailRequests
      ensures NetView() == old(NetView()).(exactPending := map[], detailPending := map[])
    {
      revisionRequests := map[];
      detailRequests := map[];
    }

    method ApplyWorkspace(next: string)
      modifies this
      ensures View() == M.ApplyWorkspace(old(View()), next)
    {
      ghost var nav := NavView();
      assert nav.workspace == workspaceRef && nav.visit == workspaceGeneration && nav.fingerprint == catalogRequest;
      hide NavView, ShownView, NetView, Blank, RestartList;
      if workspaceRef == next { return; }
      MoveTo(next);
      ForgetPending();
      ClearShown(next);
    }

    method Refresh()
      modifies `catalogRequest, `effect, `timer
      ensures NavView() == RefreshNav(old(NavView()))
    {
      catalogRequest := catalogRequest.(generation := catalogRequest.generation + 1);
      RestartListEffect();
    }

    method SetWorkspaceId(seen: Render, next: string)
      modifies this
      ensures View() == Perform(old(View()), seen, SetWorkspace(next))
    {
      if next == seen.workspace {
        Refresh();
        return;
      }
      ApplyWorkspace(next);
    }

    method SetFilter(seen: Render, nextQuery: string, nextAssetType: string)
      modifies `catalogRequest, `query, `assetType, `effect, `timer
      ensures NavView() == QueryNav(old(NavView()), seen, nextQuery, nextAssetType)
    {
      catalogRequest := Fingerprint(seen.workspace, nextQuery, nextAssetType, catalogRequest.generation + 1);
      var changed := nextQuery != query || nextAssetType != assetType;
      query := nextQuery;
      assetType := nextAssetType;
      if changed { RestartListEffect(); }
    }

    method ClearList()
      modifies `catalogAssetIds, `pageState
      ensures ShownView() == old(ShownView()).(catalogIds := [], page := NO_PAGE)
    {
      catalogAssetIds := [];
      pageState := NO_PAGE;
    }

    method SetQuery(seen: Render, nextQuery: string, nextAssetType: string)
      modifies this
      ensures View() == ChangeQuery(old(View()), seen, nextQuery, nextAssetType)
    {
      hide NavView, ShownView, NetView, QueryNav;
      if nextQuery == seen.query && nextAssetType == seen.assetType { return; }
      ClearList();
      SetFilter(seen, nextQuery, nextAssetType);
    }

    method WorkspacesArrived(ids: seq<string>, wanted: string)
      modifies this
      ensures View() == ShowWorkspaces(old(View()), ids, wanted)
    {
      var next := if wanted in ids then wanted
                  else if workspaceRef in ids then workspaceRef
                  else if ids != [] then ids[0]
                  else "";
      ApplyWorkspace(next);
      error := "";
      if next == "" { loading := false; }
    }

    // fetch: the request is on its way from here on.
    method Send(kind: Kind, workspace: string) returns (id: nat)
      modifies `inFlight, `nextRequest
      ensures id == old(nextRequest)
      ensures NetView() == old(NetView()).(
                requests := old(inFlight)[id := Request(kind, Origin(workspace, old(workspaceGeneration)))],
                nextRequest := id + 1)
    {
      id := nextRequest;
      inFlight := inFlight[id := Request(kind, Origin(workspace, workspaceGeneration))];
      nextRequest := nextRequest + 1;
    }

    method SetLoading(now: bool)
      modifies `loading
      ensures ShownView() == old(ShownView()).(loading := now)
    {
      loading := now;
    }

    method StopTimer()
      modifies `timer
      ensures NavView() == old(NavView()).(timer := false)
    {
      timer := false;
    }

    method FireListTimer()
      modifies this
      ensures View() == FireTimer(old(View()))
    {
      ghost var n := NavView();
      assert n.fingerprint == catalogRequest && n.effect == effect && n.workspace == workspaceRef
        && n.visit == workspaceGeneration;
      assert NetView().nextRequest == nextRequest && NetView().requests == inFlight;
      hide NavView, ShownView, NetView;
      StopTimer();
      SetLoading(true);
      var _ := Send(ListAssets(catalogRequest, effect, Filter(query, assetType)), workspaceRef);
    }

    method SetPageState(state: PageState)
      modifies `pageState
      ensures ShownView() == old(ShownView()).(page := state)
    {
      pageState := state;
    }

    method SetRevisionState(asset: Id, state: RevisionList)
      modifies `revisionStates
      ensures ShownView() == old(ShownView()).(revisions := old(revisionStates)[asset := state])
    {
      revisionStates := revisionStates[asset := state];
    }

    method SetAuthorityPageState(key: SectionKey, state: PageState)
      modifies `authorityPageStates
      ensures ShownView() == old(ShownView()).(sectionStates := old(authorityPageStates)[key := state])
    {
      authorityPageStates := authorityPageStates[key := state];
    }

    method SetExactRevisionState(key: ExactKey, state: ExactState)
      modifies `exactRevisionStates
      ensures ShownView() == old(ShownView()).(exactStates := old(exactRevisionStates)[key := state])
    {
      exactRevisionStates := exactRevisionStates[key := state];
    }

    method SetDetailState(asset: Id, state: Load)
      modifies `detailStates
      ensures ShownView() == old(ShownView()).(details := old(detailStates)[asset := state])
    {
      detailStates := detailStates[asset := state];
    }

    // A request without a key is sent.
    method SendPlain(kind: Kind, workspace: string)
      requires !kind.ExactRevision? && !kind.DetailOf?
      modifies `inFlight, `nextRequest
      ensures NetView() == Issue(old(View()), kind, workspace).net
    {
      var _ := Send(kind, workspace);
    }

    // The request is sent and remembered under its key.
    method SendExact(key: ExactKey)
      modifies `inFlight, `nextRequest, `revisionRequests
      ensures NetView() == Issue(old(View()), ExactRevision(key.asset, key.revision), key.workspace).net
    {
      var request := Send(ExactRevision(key.asset, key.revision), key.workspace);
      revisionRequests := revisionRequests[key := request];
    }

    method SendDetail(key: DetailKey)
      modifies `inFlight, `nextRequest, `detailRequests
      ensures NetView() == Issue(old(View()), DetailOf(key.asset), key.workspace).net
    {
      var request := Send(DetailOf(key.asset), key.workspace);
      detailRequests := detailRequests[key := request];
    }

    method LoadMoreAssets(seen: Render)
      modifies this
      ensures View() == Perform(old(View()), seen, M.LoadMoreAssets)
    {
      PerformStarts(View(), seen, M.LoadMoreAssets);
      WantedAppend(View(), seen);
      assert NavView().fingerprint == catalogRequest && ShownView().page == pageState;
      hide Perform, Wanted, NavView, ShownView, NetView, Issue;
      if seen.workspace == "" || !HasCursor(seen.page.next) || seen.page.loadingMore { return; }
      var request := catalogRequest;
      ghost var s := View();
      SetPageState(pageState.(loadingMore := true, appendError := ""));
      IssueIgnoresShown(s, View(), AppendAssets(request, SeenFilter(seen), seen.page.next.value), seen.workspace);
      SendPlain(AppendAssets(request, SeenFilter(seen), seen.page.next.value), seen.workspace);
    }

    method EnsureRevisions(seen: Render, asset: Id)
      modifies this
      ensures View() == Perform(old(View()), seen, M.EnsureRevisions(asset))
    {
      PerformStarts(View(), seen, M.EnsureRevisions(asset));
      WantedRevisions(View(), seen, asset);
      assert ShownView().revisions == revisionStates;
      hide Perform, Wanted, NavView, ShownView, NetView, Issue;
      if seen.workspace == "" { return; }
      if asset in seen.revisions {
        var status := seen.revisions[asset].status;
        if status.ListLoading? || status.Ready? { return; }
      }
      ghost var s := View();
      SetRevisionState(asset, RevisionList(ListLoading, [], None, false, ""));
      IssueIgnoresShown(s, View(), Revisions(asset), seen.workspace);
      SendPlain(Revisions(asset), seen.workspace);
    }

    method LoadMoreRevisions(seen: Render, asset: Id)
      modifies this
      ensures View() == Perform(old(View()), seen, M.LoadMoreRevisions(asset))
    {
      PerformStarts(View(), seen, M.LoadMoreRevisions(asset));
      WantedMoreRevisions(View(), seen, asset);
      assert ShownView().revisions == revisionStates;
      hide Perform, Wanted, NavView, ShownView, NetView, Issue;
      if seen.workspace == "" || asset !in seen.revisions { return; }
      var existing := seen.revisions[asset];
      if !HasCursor(existing.next) || existing.loadingMore { return; }
      ghost var s := View();
      SetRevisionState(asset, EntryOr(revisionStates, asset).(loadingMore := true, appendError := ""));
      IssueIgnoresShown(s, View(), MoreRevisions(asset, existing.next.value), seen.workspace);
      SendPlain(MoreRevisions(asset, existing.next.value), seen.workspace);
    }

    method LoadMoreAuthorityRecords(seen: Render, asset: Id, section: string)
      modifies this
      ensures View() == Perform(old(View()), seen, LoadMoreAuthority(asset, section))
    {
      PerformStarts(View(), seen, LoadMoreAuthority(asset, section));
      WantedAuthority(View(), seen, asset, section);
      assert ShownView().sectionStates == authorityPageStates;
      hide Perform, Wanted, SectionCursor, NavView, ShownView, NetView, Issue;
      var cursor := SectionCursor(seen.assets, asset, section);
      var key := SectionKey(asset, section);
      if seen.workspace == "" || !HasCursor(cursor) { return; }
      if key in seen.sectionStates && seen.sectionStates[key].loadingMore { return; }
      ghost var s := View();
      SetAuthorityPageState(key, PageState(None, true, ""));
      IssueIgnoresShown(s, View(), MoreAuthority(asset, section, cursor.value), seen.workspace);
      SendPlain(MoreAuthority(asset, section, cursor.value), seen.workspace);
    }

    method EnsureRevision(seen: Render, asset: Id, revision: Id)
      modifies this
      ensures View() == Perform(old(View()), seen, M.EnsureRevision(asset, revision))
    {
      PerformStarts(View(), seen, M.EnsureRevision(asset, revision));
      WantedExact(View(), seen, asset, revision);
      assert NetView().exactPending == revisionRequests && ShownView().exactCache == exactRevisions;
      assert ShownView().exactStates == exactRevisionStates;
      hide Perform, Wanted, NavView, ShownView, NetView, Issue;
      if seen.workspace == "" { return; }
      var key := ExactKey(seen.workspace, asset, revision);
      if key in exactRevisions { return; }
      if key in revisionRequests { return; }
      ghost var s := View();
      SetExactRevisionState(key, ExactLoading);
      IssueIgnoresShown(s, View(), ExactRevision(asset, revision), seen.workspace);
      SendExact(key);
    }

    method EnsureAsset(seen: Render, asset: Id)
      modifies this
      ensures View() == Perform(old(View()), seen, M.EnsureAsset(asset))
    {
      PerformStarts(View(), seen, M.EnsureAsset(asset));
      WantedDetail(View(), seen, asset);
      assert NetView().detailPending == detailRequests && ShownView().details == detailStates;
      hide Perform, Wanted, NavView, ShownView, NetView, Issue;
      var key := DetailKey(seen.workspace, asset);
      if key in detailRequests { return; }
      if seen.workspace == "" { return; }
      ghost var s := View();
      SetDetailState(asset, Loading);
      IssueIgnoresShown(s, View(), DetailOf(asset), seen.workspace);
      SendDetail(key);
    }

    method CreateAsset(seen: Render)
      modifies `inFlight, `nextRequest
      ensures View() == Perform(old(View()), seen, M.CreateAsset)
    {
      PerformStarts(View(), seen, M.CreateAsset);
      assert Wanted(View(), seen, M.CreateAsset) == if seen.workspace == "" then None else Some(NewAsset);
      hide Perform, Wanted, NavView, ShownView, NetView, Issue;
      if seen.workspace == "" { return; }
      IssueIgnoresShown(View(), View(), NewAsset, seen.workspace);
      SendPlain(NewAsset, seen.workspace);
    }

    // ---- Continuations ----

    method ShowListPage(o: Origin, answer: Answer)
      modifies `assets, `catalogAssetIds, `loading, `error, `pageState
      ensures ShownView() == ShowList(old(ShownView()), o, answer)
    {
      hide ReplaceAssets, SameExact;
      match answer {
        case AssetPage(page) =>
          assets := ReplaceAssets(assets, page.items, o);
          catalogAssetIds := PageIds(page.items);
          pageState := PageState(page.next, false, "");
          error := "";
          loading := false;
        case Failure(message) =>
          error := message;
          loading := false;
        case _ =>
      }
    }

    method ShowAppendedPage(o: Origin, cursor: Cursor, answer: Answer)
      modifies `assets, `catalogAssetIds, `pageState
      ensures ShownView() == ShowAppended(old(ShownView()), o, cursor, answer)
    {
      hide MergeAssets, SameExact;
      match answer {
        case AssetPage(page) =>
          assets := MergeAssetsInto(assets, page.items, o);
          catalogAssetIds := catalogAssetIds + NewIds(catalogAssetIds, PageIds(page.items));
          var repeated := page.next == Some(cursor);
          pageState := PageState(if repeated then None else page.next, false, if repeated then REPEATED else "");
        case Failure(message) =>
          pageState := pageState.(loadingMore := false, appendError := message);
        case _ =>
      }
    }

    method ShowRevisionPage(o: Origin, asset: Id, answer: Answer)
      requires answer.RevisionPage? || answer.Failure?
      modifies `revisionStates
      ensures ShownView() == ShowRevisions(old(ShownView()), o, asset, answer)
    {
      match answer {
        case RevisionPage(page) =>
          revisionStates := revisionStates[asset := RevisionList(Ready, HoldAll(page.items, o), page.next, false, "")];
        case Failure(message) =>
          revisionStates := revisionStates[asset := RevisionList(ListFailed(message), [], None, false, "")];
      }
    }

    method ShowNextRevisions(o: Origin, asset: Id, cursor: Cursor, answer: Answer)
      requires answer.RevisionPage? || answer.Failure?
      modifies `revisionStates
      ensures ShownView() == ShowMoreRevisions(old(ShownView()), o, asset, cursor, answer)
    {
      hide Merge, SameExact;
      match answer {
        case RevisionPage(page) =>
          if asset !in revisionStates { return; }
          var prior := revisionStates[asset];
          if prior.next != Some(cursor) {
            assert revisionStates[asset := prior] == revisionStates;
            return;
          }
          var items := MergeInto(RevisionId, prior.items, page.items, o);
          var repeated := page.next == Some(cursor);
          revisionStates := revisionStates[asset := RevisionList(
            Ready, items, if repeated then None else page.next, false, if repeated then REPEATED else "")];
        case Failure(message) =>
          revisionStates := revisionStates[asset :=
            EntryOr(revisionStates, asset).(loadingMore := false, appendError := message)];
      }
    }

    method ShowAuthorityPage(o: Origin, asset: Id, section: string, cursor: Cursor, answer: Answer)
      modifies `assets, `authorityPageStates
      ensures ShownView() == ShowMoreAuthority(old(ShownView()), o, asset, section, cursor, answer)
    {
      hide AppendRecords, SectionCursor, SameExact;
      var key := SectionKey(asset, section);
      match answer {
        case AuthorityPage(page) =>
          if SectionCursor(assets, asset, section) != Some(cursor) { return; }
          assets := AppendRecordsInto(assets, asset, section, cursor, page, o);
          authorityPageStates := authorityPageStates[
            key := PageState(None, false, if page.next == Some(cursor) then REPEATED else "")];
        case Failure(message) =>
          authorityPageStates := authorityPageStates[key := PageState(None, false, message)];
        case _ =>
      }
    }

    method ShowExactRevision(o: Origin, asset: Id, revision: Id, answer: Answer)
      modifies `exactRevisions, `exactRevisionStates
      ensures ShownView() == ShowExact(old(ShownView()), o, asset, revision, answer)
    {
      var key := ExactKey(o.workspace, asset, revision);
      match answer {
        case OneRevision(r) =>
          if r.assetId != asset || r.id != revision {
            exactRevisionStates := exactRevisionStates[key := ExactFailed(WRONG_REVISION)];
          } else {
            exactRevisions := exactRevisions[key := Held(r, o)];
            exactRevisionStates := exactRevisionStates[key := ExactReady(Held(r, o))];
          }
        case Failure(message) =>
          exactRevisionStates := exactRevisionStates[key := ExactFailed(message)];
        case _ =>
      }
    }

    method ShowAssetDetail(o: Origin, asset: Id, answer: Answer)
      modifies `assets, `revisionStates, `authorityPageStates, `detailStates, `error
      ensures ShownView() == ShowDetail(old(ShownView()), o, asset, answer)
    {
      hide PutDetail, ProjectDetail, WithoutSections, SameExact;
      match answer {
        case OneDetail(detail) =>
          if detail.id != asset || (detail.revisionAsset.Some? && detail.revisionAsset.value != asset) {
            detailStates := detailStates[asset := LoadFailed(WRONG_ASSET)];
          } else {
            assets := PutDetail(assets, ProjectDetail(detail, o));
            revisionStates := revisionStates - {asset};
            authorityPageStates := WithoutSections(authorityPageStates, asset);
            detailStates := detailStates[asset := Loaded];
            error := "";
          }
        case Failure(message) =>
          detailStates := detailStates[asset := LoadFailed(message)];
        case _ =>
      }
    }

    method ShowCreatedAsset(o: Origin, detail: Detail)
      modifies `assets, `catalogRequest, `effect, `timer
      ensures ShownView() == ShowNewAsset(old(ShownView()), o, OneDetail(detail))
      ensures NavView() == RefreshNav(old(NavView()))
    {
      hide ProjectDetail, WithoutAsset, SameExact;
      assets := [ProjectDetail(detail, o)] + WithoutAsset(assets, detail.id);
      Refresh();
    }

    method ShowAnswer(r: Request, answer: Answer)
      requires Fits(r.kind, answer) && !r.kind.NewAsset? && !r.kind.NewWorkspace?
      modifies `assets, `catalogAssetIds, `loading, `error, `pageState, `detailStates, `revisionStates
      modifies `exactRevisionStates, `exactRevisions, `authorityPageStates
      ensures ShownView() == Show(old(ShownView()), r, answer)
    {
      hide ShowList, ShowAppended, ShowRevisions, ShowMoreRevisions, ShowMoreAuthority, ShowExact, ShowDetail;
      hide ShownView, SameExact;
      var o := r.origin;
      match r.kind {
        case ListAssets(_, _, _) => ShowListPage(o, answer);
        case AppendAssets(_, _, cursor) => ShowAppendedPage(o, cursor, answer);
        case Revisions(asset) => ShowRevisionPage(o, asset, answer);
        case MoreRevisions(asset, cursor) => ShowNextRevisions(o, asset, cursor, answer);
        case MoreAuthority(asset, section, cursor) => ShowAuthorityPage(o, asset, section, cursor, answer);
        case ExactRevision(asset, revision) => ShowExactRevision(o, asset, revision, answer);
        case DetailOf(asset) => ShowAssetDetail(o, asset, answer);
      }
    }

    // The check after each await.
    method StillCurrent(r: Request) returns (current: bool)
      ensures current == Current(NavView(), r)
    {
      match r.kind {
        case ListAssets(f, run, _) => return effect == run && catalogRequest == f;
        case AppendAssets(f, _, _) => return catalogRequest == f;
        case NewWorkspace => return true;
        case _ => return workspaceRef == r.origin.workspace && workspaceGeneration == r.origin.visit;
      }
    }

    // The answer is dropped or shown.
    method Settle(r: Request, answer: Answer)
      requires Fits(r.kind, answer)
      modifies this
      ensures View() == if Current(old(View()).nav, r) then Accept(old(View()), r, answer) else old(View())
    {
      hide NavView, ShownView, NetView, RefreshNav, EnterCreated, Current;
      var current := StillCurrent(r);
      if !current { return; }
      if r.kind.NewWorkspace? {
        if answer.Created? { WorkspaceCreated(answer.workspace); }
      } else if r.kind.NewAsset? {
        hide ShowNewAsset;
        if answer.OneDetail? {
          ShowCreatedAsset(r.origin, answer.detail);
        } else {
          NothingCreated(ShownView(), r.origin, answer);
        }
      } else {
        hide Show, Fits;
        ShowAnswer(r, answer);
      }
    }

    method Arrived(id: nat, answer: Answer)
      requires id in inFlight && Fits(inFlight[id].kind, answer)
      modifies this
      ensures View() == Receive(old(View()), id, answer)
    {
      hide Accept, Fits, Current, CleanUp, NavView, ShownView;
      var r := inFlight[id];
      Settle(r, answer);
      inFlight := inFlight - {id};
      RequestOver(id, r);
    }

    // finally
    method RequestOver(id: nat, r: Request)
      modifies `revisionRequests, `detailRequests
      ensures NetView() == CleanUp(old(NetView()), id, r)
    {
      if r.kind.ExactRevision? {
        var key := ExactKey(r.origin.workspace, r.kind.asset, r.kind.revision);
        if key in revisionRequests && revisionRequests[key] == id { revisionRequests := revisionRequests - {key}; }
      } else if r.kind.DetailOf? {
        var key := DetailKey(r.origin.workspace, r.kind.asset);
        if key in detailRequests && detailRequests[key] == id { detailRequests := detailRequests - {key}; }
      }
    }

    method WorkspaceCreated(workspace: string)
      modifies this
      ensures View() == EnterCreated(old(View()), workspace)
    {
      hide M.ApplyWorkspace, ShownView, NetView;
      var before := workspaceRef;
      ghost var s := View();
      ApplyWorkspace(workspace);
      ghost var t := View();
      assert t.nav.query == s.nav.query && t.nav.assetType == s.nav.assetType by { SwitchKeepsQuery(s, workspace); }
      catalogRequest := Fingerprint(workspace, "", "", catalogRequest.generation + 1);
      var changed := before == workspace && !(query == "" && assetType == "");
      query := "";
      assetType := "";
      if changed { RestartListEffect(); }
    }
  }

  lemma PerformStarts(s: State, seen: Render, command: Command)
    requires !command.SetWorkspace? && !command.SetQuery? && !command.Refresh? && !command.CreateWorkspace?
    ensures Perform(s, seen, command) ==
            match Wanted(s, seen, command)
            case None => s
            case Some(kind) => Start(s, kind, seen.workspace)
  {
    hide Start, SectionCursor;
  }

  // What each callback's guards let through.
  lemma WantedAppend(s: State, seen: Render)
    ensures Wanted(s, seen, M.LoadMoreAssets)
         == if seen.workspace == "" || !HasCursor(seen.page.next) || seen.page.loadingMore then None
            else Some(AppendAssets(s.nav.fingerprint, SeenFilter(seen), seen.page.next.value))
  {
  }

  lemma WantedRevisions(s: State, seen: Render, asset: Id)
    ensures Wanted(s, seen, M.EnsureRevisions(asset)).Some? <==>
            seen.workspace != ""
            && !(asset in seen.revisions
              && (seen.revisions[asset].status.ListLoading? || seen.revisions[asset].status.Ready?))
    ensures Wanted(s, seen, M.EnsureRevisions(asset)).Some? ==>
            Wanted(s, seen, M.EnsureRevisions(asset)).value == Revisions(asset)
  {
  }

  lemma WantedMoreRevisions(s: State, seen: Render, asset: Id)
    ensures Wanted(s, seen, M.LoadMoreRevisions(asset))
         == if seen.workspace == "" || asset !in seen.revisions || !HasCursor(seen.revisions[asset].next)
               || seen.revisions[asset].loadingMore then None
            else Some(MoreRevisions(asset, seen.revisions[asset].next.value))
  {
  }

  lemma WantedAuthority(s: State, seen: Render, asset: Id, section: string)
    ensures var cursor, key := SectionCursor(seen.assets, asset, section), SectionKey(asset, section);
            Wanted(s, seen, LoadMoreAuthority(asset, section))
            == if seen.workspace == "" || !HasCursor(cursor)
              || (key in seen.sectionStates && seen.sectionStates[key].loadingMore)
               then None else Some(MoreAuthority(asset, section, cursor.value))
  {
    hide SectionCursor;
  }

  lemma WantedExact(s: State, seen: Render, asset: Id, revision: Id)
    ensures var key := ExactKey(seen.workspace, asset, revision);
            Wanted(s, seen, M.EnsureRevision(asset, revision))
            == if seen.workspace == "" || key in s.shown.exactCache || key in s.net.exactPending then None
               else Some(ExactRevision(asset, revision))
  {
  }

  lemma WantedDetail(s: State, seen: Render, asset: Id)
    ensures Wanted(s, seen, M.EnsureAsset(asset))
         == if seen.workspace == "" || DetailKey(seen.workspace, asset) in s.net.detailPending then None
           else Some(DetailOf(asset))
  {
  }

  lemma IssueIgnoresShown(s: State, t: State, kind: Kind, workspace: string)
    requires t == s.(shown := t.shown)
    ensures Issue(t, kind, workspace) == Issue(s, kind, workspace).(shown := t.shown)
    ensures Issue(t, kind, workspace).nav == t.nav && Issue(t, kind, workspace).shown == t.shown
  {
  }

  lemma NothingCreated(shown: Shown, o: Origin, answer: Answer)
    requires !answer.OneDetail?
    ensures ShowNewAsset(shown, o, answer) == shown
  {
  }

  lemma SwitchKeepsQuery(s: State, next: string)
    ensures M.ApplyWorkspace(s, next).nav.query == s.nav.query
    ensures M.ApplyWorkspace(s, next).nav.assetType == s.nav.assetType
  {
  }
}
