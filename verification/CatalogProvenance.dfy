// Everything the catalog runtime holds was fetched for the current workspace
// during its current visit.
module CatalogProvenance {
  import opened Wrappers
  import opened CatalogModel

  // ---- Provenance ----

  ghost predicate AllFrom<T>(items: seq<Held<T>>, o: Origin) {
    forall i :: 0 <= i < |items| ==> items[i].origin == o
  }

  ghost predicate AssetFrom(a: Asset, o: Origin) {
    && a.origin == o
    && (a.sections.Some? ==> forall i :: 0 <= i < |a.sections.value| ==> AllFrom(a.sections.value[i].records, o))
  }

  ghost predicate AssetsFrom(assets: seq<Asset>, o: Origin) {
    forall i :: 0 <= i < |assets| ==> AssetFrom(assets[i], o)
  }

  ghost predicate RevisionsFrom(revisions: map<Id, RevisionList>, o: Origin) {
    forall a :: a in revisions ==> AllFrom(revisions[a].items, o)
  }

  ghost predicate ExactFrom(shown: Shown, o: Origin) {
    && (forall k :: k in shown.exactCache ==> shown.exactCache[k].origin == o)
    && (forall k :: k in shown.exactStates && shown.exactStates[k].ExactReady? ==>
          shown.exactStates[k].revision.origin == o)
  }

  ghost predicate ShownFrom(shown: Shown, o: Origin) {
    AssetsFrom(shown.assets, o) && RevisionsFrom(shown.revisions, o) && ExactFrom(shown, o)
  }

  ghost predicate Provenance(s: State) {
    ShownFrom(s.shown, Here(s.nav))
  }

  // A list request is outdated, or was made for the current list of the current
  // visit.
  ghost predicate ListRequest(nav: Nav, f: Fingerprint, o: Origin) {
    && f.generation <= nav.fingerprint.generation
    && (f.generation == nav.fingerprint.generation ==> f == nav.fingerprint && o == Here(nav))
  }

  // What holds of every request, whichever closure made it.
  ghost predicate RequestIssued(nav: Nav, r: Request) {
    && r.origin.visit <= nav.visit
    && (r.kind.ListAssets? ==> ListRequest(nav, r.kind.fingerprint, r.origin))
    && (r.kind.AppendAssets? ==> r.kind.fingerprint.generation <= nav.fingerprint.generation)
  }

  ghost predicate RequestsIssued(s: State) {
    forall id :: id in s.net.requests ==> id < s.net.nextRequest && RequestIssued(s.nav, s.net.requests[id])
  }

  // And if appends are made for the current workspace.
  ghost predicate RequestKnown(nav: Nav, r: Request) {
    RequestIssued(nav, r) && (r.kind.AppendAssets? ==> ListRequest(nav, r.kind.fingerprint, r.origin))
  }

  ghost predicate RequestsKnown(s: State) {
    forall id :: id in s.net.requests ==> id < s.net.nextRequest && RequestKnown(s.nav, s.net.requests[id])
  }

  ghost predicate Inv(s: State) {
    Provenance(s) && RequestsKnown(s)
  }

  // loadMoreAssets is called from a render of the current workspace.
  ghost predicate FreshAppend(s: State, step: Step) {
    step.Do? && step.command.LoadMoreAssets? ==> step.seen.workspace == s.nav.workspace
  }

  ghost predicate FreshRun(s: State, steps: seq<Step>)
    decreases |steps|
  {
    steps == [] ||
    (FreshAppend(s, steps[0]) && (Enabled(s, steps[0]) ==> FreshRun(Next(s, steps[0]), steps[1..])))
  }

  // ---- Pieces of state ----

  lemma {:induction false} MergeFrom<T, K>(key: T -> K, held: seq<Held<T>>, items: seq<T>, o: Origin)
    requires AllFrom(held, o)
    ensures AllFrom(Merge(key, held, items, o), o)
    decreases |items|
  {
    if items != [] {
      if exists i :: 0 <= i < |held| && key(held[i].item) == key(items[0]) {
        MergeFrom(key, held, items[1..], o);
      } else {
        MergeFrom(key, held + [Held(items[0], o)], items[1..], o);
      }
    }
  }

  lemma {:induction false} FindLoadedFrom(assets: seq<Asset>, id: Id, o: Origin)
    requires AssetsFrom(assets, o)
    ensures FindLoaded(assets, id).Some? ==> AssetFrom(FindLoaded(assets, id).value, o)
  {
    if assets != [] {
      FindLoadedFrom(assets[1..], id, o);
    }
  }

  lemma {:induction false} LoadedElsewhereFrom(assets: seq<Asset>, items: seq<Summary>, o: Origin)
    requires AssetsFrom(assets, o)
    ensures AssetsFrom(LoadedElsewhere(assets, items), o)
  {
    if assets != [] {
      LoadedElsewhereFrom(assets[1..], items, o);
    }
  }

  lemma ReplaceAssetsFrom(assets: seq<Asset>, items: seq<Summary>, o: Origin)
    requires AssetsFrom(assets, o)
    ensures AssetsFrom(ReplaceAssets(assets, items, o), o)
  {
    LoadedElsewhereFrom(assets, items, o);
    forall i | 0 <= i < |items|
      ensures AssetFrom(ListedAssets(assets, items, o)[i], o)
    {
      FindLoadedFrom(assets, items[i].id, o);
    }
  }

  lemma {:induction false} MergeAssetsFrom(assets: seq<Asset>, items: seq<Summary>, o: Origin)
    requires AssetsFrom(assets, o)
    ensures AssetsFrom(MergeAssets(assets, items, o), o)
  {
    if items != [] {
      MergeAssetsFrom(assets, items[..|items| - 1], o);
    }
  }

  lemma {:induction false} WithoutAssetFrom(assets: seq<Asset>, id: Id, o: Origin)
    requires AssetsFrom(assets, o)
    ensures AssetsFrom(WithoutAsset(assets, id), o)
  {
    if assets != [] {
      WithoutAssetFrom(assets[1..], id, o);
    }
  }

  lemma AppendRecordsFrom(assets: seq<Asset>, id: Id, kind: string, cursor: Cursor, page: Page<Authority>, o: Origin)
    requires AssetsFrom(assets, o)
    ensures AssetsFrom(AppendRecords(assets, id, kind, cursor, page, o), o)
  {
    forall i | 0 <= i < |assets|
      ensures AssetFrom(AppendRecords(assets, id, kind, cursor, page, o)[i], o)
    {
      assert AssetFrom(assets[i], o);
      if assets[i].sections.Some? {
        var sections := assets[i].sections.value;
        forall j | 0 <= j < |sections|
          ensures AllFrom(AppendSection(sections[j], kind, cursor, page, o).records, o)
        {
          MergeFrom(AuthorityKey, sections[j].records, page.items, o);
        }
      }
    }
  }

  lemma PutDetailFrom(assets: seq<Asset>, asset: Asset, o: Origin)
    requires AssetsFrom(assets, o) && AssetFrom(asset, o)
    ensures AssetsFrom(PutDetail(assets, asset), o)
  {
  }

  // ---- What is shown ----

  lemma ShowListFrom(shown: Shown, o: Origin, answer: Answer)
    requires ShownFrom(shown, o)
    ensures ShownFrom(ShowList(shown, o, answer), o)
  {
    hide ReplaceAssets, AssetsFrom, RevisionsFrom;
    if answer.AssetPage? { ReplaceAssetsFrom(shown.assets, answer.page.items, o); }
  }

  lemma ShowAppendedFrom(shown: Shown, o: Origin, cursor: Cursor, answer: Answer)
    requires ShownFrom(shown, o)
    ensures ShownFrom(ShowAppended(shown, o, cursor, answer), o)
  {
    hide MergeAssets, AssetsFrom, RevisionsFrom;
    if answer.AssetPage? { MergeAssetsFrom(shown.assets, answer.page.items, o); }
  }

  lemma PutRevisionsFrom(shown: Shown, o: Origin, asset: Id, entry: RevisionList)
    requires ShownFrom(shown, o) && AllFrom(entry.items, o)
    ensures ShownFrom(shown.(revisions := shown.revisions[asset := entry]), o)
  {
    hide AssetsFrom;
  }

  lemma ShowMoreRevisionsFrom(shown: Shown, o: Origin, asset: Id, cursor: Cursor, answer: Answer)
    requires ShownFrom(shown, o)
    ensures ShownFrom(ShowMoreRevisions(shown, o, asset, cursor, answer), o)
  {
    hide Merge, AssetsFrom;
    var entry := EntryOr(shown.revisions, asset);
    if answer.RevisionPage? { MergeFrom(RevisionId, entry.items, answer.revisions.items, o); }
    PutRevisionsFrom(shown, o, asset, MoreRevisionsAnswered(entry, o, cursor, answer));
  }

  lemma ShowMoreAuthorityFrom(shown: Shown, o: Origin, asset: Id, section: string, cursor: Cursor, answer: Answer)
    requires ShownFrom(shown, o)
    ensures ShownFrom(ShowMoreAuthority(shown, o, asset, section, cursor, answer), o)
  {
    hide AppendRecords, SectionCursor, AssetsFrom, RevisionsFrom;
    if answer.AuthorityPage? { AppendRecordsFrom(shown.assets, asset, section, cursor, answer.records, o); }
  }

  lemma ShowDetailFrom(shown: Shown, o: Origin, asset: Id, answer: Answer)
    requires ShownFrom(shown, o)
    ensures ShownFrom(ShowDetail(shown, o, asset, answer), o)
  {
    hide PutDetail, AssetsFrom;
    if answer.OneDetail? { PutDetailFrom(shown.assets, ProjectDetail(answer.detail, o), o); }
  }

  lemma ShowNewAssetFrom(shown: Shown, o: Origin, answer: Answer)
    requires ShownFrom(shown, o)
    ensures ShownFrom(ShowNewAsset(shown, o, answer), o)
  {
    hide WithoutAsset, RevisionsFrom;
    if answer.OneDetail? {
      WithoutAssetFrom(shown.assets, answer.detail.id, o);
      assert AssetFrom(ProjectDetail(answer.detail, o), o);
    }
  }

  lemma ShowFrom(shown: Shown, r: Request, answer: Answer)
    requires ShownFrom(shown, r.origin)
    ensures ShownFrom(Show(shown, r, answer), r.origin)
  {
    hide ShownFrom, ShowList, ShowAppended, ShowMoreRevisions, ShowMoreAuthority, ShowDetail, ShowNewAsset;
    match r.kind
    case ListAssets(_, _, _) => ShowListFrom(shown, r.origin, answer);
    case AppendAssets(_, _, cursor) => ShowAppendedFrom(shown, r.origin, cursor, answer);
    case Revisions(asset) => PutRevisionsFrom(shown, r.origin, asset, RevisionsAnswered(r.origin, answer));
    case MoreRevisions(asset, cursor) => ShowMoreRevisionsFrom(shown, r.origin, asset, cursor, answer);
    case MoreAuthority(asset, section, cursor) =>
      ShowMoreAuthorityFrom(shown, r.origin, asset, section, cursor, answer);
    case ExactRevision(asset, revision) => ShowExactFrom(shown, r.origin, asset, revision, answer);
    case DetailOf(asset) => ShowDetailFrom(shown, r.origin, asset, answer);
    case NewAsset => ShowNewAssetFrom(shown, r.origin, answer);
    case NewWorkspace =>
  }

  lemma PutExactFrom(shown: Shown, o: Origin, key: ExactKey, state: ExactState)
    requires ShownFrom(shown, o) && (state.ExactReady? ==> state.revision.origin == o)
    ensures ShownFrom(shown.(exactStates := shown.exactStates[key := state]), o)
    ensures state.ExactReady? ==>
              ShownFrom(shown.(exactCache := shown.exactCache[key := state.revision],
                               exactStates := shown.exactStates[key := state]), o)
  {
    hide AssetsFrom, RevisionsFrom;
  }

  lemma ShowExactFrom(shown: Shown, o: Origin, asset: Id, revision: Id, answer: Answer)
    requires ShownFrom(shown, o)
    ensures ShownFrom(ShowExact(shown, o, asset, revision, answer), o)
  {
    hide ShownFrom;
    var key := ExactKey(o.workspace, asset, revision);
    match answer
    case OneRevision(r) =>
      PutExactFrom(shown, o, key, ExactFailed(WRONG_REVISION));
      PutExactFrom(shown, o, key, ExactReady(Held(r, o)));
    case Failure(message) => PutExactFrom(shown, o, key, ExactFailed(message));
    case _ =>
  }

  lemma WaitingFrom(shown: Shown, o: Origin, kind: Kind, workspace: string)
    requires ShownFrom(shown, o)
    ensures ShownFrom(Waiting(shown, kind, workspace), o)
  {
    hide AssetsFrom;
  }

  // ---- Steps ----

  lemma IssueChanges(s: State, kind: Kind, workspace: string)
    ensures Issue(s, kind, workspace).nav == s.nav && Issue(s, kind, workspace).shown == s.shown
    ensures Issue(s, kind, workspace).net.requests
         == s.net.requests[s.net.nextRequest := Request(kind, Origin(workspace, s.nav.visit))]
    ensures Issue(s, kind, workspace).net.nextRequest == s.net.nextRequest + 1
  {
  }

  lemma SwitchKeepsProvenance(s: State, next: string)
    requires Provenance(s)
    ensures Provenance(ApplyWorkspace(s, next))
  {
  }

  lemma AcceptKeepsProvenance(s: State, r: Request, answer: Answer)
    requires Provenance(s)
    requires r.kind.NewWorkspace? || r.origin == Here(s.nav)
    ensures Provenance(Accept(s, r, answer))
  {
    hide ShownFrom, Show, ApplyWorkspace;
    if r.kind.NewWorkspace? {
      if answer.Created? { SwitchKeepsProvenance(s, answer.workspace); }
    } else {
      ShowFrom(s.shown, r, answer);
    }
  }

  lemma PerformKeepsProvenance(s: State, seen: Render, command: Command)
    requires Provenance(s)
    ensures Provenance(Perform(s, seen, command))
  {
    hide ApplyWorkspace, Wanted, Issue, Waiting, AssetsFrom, RevisionsFrom;
    if command.SetWorkspace? {
      SwitchKeepsProvenance(s, command.next);
    }
    var wanted := Wanted(s, seen, command);
    if wanted.Some? {
      var workspace := if wanted.value.NewWorkspace? then "" else seen.workspace;
      WaitingFrom(s.shown, Here(s.nav), wanted.value, workspace);
      IssueChanges(s.(shown := Waiting(s.shown, wanted.value, workspace)), wanted.value, workspace);
    }
  }

  lemma CurrentIsHere(nav: Nav, r: Request)
    requires RequestIssued(nav, r) && Current(nav, r)
    ensures r.kind.NewWorkspace? || r.kind.AppendAssets? || r.origin == Here(nav)
    ensures RequestKnown(nav, r) && r.kind.AppendAssets? ==> r.origin == Here(nav)
  {
  }

  lemma StepKeepsProvenance(s: State, step: Step)
    requires Inv(s) && Enabled(s, step)
    ensures Provenance(Next(s, step))
  {
    hide Perform, ApplyWorkspace, Accept, CleanUp, AssetsFrom, RevisionsFrom;
    match step
    case Do(seen, command) => PerformKeepsProvenance(s, seen, command);
    case Prefer(preferred) => SwitchKeepsProvenance(s, preferred);
    case WorkspacesListed(ids, wanted) => SwitchKeepsProvenance(s, Chosen(s, ids, wanted));
    case WorkspacesFailed(_) =>
    case TimerFires =>
    case Deliver(id, answer) =>
      var r := s.net.requests[id];
      if Current(s.nav, r) {
        CurrentIsHere(s.nav, r);
        AcceptKeepsProvenance(s, r, answer);
      }
  }

  // ---- Requests ----

  // Generations never go back, and the fingerprint changes only with them.
  ghost predicate Advances(n: Nav, m: Nav) {
    && n.visit <= m.visit
    && (n.visit == m.visit ==> n.workspace == m.workspace)
    && n.fingerprint.generation <= m.fingerprint.generation
    && (n.fingerprint.generation == m.fingerprint.generation ==> n.fingerprint == m.fingerprint && Here(n) == Here(m))
  }

  lemma AdvanceKeepsRequest(n: Nav, m: Nav, r: Request)
    requires RequestIssued(n, r) && Advances(n, m)
    ensures RequestIssued(m, r)
    ensures RequestKnown(n, r) ==> RequestKnown(m, r)
  {
  }

  lemma AcceptAdvances(s: State, r: Request, answer: Answer)
    ensures Advances(s.nav, Accept(s, r, answer).nav)
    ensures Accept(s, r, answer).net.requests == s.net.requests
    ensures Accept(s, r, answer).net.nextRequest == s.net.nextRequest
  {
    hide Show;
  }

  lemma CleanUpKeepsRequests(net: Net, id: nat, r: Request)
    ensures CleanUp(net, id, r).requests == net.requests && CleanUp(net, id, r).nextRequest == net.nextRequest
  {
  }

  // What a step does to the refs and to the requests in flight: at most one new
  // request, for the workspace and list of the moment.
  lemma StepAdvances(s: State, step: Step)
    requires Enabled(s, step)
    ensures Advances(s.nav, Next(s, step).nav)
    ensures s.net.nextRequest <= Next(s, step).net.nextRequest
    ensures forall id :: id in Next(s, step).net.requests && id != s.net.nextRequest ==>
              id in s.net.requests && Next(s, step).net.requests[id] == s.net.requests[id]
  {
    hide Wanted, Waiting, Issue, Accept, CleanUp;
    match step
    case Do(seen, command) =>
      var wanted := Wanted(s, seen, command);
      if wanted.Some? {
        var workspace := if wanted.value.NewWorkspace? then "" else seen.workspace;
        IssueChanges(s.(shown := Waiting(s.shown, wanted.value, workspace)), wanted.value, workspace);
      }
    case Deliver(id, answer) =>
      var r := s.net.requests[id];
      AcceptAdvances(s, r, answer);
      var t := if Current(s.nav, r) then Accept(s, r, answer) else s;
      CleanUpKeepsRequests(t.net.(requests := t.net.requests - {id}), id, r);
    case TimerFires =>
      IssueChanges(s.(nav := s.nav.(timer := false), shown := s.shown.(loading := true)),
                   ListAssets(s.nav.fingerprint, s.nav.effect, FilterOf(s.nav)), s.nav.workspace);
    case _ =>
  }

  // The new request is for the list and the visit of the moment; only
  // loadMoreAssets can be made for a workspace that was left.
  lemma NewRequestKnown(s: State, step: Step)
    requires RequestsIssued(s) && Enabled(s, step)
    requires s.net.nextRequest in Next(s, step).net.requests
    ensures s.net.nextRequest < Next(s, step).net.nextRequest
    ensures RequestIssued(Next(s, step).nav, Next(s, step).net.requests[s.net.nextRequest])
    ensures FreshAppend(s, step) ==> RequestKnown(Next(s, step).nav, Next(s, step).net.requests[s.net.nextRequest])
  {
    hide Waiting, Issue, Accept, CleanUp, SectionCursor;
    match step
    case Do(seen, command) =>
      var wanted := Wanted(s, seen, command);
      if wanted.Some? {
        var workspace := if wanted.value.NewWorkspace? then "" else seen.workspace;
        IssueChanges(s.(shown := Waiting(s.shown, wanted.value, workspace)), wanted.value, workspace);
      }
    case Deliver(id, answer) =>
      var r := s.net.requests[id];
      AcceptAdvances(s, r, answer);
      var t := if Current(s.nav, r) then Accept(s, r, answer) else s;
      CleanUpKeepsRequests(t.net.(requests := t.net.requests - {id}), id, r);
    case TimerFires =>
      IssueChanges(s.(nav := s.nav.(timer := false), shown := s.shown.(loading := true)),
                   ListAssets(s.nav.fingerprint, s.nav.effect, FilterOf(s.nav)), s.nav.workspace);
    case _ =>
  }

  lemma StepKeepsIssued(s: State, step: Step)
    requires RequestsIssued(s) && Enabled(s, step)
    ensures RequestsIssued(Next(s, step))
  {
    hide Next, Advances, RequestIssued, RequestKnown, FreshAppend;
    var t := Next(s, step);
    StepAdvances(s, step);
    forall id | id in t.net.requests
      ensures id < t.net.nextRequest && RequestIssued(t.nav, t.net.requests[id])
    {
      if id == s.net.nextRequest {
        NewRequestKnown(s, step);
      } else {
        AdvanceKeepsRequest(s.nav, t.nav, t.net.requests[id]);
      }
    }
  }

  lemma KnownIsIssued(s: State)
    requires RequestsKnown(s)
    ensures RequestsIssued(s)
  {
    hide RequestIssued;
  }

  lemma StepKeepsRequests(s: State, step: Step)
    requires RequestsKnown(s) && Enabled(s, step) && FreshAppend(s, step)
    ensures RequestsKnown(Next(s, step))
  {
    KnownIsIssued(s);
    hide Next, Advances, RequestIssued, FreshAppend, RequestsIssued;
    var t := Next(s, step);
    StepAdvances(s, step);
    forall id | id in t.net.requests
      ensures id < t.net.nextRequest && RequestKnown(t.nav, t.net.requests[id])
    {
      if id == s.net.nextRequest {
        NewRequestKnown(s, step);
      } else {
        AdvanceKeepsRequest(s.nav, t.nav, t.net.requests[id]);
      }
    }
  }

  // Over any run, stale closures included.
  lemma {:induction false} RunKeepsIssued(s: State, steps: seq<Step>)
    requires RequestsIssued(s) && Run(s, steps).Some?
    ensures RequestsIssued(Run(s, steps).value)
    decreases |steps|
  {
    hide Next, RequestsIssued;
    if steps != [] {
      StepKeepsIssued(s, steps[0]);
      RunKeepsIssued(Next(s, steps[0]), steps[1..]);
    }
  }

  // In every reachable state, in any interleaving, everything held was fetched for
  // the current workspace during its current visit.
  lemma {:induction false} RunKeepsInv(s: State, steps: seq<Step>)
    requires Inv(s) && FreshRun(s, steps) && Run(s, steps).Some?
    ensures Inv(Run(s, steps).value)
    decreases |steps|
  {
    hide Next, Provenance, RequestsKnown;
    if steps != [] {
      StepKeepsProvenance(s, steps[0]);
      StepKeepsRequests(s, steps[0]);
      RunKeepsInv(Next(s, steps[0]), steps[1..]);
    }
  }

  lemma AlwaysFromHere(steps: seq<Step>)
    requires FreshRun(INITIAL, steps) && Run(INITIAL, steps).Some?
    ensures Provenance(Run(INITIAL, steps).value)
  {
    RunKeepsInv(INITIAL, steps);
  }
}
