// The catalog runtime as a step system. A setter, the re-render and the effect
// cleanup it triggers are one step; answers to requests arrive in any order.
// Command steps carry the values their closure captured at some earlier render.
module CatalogModel {
  import opened Wrappers

  type Id = string
  type Cursor = string

  // Where and during which visit of that workspace something was requested.
  datatype Origin = Origin(workspace: string, visit: nat)

  datatype Held<T> = Held(item: T, origin: Origin)

  datatype Revision = Revision(id: Id, assetId: Id, body: string)
  datatype Authority = Authority(kind: string, id: Id, body: string)

  datatype Page<T> = Page(items: seq<T>, next: Option<Cursor>)

  datatype Section = Section(kind: string, records: seq<Held<Authority>>, next: Option<Cursor>)

  // sections is present once the detail is loaded; origin.workspace is the
  // asset's identity.workspaceId.
  datatype Asset = Asset(id: Id, revisionId: Id, loaded: bool, sections: Option<seq<Section>>, origin: Origin)

  datatype Fingerprint = Fingerprint(workspace: string, query: string, assetType: string, generation: nat)

  datatype Filter = Filter(query: string, assetType: string)

  datatype PageState = PageState(next: Option<Cursor>, loadingMore: bool, appendError: string)

  datatype Load = Loading | Loaded | LoadFailed(message: string)

  // Undefined is the entry that a failed page leaves when the list was dropped
  // while the page was on its way.
  datatype Status = Undefined | ListLoading | Ready | ListFailed(message: string)

  datatype RevisionList = RevisionList(
    status: Status, items: seq<Held<Revision>>, next: Option<Cursor>, loadingMore: bool, appendError: string)

  datatype ExactKey = ExactKey(workspace: string, asset: Id, revision: Id)
  datatype ExactState = ExactLoading | ExactReady(revision: Held<Revision>) | ExactFailed(message: string)
  datatype SectionKey = SectionKey(asset: Id, kind: string)
  datatype DetailKey = DetailKey(workspace: string, asset: Id)

  datatype Kind =
    | ListAssets(fingerprint: Fingerprint, effect: nat, filter: Filter)
    | AppendAssets(fingerprint: Fingerprint, filter: Filter, cursor: Cursor)
    | Revisions(asset: Id)
    | MoreRevisions(asset: Id, cursor: Cursor)
    | MoreAuthority(asset: Id, section: string, cursor: Cursor)
    | ExactRevision(asset: Id, revision: Id)
    | DetailOf(asset: Id)
    | NewAsset
    | NewWorkspace

  // origin is the workspace in the request's URL and the visit at its issue; list
  // requests also send a filter, and remember the fingerprint of the moment.
  datatype Request = Request(kind: Kind, origin: Origin)

  datatype Summary = Summary(id: Id, revisionId: Id)
  datatype SectionPage = SectionPage(kind: string, page: Page<Authority>)
  // revisionAsset is the asset named by the current revision, if there is one.
  datatype Detail = Detail(id: Id, revisionId: Id, revisionAsset: Option<Id>, sections: seq<SectionPage>)

  datatype Answer =
    | AssetPage(page: Page<Summary>)
    | RevisionPage(revisions: Page<Revision>)
    | AuthorityPage(records: Page<Authority>)
    | OneRevision(revision: Revision)
    | OneDetail(detail: Detail)
    | Created(workspace: string)
    | Failure(message: string)

  // The refs and query state that requests are checked against. effect counts
  // the list effect's runs; timer says its delay is still running.
  datatype Nav = Nav(
    workspace: string, visit: nat, fingerprint: Fingerprint, query: string, assetType: string, effect: nat, timer: bool)

  // What the provider hands to its readers.
  datatype Shown = Shown(
    assets: seq<Asset>,
    catalogIds: seq<Id>,
    loading: bool,
    error: string,
    page: PageState,
    details: map<Id, Load>,
    revisions: map<Id, RevisionList>,
    exactStates: map<ExactKey, ExactState>,
    exactCache: map<ExactKey, Held<Revision>>,
    sectionStates: map<SectionKey, PageState>)

  // Requests in flight and the two single-flight maps.
  datatype Net = Net(
    exactPending: map<ExactKey, nat>,
    detailPending: map<DetailKey, nat>,
    requests: map<nat, Request>,
    nextRequest: nat)

  datatype State = State(nav: Nav, shown: Shown, net: Net)

  // What a closure captured when it was made.
  datatype Render = Render(
    workspace: string,
    query: string,
    assetType: string,
    assets: seq<Asset>,
    page: PageState,
    revisions: map<Id, RevisionList>,
    sectionStates: map<SectionKey, PageState>)

  datatype Command =
    | SetWorkspace(next: string)
    | SetQuery(query: string, assetType: string)
    | Refresh
    | LoadMoreAssets
    | EnsureRevisions(asset: Id)
    | LoadMoreRevisions(asset: Id)
    | LoadMoreAuthority(asset: Id, section: string)
    | EnsureRevision(asset: Id, revision: Id)
    | EnsureAsset(asset: Id)
    | CreateAsset
    | CreateWorkspace

  datatype Step =
    | Do(seen: Render, command: Command)
    | Prefer(preferred: string)
    | WorkspacesListed(ids: seq<string>, wanted: string)
    | WorkspacesFailed(message: string)
    | TimerFires
    | Deliver(request: nat, answer: Answer)

  const REPEATED := "服务器返回了重复游标，已停止继续加载。"
  const NO_PAGE := PageState(None, false, "")
  const NO_LIST := RevisionList(Undefined, [], None, false, "")

  function Blank(loading: bool): Shown {
    Shown([], [], loading, "", NO_PAGE, map[], map[], map[], map[], map[])
  }

  const INITIAL := State(
    Nav("", 0, Fingerprint("", "", "", 0), "", "", 0, false), Blank(true), Net(map[], map[], map[], 0))

  function RenderOf(s: State): Render {
    Render(s.nav.workspace, s.nav.query, s.nav.assetType, s.shown.assets, s.shown.page, s.shown.revisions,
           s.shown.sectionStates)
  }

  function FilterOf(nav: Nav): Filter {
    Filter(nav.query, nav.assetType)
  }

  function SeenFilter(seen: Render): Filter {
    Filter(seen.query, seen.assetType)
  }

  predicate HasCursor(next: Option<Cursor>) {
    next.Some? && next.value != ""
  }

  function Lookup<K, V>(m: map<K, V>, k: K): Option<V> {
    if k in m then Some(m[k]) else None
  }

  // ---- Pages ----

  // Items whose key is not yet held are added in order.
  function Merge<T, K(==)>(key: T -> K, held: seq<Held<T>>, items: seq<T>, origin: Origin): seq<Held<T>>
    decreases |items|
  {
    if items == [] then held
    else if exists i :: 0 <= i < |held| && key(held[i].item) == key(items[0]) then Merge(key, held, items[1..], origin)
    else Merge(key, held + [Held(items[0], origin)], items[1..], origin)
  }

  function HoldAll<T>(items: seq<T>, origin: Origin): (r: seq<Held<T>>)
    ensures |r| == |items| && forall i :: 0 <= i < |r| ==> r[i] == Held(items[i], origin)
  {
    seq(|items|, i requires 0 <= i < |items| => Held(items[i], origin))
  }

  function RevisionId(r: Revision): Id { r.id }

  function AuthorityKey(a: Authority): (string, Id) { (a.kind, a.id) }

  // The cursor to continue with: a page that repeats its own cursor ends the list.
  function NextCursor(cursor: Cursor, next: Option<Cursor>): Option<Cursor> {
    if next == Some(cursor) then None else next
  }

  function AppendMessage(cursor: Cursor, next: Option<Cursor>): string {
    if next == Some(cursor) then REPEATED else ""
  }

  // ---- Assets ----

  function FindAsset(assets: seq<Asset>, id: Id): Option<Asset> {
    if assets == [] then None
    else if assets[0].id == id then Some(assets[0])
    else FindAsset(assets[1..], id)
  }

  function FindLoaded(assets: seq<Asset>, id: Id): Option<Asset> {
    if assets == [] then None
    else if assets[0].id == id && assets[0].loaded then Some(assets[0])
    else FindLoaded(assets[1..], id)
  }

  function ProjectSummary(item: Summary, origin: Origin): Asset {
    Asset(item.id, item.revisionId, false, None, origin)
  }

  function ProjectDetail(detail: Detail, origin: Origin): Asset {
    Asset(detail.id, detail.revisionId, true, Some(ProjectSections(detail.sections, origin)), origin)
  }

  function ProjectSections(sections: seq<SectionPage>, origin: Origin): (r: seq<Section>)
    ensures |r| == |sections|
    ensures forall i :: 0 <= i < |r| ==>
      r[i] == Section(sections[i].kind, HoldAll(sections[i].page.items, origin), sections[i].page.next)
  {
    seq(|sections|, i requires 0 <= i < |sections| =>
      Section(sections[i].kind, HoldAll(sections[i].page.items, origin), sections[i].page.next))
  }

  // A listed asset keeps its loaded detail while its revision is the same.
  function ListedAsset(current: seq<Asset>, item: Summary, origin: Origin): Asset {
    match FindLoaded(current, item.id)
    case Some(loaded) => if loaded.revisionId == item.revisionId then loaded else ProjectSummary(item, origin)
    case None => ProjectSummary(item, origin)
  }

  function ListedAssets(current: seq<Asset>, items: seq<Summary>, origin: Origin): (r: seq<Asset>)
    ensures |r| == |items| && forall i :: 0 <= i < |r| ==> r[i] == ListedAsset(current, items[i], origin)
  {
    seq(|items|, i requires 0 <= i < |items| => ListedAsset(current, items[i], origin))
  }

  // Loaded assets that the page does not list.
  function LoadedElsewhere(current: seq<Asset>, items: seq<Summary>): seq<Asset> {
    if current == [] then []
    else
      (if current[0].loaded && !exists i :: 0 <= i < |items| && items[i].id == current[0].id
       then [current[0]] else []) + LoadedElsewhere(current[1..], items)
  }

  function ReplaceAssets(current: seq<Asset>, items: seq<Summary>, origin: Origin): seq<Asset> {
    ListedAssets(current, items, origin) + LoadedElsewhere(current, items)
  }

  function IndexOfAsset(assets: seq<Asset>, id: Id): (i: int)
    ensures -1 <= i < |assets|
    ensures i >= 0 ==> assets[i].id == id
    ensures i == -1 ==> forall j :: 0 <= j < |assets| ==> assets[j].id != id
  {
    if assets == [] then -1
    else if assets[0].id == id then 0
    else
      var i := IndexOfAsset(assets[1..], id);
      if i < 0 then -1 else i + 1
  }

  function AppendAsset(assets: seq<Asset>, item: Summary, origin: Origin): seq<Asset> {
    var i := IndexOfAsset(assets, item.id);
    if i < 0 then assets + [ProjectSummary(item, origin)]
    else if !assets[i].loaded || assets[i].revisionId != item.revisionId then assets[i := ProjectSummary(item, origin)]
    else assets
  }

  function MergeAssets(assets: seq<Asset>, items: seq<Summary>, origin: Origin): seq<Asset> {
    if items == [] then assets
    else AppendAsset(MergeAssets(assets, items[..|items| - 1], origin), items[|items| - 1], origin)
  }

  function PageIds(items: seq<Summary>): (r: seq<Id>)
    ensures |r| == |items| && forall i :: 0 <= i < |r| ==> r[i] == items[i].id
  {
    seq(|items|, i requires 0 <= i < |items| => items[i].id)
  }

  // The ids that are not in current, in order, as filter leaves them.
  function NewIds(current: seq<Id>, ids: seq<Id>): seq<Id> {
    if ids == [] then []
    else (if ids[0] in current then [] else [ids[0]]) + NewIds(current, ids[1..])
  }

  function PutDetail(assets: seq<Asset>, asset: Asset): seq<Asset> {
    if exists i :: 0 <= i < |assets| && assets[i].id == asset.id
    then seq(|assets|, i requires 0 <= i < |assets| => if assets[i].id == asset.id then asset else assets[i])
    else [asset] + assets
  }

  function WithoutAsset(assets: seq<Asset>, id: Id): seq<Asset> {
    if assets == [] then []
    else (if assets[0].id == id then [] else [assets[0]]) + WithoutAsset(assets[1..], id)
  }

  function FindSection(sections: seq<Section>, kind: string): Option<Section> {
    if sections == [] then None
    else if sections[0].kind == kind then Some(sections[0])
    else FindSection(sections[1..], kind)
  }

  function SectionCursor(assets: seq<Asset>, id: Id, kind: string): Option<Cursor> {
    match FindAsset(assets, id)
    case None => None
    case Some(asset) =>
      match asset.sections
      case None => None
      case Some(sections) =>
        match FindSection(sections, kind)
        case None => None
        case Some(section) => section.next
  }

  function AppendSection(section: Section, kind: string, cursor: Cursor, page: Page<Authority>,
      origin: Origin): Section {
    if section.kind != kind || section.next != Some(cursor) then section
    else Section(kind, Merge(AuthorityKey, section.records, page.items, origin), NextCursor(cursor, page.next))
  }

  function AppendRecords(assets: seq<Asset>, id: Id, kind: string, cursor: Cursor, page: Page<Authority>,
      origin: Origin)
    : (r: seq<Asset>)
    ensures |r| == |assets|
  {
    seq(|assets|, i requires 0 <= i < |assets| =>
      if assets[i].id != id || assets[i].sections.None? then assets[i]
      else
        var sections := assets[i].sections.value;
        assets[i].(sections := Some(seq(|sections|, j requires 0 <= j < |sections| =>
          AppendSection(sections[j], kind, cursor, page, origin)))))
  }

  // ---- Moving on ----

  function Bump(f: Fingerprint): Fingerprint {
    f.(generation := f.generation + 1)
  }

  // The list effect runs again: the old request is aborted, a new timer starts.
  function RestartList(nav: Nav): Nav {
    nav.(effect := nav.effect + 1, timer := nav.workspace != "")
  }

  function ApplyWorkspace(s: State, next: string): State {
    if s.nav.workspace == next then s
    else
      State(
        RestartList(s.nav.(workspace := next,
                           visit := s.nav.visit + 1,
                           fingerprint := Bump(s.nav.fingerprint.(workspace := next)))),
        Blank(next != ""),
        s.net.(exactPending := map[], detailPending := map[]))
  }

  function RefreshNav(nav: Nav): Nav {
    RestartList(nav.(fingerprint := Bump(nav.fingerprint)))
  }

  function QueryNav(nav: Nav, seen: Render, query: string, assetType: string): Nav {
    var moved := nav.(fingerprint := Fingerprint(seen.workspace, query, assetType, nav.fingerprint.generation + 1),
                      query := query,
                      assetType := assetType);
    if query == nav.query && assetType == nav.assetType then moved else RestartList(moved)
  }

  function ChangeQuery(s: State, seen: Render, query: string, assetType: string): State {
    if query == seen.query && assetType == seen.assetType then s
    else
      s.(nav := QueryNav(s.nav, seen, query, assetType), shown := s.shown.(catalogIds := [], page := NO_PAGE))
  }

  // ---- Requests ----

  // A request is sent; the single-flight maps remember it.
  function Issue(s: State, kind: Kind, workspace: string): State {
    var id, net := s.net.nextRequest, s.net;
    var sent := net.(requests := net.requests[id := Request(kind, Origin(workspace, s.nav.visit))],
      nextRequest := id + 1);
    match kind
    case ExactRevision(asset, revision) =>
      s.(net := sent.(exactPending := net.exactPending[ExactKey(workspace, asset, revision) := id]))
    case DetailOf(asset) => s.(net := sent.(detailPending := net.detailPending[DetailKey(workspace, asset) := id]))
    case _ => s.(net := sent)
  }

  function EntryOr(revisions: map<Id, RevisionList>, asset: Id): RevisionList {
    if asset in revisions then revisions[asset] else NO_LIST
  }

  // The request a callback makes, if its guards let it.
  function Wanted(s: State, seen: Render, command: Command): Option<Kind> {
    match command
    case LoadMoreAssets =>
      if seen.workspace == "" || !HasCursor(seen.page.next) || seen.page.loadingMore then None
      else Some(AppendAssets(s.nav.fingerprint, SeenFilter(seen), seen.page.next.value))
    case EnsureRevisions(asset) =>
      if seen.workspace == "" then None
      else if asset in seen.revisions
        && (seen.revisions[asset].status.ListLoading? || seen.revisions[asset].status.Ready?)
      then None
      else Some(Revisions(asset))
    case LoadMoreRevisions(asset) =>
      if seen.workspace == "" || asset !in seen.revisions || !HasCursor(seen.revisions[asset].next)
         || seen.revisions[asset].loadingMore
      then None
      else Some(MoreRevisions(asset, seen.revisions[asset].next.value))
    case LoadMoreAuthority(asset, section) =>
      var cursor, key := SectionCursor(seen.assets, asset, section), SectionKey(asset, section);
      if seen.workspace == "" || !HasCursor(cursor)
        || (key in seen.sectionStates && seen.sectionStates[key].loadingMore)
      then None
      else Some(MoreAuthority(asset, section, cursor.value))
    case EnsureRevision(asset, revision) =>
      var key := ExactKey(seen.workspace, asset, revision);
      if seen.workspace == "" || key in s.shown.exactCache || key in s.net.exactPending then None
      else Some(ExactRevision(asset, revision))
    case EnsureAsset(asset) =>
      if seen.workspace == "" || DetailKey(seen.workspace, asset) in s.net.detailPending then None
      else Some(DetailOf(asset))
    case CreateAsset => if seen.workspace == "" then None else Some(NewAsset)
    case CreateWorkspace => Some(NewWorkspace)
    case _ => None
  }

  // What is shown while the request is on its way.
  function Waiting(shown: Shown, kind: Kind, workspace: string): Shown {
    match kind
    case AppendAssets(_, _, _) => shown.(page := shown.page.(loadingMore := true, appendError := ""))
    case Revisions(asset) =>
      shown.(revisions := shown.revisions[asset := RevisionList(ListLoading, [], None, false, "")])
    case MoreRevisions(asset, _) =>
      shown.(revisions :=
        shown.revisions[asset := EntryOr(shown.revisions, asset).(loadingMore := true, appendError := "")])
    case MoreAuthority(asset, section, _) =>
      shown.(sectionStates := shown.sectionStates[SectionKey(asset, section) := PageState(None, true, "")])
    case ExactRevision(asset, revision) =>
      shown.(exactStates := shown.exactStates[ExactKey(workspace, asset, revision) := ExactLoading])
    case DetailOf(asset) => shown.(details := shown.details[asset := Loading])
    case _ => shown
  }

  function Start(s: State, kind: Kind, workspace: string): State {
    Issue(s.(shown := Waiting(s.shown, kind, workspace)), kind, workspace)
  }

  function Perform(s: State, seen: Render, command: Command): State {
    match command
    case SetWorkspace(next) =>
      if next == seen.workspace then s.(nav := RefreshNav(s.nav)) else ApplyWorkspace(s, next)
    case SetQuery(query, assetType) => ChangeQuery(s, seen, query, assetType)
    case Refresh => s.(nav := RefreshNav(s.nav))
    case _ =>
      match Wanted(s, seen, command)
      case None => s
      case Some(kind) => Start(s, kind, if kind.NewWorkspace? then "" else seen.workspace)
  }

  // The workspace chosen when the list of workspaces arrives.
  function Chosen(s: State, ids: seq<string>, wanted: string): string {
    if wanted in ids then wanted
    else if s.nav.workspace in ids then s.nav.workspace
    else if ids != [] then ids[0]
    else ""
  }

  function ShowWorkspaces(s: State, ids: seq<string>, wanted: string): State {
    var next := Chosen(s, ids, wanted);
    var t := ApplyWorkspace(s, next);
    t.(shown := t.shown.(error := "", loading := t.shown.loading && next != ""))
  }

  function FireTimer(s: State): State {
    Issue(s.(nav := s.nav.(timer := false), shown := s.shown.(loading := true)),
          ListAssets(s.nav.fingerprint, s.nav.effect, FilterOf(s.nav)), s.nav.workspace)
  }

  // ---- Answers ----

  predicate Fits(kind: Kind, answer: Answer) {
    answer.Failure? ||
    match kind
    case ListAssets(_, _, _) => answer.AssetPage?
    case AppendAssets(_, _, _) => answer.AssetPage?
    case Revisions(_) => answer.RevisionPage?
    case MoreRevisions(_, _) => answer.RevisionPage?
    case MoreAuthority(_, _, _) => answer.AuthorityPage?
    case ExactRevision(_, _) => answer.OneRevision?
    case DetailOf(_) => answer.OneDetail?
    case NewAsset => answer.OneDetail?
    case NewWorkspace => answer.Created?
  }

  // Whether an answer may still change what is shown.
  predicate Current(nav: Nav, r: Request) {
    match r.kind
    case ListAssets(f, effect, _) => effect == nav.effect && f == nav.fingerprint
    case AppendAssets(f, _, _) => f == nav.fingerprint
    case NewWorkspace => true
    case _ => r.origin == Origin(nav.workspace, nav.visit)
  }

  predicate SameExact(a: Shown, b: Shown) {
    a.exactCache == b.exactCache && a.exactStates == b.exactStates
  }

  function ShowList(shown: Shown, o: Origin, answer: Answer): (r: Shown)
    ensures SameExact(shown, r)
  {
    match answer
    case AssetPage(page) =>
      shown.(assets := ReplaceAssets(shown.assets, page.items, o),
             catalogIds := PageIds(page.items),
             page := PageState(page.next, false, ""),
             error := "",
             loading := false)
    case Failure(message) => shown.(error := message, loading := false)
    case _ => shown
  }

  function ShowAppended(shown: Shown, o: Origin, cursor: Cursor, answer: Answer): (r: Shown)
    ensures SameExact(shown, r)
  {
    match answer
    case AssetPage(page) =>
      shown.(assets := MergeAssets(shown.assets, page.items, o),
             catalogIds := shown.catalogIds + NewIds(shown.catalogIds, PageIds(page.items)),
             page := PageState(NextCursor(cursor, page.next), false, AppendMessage(cursor, page.next)))
    case Failure(message) => shown.(page := shown.page.(loadingMore := false, appendError := message))
    case _ => shown
  }

  function RevisionsAnswered(o: Origin, answer: Answer): RevisionList {
    match answer
    case RevisionPage(page) => RevisionList(Ready, HoldAll(page.items, o), page.next, false, "")
    case Failure(message) => RevisionList(ListFailed(message), [], None, false, "")
    case _ => NO_LIST
  }

  function MoreRevisionsAnswered(entry: RevisionList, o: Origin, cursor: Cursor, answer: Answer): RevisionList {
    match answer
    case RevisionPage(page) =>
      if entry.next != Some(cursor) then entry
      else
        RevisionList(Ready, Merge(RevisionId, entry.items, page.items, o), NextCursor(cursor, page.next), false,
                     AppendMessage(cursor, page.next))
    case Failure(message) => entry.(loadingMore := false, appendError := message)
    case _ => entry
  }

  function ShowRevisions(shown: Shown, o: Origin, asset: Id, answer: Answer): (r: Shown)
    ensures SameExact(shown, r)
  {
    shown.(revisions := shown.revisions[asset := RevisionsAnswered(o, answer)])
  }

  function ShowMoreRevisions(shown: Shown, o: Origin, asset: Id, cursor: Cursor, answer: Answer): (r: Shown)
    ensures SameExact(shown, r)
  {
    if asset !in shown.revisions && !answer.Failure? then shown
    else
      shown.(revisions :=
        shown.revisions[asset := MoreRevisionsAnswered(EntryOr(shown.revisions, asset), o, cursor, answer)])
  }

  function ShowMoreAuthority(shown: Shown, o: Origin, asset: Id, section: string, cursor: Cursor,
      answer: Answer): (r: Shown)
    ensures SameExact(shown, r)
  {
    var key := SectionKey(asset, section);
    match answer
    case AuthorityPage(page) =>
      if SectionCursor(shown.assets, asset, section) != Some(cursor) then shown
      else
        shown.(assets := AppendRecords(shown.assets, asset, section, cursor, page, o),
               sectionStates := shown.sectionStates[key := PageState(None, false, AppendMessage(cursor, page.next))])
    case Failure(message) => shown.(sectionStates := shown.sectionStates[key := PageState(None, false, message)])
    case _ => shown
  }

  const WRONG_REVISION := "服务端返回了不匹配的知识修订。"
  const WRONG_ASSET := "服务端返回了不匹配的知识对象。"

  function ShowExact(shown: Shown, o: Origin, asset: Id, revision: Id, answer: Answer): Shown {
    var key := ExactKey(o.workspace, asset, revision);
    match answer
    case OneRevision(r) =>
      if r.assetId != asset || r.id != revision
      then shown.(exactStates := shown.exactStates[key := ExactFailed(WRONG_REVISION)])
      else
        shown.(exactCache := shown.exactCache[key := Held(r, o)],
               exactStates := shown.exactStates[key := ExactReady(Held(r, o))])
    case Failure(message) => shown.(exactStates := shown.exactStates[key := ExactFailed(message)])
    case _ => shown
  }

  function WithoutSections(states: map<SectionKey, PageState>, asset: Id): map<SectionKey, PageState> {
    map key | key in states && key.asset != asset :: states[key]
  }

  predicate NamesAsset(detail: Detail, asset: Id) {
    detail.id == asset && (detail.revisionAsset.None? || detail.revisionAsset.value == asset)
  }

  function ShowDetail(shown: Shown, o: Origin, asset: Id, answer: Answer): (r: Shown)
    ensures SameExact(shown, r)
  {
    match answer
    case OneDetail(detail) =>
      if !NamesAsset(detail, asset) then shown.(details := shown.details[asset := LoadFailed(WRONG_ASSET)])
      else
        shown.(assets := PutDetail(shown.assets, ProjectDetail(detail, o)),
               revisions := shown.revisions - {asset},
               sectionStates := WithoutSections(shown.sectionStates, asset),
               details := shown.details[asset := Loaded],
               error := "")
    case Failure(message) => shown.(details := shown.details[asset := LoadFailed(message)])
    case _ => shown
  }

  function ShowNewAsset(shown: Shown, o: Origin, answer: Answer): (r: Shown)
    ensures SameExact(shown, r)
  {
    match answer
    case OneDetail(detail) =>
      shown.(assets := [ProjectDetail(detail, o)] + WithoutAsset(shown.assets, detail.id))
    case _ => shown
  }

  function Show(shown: Shown, r: Request, answer: Answer): Shown {
    match r.kind
    case ListAssets(_, _, _) => ShowList(shown, r.origin, answer)
    case AppendAssets(_, _, cursor) => ShowAppended(shown, r.origin, cursor, answer)
    case Revisions(asset) => ShowRevisions(shown, r.origin, asset, answer)
    case MoreRevisions(asset, cursor) => ShowMoreRevisions(shown, r.origin, asset, cursor, answer)
    case MoreAuthority(asset, section, cursor) => ShowMoreAuthority(shown, r.origin, asset, section, cursor, answer)
    case ExactRevision(asset, revision) => ShowExact(shown, r.origin, asset, revision, answer)
    case DetailOf(asset) => ShowDetail(shown, r.origin, asset, answer)
    case NewAsset => ShowNewAsset(shown, r.origin, answer)
    case NewWorkspace => shown
  }

  // A created workspace becomes the current one, with an empty query.
  function EnterCreated(s: State, id: string): State {
    var t := ApplyWorkspace(s, id);
    var nav := t.nav.(fingerprint := Fingerprint(id, "", "", t.nav.fingerprint.generation + 1), query := "",
      assetType := "");
    if s.nav.workspace == id && !(s.nav.query == "" && s.nav.assetType == "")
    then t.(nav := RestartList(nav))
    else t.(nav := nav)
  }

  function Accept(s: State, r: Request, answer: Answer): State {
    if r.kind.NewWorkspace? then (if answer.Created? then EnterCreated(s, answer.workspace) else s)
    else
      var t := s.(shown := Show(s.shown, r, answer));
      if r.kind.NewAsset? && answer.OneDetail? then t.(nav := RefreshNav(t.nav)) else t
  }

  // finally: a request removes its own pending entry and no other.
  function CleanUp(net: Net, id: nat, r: Request): Net {
    match r.kind
    case ExactRevision(asset, revision) =>
      var key := ExactKey(r.origin.workspace, asset, revision);
      if Lookup(net.exactPending, key) == Some(id) then net.(exactPending := net.exactPending - {key}) else net
    case DetailOf(asset) =>
      var key := DetailKey(r.origin.workspace, asset);
      if Lookup(net.detailPending, key) == Some(id) then net.(detailPending := net.detailPending - {key}) else net
    case _ => net
  }

  // The request is over: its answer is accepted or dropped, then it cleans up.
  function Receive(s: State, id: nat, answer: Answer): State
    requires id in s.net.requests
  {
    var r := s.net.requests[id];
    var t := if Current(s.nav, r) then Accept(s, r, answer) else s;
    t.(net := CleanUp(t.net.(requests := t.net.requests - {id}), id, r))
  }

  predicate Enabled(s: State, step: Step) {
    match step
    case TimerFires => s.nav.timer
    case Deliver(id, answer) => id in s.net.requests && Fits(s.net.requests[id].kind, answer)
    case _ => true
  }

  function Next(s: State, step: Step): State
    requires Enabled(s, step)
  {
    match step
    case Do(seen, command) => Perform(s, seen, command)
    case Prefer(preferred) => ApplyWorkspace(s, preferred)
    case WorkspacesListed(ids, wanted) => ShowWorkspaces(s, ids, wanted)
    case WorkspacesFailed(message) => s.(shown := s.shown.(error := message, loading := false))
    case TimerFires => FireTimer(s)
    case Deliver(id, answer) => Receive(s, id, answer)
  }

  // ---- Runs ----

  ghost function Run(s: State, steps: seq<Step>): Option<State>
    decreases |steps|
  {
    if steps == [] then Some(s)
    else if Enabled(s, steps[0]) then Run(Next(s, steps[0]), steps[1..])
    else None
  }

  ghost function Here(nav: Nav): Origin {
    Origin(nav.workspace, nav.visit)
  }
}
