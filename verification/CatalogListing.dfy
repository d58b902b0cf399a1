// The ids listed are the current list's: of the current workspace, with the current
// query and asset type.
module CatalogListing {
  import opened Wrappers
  import opened CatalogModel
  import opened CatalogAnswers
  import opened CatalogProvenance
  import opened CatalogLate

  // That the server lists an asset of a workspace under a filter.
  datatype Listing = Listing(workspace: string, filter: Filter, id: Id)

  ghost predicate ListedHere(lists: iset<Listing>, nav: Nav, ids: seq<Id>) {
    forall i :: 0 <= i < |ids| ==> Listing(nav.workspace, FilterOf(nav), ids[i]) in lists
  }

  ghost predicate Lists(lists: iset<Listing>, workspace: string, filter: Filter, answer: Answer) {
    answer.AssetPage? ==>
      forall i :: 0 <= i < |answer.page.items| ==> Listing(workspace, filter, answer.page.items[i].id) in lists
  }

  // List requests are answered with what the server lists for them.
  ghost predicate ServesList(lists: iset<Listing>, r: Request, answer: Answer) {
    r.kind.ListAssets? || r.kind.AppendAssets? ==> Lists(lists, r.origin.workspace, r.kind.filter, answer)
  }

  // A list request is outdated, or asks for the current list.
  ghost predicate AsksForCurrent(nav: Nav, r: Request) {
    r.kind.ListAssets? || r.kind.AppendAssets? ==>
      && r.kind.fingerprint.generation <= nav.fingerprint.generation
      && (r.kind.fingerprint.generation == nav.fingerprint.generation ==>
            r.origin.workspace == nav.workspace && r.kind.filter == FilterOf(nav))
  }

  ghost predicate ListInv(lists: iset<Listing>, s: State) {
    && ListedHere(lists, s.nav, s.shown.catalogIds)
    && forall id :: id in s.net.requests ==> id < s.net.nextRequest && AsksForCurrent(s.nav, s.net.requests[id])
  }

  // ---- When a step keeps the list ----

  predicate SeesCurrentList(nav: Nav, seen: Render) {
    seen.workspace == nav.workspace && SeenFilter(seen) == FilterOf(nav)
  }

  // Appends are made from a render of the current list; a created workspace is not
  // entered while it is the current one, unless its filter is empty already.
  ghost predicate KeepsList(s: State, step: Step) {
    match step
    case Do(seen, command) => command.LoadMoreAssets? ==> SeesCurrentList(s.nav, seen)
    case Deliver(id, answer) =>
      id in s.net.requests && s.net.requests[id].kind.NewWorkspace? && answer.Created? ==>
        answer.workspace != s.nav.workspace || FilterOf(s.nav) == Filter("", "")
    case _ => true
  }

  // ---- Requests ----

  // The filter changes only with the list generation.
  lemma StepKeepsFilter(s: State, step: Step)
    requires Enabled(s, step)
    ensures var n, m := s.nav, Next(s, step).nav;
            n.fingerprint.generation == m.fingerprint.generation ==> FilterOf(m) == FilterOf(n)
  {
    hide Wanted, Waiting, Issue, Show, CleanUp, Fits;
    match step
    case Do(seen, command) =>
      var wanted := Wanted(s, seen, command);
      if wanted.Some? {
        var workspace := if wanted.value.NewWorkspace? then "" else seen.workspace;
        IssueChanges(s.(shown := Waiting(s.shown, wanted.value, workspace)), wanted.value, workspace);
      }
    case TimerFires =>
      IssueChanges(s.(nav := s.nav.(timer := false), shown := s.shown.(loading := true)),
                   ListAssets(s.nav.fingerprint, s.nav.effect, FilterOf(s.nav)), s.nav.workspace);
    case _ =>
  }

  lemma NewListRequest(s: State, step: Step)
    requires Enabled(s, step) && KeepsList(s, step) && s.net.nextRequest !in s.net.requests
    requires s.net.nextRequest in Next(s, step).net.requests
    ensures s.net.nextRequest < Next(s, step).net.nextRequest
    ensures AsksForCurrent(Next(s, step).nav, Next(s, step).net.requests[s.net.nextRequest])
  {
    hide Waiting, Issue, Accept, CleanUp, SectionCursor, Fits;
    match step
    case Do(seen, command) =>
      var wanted := Wanted(s, seen, command);
      if wanted.Some? {
        var workspace := if wanted.value.NewWorkspace? then "" else seen.workspace;
        IssueChanges(s.(shown := Waiting(s.shown, wanted.value, workspace)), wanted.value, workspace);
      }
    case Deliver(id, answer) =>
      var r := s.net.requests[id];
      AcceptAdvances(s, r, answer);
      var t := if Current(s.nav, r) then Accept(s, r, answer) else s;
      CleanUpKeepsRequests(t.net.(requests := t.net.requests - {id}), id, r);
    case TimerFires =>
      IssueChanges(s.(nav := s.nav.(timer := false), shown := s.shown.(loading := true)),
                   ListAssets(s.nav.fingerprint, s.nav.effect, FilterOf(s.nav)), s.nav.workspace);
    case _ =>
  }

  lemma StepKeepsAsking(lists: iset<Listing>, s: State, step: Step)
    requires ListInv(lists, s) && Enabled(s, step) && KeepsList(s, step)
    ensures var t := Next(s, step);
            forall id :: id in t.net.requests ==> id < t.net.nextRequest && AsksForCurrent(t.nav, t.net.requests[id])
  {
    hide Next, KeepsList, ListedHere;
    var t := Next(s, step);
    StepAdvances(s, step);
    StepKeepsFilter(s, step);
    forall id | id in t.net.requests
      ensures id < t.net.nextRequest && AsksForCurrent(t.nav, t.net.requests[id])
    {
      if id == s.net.nextRequest { NewListRequest(s, step); }
    }
  }

  // ---- Ids ----

  lemma {:induction false} NewIdsFrom(current: seq<Id>, ids: seq<Id>)
    ensures forall i :: 0 <= i < |NewIds(current, ids)| ==> NewIds(current, ids)[i] in ids
  {
    if ids != [] {
      NewIdsFrom(current, ids[1..]);
      assert ids == [ids[0]] + ids[1..];
    }
  }

  lemma AppendedListed(lists: iset<Listing>, nav: Nav, shown: Shown, r: Request, answer: Answer)
    requires ListedHere(lists, nav, shown.catalogIds) && ServesList(lists, r, answer)
    requires r.kind.AppendAssets? && r.origin.workspace == nav.workspace && r.kind.filter == FilterOf(nav)
    ensures ListedHere(lists, nav, Show(shown, r, answer).catalogIds)
  {
    hide MergeAssets, NewIds, SameExact;
    if answer.AssetPage? {
      NewIdsFrom(shown.catalogIds, PageIds(answer.page.items));
    }
  }

  lemma ReplacedListed(lists: iset<Listing>, nav: Nav, shown: Shown, r: Request, answer: Answer)
    requires ListedHere(lists, nav, shown.catalogIds) && ServesList(lists, r, answer)
    requires r.kind.ListAssets? && r.origin.workspace == nav.workspace && r.kind.filter == FilterOf(nav)
    ensures ListedHere(lists, nav, Show(shown, r, answer).catalogIds)
  {
    hide ReplaceAssets, SameExact;
  }

  lemma SwitchListed(lists: iset<Listing>, s: State, next: string)
    requires ListedHere(lists, s.nav, s.shown.catalogIds)
    ensures var t := ApplyWorkspace(s, next); ListedHere(lists, t.nav, t.shown.catalogIds)
  {
  }

  // Entering a created workspace keeps the list its own, whatever the server lists,
  // if and only if it is not the current workspace under a filter with a list.
  lemma CreatedKeepsList(s: State, id: string)
    ensures (forall lists :: ListedHere(lists, s.nav, s.shown.catalogIds) ==>
               ListedHere(lists, EnterCreated(s, id).nav, EnterCreated(s, id).shown.catalogIds)) <==>
            id != s.nav.workspace || FilterOf(s.nav) == Filter("", "") || s.shown.catalogIds == []
  {
    var t, ids := EnterCreated(s, id), s.shown.catalogIds;
    if id == s.nav.workspace && ids != [] && FilterOf(s.nav) != Filter("", "") {
      var lists := OnlyHere(s.nav);
      assert ListedHere(lists, s.nav, ids);
      assert t.shown.catalogIds == ids && FilterOf(t.nav) == Filter("", "");
      assert Listing(t.nav.workspace, FilterOf(t.nav), ids[0]) !in lists;
    }
  }

  ghost function OnlyHere(nav: Nav): iset<Listing> {
    iset x: Listing | x.workspace == nav.workspace && x.filter == FilterOf(nav)
  }

  lemma AcceptListed(lists: iset<Listing>, s: State, r: Request, answer: Answer)
    requires ListedHere(lists, s.nav, s.shown.catalogIds) && ServesList(lists, r, answer)
    requires Current(s.nav, r) && AsksForCurrent(s.nav, r)
    requires r.kind.NewWorkspace? && answer.Created? ==>
            answer.workspace != s.nav.workspace
            || FilterOf(s.nav) == Filter("", "")
    ensures var t := Accept(s, r, answer); ListedHere(lists, t.nav, t.shown.catalogIds)
  {
    hide ListedHere, Show, ServesList, EnterCreated;
    match r.kind
    case NewWorkspace => if answer.Created? { CreatedKeepsList(s, answer.workspace); }
    case ListAssets(_, _, _) => ReplacedListed(lists, s.nav, s.shown, r, answer);
    case AppendAssets(_, _, _) => AppendedListed(lists, s.nav, s.shown, r, answer);
    case _ =>
      OtherAnswersKeepList(s.shown, r, answer);
      assert FilterOf(Accept(s, r, answer).nav) == FilterOf(s.nav);
      assert Accept(s, r, answer).nav.workspace == s.nav.workspace;
      SameListListed(lists, s.nav, Accept(s, r, answer).nav, s.shown.catalogIds);
  }

  lemma SameListListed(lists: iset<Listing>, n: Nav, m: Nav, ids: seq<Id>)
    requires ListedHere(lists, n, ids) && n.workspace == m.workspace && FilterOf(n) == FilterOf(m)
    ensures ListedHere(lists, m, ids)
  {
  }

  lemma PerformListed(lists: iset<Listing>, s: State, seen: Render, command: Command)
    requires ListedHere(lists, s.nav, s.shown.catalogIds)
    ensures var t := Perform(s, seen, command); ListedHere(lists, t.nav, t.shown.catalogIds)
  {
    hide ListedHere, ApplyWorkspace, Wanted, Issue, Waiting;
    match command
    case SetWorkspace(next) =>
      SwitchListed(lists, s, next);
      SameListListed(lists, s.nav, RefreshNav(s.nav), s.shown.catalogIds);
    case SetQuery(query, assetType) => NothingListed(lists, ChangeQuery(s, seen, query, assetType).nav);
    case Refresh => SameListListed(lists, s.nav, RefreshNav(s.nav), s.shown.catalogIds);
    case _ =>
      var wanted := Wanted(s, seen, command);
      if wanted.Some? {
        var workspace := if wanted.value.NewWorkspace? then "" else seen.workspace;
        IssueChanges(s.(shown := Waiting(s.shown, wanted.value, workspace)), wanted.value, workspace);
        WaitingKeepsIds(s.shown, wanted.value, workspace);
      }
  }

  lemma WaitingKeepsIds(shown: Shown, kind: Kind, workspace: string)
    ensures Waiting(shown, kind, workspace).catalogIds == shown.catalogIds
  {
  }

  lemma NothingListed(lists: iset<Listing>, nav: Nav)
    ensures ListedHere(lists, nav, [])
  {
  }

  lemma StepKeepsList(lists: iset<Listing>, s: State, step: Step)
    requires ListInv(lists, s) && Enabled(s, step) && KeepsList(s, step)
    requires step.Deliver? ==> ServesList(lists, s.net.requests[step.request], step.answer)
    ensures var t := Next(s, step); ListedHere(lists, t.nav, t.shown.catalogIds)
  {
    hide ListedHere, Perform, ApplyWorkspace, Accept, CleanUp, ServesList, Issue, Fits;
    match step
    case Do(seen, command) => PerformListed(lists, s, seen, command);
    case Prefer(preferred) => SwitchListed(lists, s, preferred);
    case WorkspacesListed(ids, wanted) => SwitchListed(lists, s, Chosen(s, ids, wanted));
    case WorkspacesFailed(_) =>
    case TimerFires =>
      var t := s.(nav := s.nav.(timer := false), shown := s.shown.(loading := true));
      IssueChanges(t, ListAssets(s.nav.fingerprint, s.nav.effect, FilterOf(s.nav)), s.nav.workspace);
      SameListListed(lists, s.nav, t.nav, s.shown.catalogIds);
    case Deliver(id, answer) =>
      var r := s.net.requests[id];
      if Current(s.nav, r) { AcceptListed(lists, s, r, answer); }
  }

  // ---- Runs ----

  // Each step keeps the list, and list requests are answered as the server lists.
  ghost predicate ListRun(lists: iset<Listing>, s: State, steps: seq<Step>)
    decreases |steps|
  {
    steps == [] ||
    (Enabled(s, steps[0]) ==>
       && KeepsList(s, steps[0])
       && (steps[0].Deliver? ==> ServesList(lists, s.net.requests[steps[0].request], steps[0].answer))
       && ListRun(lists, Next(s, steps[0]), steps[1..]))
  }

  lemma {:induction false} RunKeepsList(lists: iset<Listing>, s: State, steps: seq<Step>)
    requires ListInv(lists, s) && ListRun(lists, s, steps) && Run(s, steps).Some?
    ensures ListInv(lists, Run(s, steps).value)
    decreases |steps|
  {
    hide Next, ListedHere, KeepsList, ServesList;
    if steps != [] {
      StepKeepsList(lists, s, steps[0]);
      StepKeepsAsking(lists, s, steps[0]);
      RunKeepsList(lists, Next(s, steps[0]), steps[1..]);
    }
  }

  // From the start, whatever arrives when: every id listed is one that the server
  // lists for the current workspace, query and asset type.
  lemma AlwaysCurrentList(lists: iset<Listing>, steps: seq<Step>)
    requires ListRun(lists, INITIAL, steps) && Run(INITIAL, steps).Some?
    ensures var s := Run(INITIAL, steps).value; ListedHere(lists, s.nav, s.shown.catalogIds)
  {
    RunKeepsList(lists, INITIAL, steps);
  }

  // ---- Stale closures ----

  // Longer than any of the ids.
  function OtherId(ids: seq<Id>): (r: Id)
    ensures forall i :: 0 <= i < |ids| ==> |ids[i]| < |r|
  {
    if ids == [] then "x" else ids[0] + "x" + OtherId(ids[1..])
  }

  // All of the current list, and everything of every other list.
  ghost function Elsewhere(nav: Nav, ids: seq<Id>): iset<Listing> {
    iset x: Listing | x.workspace != nav.workspace || x.filter != FilterOf(nav) || x.id in ids
  }

  // loadMoreAssets sends what its closure holds and checks what the ref holds: its
  // answers keep the list the current one, whatever the server lists, if and only
  // if workspace, query and asset type of the closure are the current ones.
  lemma AppendNeedsCurrentList(s: State, seen: Render)
    requires Wanted(s, seen, LoadMoreAssets).Some?
    ensures (forall lists, answer ::
               ListedHere(lists, s.nav, s.shown.catalogIds)
                 && Lists(lists, seen.workspace, SeenFilter(seen), answer) ==>
               ListedHere(lists, Appended(s, seen, answer).nav, Appended(s, seen, answer).shown.catalogIds)) <==>
            SeesCurrentList(s.nav, seen)
  {
    var ids := s.shown.catalogIds;
    hide Appended, Wanted;
    if SeesCurrentList(s.nav, seen) {
      forall lists, answer | ListedHere(lists, s.nav, ids) && Lists(lists, seen.workspace, SeenFilter(seen), answer)
        ensures ListedHere(lists, Appended(s, seen, answer).nav, Appended(s, seen, answer).shown.catalogIds)
      {
        AppendedShows(s, seen, answer);
        if answer.AssetPage? { NewIdsFrom(ids, PageIds(answer.page.items)); }
        hide NewIds;
      }
    } else {
      var lists, other := Elsewhere(s.nav, ids), OtherId(ids);
      var answer := AssetPage(Page([Summary(other, "1")], None));
      AppendedShows(s, seen, answer);
      assert PageIds(answer.page.items) == [other];
      assert NewIds(ids, [other]) == [other];
      assert ListedHere(lists, s.nav, ids) && Lists(lists, seen.workspace, SeenFilter(seen), answer);
      assert (ids + [other])[|ids|] == other;
      assert Listing(s.nav.workspace, FilterOf(s.nav), other) !in lists;
    }
  }

  // After a change of the query such an append puts the old query's page under the
  // new query.
  lemma StaleQueryShows()
    ensures var s := Run(INITIAL, FirstList());
            && s.Some?
            && var seen := RenderOf(s.value);
               var asking := Perform(s.value, seen, SetQuery("q", ""));
               var t := Run(s.value, StaleAppend(seen, SetQuery("q", "")));
               && Wanted(asking, seen, LoadMoreAssets) ==
                 Some(AppendAssets(asking.nav.fingerprint, Filter("", ""), "c"))
               && t.Some?
               && FilterOf(t.value.nav) == Filter("q", "")
               && t.value.shown.catalogIds == ["b"]
  {
    FirstListRuns();
    var seen := RenderOf(FIRST_STATE);
    assert |"q"| != |""|;
    var asking := Perform(FIRST_STATE, seen, SetQuery("q", ""));
    assert FilterOf(asking.nav) == Filter("q", "") && asking.shown.catalogIds == [] && asking.net == FIRST_STATE.net;
    StaleAppendRuns(SetQuery("q", ""));
    AppendedShows(asking, seen, SECOND_PAGE);
    assert PageIds(SECOND_PAGE.page.items) == ["b"] && NewIds([], ["b"]) == ["b"];
    hide Run, Perform, Appended;
  }

  // A workspace is created; before its creation is answered it is listed, entered
  // and queried.
  function CreateAndQuery(seen: Render): seq<Step> {
    [Do(RenderOf(INITIAL), CreateWorkspace), WorkspacesListed(["w1"], ""), Do(seen, SetQuery("q", ""))]
  }

  // The query is answered, and then the creation.
  function AnswerBoth(): seq<Step> {
    [TimerFires, Deliver(1, SECOND_PAGE), Deliver(0, Created("w1"))]
  }

  const CREATION := Request(NewWorkspace, Origin("", 0))
  const CREATING := Net(map[], map[], map[0 := CREATION], 1)
  const ENTERED_STATE := State(FIRST_NAV.(timer := true), Blank(true), CREATING)
  const QUERY_NAV := Nav("w1", 1, Fingerprint("w1", "q", "", 2), "q", "", 2, true)
  const QUERY_STATE := State(QUERY_NAV, Blank(true), CREATING)

  lemma CreateAndQueryRuns()
    ensures Run(INITIAL, CreateAndQuery(RenderOf(ENTERED_STATE))) == Some(QUERY_STATE)
  {
    var steps := CreateAndQuery(RenderOf(ENTERED_STATE));
    assert |"q"| != |""|;
    var asked := INITIAL.(net := CREATING);
    assert Next(INITIAL, steps[0]) == asked;
    assert Next(asked, steps[1]) == ENTERED_STATE;
    assert Next(ENTERED_STATE, steps[2]) == QUERY_STATE;
    hide Perform, ShowWorkspaces;
    ThreeSteps(INITIAL, steps);
  }

  const QUERIED_SHOWN := Blank(false).(assets := [Asset("b", "1", false, None, HERE)], catalogIds := ["b"])
  const QUERIED_STATE := State(QUERY_NAV.(timer := false), QUERIED_SHOWN, CREATING.(nextRequest := 2))

  lemma QueriedAnswer(r: Request)
    requires r.origin == HERE && r.kind.ListAssets?
    ensures Show(Blank(true), r, SECOND_PAGE) == QUERIED_SHOWN
  {
    var items := SECOND_PAGE.page.items;
    assert ReplaceAssets([], items, HERE) == [ProjectSummary(items[0], HERE)];
    assert PageIds(items) == ["b"];
  }

  lemma QueryIsAnswered()
    ensures var asked := Next(QUERY_STATE, TimerFires);
            Enabled(asked, Deliver(1, SECOND_PAGE)) && Next(asked, Deliver(1, SECOND_PAGE)) == QUERIED_STATE
  {
    var r := Request(ListAssets(QUERY_NAV.fingerprint, 2, Filter("q", "")), HERE);
    var asked := State(QUERY_NAV.(timer := false), Blank(true), Net(map[], map[], map[0 := CREATION, 1 := r], 2));
    assert Next(QUERY_STATE, TimerFires) == asked;
    QueriedAnswer(r);
    assert asked.net.requests - {1} == CREATING.requests;
    hide Show;
  }

  // The query's list stays although the query is gone.
  lemma CreatedUnderQuery()
    ensures Run(INITIAL, CreateAndQuery(RenderOf(ENTERED_STATE))) == Some(QUERY_STATE)
    ensures var t := Run(QUERY_STATE, AnswerBoth());
            && t.Some?
            && t.value.nav.workspace == "w1" && FilterOf(t.value.nav) == Filter("", "")
            && t.value.shown.catalogIds == ["b"]
  {
    CreateAndQueryRuns();
    QueryIsAnswered();
    CreationAnswered();
    hide Next, Enabled;
    ThreeSteps(QUERY_STATE, AnswerBoth());
  }

  lemma CreationAnswered()
    ensures Enabled(QUERY_STATE, TimerFires) && Enabled(QUERIED_STATE, Deliver(0, Created("w1")))
    ensures var t := Next(QUERIED_STATE, Deliver(0, Created("w1")));
            t.nav.workspace == "w1" && FilterOf(t.nav) == Filter("", "") && t.shown.catalogIds == ["b"]
  {
  }
}
