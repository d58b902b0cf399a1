// Late answers change nothing: a request made before a switch of workspace, or a
// list request made before the list moved on, is never applied, whatever happens
// in between; and when a list answer may be applied to another workspace's list.
module CatalogLate {
  import opened Wrappers
  import opened CatalogModel
  import opened CatalogProvenance
  import opened CatalogFlight

  // The request belongs to an earlier list (list requests) or to an earlier visit
  // (all others). A new workspace is entered whenever its answer comes.
  ghost predicate Outdated(nav: Nav, r: Request) {
    match r.kind
    case ListAssets(f, _, _) => f.generation < nav.fingerprint.generation
    case AppendAssets(f, _, _) => f.generation < nav.fingerprint.generation
    case NewWorkspace => false
    case _ => r.origin.visit < nav.visit
  }

  // The step leaves the workspace, or starts another list.
  ghost predicate Leaves(n: Nav, m: Nav) {
    n.workspace != m.workspace
  }

  ghost predicate Relists(n: Nav, m: Nav) {
    n.fingerprint != m.fingerprint
  }

  // ---- Generations ----

  // Leaving a workspace raises both generations, so returning to it (A, B, A) is
  // another visit; any change of the fingerprint raises the list's.
  lemma StepRaises(s: State, step: Step)
    requires Enabled(s, step)
    ensures var n, m := s.nav, Next(s, step).nav;
            && (Leaves(n, m) <==> n.visit < m.visit)
            && (Relists(n, m) <==> n.fingerprint.generation < m.fingerprint.generation)
            && (Leaves(n, m) ==> Relists(n, m))
  {
    hide Wanted, Waiting, Issue, Show, CleanUp;
    match step
    case Do(seen, command) =>
      var wanted := Wanted(s, seen, command);
      if wanted.Some? {
        var workspace := if wanted.value.NewWorkspace? then "" else seen.workspace;
        IssueChanges(s.(shown := Waiting(s.shown, wanted.value, workspace)), wanted.value, workspace);
      }
    case TimerFires =>
      IssueChanges(s.(nav := s.nav.(timer := false), shown := s.shown.(loading := true)),
                   ListAssets(s.nav.fingerprint, s.nav.effect, FilterOf(s.nav)), s.nav.workspace);
    case _ =>
  }

  // Refreshing, another query, another workspace and a created asset each start
  // another list.
  lemma UserMovesOn(s: State, seen: Render, command: Command)
    ensures Relists(s.nav, Perform(s, seen, command).nav) <==>
            match command
            case SetWorkspace(next) => next == seen.workspace || next != s.nav.workspace
            case SetQuery(query, assetType) => query != seen.query || assetType != seen.assetType
            case Refresh => true
            case _ => false
  {
    hide Wanted, Waiting, Issue;
    var wanted := Wanted(s, seen, command);
    if wanted.Some? {
      var workspace := if wanted.value.NewWorkspace? then "" else seen.workspace;
      IssueChanges(s.(shown := Waiting(s.shown, wanted.value, workspace)), wanted.value, workspace);
    }
  }

  lemma MovingOnOutdates(n: Nav, m: Nav, r: Request)
    requires RequestIssued(n, r) && Advances(n, m) && !r.kind.NewWorkspace?
    requires n.visit < m.visit
             || ((r.kind.ListAssets? || r.kind.AppendAssets?) && n.fingerprint.generation < m.fingerprint.generation)
    requires n.visit < m.visit ==> n.fingerprint.generation < m.fingerprint.generation
    ensures Outdated(m, r)
  {
  }

  lemma OutdatedStays(n: Nav, m: Nav, r: Request)
    requires Advances(n, m) && Outdated(n, r)
    ensures Outdated(m, r)
  {
  }

  lemma OutdatedIsNotCurrent(nav: Nav, r: Request)
    requires Outdated(nav, r)
    ensures !Current(nav, r)
  {
  }

  // ---- Runs ----

  lemma {:induction false} RunAdvances(s: State, steps: seq<Step>)
    requires Run(s, steps).Some?
    ensures Advances(s.nav, Run(s, steps).value.nav)
    decreases |steps|
  {
    hide Next;
    if steps != [] {
      StepAdvances(s, steps[0]);
      RunAdvances(Next(s, steps[0]), steps[1..]);
    }
  }

  // A request keeps its number for as long as it is on its way.
  lemma {:induction false} RequestsKeepTheirNumbers(s: State, steps: seq<Step>, id: nat)
    requires Run(s, steps).Some? && id < s.net.nextRequest
    requires id in Run(s, steps).value.net.requests
    ensures id in s.net.requests && Run(s, steps).value.net.requests[id] == s.net.requests[id]
    decreases |steps|
  {
    hide Next;
    if steps != [] {
      StepAdvances(s, steps[0]);
      RequestsKeepTheirNumbers(Next(s, steps[0]), steps[1..], id);
    }
  }

  // An outdated request's answer changes neither what is shown nor any ref; an
  // answer from an earlier visit does not even touch a pending entry.
  lemma OutdatedAnswer(s: State, id: nat, answer: Answer)
    requires FlightInv(s) && id in s.net.requests && Outdated(s.nav, s.net.requests[id])
    ensures Receive(s, id, answer) == s.(net := s.net.(requests := s.net.requests - {id}))
  {
    hide Flight, CacheAgrees, NotYetCached, Accept;
    var r := s.net.requests[id];
    OutdatedIsNotCurrent(s.nav, r);
    if r.origin.visit != s.nav.visit {
      EarlierVisitTouchesNothing(s.nav.visit, s.net, id);
    }
  }

  // In every run, stale closures included: once a step has left the workspace (or,
  // for a list request, started another list), the answer to a request made before
  // only takes its request away, whatever ran before and whatever runs after.
  lemma LateAnswerChangesNothing(before: seq<Step>, step: Step, after: seq<Step>, id: nat, answer: Answer)
    requires Run(INITIAL, before).Some?
    requires var s := Run(INITIAL, before).value;
             && Enabled(s, step) && Run(Next(s, step), after).Some?
             && id in s.net.requests && !s.net.requests[id].kind.NewWorkspace?
             && MovesOn(s.nav, Next(s, step).nav, s.net.requests[id])
             && Enabled(Run(Next(s, step), after).value, Deliver(id, answer))
    ensures var t := Run(Next(Run(INITIAL, before).value, step), after).value;
            Next(t, Deliver(id, answer)) == t.(net := t.net.(requests := t.net.requests - {id}))
  {
    hide FlightInv, Outdated, Advances, Next, RequestIssued, Fits, Leaves, Relists;
    var s := Run(INITIAL, before).value;
    assert FlightInv(INITIAL) by { InitialFlight(); }
    RunKeepsIssued(INITIAL, before);
    RunKeepsFlight(INITIAL, before);
    var m, r := Next(s, step), s.net.requests[id];
    var t := Run(m, after).value;
    StepRaises(s, step);
    StepAdvances(s, step);
    MovingOnOutdates(s.nav, m.nav, r);
    RunAdvances(m, after);
    OutdatedStays(m.nav, t.nav, r);
    RequestsKeepTheirNumbers(m, after, id);
    StepKeepsFlight(s, step);
    RunKeepsFlight(m, after);
    OutdatedAnswer(t, id, answer);
    DeliverReceives(t, id, answer);
  }

  // The step that ends what the request was made for.
  ghost predicate MovesOn(n: Nav, m: Nav, r: Request) {
    Leaves(n, m) || ((r.kind.ListAssets? || r.kind.AppendAssets?) && Relists(n, m))
  }

  lemma InitialFlight()
    ensures FlightInv(INITIAL)
  {
  }

  lemma DeliverReceives(s: State, id: nat, answer: Answer)
    requires Enabled(s, Deliver(id, answer))
    ensures id in s.net.requests && Next(s, Deliver(id, answer)) == Receive(s, id, answer)
  {
  }

  // ---- Stale closures ----

  // An item that is not held as it is, so that it must be added.
  function Novel(assets: seq<Asset>): Summary {
    var i := IndexOfAsset(assets, "new");
    if i < 0 then Summary("new", "1") else Summary("new", assets[i].revisionId + "+")
  }

  // loadMoreAssets takes the workspace from its closure and the fingerprint from
  // the ref. Its answers keep the list the current workspace's own if and only if
  // the closure was made for the current workspace.
  lemma AppendNeedsFreshClosure(s: State, seen: Render)
    requires Inv(s) && Wanted(s, seen, LoadMoreAssets).Some?
    ensures (forall answer :: Fits(Wanted(s, seen, LoadMoreAssets).value, answer) ==>
               Provenance(Receive(Perform(s, seen, LoadMoreAssets), s.net.nextRequest, answer))) <==>
            seen.workspace == s.nav.workspace
  {
    hide Provenance, ReplaceAssets, SectionCursor;
    var kind := Wanted(s, seen, LoadMoreAssets).value;
    var t := Perform(s, seen, LoadMoreAssets);
    var r := Request(kind, Origin(seen.workspace, s.nav.visit));
    PerformKeepsProvenance(s, seen, LoadMoreAssets);
    assert t.net.requests[s.net.nextRequest] == r;
    if seen.workspace == s.nav.workspace {
      forall answer | Fits(kind, answer)
        ensures Provenance(Receive(t, s.net.nextRequest, answer))
      {
        AcceptKeepsProvenance(t, r, answer);
        assert Receive(t, s.net.nextRequest, answer).shown == Accept(t, r, answer).shown;
        assert Receive(t, s.net.nextRequest, answer).nav == Accept(t, r, answer).nav;
        SameShownSameProvenance(Receive(t, s.net.nextRequest, answer), Accept(t, r, answer));
      }
    } else {
      var item := Novel(t.shown.assets);
      var answer := AssetPage(Page([item], None));
      ForeignItemShows(t.shown, r.origin, kind.cursor, item);
      var u := Receive(t, s.net.nextRequest, answer);
      assert u.shown == ShowAppended(t.shown, r.origin, kind.cursor, answer) && u.nav == s.nav;
      assert !Provenance(u) by { OneForeignAsset(u, r.origin); }
      assert Fits(kind, answer);
    }
  }

  const SECOND_PAGE := AssetPage(Page([Summary("b", "1")], None))

  // A list of one asset with more to come, in the first workspace.
  function FirstList(): seq<Step> {
    [WorkspacesListed(["w1"], ""), TimerFires, Deliver(0, AssetPage(Page([Summary("a", "1")], Some("c"))))]
  }

  // The user moves on by a command, then an append is made from the old closure
  // and answered.
  function StaleAppend(seen: Render, command: Command): seq<Step> {
    [Do(seen, command), Do(seen, LoadMoreAssets), Deliver(1, SECOND_PAGE)]
  }

  lemma ThreeSteps(s: State, steps: seq<Step>)
    requires |steps| == 3 && Enabled(s, steps[0])
    requires var t := Next(s, steps[0]);
             Enabled(t, steps[1]) && Enabled(Next(t, steps[1]), steps[2])
    ensures Run(s, steps) == Some(Next(Next(Next(s, steps[0]), steps[1]), steps[2]))
  {
    hide Next, Enabled;
    var t := Next(s, steps[0]);
    var u := Next(t, steps[1]);
    assert steps[1..][0] == steps[1] && steps[1..][1..] == [steps[2]] && [steps[2]][1..] == [];
    assert Run(u, [steps[2]]) == Some(Next(u, steps[2]));
    assert Run(t, steps[1..]) == Run(u, [steps[2]]);
  }

  const HERE := Origin("w1", 1)
  const FIRST_NAV := Nav("w1", 1, Fingerprint("w1", "", "", 1), "", "", 1, false)
  const FIRST_SHOWN := Blank(false).(
    assets := [Asset("a", "1", false, None, HERE)], catalogIds := ["a"], page := PageState(Some("c"), false, ""))

  const FIRST_STATE := State(FIRST_NAV, FIRST_SHOWN, Net(map[], map[], map[], 1))

  lemma FirstListRuns()
    ensures Run(INITIAL, FirstList()) == Some(FIRST_STATE)
  {
    var steps := FirstList();
    var entered := State(FIRST_NAV.(timer := true), Blank(true), Net(map[], map[], map[], 0));
    var r := Request(ListAssets(FIRST_NAV.fingerprint, 1, Filter("", "")), HERE);
    var asked := State(FIRST_NAV, Blank(true), Net(map[], map[], map[0 := r], 1));
    assert Next(INITIAL, steps[0]) == entered;
    assert Next(entered, steps[1]) == asked;
    FirstAnswer(asked.net.requests, r);
    assert Next(asked, steps[2]) == FIRST_STATE by {
      assert asked.net.requests - {0} == map[];
    }
    ThreeSteps(INITIAL, steps);
  }

  lemma FirstAnswer(requests: map<nat, Request>, r: Request)
    requires r.origin == HERE && r.kind.ListAssets?
    ensures Show(Blank(true), r, AssetPage(Page([Summary("a", "1")], Some("c")))) == FIRST_SHOWN
  {
    var items := [Summary("a", "1")];
    assert ReplaceAssets([], items, HERE) == [Asset("a", "1", false, None, HERE)];
    assert PageIds(items) == ["a"];
  }

  // The answer to an append from this closure, made and answered now.
  function Appended(s: State, seen: Render, answer: Answer): State
    requires Wanted(s, seen, LoadMoreAssets).Some?
  {
    Receive(Perform(s, seen, LoadMoreAssets), s.net.nextRequest, answer)
  }

  lemma AppendedShows(s: State, seen: Render, answer: Answer)
    requires Wanted(s, seen, LoadMoreAssets).Some?
    ensures Appended(s, seen, answer).nav == s.nav
    ensures answer.AssetPage? ==>
              && Appended(s, seen, answer).shown.assets
                 == MergeAssets(s.shown.assets, answer.page.items, Origin(seen.workspace, s.nav.visit))
              && Appended(s, seen, answer).shown.catalogIds
                 == s.shown.catalogIds + NewIds(s.shown.catalogIds, PageIds(answer.page.items))
    ensures !answer.AssetPage? ==> Appended(s, seen, answer).shown.catalogIds == s.shown.catalogIds
  {
    hide MergeAssets, NewIds, SectionCursor, SameExact;
  }

  lemma StaleAppendRuns(command: Command)
    requires var s := Perform(FIRST_STATE, RenderOf(FIRST_STATE), command);
             s.net.nextRequest == 1 && Wanted(s, RenderOf(FIRST_STATE), LoadMoreAssets).Some?
    ensures var seen := RenderOf(FIRST_STATE);
            Run(FIRST_STATE, StaleAppend(seen, command)) ==
              Some(Appended(Perform(FIRST_STATE, seen, command), seen, SECOND_PAGE))
  {
    var seen := RenderOf(FIRST_STATE);
    var s := Perform(FIRST_STATE, seen, command);
    WantsAppend(s, seen);
    hide Perform, Wanted, Receive;
    ThreeSteps(FIRST_STATE, StaleAppend(seen, command));
  }

  lemma WantsAppend(s: State, seen: Render)
    requires Wanted(s, seen, LoadMoreAssets).Some?
    ensures var asked := Perform(s, seen, LoadMoreAssets);
            s.net.nextRequest in asked.net.requests && asked.net.requests[s.net.nextRequest].kind.AppendAssets?
  {
  }

  // After a switch such an append puts the other workspace's assets into the list.
  lemma StaleWorkspaceShows()
    ensures var s := Run(INITIAL, FirstList());
            && s.Some?
            && var t := Run(s.value, StaleAppend(RenderOf(s.value), SetWorkspace("w2")));
               t.Some? && !Provenance(t.value)
  {
    FirstListRuns();
    var seen := RenderOf(FIRST_STATE);
    assert "w1"[1] != "w2"[1];
    var switched := Perform(FIRST_STATE, seen, SetWorkspace("w2"));
    assert switched.nav.workspace == "w2" && switched.nav.visit == 2 && switched.shown.assets == [];
    assert switched.net == FIRST_STATE.net;
    StaleAppendRuns(SetWorkspace("w2"));
    AppendedShows(switched, seen, SECOND_PAGE);
    var t, o := Appended(switched, seen, SECOND_PAGE), Origin("w1", 2);
    AppendsOne([], SECOND_PAGE.page.items[0], o);
    assert t.shown.assets == [Asset("b", "1", false, None, o)];
    hide Run, Perform, Appended, Provenance;
    assert t.shown.assets[0].origin == o;
    OneForeignAsset(t, o);
  }

  lemma AppendsOne(assets: seq<Asset>, item: Summary, o: Origin)
    ensures MergeAssets(assets, [item], o) == AppendAsset(assets, item, o)
  {
    assert [item][..0] == [] && MergeAssets(assets, [], o) == assets;
  }

  lemma SameShownSameProvenance(s: State, t: State)
    requires s.shown == t.shown && s.nav == t.nav
    ensures Provenance(s) <==> Provenance(t)
  {
  }

  ghost predicate HoldsFrom(assets: seq<Asset>, o: Origin) {
    exists i :: 0 <= i < |assets| && assets[i].origin == o
  }

  lemma ForeignItemShows(shown: Shown, o: Origin, cursor: Cursor, item: Summary)
    requires item == Novel(shown.assets)
    ensures HoldsFrom(ShowAppended(shown, o, cursor, AssetPage(Page([item], None))).assets, o)
  {
    var after := AppendAsset(shown.assets, item, o);
    var i := IndexOfAsset(shown.assets, "new");
    assert [item][..0] == [] && MergeAssets(shown.assets, [], o) == shown.assets;
    assert MergeAssets(shown.assets, [item], o) == after;
    assert after[if i < 0 then |shown.assets| else i].origin == o;
  }

  lemma OneForeignAsset(s: State, o: Origin)
    requires o != Here(s.nav)
    requires HoldsFrom(s.shown.assets, o)
    ensures !Provenance(s)
  {
  }

  // Every other callback may be called from any closure, however old.
  lemma OtherCallbacksAreSafe(s: State, seen: Render, command: Command)
    requires Inv(s) && !command.LoadMoreAssets?
    ensures Inv(Perform(s, seen, command))
  {
    hide Provenance, RequestsKnown, Perform;
    var step := Do(seen, command);
    assert Enabled(s, step) && FreshAppend(s, step);
    StepKeepsProvenance(s, step);
    StepKeepsRequests(s, step);
  }
}
