// That loading loads: what is asked for from the render at hand is asked of the
// server, and its answer is shown. Every page can be reached, and a failure leaves
// what was there, with its message.
module CatalogProgress {
  import opened Wrappers
  import opened Ordering
  import opened CatalogModel
  import opened CatalogListing
  import opened Paging
  import opened CatalogList
  import opened CatalogListRuns

  // ---- Asking and being answered ----

  // The command is called from the render at hand, and its request is answered.
  function Ask(s: State, command: Command, answer: Answer): seq<Step> {
    [Do(RenderOf(s), command), Deliver(s.net.nextRequest, answer)]
  }

  // The request that the command makes from the render at hand.
  function Asked(s: State, kind: Kind): Request {
    Request(kind, Origin(s.nav.workspace, s.nav.visit))
  }

  lemma AskRuns(s: State, command: Command, kind: Kind, answer: Answer)
    requires Wanted(s, RenderOf(s), command) == Some(kind) && !kind.NewWorkspace? && !kind.NewAsset?
    requires Current(s.nav, Asked(s, kind)) && Fits(kind, answer)
    ensures Run(s, Ask(s, command, answer)).Some?
    ensures var t := Run(s, Ask(s, command, answer)).value;
            && t.nav == s.nav
            && t.shown == Show(Waiting(s.shown, kind, s.nav.workspace), Asked(s, kind), answer)
            && t.net.requests == s.net.requests - {s.net.nextRequest}
            && t.net.nextRequest == s.net.nextRequest + 1
  {
    hide Waiting, Show, Fits, Current;
    var steps := Ask(s, command, answer);
    var asked := Next(s, steps[0]);
    assert asked == Start(s, kind, s.nav.workspace);
    hide Wanted;
    assert asked.nav == s.nav && asked.shown == Waiting(s.shown, kind, s.nav.workspace);
    assert asked.net.requests == s.net.requests[s.net.nextRequest := Asked(s, kind)];
    var t := Receive(asked, s.net.nextRequest, answer);
    assert asked.net.requests - {s.net.nextRequest} == s.net.requests - {s.net.nextRequest};
    hide Perform;
    AnsweredChanges(asked, s.net.nextRequest, answer);
    TwoSteps(s, steps);
  }

  lemma AnsweredChanges(s: State, id: nat, answer: Answer)
    requires id in s.net.requests && Current(s.nav, s.net.requests[id])
    requires !s.net.requests[id].kind.NewWorkspace? && !s.net.requests[id].kind.NewAsset?
    ensures var t := Receive(s, id, answer);
            && t.nav == s.nav && t.shown == Show(s.shown, s.net.requests[id], answer)
            && t.net.requests == s.net.requests - {id} && t.net.nextRequest == s.net.nextRequest
  {
    hide Show, Current;
  }

  lemma PutTwice<K, V>(m: map<K, V>, k: K, v: V, w: V)
    ensures m[k := v][k := w] == m[k := w]
  {
  }

  // ---- The list ----

  // The list is what k pages give, and nothing is being loaded.
  ghost predicate Lists(lists: CatalogList.Lists, s: State, k: nat) {
    && ListsPages(PagesOf(lists, s.nav), k, s.shown.catalogIds, s.shown.page.next)
    && !s.shown.page.loadingMore
  }

  // A running timer ends in the first page.
  lemma FirstPageLoads(lists: CatalogList.Lists, s: State)
    requires SteadyLists(lists) && s.nav.timer
    ensures var steps := [TimerFires, Deliver(s.net.nextRequest, AssetPage(PagesOf(lists, s.nav)[0]))];
            && Run(s, steps).Some?
            && var t := Run(s, steps).value;
               && t.nav == s.nav.(timer := false) && Lists(lists, t, 1)
               && !t.shown.loading && t.shown.error == "" && t.shown.page.appendError == ""
  {
    var page := PagesOf(lists, s.nav)[0];
    var steps := [TimerFires, Deliver(s.net.nextRequest, AssetPage(page))];
    var asked := Next(s, TimerFires);
    assert SteadyPages(PagesOf(lists, s.nav));
    FirstPageListed(PagesOf(lists, s.nav));
    PageIdsAreIds(page.items);
    hide SteadyLists, SteadyPages, ListsPages, PageIds;
    AnsweredChanges(asked, s.net.nextRequest, AssetPage(page));
    hide ReplaceAssets, Receive;
    TwoSteps(s, steps);
  }

  // Loading more shows one page more, as long as there is one; a server that repeats
  // its cursor is told of.
  lemma NextPageLoads(lists: CatalogList.Lists, s: State, k: nat)
    requires SteadyLists(lists) && s.nav.workspace != "" && Lists(lists, s, k) && k < |PagesOf(lists, s.nav)|
    ensures var pages := PagesOf(lists, s.nav);
            var steps := Ask(s, LoadMoreAssets, AssetPage(pages[k]));
            && Run(s, steps).Some?
            && var t := Run(s, steps).value;
               && t.nav == s.nav && Lists(lists, t, k + 1)
               && t.shown.page.appendError == if pages[k].next == pages[k - 1].next then REPEATED else ""
  {
    var pages := PagesOf(lists, s.nav);
    var kind := AppendAssets(s.nav.fingerprint, FilterOf(s.nav), s.shown.page.next.value);
    assert SteadyPages(pages);
    LastPageStops(pages, k);
    assert Follows(pages, s.shown.page.next.value, pages[k]);
    NextPageListed(pages, k, s.shown.catalogIds, s.shown.page.next.value, pages[k]);
    PageIdsAreIds(pages[k].items);
    assert Wanted(s, RenderOf(s), LoadMoreAssets) == Some(kind);
    hide SteadyLists, SteadyPages, ListsPages, PageIds, Wanted, Run, NewIds;
    AskRuns(s, LoadMoreAssets, kind, AssetPage(pages[k]));
    hide MergeAssets;
  }

  // From any list at hand, all pages can be loaded, one after another.
  lemma {:induction false} AllPagesLoad(lists: CatalogList.Lists, s: State, k: nat) returns (steps: seq<Step>)
    requires SteadyLists(lists) && s.nav.workspace != "" && Lists(lists, s, k)
    ensures |steps| == 2 * (|PagesOf(lists, s.nav)| - k)
    ensures Run(s, steps).Some?
    ensures var t := Run(s, steps).value;
            && t.nav == s.nav && Lists(lists, t, |PagesOf(lists, s.nav)|) && !HasCursor(t.shown.page.next)
    decreases |PagesOf(lists, s.nav)| - k
  {
    var pages := PagesOf(lists, s.nav);
    AllListed(lists, s, k);
    if k == |pages| {
      steps := [];
    } else {
      NextPageLoads(lists, s, k);
      hide Lists, SteadyLists, Ask, Run, PagesOf;
      var first := Ask(s, LoadMoreAssets, AssetPage(pages[k]));
      var t := Run(s, first).value;
      var rest := AllPagesLoad(lists, t, k + 1);
      steps := first + rest;
      RunAppends(s, first, rest);
      AskLength(s, LoadMoreAssets, AssetPage(pages[k]));
    }
  }

  lemma AskLength(s: State, command: Command, answer: Answer)
    ensures |Ask(s, command, answer)| == 2
  {
  }

  // No more than all pages are listed, and then there is nothing to load more with.
  lemma AllListed(lists: CatalogList.Lists, s: State, k: nat)
    requires SteadyLists(lists) && Lists(lists, s, k)
    ensures k <= |PagesOf(lists, s.nav)|
    ensures k == |PagesOf(lists, s.nav)| ==> !HasCursor(s.shown.page.next)
  {
    var pages := PagesOf(lists, s.nav);
    assert SteadyPages(pages);
    LastPageStops(pages, k);
    hide Concat, Firsts;
  }

  lemma {:induction false} RunAppends(s: State, a: seq<Step>, b: seq<Step>)
    requires Run(s, a).Some?
    ensures Run(s, a + b) == Run(Run(s, a).value, b)
    decreases |a|
  {
    if a == [] {
      assert a + b == b;
    } else {
      assert (a + b)[1..] == a[1..] + b;
      RunAppends(Next(s, a[0]), a[1..], b);
    }
  }

  // A failed list or page leaves the list, with its message, and may be tried again.
  lemma FailedListStays(s: State, message: string)
    requires s.nav.timer
    ensures var steps := [TimerFires, Deliver(s.net.nextRequest, Failure(message))];
            && Run(s, steps).Some?
            && Run(s, steps).value.shown == s.shown.(error := message, loading := false)
  {
    var steps := [TimerFires, Deliver(s.net.nextRequest, Failure(message))];
    AnsweredChanges(Next(s, TimerFires), s.net.nextRequest, Failure(message));
    hide Receive;
    TwoSteps(s, steps);
  }

  lemma FailedPageStays(s: State, message: string)
    requires s.nav.workspace != "" && HasCursor(s.shown.page.next) && !s.shown.page.loadingMore
    ensures var steps := Ask(s, LoadMoreAssets, Failure(message));
            && Run(s, steps).Some?
            && Run(s, steps).value.shown == s.shown.(page := s.shown.page.(appendError := message))
  {
    var kind := AppendAssets(s.nav.fingerprint, FilterOf(s.nav), s.shown.page.next.value);
    AskRuns(s, LoadMoreAssets, kind, Failure(message));
    hide Run;
  }

  // ---- Revisions ----

  // Revisions that are not there and not on their way.
  ghost predicate Absent(s: State, asset: Id) {
    asset in s.shown.revisions ==>
      s.shown.revisions[asset].status.Undefined? || s.shown.revisions[asset].status.ListFailed?
  }

  // The entry of the asset is this, and nothing else changed.
  ghost predicate OnlyRevisions(s: State, t: State, asset: Id, entry: RevisionList) {
    t.nav == s.nav && t.shown == s.shown.(revisions := s.shown.revisions[asset := entry])
  }

  lemma RevisionsLoad(s: State, asset: Id, page: Page<Revision>)
    requires s.nav.workspace != "" && Absent(s, asset)
    ensures var steps := Ask(s, EnsureRevisions(asset), RevisionPage(page));
            && Run(s, steps).Some?
            && var t := Run(s, steps).value;
               && asset in t.shown.revisions && OnlyRevisions(s, t, asset, t.shown.revisions[asset])
               && var entry := t.shown.revisions[asset];
                  && entry.status.Ready? && Plain(entry.items) == page.items && entry.next == page.next
                  && !entry.loadingMore && entry.appendError == ""
  {
    var steps := Ask(s, EnsureRevisions(asset), RevisionPage(page));
    AskRuns(s, EnsureRevisions(asset), Revisions(asset), RevisionPage(page));
    hide Run;
    assert Plain(HoldAll(page.items, Origin(s.nav.workspace, s.nav.visit))) == page.items;
    var loading := RevisionList(ListLoading, [], None, false, "");
    PutTwice(s.shown.revisions, asset, loading, Run(s, steps).value.shown.revisions[asset]);
  }

  lemma RevisionsFail(s: State, asset: Id, message: string)
    requires s.nav.workspace != "" && Absent(s, asset)
    ensures var steps := Ask(s, EnsureRevisions(asset), Failure(message));
            && Run(s, steps).Some?
            && OnlyRevisions(s, Run(s, steps).value, asset,
                 RevisionList(ListFailed(message), [], None, false, ""))
            && Absent(Run(s, steps).value, asset)
  {
    var steps := Ask(s, EnsureRevisions(asset), Failure(message));
    AskRuns(s, EnsureRevisions(asset), Revisions(asset), Failure(message));
    hide Run;
    var loading := RevisionList(ListLoading, [], None, false, "");
    PutTwice(s.shown.revisions, asset, loading, Run(s, steps).value.shown.revisions[asset]);
  }

  // With k pages held, loading more holds one more.
  lemma MoreRevisionsLoad(s: State, asset: Id, pages: seq<Page<Revision>>, k: nat)
    requires s.nav.workspace != "" && Chain(pages) && k < |pages| && asset in s.shown.revisions
    requires var entry := s.shown.revisions[asset];
             HoldsPages(RevisionId, pages, k, entry.items, entry.next) && !entry.loadingMore
    ensures var steps := Ask(s, LoadMoreRevisions(asset), RevisionPage(pages[k]));
            && Run(s, steps).Some?
            && var t := Run(s, steps).value;
               && asset in t.shown.revisions && OnlyRevisions(s, t, asset, t.shown.revisions[asset])
               && var entry := t.shown.revisions[asset];
                  && entry.status.Ready? && HoldsPages(RevisionId, pages, k + 1, entry.items, entry.next)
                  && !entry.loadingMore
                  && entry.appendError == if pages[k].next == pages[k - 1].next then REPEATED else ""
  {
    var entry := s.shown.revisions[asset];
    LastPageStops(pages, k);
    var cursor := entry.next.value;
    var kind := MoreRevisions(asset, cursor);
    assert Follows(pages, cursor, pages[k]);
    NextPage(RevisionId, pages, k, entry.items, entry.next, cursor, pages[k], Origin(s.nav.workspace, s.nav.visit));
    assert cursor == pages[k - 1].next.value;
    hide HoldsPages, Chain, Run, Follows;
    var steps := Ask(s, LoadMoreRevisions(asset), RevisionPage(pages[k]));
    AskRuns(s, LoadMoreRevisions(asset), kind, RevisionPage(pages[k]));
    hide Merge;
    var waiting := entry.(loadingMore := true, appendError := "");
    PutTwice(s.shown.revisions, asset, waiting, Run(s, steps).value.shown.revisions[asset]);
  }

  lemma MoreRevisionsFail(s: State, asset: Id, message: string)
    requires s.nav.workspace != "" && asset in s.shown.revisions
    requires HasCursor(s.shown.revisions[asset].next) && !s.shown.revisions[asset].loadingMore
    ensures var steps := Ask(s, LoadMoreRevisions(asset), Failure(message));
            && Run(s, steps).Some?
            && OnlyRevisions(s, Run(s, steps).value, asset, s.shown.revisions[asset].(appendError := message))
  {
    var entry := s.shown.revisions[asset];
    var steps := Ask(s, LoadMoreRevisions(asset), Failure(message));
    AskRuns(s, LoadMoreRevisions(asset), MoreRevisions(asset, entry.next.value), Failure(message));
    hide Run;
    var waiting := entry.(loadingMore := true, appendError := "");
    PutTwice(s.shown.revisions, asset, waiting, Run(s, steps).value.shown.revisions[asset]);
  }

  // When the list was dropped while a page was on its way, a page that arrives is
  // dropped too; a failure leaves an entry with its message and no list, which can be
  // loaded again.
  lemma PageAfterDrop(s: State, id: nat, asset: Id, answer: Answer)
    requires id in s.net.requests && Current(s.nav, s.net.requests[id])
    requires s.net.requests[id].kind.MoreRevisions? && s.net.requests[id].kind.asset == asset
    requires asset !in s.shown.revisions && (answer.RevisionPage? || answer.Failure?)
    ensures var t := Receive(s, id, answer);
            match answer
            case Failure(message) =>
              OnlyRevisions(s, t, asset, RevisionList(Undefined, [], None, false, message)) && Absent(t, asset)
            case _ => t.shown == s.shown && t.nav == s.nav
  {
    AnsweredChanges(s, id, answer);
    hide Receive, Current;
  }

  // ---- Exact revisions ----

  // The exact revision's state is this, and nothing else but the cache changed.
  ghost predicate OnlyExact(s: State, t: State, key: ExactKey, state: ExactState) {
    && t.nav == s.nav
    && t.shown == s.shown.(exactStates := s.shown.exactStates[key := state], exactCache := t.shown.exactCache)
  }

  // A revision that is neither cached nor on its way is fetched and cached, if it is
  // the one that was asked for.
  lemma ExactLoads(s: State, asset: Id, revision: Id, r: Revision)
    requires s.nav.workspace != ""
    requires var key := ExactKey(s.nav.workspace, asset, revision);
             key !in s.shown.exactCache && key !in s.net.exactPending
    ensures var steps := Ask(s, EnsureRevision(asset, revision), OneRevision(r));
            && Run(s, steps).Some?
            && var t, key := Run(s, steps).value, ExactKey(s.nav.workspace, asset, revision);
               if r.assetId == asset && r.id == revision then
                 && key in t.shown.exactCache && t.shown.exactCache[key].item == r
                 && t.shown.exactCache == s.shown.exactCache[key := t.shown.exactCache[key]]
                 && OnlyExact(s, t, key, ExactReady(t.shown.exactCache[key]))
               else
                 && t.shown.exactCache == s.shown.exactCache
                 && OnlyExact(s, t, key, ExactFailed(WRONG_REVISION))
  {
    var steps := Ask(s, EnsureRevision(asset, revision), OneRevision(r));
    AskRuns(s, EnsureRevision(asset, revision), ExactRevision(asset, revision), OneRevision(r));
    hide Run;
    var key := ExactKey(s.nav.workspace, asset, revision);
    PutTwice(s.shown.exactStates, key, ExactLoading, Run(s, steps).value.shown.exactStates[key]);
  }

  lemma ExactFails(s: State, asset: Id, revision: Id, message: string)
    requires s.nav.workspace != ""
    requires var key := ExactKey(s.nav.workspace, asset, revision);
             key !in s.shown.exactCache && key !in s.net.exactPending
    ensures var steps := Ask(s, EnsureRevision(asset, revision), Failure(message));
            && Run(s, steps).Some?
            && var t, key := Run(s, steps).value, ExactKey(s.nav.workspace, asset, revision);
               && t.shown.exactCache == s.shown.exactCache
               && OnlyExact(s, t, key, ExactFailed(message))
  {
    var steps := Ask(s, EnsureRevision(asset, revision), Failure(message));
    AskRuns(s, EnsureRevision(asset, revision), ExactRevision(asset, revision), Failure(message));
    hide Run;
    var key := ExactKey(s.nav.workspace, asset, revision);
    PutTwice(s.shown.exactStates, key, ExactLoading, Run(s, steps).value.shown.exactStates[key]);
  }
}
