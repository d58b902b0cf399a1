// Appends that are not made from the list at hand: two runs from the start that
// lose the server's pages, and exactly which pages keep them.
module CatalogListRuns {
  import opened Wrappers
  import opened Ordering
  import opened CatalogModel
  import opened CatalogAnswers
  import opened CatalogProvenance
  import opened CatalogLate
  import opened CatalogListing
  import opened Paging
  import opened CatalogList

  // ---- Pages that share nothing ----

  // No page is empty, and no asset is on two pages or twice on one.
  ghost predicate PagesApart(pages: seq<Page<Summary>>) {
    && (forall i :: 0 <= i < |pages| ==> pages[i].items != [])
    && KeysOnce(SummaryId, Concat(pages))
  }

  // Where the first n pages end.
  ghost function End(pages: seq<Page<Summary>>, n: nat): nat
    requires n <= |pages|
  {
    |Concat(pages[..n])|
  }

  lemma {:induction false} ConcatPrefix(pages: seq<Page<Summary>>, n: nat)
    requires n <= |pages|
    ensures End(pages, n) <= |Concat(pages)| && Concat(pages[..n]) == Concat(pages)[..End(pages, n)]
  {
    if n == |pages| {
      assert pages[..n] == pages;
    } else {
      var before := pages[..|pages| - 1];
      assert before[..n] == pages[..n];
      ConcatPrefix(before, n);
    }
  }

  // A page's items stand where the pages before it end.
  lemma PagePlace(pages: seq<Page<Summary>>, n: nat)
    requires n < |pages|
    ensures End(pages, n) + |pages[n].items| == End(pages, n + 1) <= |Concat(pages)|
    ensures pages[n].items == Concat(pages)[End(pages, n)..End(pages, n + 1)]
  {
    ConcatPrefix(pages, n);
    ConcatPrefix(pages, n + 1);
    assert pages[..n + 1][..n] == pages[..n];
    assert Concat(pages[..n + 1]) == Concat(pages[..n]) + pages[n].items;
  }

  lemma {:induction false} EndsGrow(pages: seq<Page<Summary>>, m: nat, n: nat)
    requires PagesApart(pages) && m < n <= |pages|
    ensures End(pages, m) < End(pages, n)
  {
    PagePlace(pages, n - 1);
    if m < n - 1 { EndsGrow(pages, m, n - 1); }
  }

  // The ids listed after the first n pages are the first of all ids.
  lemma PrefixIds(pages: seq<Page<Summary>>, n: nat)
    requires PagesApart(pages) && n <= |pages|
    ensures End(pages, n) <= |Concat(pages)|
    ensures Ids(Firsts(SummaryId, Concat(pages[..n]))) == Ids(Concat(pages))[..End(pages, n)]
  {
    ConcatPrefix(pages, n);
    FirstsOfOnce(SummaryId, Concat(pages[..n]));
  }

  lemma IdsApart(pages: seq<Page<Summary>>, i: nat, j: nat)
    requires PagesApart(pages) && i < j < |Concat(pages)|
    ensures Ids(Concat(pages))[i] != Ids(Concat(pages))[j]
  {
    assert SummaryId(Concat(pages)[i]) != SummaryId(Concat(pages)[j]);
  }

  lemma {:induction false} NewIdsNone(current: seq<Id>, ids: seq<Id>)
    requires forall i :: 0 <= i < |ids| ==> ids[i] in current
    ensures NewIds(current, ids) == []
  {
    if ids != [] { NewIdsNone(current, ids[1..]); }
  }

  lemma {:induction false} NewIdsAll(current: seq<Id>, ids: seq<Id>)
    requires forall i :: 0 <= i < |ids| ==> ids[i] !in current
    ensures NewIds(current, ids) == ids
  {
    if ids != [] { NewIdsAll(current, ids[1..]); }
  }

  lemma CursorsApart(pages: seq<Page<Summary>>, a: nat, b: nat)
    requires Chain(pages) && 1 <= a <= |pages| && 1 <= b <= |pages|
    ensures CursorAfter(pages, a) == CursorAfter(pages, b) <==> a == b
  {
  }

  lemma NextIsAfter(pages: seq<Page<Summary>>, j: nat)
    requires Chain(pages) && j + 1 < |pages| && pages[j].next.Some?
    ensures NextCursor(pages[j].next.value, pages[j + 1].next) == CursorAfter(pages, j + 2)
  {
  }

  // ---- Which page keeps the list ----

  // A page that is listed already: nothing is added, and the cursor is that page's.
  lemma ListedAlready(pages: seq<Page<Summary>>, k: nat, j: nat, ids: seq<Id>, next: Option<Cursor>)
    requires SteadyPages(pages) && PagesApart(pages) && ListsPages(pages, k, ids, next) && j + 2 <= k
    requires pages[j].next.Some?
    ensures var now := ids + NewIds(ids, Ids(pages[j + 1].items));
            ListsSome(pages, now, NextCursor(pages[j].next.value, pages[j + 1].next)) <==> j + 2 == k
  {
    ListedAddsNothing(pages, k, j);
    hide SteadyPages, PagesApart, Ids, Concat, Firsts, CursorAfter, NewIds, ListsSome, NextCursor;
    assert ids + [] == ids;
    assert Chain(pages) by { ChainOfSteady(pages); }
    NextIsAfter(pages, j);
    OnlyItsOwnLength(pages, k, ids, CursorAfter(pages, j + 2));
    CursorsApart(pages, j + 2, k);
  }

  lemma ChainOfSteady(pages: seq<Page<Summary>>)
    requires SteadyPages(pages)
    ensures Chain(pages)
  {
  }

  lemma ListedAddsNothing(pages: seq<Page<Summary>>, k: nat, j: nat)
    requires PagesApart(pages) && j + 2 <= k <= |pages|
    ensures NewIds(Ids(Firsts(SummaryId, Concat(pages[..k]))), Ids(pages[j + 1].items)) == []
  {
    ListedThere(pages, k, j);
    var ids, more := Ids(Firsts(SummaryId, Concat(pages[..k]))), Ids(pages[j + 1].items);
    hide *;
    NewIdsNone(ids, more);
  }

  lemma ListedThere(pages: seq<Page<Summary>>, k: nat, j: nat)
    requires PagesApart(pages) && j + 2 <= k <= |pages|
    ensures var ids, more := Ids(Firsts(SummaryId, Concat(pages[..k]))), Ids(pages[j + 1].items);
            forall i :: 0 <= i < |more| ==> more[i] in ids
  {
    ListedPlaces(pages, k, j);
    SliceIn(Ids(Concat(pages)), End(pages, k), End(pages, j + 1), Ids(pages[j + 1].items));
    hide End, Ids, Concat, Firsts, PagesApart;
  }

  lemma SliceIn(all: seq<Id>, end: nat, place: nat, more: seq<Id>)
    requires place + |more| <= end <= |all|
    requires forall i :: 0 <= i < |more| ==> more[i] == all[place + i]
    ensures forall i :: 0 <= i < |more| ==> more[i] in all[..end]
  {
    forall i | 0 <= i < |more|
      ensures more[i] in all[..end]
    {
      assert more[i] == all[..end][place + i];
    }
  }

  lemma ListedPlaces(pages: seq<Page<Summary>>, k: nat, j: nat)
    requires PagesApart(pages) && j + 2 <= k <= |pages|
    ensures var all, more, end, place :=
              Ids(Concat(pages)), Ids(pages[j + 1].items), End(pages, k), End(pages, j + 1);
            && place + |more| <= end <= |all|
            && Ids(Firsts(SummaryId, Concat(pages[..k]))) == all[..end]
            && forall i :: 0 <= i < |more| ==> more[i] == all[place + i]
  {
    hide Concat, Firsts, PagesApart, End;
    PrefixIds(pages, k);
    PagePlace(pages, j + 1);
    if j + 2 < k { EndsGrow(pages, j + 2, k); }
  }

  // The ids of k pages are those of no other number of pages.
  lemma OnlyItsOwnLength(pages: seq<Page<Summary>>, k: nat, ids: seq<Id>, next: Option<Cursor>)
    requires PagesApart(pages) && 1 <= k <= |pages| && ids == Ids(Firsts(SummaryId, Concat(pages[..k])))
    ensures ListsSome(pages, ids, next) <==> next == CursorAfter(pages, k)
  {
    PrefixIds(pages, k);
    EndsGrow(pages, 0, k);
    if next == CursorAfter(pages, k) { assert ListsPages(pages, k, ids, next); }
    forall n: nat | ListsPages(pages, n, ids, next)
      ensures n == k
    {
      PrefixIds(pages, n);
      if n < k { EndsGrow(pages, n, k); }
      if k < n { EndsGrow(pages, k, n); }
    }
  }

  // A page further on: what is between is missing.
  lemma PageSkipped(
    pages: seq<Page<Summary>>, k: nat, j: nat, ids: seq<Id>, next: Option<Cursor>, after: Option<Cursor>)
    requires SteadyPages(pages) && PagesApart(pages) && ListsPages(pages, k, ids, next) && k < j + 1 < |pages|
    ensures !ListsSome(pages, ids + NewIds(ids, Ids(pages[j + 1].items)), after)
  {
    var all, more, end, place := Ids(Concat(pages)), Ids(pages[j + 1].items), End(pages, k), End(pages, j + 1);
    SkippedPlaces(pages, k, j);
    assert ids == all[..end];
    hide SteadyPages, PagesApart, Ids, Concat, Firsts, CursorAfter, End;
    LaterIdsAreNew(pages, ids, end, more, place);
    NewIdsAll(ids, more);
    var now := ids + more;
    assert now[end] == all[place];
    IdsApart(pages, end, place);
    forall n: nat | ListsPages(pages, n, now, after)
      ensures false
    {
      NoPrefix(pages, n, now, end, place);
    }
  }

  lemma SkippedPlaces(pages: seq<Page<Summary>>, k: nat, j: nat)
    requires PagesApart(pages) && k < j + 1 < |pages|
    ensures var all, more, end, place :=
              Ids(Concat(pages)), Ids(pages[j + 1].items), End(pages, k), End(pages, j + 1);
            && end < place < place + |more| <= |Concat(pages)|
            && Ids(Firsts(SummaryId, Concat(pages[..k]))) == all[..end]
            && forall i :: 0 <= i < |more| ==> more[i] == all[place + i]
  {
    PrefixIds(pages, k);
    PagePlace(pages, j + 1);
    EndsGrow(pages, k, j + 1);
    hide Concat, Firsts, KeysOnce;
  }

  lemma LaterIdsAreNew(pages: seq<Page<Summary>>, ids: seq<Id>, end: nat, more: seq<Id>, place: nat)
    requires PagesApart(pages) && end <= place && place + |more| <= |Concat(pages)|
    requires ids == Ids(Concat(pages))[..end]
    requires forall i :: 0 <= i < |more| ==> more[i] == Ids(Concat(pages))[place + i]
    ensures forall i :: 0 <= i < |more| ==> more[i] !in ids
  {
    forall i | 0 <= i < |more|
      ensures more[i] !in ids
    {
      forall m | 0 <= m < |ids| ensures ids[m] != more[i] { IdsApart(pages, m, place + i); }
    }
  }

  lemma NoPrefix(pages: seq<Page<Summary>>, n: nat, now: seq<Id>, end: nat, place: nat)
    requires PagesApart(pages) && n <= |pages| && end < |now| && end < place < |Concat(pages)|
    requires now[end] == Ids(Concat(pages))[place] != Ids(Concat(pages))[end]
    ensures now != Ids(Firsts(SummaryId, Concat(pages[..n])))
  {
    PrefixIds(pages, n);
    hide PagesApart, Ids, Concat, Firsts;
  }

  // With k pages listed, an accepted page keeps the list if and only if it is the
  // next one, or the last one listed once more.
  lemma PageKeepsListIff(lists: Lists, s: State, id: nat, k: nat, j: nat)
    requires SteadyLists(lists) && id in s.net.requests && s.net.requests[id].kind.AppendAssets?
    requires Current(s.nav, s.net.requests[id]) && AsksForCurrent(s.nav, s.net.requests[id])
    requires PagesApart(PagesOf(lists, s.nav))
    requires ListsPages(PagesOf(lists, s.nav), k, s.shown.catalogIds, s.shown.page.next)
    requires j + 1 < |PagesOf(lists, s.nav)|
             && PagesOf(lists, s.nav)[j].next == Some(s.net.requests[id].kind.cursor)
    ensures var pages := PagesOf(lists, s.nav);
            var t := Receive(s, id, AssetPage(pages[j + 1]));
            ListsSome(pages, t.shown.catalogIds, t.shown.page.next) <==> j + 1 == k || j + 2 == k
  {
    var pages, cursor := PagesOf(lists, s.nav), s.net.requests[id].kind.cursor;
    var t := Receive(s, id, AssetPage(pages[j + 1]));
    PageArrives(s, id, pages[j + 1]);
    PageIdsAreIds(pages[j + 1].items);
    assert SteadyPages(pages);
    hide Receive, Current, AsksForCurrent, SteadyLists, SteadyPages, PagesApart, PageIds, NewIds, NextCursor;
    if j + 1 == k {
      assert Follows(pages, cursor, pages[j + 1]);
      FollowsHand(pages, k, j);
      NextPageListed(pages, k, s.shown.catalogIds, cursor, pages[j + 1]);
    } else if j + 2 <= k {
      hide ListsSome;
      ListedAlready(pages, k, j, s.shown.catalogIds, s.shown.page.next);
    } else {
      hide ListsSome;
      PageSkipped(pages, k, j, s.shown.catalogIds, s.shown.page.next, t.shown.page.next);
    }
  }

  lemma FollowsHand(pages: seq<Page<Summary>>, k: nat, j: nat)
    requires SteadyPages(pages) && j + 1 == k < |pages|
    ensures CursorAfter(pages, k) == pages[j].next
  {
  }

  // ---- The two steps of an append ----

  lemma LoadMoreAsks(s: State, seen: Render)
    requires seen.workspace != "" && HasCursor(seen.page.next) && !seen.page.loadingMore
    ensures var t := Next(s, Do(seen, LoadMoreAssets));
            && t.nav == s.nav && t.shown.catalogIds == s.shown.catalogIds && t.shown.assets == s.shown.assets
            && t.shown.page == s.shown.page.(loadingMore := true, appendError := "")
            && t.net == s.net.(
                 requests := s.net.requests[s.net.nextRequest := Request(
                   AppendAssets(s.nav.fingerprint, SeenFilter(seen), seen.page.next.value),
                   Origin(seen.workspace, s.nav.visit))],
                 nextRequest := s.net.nextRequest + 1)
  {
  }

  lemma PageArrives(s: State, id: nat, page: Page<Summary>)
    requires id in s.net.requests && s.net.requests[id].kind.AppendAssets? && Current(s.nav, s.net.requests[id])
    ensures var t, cursor := Receive(s, id, AssetPage(page)), s.net.requests[id].kind.cursor;
            && t.nav == s.nav && t.net == s.net.(requests := s.net.requests - {id})
            && t.shown.catalogIds == s.shown.catalogIds + NewIds(s.shown.catalogIds, PageIds(page.items))
            && t.shown.page == PageState(NextCursor(cursor, page.next), false, AppendMessage(cursor, page.next))
  {
    hide MergeAssets, PageIds, NewIds, NextCursor, AppendMessage, SameExact;
  }

  lemma TwoSteps(s: State, steps: seq<Step>)
    requires |steps| == 2 && Enabled(s, steps[0]) && Enabled(Next(s, steps[0]), steps[1])
    ensures Run(s, steps) == Some(Next(Next(s, steps[0]), steps[1]))
  {
    hide Next, Enabled;
    var t := Next(s, steps[0]);
    assert steps[1..] == [steps[1]] && [steps[1]][1..] == [];
    assert Run(t, [steps[1]]) == Some(Next(t, steps[1]));
  }

  // ---- Two runs ----

  const PAGES: seq<Page<Summary>> := [
    Page([Summary("a", "1")], Some("c")), Page([Summary("b", "1")], Some("d")), Page([Summary("e", "1")], None)]

  // The second page is asked for twice from one render, and answered once.
  function AskTwice(seen: Render): seq<Step> {
    [Do(seen, LoadMoreAssets), Do(seen, LoadMoreAssets), Deliver(1, AssetPage(PAGES[1]))]
  }

  // The third page is loaded, and then the second one's other answer arrives.
  function LateAnswer(seen: Render): seq<Step> {
    [Do(seen, LoadMoreAssets), Deliver(3, AssetPage(PAGES[2])), Deliver(2, AssetPage(PAGES[1]))]
  }

  const APPEND := Request(AppendAssets(FIRST_NAV.fingerprint, Filter("", ""), "c"), HERE)

  lemma NamesDiffer()
    ensures "a" != "b" && "a" != "e" && "b" != "e" && "c" != "d" && |"c"| == 1 && |"d"| == 1
  {
    assert "a"[0] != "b"[0] && "a"[0] != "e"[0] && "b"[0] != "e"[0] && "c"[0] != "d"[0];
  }

  lemma NewIdsOfOne(current: seq<Id>, id: Id)
    ensures NewIds(current, [id]) == if id in current then [] else [id]
  {
    assert NewIds(current, []) == [] && [id][1..] == [];
  }

  lemma OnePage(i: nat)
    requires i < 3
    ensures PageIds(PAGES[i].items) == [PAGES[i].items[0].id]
  {
  }

  lemma AllSummaries()
    ensures Concat(PAGES) == [Summary("a", "1"), Summary("b", "1"), Summary("e", "1")]
  {
    assert PAGES[..2] == [PAGES[0], PAGES[1]];
    assert [PAGES[0], PAGES[1]][..1] == [PAGES[0]] && [PAGES[0]][..0] == [];
    assert Concat([PAGES[0]]) == Concat<Summary>([]) + PAGES[0].items == PAGES[0].items;
    assert Concat(PAGES[..2]) == PAGES[0].items + PAGES[1].items;
  }

  lemma PagesAreSteady()
    ensures SteadyPages(PAGES) && PagesApart(PAGES)
  {
    NamesDiffer();
    AllSummaries();
    hide Concat;
  }

  // The list holds two pages; the second append of the first two is still under way.
  ghost predicate TwoPagesListed(t: State) {
    && t.nav == FIRST_NAV && t.shown.catalogIds == ["a", "b"] && t.shown.page == PageState(Some("d"), false, "")
    && t.net == Net(map[], map[], map[2 := APPEND], 3)
  }

  lemma AskedTwice()
    ensures Run(FIRST_STATE, AskTwice(RenderOf(FIRST_STATE))).Some?
    ensures TwoPagesListed(Run(FIRST_STATE, AskTwice(RenderOf(FIRST_STATE))).value)
  {
    NamesDiffer();
    var seen := RenderOf(FIRST_STATE);
    var steps := AskTwice(seen);
    LoadMoreAsks(FIRST_STATE, seen);
    var one := Next(FIRST_STATE, steps[0]);
    LoadMoreAsks(one, seen);
    var two := Next(one, steps[1]);
    assert two.net.requests == map[1 := APPEND, 2 := APPEND];
    PageArrives(two, 1, PAGES[1]);
    OnePage(1);
    NewIdsOfOne(["a"], "b");
    assert two.net.requests - {1} == map[2 := APPEND];
    hide Perform, Receive, PageIds, NewIds;
    ThreeSteps(FIRST_STATE, steps);
  }

  lemma AnsweredLate(s: State)
    requires TwoPagesListed(s)
    ensures var t := Run(s, LateAnswer(RenderOf(s)));
            && t.Some? && t.value.nav == s.nav
            && t.value.shown.catalogIds == ["a", "b", "e"] && t.value.shown.page.next == Some("d")
            && t.value.net.requests == map[]
  {
    NamesDiffer();
    var steps := LateAnswer(RenderOf(s));
    LoadMoreAsks(s, RenderOf(s));
    var one := Next(s, steps[0]);
    hide Perform;
    ThirdPage(one);
    var two := Next(one, steps[1]);
    hide Receive;
    SecondPageAgain(two);
    hide PageIds, NewIds;
    ThreeSteps(s, steps);
  }

  ghost predicate ThirdAsked(s: State) {
    && s.nav == FIRST_NAV && s.shown.catalogIds == ["a", "b"] && s.shown.page == PageState(Some("d"), true, "")
    && s.net.requests == map[2 := APPEND, 3 := Request(AppendAssets(FIRST_NAV.fingerprint, Filter("", ""), "d"), HERE)]
  }

  ghost predicate ThirdListed(s: State) {
    && s.nav == FIRST_NAV && s.shown.catalogIds == ["a", "b", "e"] && s.net.requests == map[2 := APPEND]
  }

  lemma ThirdPage(s: State)
    requires ThirdAsked(s)
    ensures Enabled(s, Deliver(3, AssetPage(PAGES[2]))) && ThirdListed(Next(s, Deliver(3, AssetPage(PAGES[2]))))
  {
    NamesDiffer();
    PageArrives(s, 3, PAGES[2]);
    OnePage(2);
    NewIdsOfOne(["a", "b"], "e");
    hide Receive, PageIds, NewIds;
    assert s.net.requests - {3} == map[2 := APPEND];
  }

  lemma SecondPageAgain(s: State)
    requires ThirdListed(s)
    ensures Enabled(s, Deliver(2, AssetPage(PAGES[1])))
    ensures var t := Next(s, Deliver(2, AssetPage(PAGES[1])));
            && t.nav == s.nav && t.shown.catalogIds == ["a", "b", "e"] && t.shown.page.next == Some("d")
            && t.net.requests == map[]
  {
    NamesDiffer();
    PageArrives(s, 2, PAGES[1]);
    OnePage(1);
    NewIdsOfOne(["a", "b", "e"], "b");
    hide Receive, PageIds, NewIds;
    assert s.net.requests - {2} == map[];
  }

  // From the start: an append made twice from one render sets the cursor back when
  // its second answer is late. All three pages are listed, and there is more to load.
  lemma LateAppendTurnsBack()
    ensures var s := Run(INITIAL, FirstList());
            && s.Some?
            && var t := Run(s.value, AskTwice(RenderOf(s.value)));
               && t.Some?
               && var u := Run(t.value, LateAnswer(RenderOf(t.value)));
                  && u.Some?
                  && u.value.shown.catalogIds == Ids(Concat(PAGES)) && u.value.shown.page.next == PAGES[1].next
                  && !ListsSome(PAGES, u.value.shown.catalogIds, u.value.shown.page.next)
    ensures SteadyPages(PAGES)
  {
    FirstListRuns();
    AskedTwice();
    var t := Run(FIRST_STATE, AskTwice(RenderOf(FIRST_STATE))).value;
    AnsweredLate(t);
    PagesAreSteady();
    hide Run, TwoPagesListed, PagesApart;
    assert PAGES[..3] == PAGES;
    PrefixIds(PAGES, 3);
    AllIds();
    OnlyItsOwnLength(PAGES, 3, ["a", "b", "e"], Some("d"));
  }

  lemma AllIds()
    ensures Ids(Concat(PAGES)) == ["a", "b", "e"] && End(PAGES, 3) == 3
  {
    AllSummaries();
    assert PAGES[..3] == PAGES;
    hide Concat;
  }

  // The list is refreshed, and more is loaded before the list is there.
  function RefreshAndAsk(seen: Render): seq<Step> {
    [Do(seen, Refresh), Do(seen, LoadMoreAssets), TimerFires]
  }

  function ListThenPage(): seq<Step> {
    [Deliver(4, AssetPage(PAGES[0])), Deliver(3, AssetPage(PAGES[2]))]
  }

  // From the start: an append made between a refresh and its answer is accepted
  // after it, and skips the page between. Nothing is left to load.
  lemma EarlyAppendSkips()
    ensures var s := Run(INITIAL, FirstList());
            && s.Some?
            && var t := Run(s.value, AskTwice(RenderOf(s.value)));
               && t.Some?
               && var u := Run(t.value, RefreshAndAsk(RenderOf(t.value)));
                  && u.Some?
                  && var v := Run(u.value, ListThenPage());
                     && v.Some?
                     && v.value.shown.catalogIds == ["a", "e"] && v.value.shown.page.next == None
                     && !ListsSome(PAGES, v.value.shown.catalogIds, v.value.shown.page.next)
    ensures SteadyPages(PAGES)
  {
    FirstListRuns();
    AskedTwice();
    var t := Run(FIRST_STATE, AskTwice(RenderOf(FIRST_STATE))).value;
    PagesAreSteady();
    hide Run, TwoPagesListed, PagesApart, SteadyPages;
    RefreshedAndAsked(t);
    var u := Run(t, RefreshAndAsk(RenderOf(t))).value;
    hide Asked;
    PageSkippedAfter(u);
    SkippedIsNoPrefix();
  }

  lemma SkippedIsNoPrefix()
    ensures !ListsSome(PAGES, ["a", "e"], None)
  {
    NamesDiffer();
    PagesAreSteady();
    AllSummaries();
    AllIds();
    hide SteadyPages, PagesApart, Concat, Firsts;
    forall n: nat | ListsPages(PAGES, n, ["a", "e"], None)
      ensures false
    {
      NoPrefix(PAGES, n, ["a", "e"], 1, 2);
    }
  }

  const LATER := Fingerprint("w1", "", "", 2)

  ghost predicate Asked(u: State) {
    && u.nav == FIRST_NAV.(fingerprint := LATER, effect := 2)
    && u.net.requests == map[
         2 := APPEND,
         3 := Request(AppendAssets(LATER, Filter("", ""), "d"), HERE),
         4 := Request(ListAssets(LATER, 2, Filter("", "")), HERE)]
  }

  lemma RefreshedAndAsked(s: State)
    requires TwoPagesListed(s)
    ensures Run(s, RefreshAndAsk(RenderOf(s))).Some? && Asked(Run(s, RefreshAndAsk(RenderOf(s))).value)
  {
    NamesDiffer();
    var seen := RenderOf(s);
    var steps := RefreshAndAsk(seen);
    var one := Next(s, steps[0]);
    assert one == s.(nav := FIRST_NAV.(fingerprint := LATER, effect := 2, timer := true));
    LoadMoreAsks(one, seen);
    var two := Next(one, steps[1]);
    hide Perform;
    ThreeSteps(s, steps);
  }

  lemma PageSkippedAfter(u: State)
    requires Asked(u)
    ensures var v := Run(u, ListThenPage());
            v.Some? && v.value.shown.catalogIds == ["a", "e"] && v.value.shown.page.next == None
  {
    NamesDiffer();
    var steps := ListThenPage();
    var one := Next(u, steps[0]);
    ListArrives(u, 4, PAGES[0]);
    OnePage(0);
    OnePage(2);
    assert one.net.requests == map[2 := APPEND, 3 := u.net.requests[3]];
    PageArrives(one, 3, PAGES[2]);
    NewIdsOfOne(["a"], "e");
    hide Receive, PageIds, NewIds;
    TwoSteps(u, steps);
  }

  lemma ListArrives(s: State, id: nat, page: Page<Summary>)
    requires id in s.net.requests && s.net.requests[id].kind.ListAssets? && Current(s.nav, s.net.requests[id])
    ensures var t := Receive(s, id, AssetPage(page));
            && t.nav == s.nav && t.net == s.net.(requests := s.net.requests - {id})
            && t.shown.catalogIds == PageIds(page.items) && t.shown.page == PageState(page.next, false, "")
  {
    hide ReplaceAssets, PageIds, SameExact;
  }
}
