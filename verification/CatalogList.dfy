// The asset list refines the server's pages: the ids listed are those of the first
// pages in order, each once, and the cursor held is the one after them.
module CatalogList {
  import opened Wrappers
  import opened Ordering
  import opened CatalogModel
  import opened CatalogAnswers
  import opened CatalogProvenance
  import opened CatalogListing
  import opened Paging

  // The server's pages of a workspace under a filter, which stay the same while the
  // run lasts.
  type Lists = (string, Filter) -> seq<Page<Summary>>

  function SummaryId(item: Summary): Id { item.id }

  // No page names an asset twice.
  ghost predicate SteadyPages(pages: seq<Page<Summary>>) {
    Chain(pages) && forall i :: 0 <= i < |pages| ==> KeysOnce(SummaryId, pages[i].items)
  }

  ghost predicate SteadyLists(lists: Lists) {
    forall w, f :: SteadyPages(lists(w, f))
  }

  ghost function Ids(items: seq<Summary>): (r: seq<Id>)
    ensures |r| == |items| && forall i :: 0 <= i < |r| ==> r[i] == items[i].id
  {
    seq(|items|, i requires 0 <= i < |items| => items[i].id)
  }

  // The list shows the first k pages.
  ghost predicate ListsPages(pages: seq<Page<Summary>>, k: nat, ids: seq<Id>, next: Option<Cursor>) {
    1 <= k <= |pages| && ids == Ids(Firsts(SummaryId, Concat(pages[..k]))) && next == CursorAfter(pages, k)
  }

  ghost predicate ListsSome(pages: seq<Page<Summary>>, ids: seq<Id>, next: Option<Cursor>) {
    (ids == [] && next.None?) || exists k: nat :: ListsPages(pages, k, ids, next)
  }

  ghost function PagesOf(lists: Lists, nav: Nav): seq<Page<Summary>> {
    lists(nav.workspace, FilterOf(nav))
  }

  ghost predicate ListHolds(lists: Lists, nav: Nav, shown: Shown) {
    ListsSome(PagesOf(lists, nav), shown.catalogIds, shown.page.next)
  }

  // The answer is the one that the server gives to the request.
  ghost predicate ServesPage(lists: Lists, r: Request, answer: Answer) {
    answer.AssetPage? ==>
      && (r.kind.ListAssets? ==> answer.page == First(lists(r.origin.workspace, r.kind.filter)))
      && (r.kind.AppendAssets? ==>
            Follows(lists(r.origin.workspace, r.kind.filter), r.kind.cursor, answer.page))
  }

  ghost function First(pages: seq<Page<Summary>>): Page<Summary> {
    if pages == [] then Page([], None) else pages[0]
  }

  // ---- One page ----

  lemma {:induction false} NewIdsMore(current: seq<Id>, ids: seq<Id>, id: Id)
    ensures NewIds(current, ids + [id]) == NewIds(current, ids) + (if id in current then [] else [id])
  {
    if ids == [] {
      assert [] + [id] == [id] && [id][1..] == [];
    } else {
      NewIdsMore(current, ids[1..], id);
      assert (ids + [id])[1..] == ids[1..] + [id];
    }
  }

  lemma HasKeyIsListed(items: seq<Summary>, id: Id)
    ensures HasKey(SummaryId, items, id) <==> id in Ids(items)
  {
    if HasKey(SummaryId, items, id) {
      var i :| 0 <= i < |items| && SummaryId(items[i]) == id;
      assert Ids(items)[i] == id;
    }
    if id in Ids(items) {
      var i :| 0 <= i < |items| && Ids(items)[i] == id;
      assert SummaryId(items[i]) == id;
    }
  }

  // Appending a page's new ids is reading on and leaving out what was read before.
  lemma {:induction false} NewIdsReadOn(read: seq<Summary>, items: seq<Summary>)
    requires KeysOnce(SummaryId, items)
    ensures var ids := Ids(Firsts(SummaryId, read));
            ids + NewIds(ids, Ids(items)) == Ids(Firsts(SummaryId, read + items))
    decreases |items|
  {
    var ids := Ids(Firsts(SummaryId, read));
    if items == [] {
      assert read + items == read && Ids(items) == [];
    } else {
      var n := |items| - 1;
      var before, last := items[..n], items[n];
      assert items == before + [last];
      NewIdsReadOn(read, before);
      ReadOneMore(read, before, last);
    }
  }

  lemma ReadOneMore(read: seq<Summary>, before: seq<Summary>, last: Summary)
    requires KeysOnce(SummaryId, before + [last])
    requires var ids := Ids(Firsts(SummaryId, read));
             ids + NewIds(ids, Ids(before)) == Ids(Firsts(SummaryId, read + before))
    ensures var ids := Ids(Firsts(SummaryId, read));
            ids + NewIds(ids, Ids(before + [last])) == Ids(Firsts(SummaryId, read + (before + [last])))
  {
    hide Firsts, KeysOnce, NewIds, Ids;
    var ids := Ids(Firsts(SummaryId, read));
    var more, end := NewIds(ids, Ids(before)), if last.id in ids then [] else [last.id];
    IdsMore(before, last);
    NewIdsMore(ids, Ids(before), last.id);
    FirstsMore(read, before, last);
    assert ids + (more + end) == (ids + more) + end;
    assert read + (before + [last]) == read + before + [last];
  }

  lemma IdsMore(before: seq<Summary>, last: Summary)
    ensures Ids(before + [last]) == Ids(before) + [last.id]
  {
  }

  lemma FirstsMore(read: seq<Summary>, before: seq<Summary>, last: Summary)
    requires KeysOnce(SummaryId, before + [last])
    ensures Ids(Firsts(SummaryId, read + before + [last]))
         == Ids(Firsts(SummaryId, read + before)) + (if last.id in Ids(Firsts(SummaryId, read)) then [] else [last.id])
  {
    var all := read + before;
    LastIsNew(read, before, last);
    assert (all + [last])[..|all|] == all;
    assert SummaryId(last) == last.id;
  }

  lemma LastIsNew(read: seq<Summary>, before: seq<Summary>, last: Summary)
    requires KeysOnce(SummaryId, before + [last])
    ensures var all := read + before;
            (exists j :: 0 <= j < |all| && SummaryId(all[j]) == SummaryId(last))
            <==> last.id in Ids(Firsts(SummaryId, read))
  {
    var all := read + before;
    FirstsHasKeys(SummaryId, read);
    HasKeyIsListed(Firsts(SummaryId, read), last.id);
    forall i | 0 <= i < |before|
      ensures SummaryId(before[i]) != last.id
    {
      assert (before + [last])[i] == before[i] && (before + [last])[|before|] == last;
    }
    if HasKey(SummaryId, read, last.id) {
      var j :| 0 <= j < |read| && SummaryId(read[j]) == last.id;
      assert SummaryId(all[j]) == last.id;
    }
    assert forall j :: |read| <= j < |all| ==> all[j] == before[j - |read|];
    if j :| 0 <= j < |all| && SummaryId(all[j]) == SummaryId(last) {
      assert read[j] == all[j];
    }
  }

  lemma FirstPageListed(pages: seq<Page<Summary>>)
    requires SteadyPages(pages)
    ensures ListsPages(pages, 1, Ids(pages[0].items), pages[0].next)
  {
    var first := pages[0].items;
    FirstConcat(pages);
    FirstsOfOnce(SummaryId, first);
    hide Concat, Firsts, Ids, KeysOnce;
  }

  lemma FirstConcat(pages: seq<Page<Summary>>)
    requires pages != []
    ensures Concat(pages[..1]) == pages[0].items
  {
    assert pages[..1] == [pages[0]] && pages[..1][..0] == [];
    assert Concat(pages[..1]) == Concat<Summary>([]) + pages[0].items;
  }

  lemma NextPageListed(pages: seq<Page<Summary>>, k: nat, ids: seq<Id>, cursor: Cursor, page: Page<Summary>)
    requires SteadyPages(pages) && ListsPages(pages, k, ids, Some(cursor)) && Follows(pages, cursor, page)
    ensures k < |pages|
    ensures ListsPages(pages, k + 1, ids + NewIds(ids, Ids(page.items)), NextCursor(cursor, page.next))
  {
    var i :| 0 <= i < |pages| - 1 && pages[i].next == Some(cursor) && page == pages[i + 1];
    CursorTellsPosition(pages, k, i);
    assert pages[..k + 1][..k] == pages[..k];
    assert Concat(pages[..k + 1]) == Concat(pages[..k]) + page.items;
    NewIdsReadOn(Concat(pages[..k]), page.items);
  }

  lemma PageIdsAreIds(items: seq<Summary>)
    ensures PageIds(items) == Ids(items)
  {
  }

  // ---- One answer ----

  // A list answer shows the first page.
  lemma ListShowsFirst(lists: Lists, s: State, id: nat, page: Page<Summary>)
    requires SteadyLists(lists) && id in s.net.requests && s.net.requests[id].kind.ListAssets?
    requires Current(s.nav, s.net.requests[id]) && AsksForCurrent(s.nav, s.net.requests[id])
    requires ServesPage(lists, s.net.requests[id], AssetPage(page))
    ensures var t := Receive(s, id, AssetPage(page));
            t.nav == s.nav && ListsPages(PagesOf(lists, s.nav), 1, t.shown.catalogIds, t.shown.page.next)
  {
    hide ReplaceAssets, SameExact;
    assert SteadyPages(PagesOf(lists, s.nav));
    FirstPageListed(PagesOf(lists, s.nav));
    PageIdsAreIds(page.items);
    hide ListsPages, SteadyLists, PageIds;
  }

  // An accepted page for the cursor at hand shows exactly one page more.
  lemma AppendShowsNext(lists: Lists, s: State, id: nat, page: Page<Summary>, k: nat)
    requires SteadyLists(lists) && id in s.net.requests && s.net.requests[id].kind.AppendAssets?
    requires Current(s.nav, s.net.requests[id]) && AsksForCurrent(s.nav, s.net.requests[id])
    requires ServesPage(lists, s.net.requests[id], AssetPage(page))
    requires s.shown.page.next == Some(s.net.requests[id].kind.cursor)
    requires ListsPages(PagesOf(lists, s.nav), k, s.shown.catalogIds, s.shown.page.next)
    ensures var t := Receive(s, id, AssetPage(page));
            && t.nav == s.nav
            && k < |PagesOf(lists, s.nav)|
            && ListsPages(PagesOf(lists, s.nav), k + 1, t.shown.catalogIds, t.shown.page.next)
            && !t.shown.page.loadingMore
  {
    hide MergeAssets, SameExact;
    assert SteadyPages(PagesOf(lists, s.nav));
    NextPageListed(PagesOf(lists, s.nav), k, s.shown.catalogIds, s.net.requests[id].kind.cursor, page);
    PageIdsAreIds(page.items);
    hide ListsPages, SteadyLists, PageIds, NewIds, Follows, NextCursor;
  }

  // ---- Appends in flight ----

  // The list of the moment has been answered.
  ghost predicate Settled(s: State) {
    !s.nav.timer && forall id :: id in s.net.requests && s.net.requests[id].kind.ListAssets? ==>
      s.net.requests[id].kind.fingerprint != s.nav.fingerprint
  }

  ghost predicate CurrentAppend(s: State, id: nat) {
    && id in s.net.requests && s.net.requests[id].kind.AppendAssets?
    && s.net.requests[id].kind.fingerprint == s.nav.fingerprint
  }

  // At most one append of the current list is on its way, for the cursor at hand,
  // and no list answer can come before it.
  ghost predicate AppendsAtHand(s: State) {
    && (forall id :: CurrentAppend(s, id) ==>
          && s.shown.page.next == Some(s.net.requests[id].kind.cursor)
          && s.shown.page.loadingMore
          && Settled(s))
    && (forall a, b :: CurrentAppend(s, a) && CurrentAppend(s, b) ==> a == b)
  }

  ghost predicate Asking(s: State) {
    forall id :: id in s.net.requests ==> id < s.net.nextRequest && AsksForCurrent(s.nav, s.net.requests[id])
  }

  ghost predicate ListInvariant(lists: Lists, s: State) {
    ListHolds(lists, s.nav, s.shown) && Asking(s) && AppendsAtHand(s)
  }

  // loadMoreAssets is called from the render at hand, once the list of the moment
  // is there.
  ghost predicate AppendsFromHand(s: State, step: Step) {
    step.Do? && step.command.LoadMoreAssets? ==> step.seen.page == s.shown.page && Settled(s)
  }

  // ---- Steps ----

  lemma SameListHolds(lists: Lists, n: Nav, m: Nav, a: Shown, b: Shown)
    requires ListHolds(lists, n, a) && n.workspace == m.workspace && FilterOf(n) == FilterOf(m)
    requires a.catalogIds == b.catalogIds && a.page.next == b.page.next
    ensures ListHolds(lists, m, b)
  {
  }

  lemma NothingHolds(lists: Lists, nav: Nav, shown: Shown)
    requires shown.catalogIds == [] && shown.page == NO_PAGE
    ensures ListHolds(lists, nav, shown)
  {
  }

  lemma SwitchHolds(lists: Lists, s: State, next: string)
    requires ListHolds(lists, s.nav, s.shown)
    ensures var t := ApplyWorkspace(s, next); ListHolds(lists, t.nav, t.shown)
  {
    hide ListHolds;
    NothingHolds(lists, ApplyWorkspace(s, next).nav, Blank(next != ""));
  }

  lemma CreatedHolds(lists: Lists, s: State, id: string)
    requires ListHolds(lists, s.nav, s.shown) && (id != s.nav.workspace || FilterOf(s.nav) == Filter("", ""))
    ensures var t := EnterCreated(s, id); ListHolds(lists, t.nav, t.shown)
  {
    hide ListHolds;
    NothingHolds(lists, EnterCreated(s, id).nav, Blank(id != ""));
    if id == s.nav.workspace {
      SameListHolds(lists, s.nav, EnterCreated(s, id).nav, s.shown, EnterCreated(s, id).shown);
    }
  }

  lemma WaitingKeepsList(shown: Shown, kind: Kind, workspace: string)
    ensures Waiting(shown, kind, workspace).catalogIds == shown.catalogIds
    ensures Waiting(shown, kind, workspace).page.next == shown.page.next
    ensures !kind.AppendAssets? ==> Waiting(shown, kind, workspace).page == shown.page
    ensures kind.AppendAssets? ==> Waiting(shown, kind, workspace).page.loadingMore
  {
  }

  lemma PerformHolds(lists: Lists, s: State, seen: Render, command: Command)
    requires ListHolds(lists, s.nav, s.shown)
    ensures var t := Perform(s, seen, command); ListHolds(lists, t.nav, t.shown)
  {
    hide ListHolds, ApplyWorkspace, Wanted, Issue, Waiting;
    match command
    case SetWorkspace(next) =>
      SwitchHolds(lists, s, next);
      SameListHolds(lists, s.nav, RefreshNav(s.nav), s.shown, s.shown);
    case SetQuery(query, assetType) =>
      var t := ChangeQuery(s, seen, query, assetType);
      NothingHolds(lists, t.nav, s.shown.(catalogIds := [], page := NO_PAGE));
    case Refresh => SameListHolds(lists, s.nav, RefreshNav(s.nav), s.shown, s.shown);
    case _ =>
      var wanted := Wanted(s, seen, command);
      if wanted.Some? {
        var workspace := if wanted.value.NewWorkspace? then "" else seen.workspace;
        var waiting := Waiting(s.shown, wanted.value, workspace);
        IssueChanges(s.(shown := waiting), wanted.value, workspace);
        WaitingKeepsList(s.shown, wanted.value, workspace);
        SameListHolds(lists, s.nav, s.nav, s.shown, waiting);
      }
  }

  lemma OtherAcceptHolds(lists: Lists, s: State, r: Request, answer: Answer)
    requires ListHolds(lists, s.nav, s.shown) && Current(s.nav, r) && !r.kind.ListAssets? && !r.kind.AppendAssets?
    requires r.kind.NewWorkspace? && answer.Created? ==>
               answer.workspace != s.nav.workspace || FilterOf(s.nav) == Filter("", "")
    ensures var t := Accept(s, r, answer); ListHolds(lists, t.nav, t.shown)
  {
    hide ListHolds, Show, EnterCreated;
    if r.kind.NewWorkspace? {
      if answer.Created? { CreatedHolds(lists, s, answer.workspace); }
    } else {
      OtherAnswersKeepList(s.shown, r, answer);
      SameListHolds(lists, s.nav, Accept(s, r, answer).nav, s.shown, Accept(s, r, answer).shown);
    }
  }

  lemma FailedListHolds(lists: Lists, s: State, r: Request, message: string)
    requires ListHolds(lists, s.nav, s.shown) && (r.kind.ListAssets? || r.kind.AppendAssets?)
    ensures var t := Accept(s, r, Failure(message)); ListHolds(lists, t.nav, t.shown)
  {
    hide ListHolds;
    SameListHolds(lists, s.nav, s.nav, s.shown, Accept(s, r, Failure(message)).shown);
  }

  lemma ReceiveHolds(lists: Lists, s: State, id: nat, answer: Answer)
    requires SteadyLists(lists) && ListInvariant(lists, s) && Enabled(s, Deliver(id, answer))
    requires KeepsList(s, Deliver(id, answer)) && ServesPage(lists, s.net.requests[id], answer)
    ensures var t := Receive(s, id, answer); ListHolds(lists, t.nav, t.shown)
  {
    var r := s.net.requests[id];
    if !Current(s.nav, r) {
    } else if !r.kind.ListAssets? && !r.kind.AppendAssets? {
      hide ListHolds, Accept, Current, ServesPage, SteadyLists, AppendsAtHand, Asking;
      OtherAcceptHolds(lists, s, r, answer);
    } else if answer.Failure? {
      hide ListHolds, Accept, ServesPage, SteadyLists, AppendsAtHand, Asking;
      FailedListHolds(lists, s, r, answer.message);
    } else if r.kind.ListAssets? {
      hide ServesPage, SteadyLists, AppendsAtHand, ListsPages, Receive;
      ListShowsFirst(lists, s, id, answer.page);
    } else {
      assert CurrentAppend(s, id);
      assert s.shown.page.next.Some?;
      var k: nat :| ListsPages(PagesOf(lists, s.nav), k, s.shown.catalogIds, s.shown.page.next);
      hide ServesPage, SteadyLists, ListsPages, Receive;
      AppendShowsNext(lists, s, id, answer.page, k);
    }
  }

  lemma StepHolds(lists: Lists, s: State, step: Step)
    requires SteadyLists(lists) && ListInvariant(lists, s) && Enabled(s, step) && KeepsList(s, step)
    requires step.Deliver? ==> ServesPage(lists, s.net.requests[step.request], step.answer)
    ensures var t := Next(s, step); ListHolds(lists, t.nav, t.shown)
  {
    match step
    case Deliver(id, answer) => ReceiveHolds(lists, s, id, answer); hide *;
    case _ =>
      hide ListHolds, Perform, ApplyWorkspace, Issue, SteadyLists, AppendsAtHand, Asking;
      match step {
        case Do(seen, command) => PerformHolds(lists, s, seen, command);
        case Prefer(preferred) => SwitchHolds(lists, s, preferred);
        case WorkspacesListed(ids, wanted) =>
          var t := ApplyWorkspace(s, Chosen(s, ids, wanted));
          SwitchHolds(lists, s, Chosen(s, ids, wanted));
          SameListHolds(lists, t.nav, t.nav, t.shown, ShowWorkspaces(s, ids, wanted).shown);
        case WorkspacesFailed(message) =>
          SameListHolds(lists, s.nav, s.nav, s.shown, s.shown.(error := message, loading := false));
        case TimerFires =>
          var t := s.(nav := s.nav.(timer := false), shown := s.shown.(loading := true));
          IssueChanges(t, ListAssets(s.nav.fingerprint, s.nav.effect, FilterOf(s.nav)), s.nav.workspace);
          SameListHolds(lists, s.nav, t.nav, s.shown, t.shown);
      }
  }

  // ---- Appends stay at hand ----

  // The step moves to another list: what was asked before is not current any more.
  lemma MovedOn(s: State, step: Step)
    requires Asking(s) && Enabled(s, step) && Next(s, step).nav.fingerprint.generation > s.nav.fingerprint.generation
    requires s.net.nextRequest !in Next(s, step).net.requests
    ensures AppendsAtHand(Next(s, step))
  {
    hide Next, Settled;
    var t := Next(s, step);
    StepAdvances(s, step);
    forall id | id in t.net.requests
      ensures !CurrentAppend(t, id)
    {
      assert t.net.requests[id] == s.net.requests[id] && AsksForCurrent(s.nav, s.net.requests[id]);
    }
  }

  // Nothing about the list changes: the same appends are at hand.
  lemma SameAtHand(s: State, t: State)
    requires AppendsAtHand(s) && t.nav.fingerprint == s.nav.fingerprint && t.nav.timer == s.nav.timer
    requires t.shown.page == s.shown.page
    requires forall id :: id in t.net.requests ==>
               || !(t.net.requests[id].kind.AppendAssets? || t.net.requests[id].kind.ListAssets?)
               || (id in s.net.requests && t.net.requests[id] == s.net.requests[id])
    ensures AppendsAtHand(t)
  {
    forall id | CurrentAppend(t, id)
      ensures CurrentAppend(s, id)
    {
    }
  }

  lemma FirstAtHand(s: State, t: State, id: nat)
    requires AppendsAtHand(s) && Settled(s) && id !in s.net.requests
    requires t.nav == s.nav && t.net.requests.Keys == s.net.requests.Keys + {id}
    requires forall k :: k in s.net.requests ==> t.net.requests[k] == s.net.requests[k]
    requires t.net.requests[id].kind.AppendAssets? && !s.shown.page.loadingMore
    requires t.shown.page.loadingMore && t.shown.page.next == Some(t.net.requests[id].kind.cursor)
    ensures AppendsAtHand(t)
  {
    forall k | CurrentAppend(t, k)
      ensures k == id
    {
      assert k != id ==> CurrentAppend(s, k);
    }
  }

  lemma PerformAtHand(s: State, seen: Render, command: Command)
    requires Asking(s) && AppendsAtHand(s) && AppendsFromHand(s, Do(seen, command))
    ensures AppendsAtHand(Perform(s, seen, command))
  {
    var t := Perform(s, seen, command);
    hide ApplyWorkspace, AppendsAtHand, Settled, Asking, Waiting, SectionCursor;
    var wanted := Wanted(s, seen, command);
    if wanted.Some? {
      var workspace := if wanted.value.NewWorkspace? then "" else seen.workspace;
      var waiting := Waiting(s.shown, wanted.value, workspace);
      IssueChanges(s.(shown := waiting), wanted.value, workspace);
      WaitingKeepsList(s.shown, wanted.value, workspace);
      hide Issue;
      assert s.net.nextRequest !in s.net.requests by { NextIsNew(s); }
      if wanted.value.AppendAssets? {
        FirstAtHand(s, t, s.net.nextRequest);
      } else {
        hide Wanted;
        SameAtHand(s, t);
      }
    } else {
      hide Wanted;
      CommandAtHand(s, seen, command);
    }
  }

  lemma NextIsNew(s: State)
    requires Asking(s)
    ensures s.net.nextRequest !in s.net.requests
  {
  }

  // Commands without a request: another list, or nothing at all.
  lemma CommandAtHand(s: State, seen: Render, command: Command)
    requires Asking(s) && AppendsAtHand(s) && Wanted(s, seen, command).None?
    ensures AppendsAtHand(Perform(s, seen, command))
  {
    NextIsNew(s);
    hide AppendsAtHand, Asking, SectionCursor;
    var step := Do(seen, command);
    var t := Perform(s, seen, command);
    if t.nav.fingerprint.generation > s.nav.fingerprint.generation {
      assert Next(s, step) == t && t.net.requests == s.net.requests;
      hide Next, Perform;
      MovedOn(s, step);
    } else {
      assert t == s;
      hide Perform;
    }
  }

  lemma SwitchAtHand(s: State, next: string)
    requires Asking(s) && AppendsAtHand(s)
    ensures AppendsAtHand(ApplyWorkspace(s, next))
  {
    NextIsNew(s);
    hide AppendsAtHand, Asking;
    if s.nav.workspace != next {
      assert Next(s, Prefer(next)) == ApplyWorkspace(s, next);
      hide Next;
      MovedOn(s, Prefer(next));
    }
  }

  lemma EndAtHand(s: State, t: State, id: nat)
    requires AppendsAtHand(s) && t.nav.fingerprint == s.nav.fingerprint && t.nav.timer == s.nav.timer
    requires t.net.requests == s.net.requests - {id}
    requires t.shown.page == s.shown.page || CurrentAppend(s, id)
             || (id in s.net.requests && s.net.requests[id].kind.ListAssets?
                 && s.net.requests[id].kind.fingerprint == s.nav.fingerprint)
    ensures AppendsAtHand(t)
  {
    forall k | CurrentAppend(t, k)
      ensures CurrentAppend(s, k) && k != id
    {
    }
  }

  lemma ReceiveAtHand(s: State, id: nat, answer: Answer)
    requires Asking(s) && AppendsAtHand(s) && Enabled(s, Deliver(id, answer))
    ensures AppendsAtHand(Receive(s, id, answer))
  {
    var r, t := s.net.requests[id], Receive(s, id, answer);
    NextIsNew(s);
    AcceptAdvances(s, r, answer);
    hide AppendsAtHand, Asking;
    var u := if Current(s.nav, r) then Accept(s, r, answer) else s;
    CleanUpKeepsRequests(u.net.(requests := u.net.requests - {id}), id, r);
    assert t.nav == u.nav && t.shown == u.shown && t.net.requests == s.net.requests - {id};
    if t.nav.fingerprint.generation > s.nav.fingerprint.generation {
      assert Next(s, Deliver(id, answer)) == t;
      hide Next, Receive, Accept, CleanUp;
      MovedOn(s, Deliver(id, answer));
    } else {
      hide Receive, CleanUp, Show, ApplyWorkspace;
      if !r.kind.ListAssets? && !r.kind.AppendAssets? { OtherAnswersKeepList(s.shown, r, answer); }
      assert t.nav.timer == s.nav.timer && t.nav.fingerprint == s.nav.fingerprint;
      assert t.shown.page == s.shown.page || (Current(s.nav, r) && (r.kind.ListAssets? || r.kind.AppendAssets?));
      hide Accept;
      EndAtHand(s, t, id);
    }
  }

  lemma StepAtHand(s: State, step: Step)
    requires Asking(s) && AppendsAtHand(s) && Enabled(s, step) && AppendsFromHand(s, step)
    ensures AppendsAtHand(Next(s, step))
  {
    hide AppendsAtHand, Asking, Perform, ApplyWorkspace, Receive, AppendsFromHand, Settled, Fits;
    match step
    case Do(seen, command) => PerformAtHand(s, seen, command);
    case Prefer(preferred) => SwitchAtHand(s, preferred);
    case WorkspacesListed(ids, wanted) =>
      var t := ApplyWorkspace(s, Chosen(s, ids, wanted));
      SwitchAtHand(s, Chosen(s, ids, wanted));
      SameAtHand(t, ShowWorkspaces(s, ids, wanted));
    case WorkspacesFailed(message) => SameAtHand(s, Next(s, step));
    case TimerFires => TimerAtHand(s);
    case Deliver(id, answer) => ReceiveAtHand(s, id, answer);
  }

  lemma TimerAtHand(s: State)
    requires AppendsAtHand(s) && s.nav.timer
    ensures AppendsAtHand(FireTimer(s))
  {
    var t := s.(nav := s.nav.(timer := false), shown := s.shown.(loading := true));
    IssueChanges(t, ListAssets(s.nav.fingerprint, s.nav.effect, FilterOf(s.nav)), s.nav.workspace);
    hide Issue;
    forall id | CurrentAppend(FireTimer(s), id)
      ensures CurrentAppend(s, id)
    {
    }
  }

  lemma StepAsks(s: State, step: Step)
    requires Asking(s) && Enabled(s, step) && KeepsList(s, step)
    ensures Asking(Next(s, step))
  {
    hide Next, KeepsList;
    var t := Next(s, step);
    StepAdvances(s, step);
    StepKeepsFilter(s, step);
    forall id | id in t.net.requests
      ensures id < t.net.nextRequest && AsksForCurrent(t.nav, t.net.requests[id])
    {
      if id == s.net.nextRequest { NewListRequest(s, step); }
    }
  }

  // ---- Runs ----

  // Appends come from the render at hand, and list requests are answered with the
  // server's pages.
  ghost predicate PagesRun(lists: Lists, s: State, steps: seq<Step>)
    decreases |steps|
  {
    steps == [] ||
    (Enabled(s, steps[0]) ==>
       && KeepsList(s, steps[0]) && AppendsFromHand(s, steps[0])
       && (steps[0].Deliver? ==> ServesPage(lists, s.net.requests[steps[0].request], steps[0].answer))
       && PagesRun(lists, Next(s, steps[0]), steps[1..]))
  }

  lemma {:induction false} RunHoldsPages(lists: Lists, s: State, steps: seq<Step>)
    requires SteadyLists(lists) && ListInvariant(lists, s) && PagesRun(lists, s, steps) && Run(s, steps).Some?
    ensures ListInvariant(lists, Run(s, steps).value)
    decreases |steps|
  {
    hide SteadyLists, Next, ListHolds, Asking, AppendsAtHand, KeepsList, AppendsFromHand, ServesPage;
    if steps != [] {
      StepHolds(lists, s, steps[0]);
      StepAsks(s, steps[0]);
      StepAtHand(s, steps[0]);
      RunHoldsPages(lists, Next(s, steps[0]), steps[1..]);
    }
  }

  lemma InitialList(lists: Lists)
    ensures ListInvariant(lists, INITIAL)
  {
  }

  // From the start, in any interleaving: nothing is listed, or the ids listed are
  // those of the first pages of the current list and the cursor is the one after.
  lemma AlwaysListsPages(lists: Lists, steps: seq<Step>)
    requires SteadyLists(lists) && PagesRun(lists, INITIAL, steps) && Run(INITIAL, steps).Some?
    ensures var s := Run(INITIAL, steps).value;
            ListsSome(PagesOf(lists, s.nav), s.shown.catalogIds, s.shown.page.next)
  {
    InitialList(lists);
    RunHoldsPages(lists, INITIAL, steps);
    hide Run, SteadyLists, PagesRun, ListsSome;
  }
}
