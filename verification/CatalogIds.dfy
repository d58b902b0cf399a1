// Ids in the list: no asset is listed twice, the list's ids are held, and which
// loaded details survive a refresh or an appended page.
module CatalogIds {
  import opened Wrappers
  import opened Ordering
  import opened CatalogModel
  import opened CatalogAnswers

  ghost predicate AssetsOnce(assets: seq<Asset>) {
    forall i, j :: 0 <= i < j < |assets| ==> assets[i].id != assets[j].id
  }

  ghost predicate HasAsset(assets: seq<Asset>, id: Id) {
    exists i :: 0 <= i < |assets| && assets[i].id == id
  }

  ghost predicate IdsHeld(shown: Shown) {
    && AssetsOnce(shown.assets)
    && Distinct(shown.catalogIds)
    && forall i :: 0 <= i < |shown.catalogIds| ==> HasAsset(shown.assets, shown.catalogIds[i])
  }

  // ---- Replacing the list ----

  lemma {:induction false} FindLoadedFinds(assets: seq<Asset>, id: Id)
    ensures FindLoaded(assets, id).Some? ==>
              FindLoaded(assets, id).value in assets && FindLoaded(assets, id).value.id == id
              && FindLoaded(assets, id).value.loaded
    ensures FindLoaded(assets, id).None? ==> forall i :: 0 <= i < |assets| && assets[i].loaded ==> assets[i].id != id
  {
    if assets != [] {
      FindLoadedFinds(assets[1..], id);
      assert assets == [assets[0]] + assets[1..];
    }
  }

  lemma OnceMeansSame(assets: seq<Asset>, a: Asset, b: Asset)
    requires AssetsOnce(assets) && a in assets && b in assets && a.id == b.id
    ensures a == b
  {
  }

  lemma ListedKeepsId(current: seq<Asset>, item: Summary, o: Origin)
    ensures ListedAsset(current, item, o).id == item.id
  {
    FindLoadedFinds(current, item.id);
  }

  ghost predicate OnPage(items: seq<Summary>, id: Id) {
    exists i :: 0 <= i < |items| && items[i].id == id
  }

  lemma {:induction false} LoadedElsewhereHas(current: seq<Asset>, items: seq<Summary>, a: Asset)
    ensures a in LoadedElsewhere(current, items) <==> a in current && a.loaded && !OnPage(items, a.id)
  {
    if current != [] {
      LoadedElsewhereHas(current[1..], items, a);
      assert current == [current[0]] + current[1..];
    }
  }

  lemma {:induction false} LoadedElsewhereOnce(current: seq<Asset>, items: seq<Summary>)
    requires AssetsOnce(current)
    ensures AssetsOnce(LoadedElsewhere(current, items))
    ensures forall a :: a in LoadedElsewhere(current, items) ==> a in current && !OnPage(items, a.id)
  {
    forall a | a in LoadedElsewhere(current, items)
      ensures a in current && !OnPage(items, a.id)
    {
      LoadedElsewhereHas(current, items, a);
    }
    if current != [] {
      LoadedElsewhereOnce(current[1..], items);
      forall a | a in LoadedElsewhere(current[1..], items)
        ensures a in current[1..]
      {
        LoadedElsewhereHas(current[1..], items, a);
      }
    }
  }

  // The refreshed list names each asset once if and only if the page does.
  lemma ReplaceOnce(current: seq<Asset>, items: seq<Summary>, o: Origin)
    requires AssetsOnce(current)
    ensures AssetsOnce(ReplaceAssets(current, items, o)) <==> Distinct(PageIds(items))
  {
    var listed, rest, all := ListedAssets(current, items, o), LoadedElsewhere(current, items),
      ReplaceAssets(current, items, o);
    LoadedElsewhereOnce(current, items);
    forall i | 0 <= i < |items|
      ensures listed[i].id == items[i].id
    {
      ListedKeepsId(current, items[i], o);
    }
    if AssetsOnce(all) {
      forall i, j | 0 <= i < j < |items|
        ensures PageIds(items)[i] != PageIds(items)[j]
      {
        assert all[i].id != all[j].id;
      }
    }
    if Distinct(PageIds(items)) {
      forall i, j | 0 <= i < j < |all|
        ensures all[i].id != all[j].id
      {
        if i < |items| && j < |items| {
          assert PageIds(items)[i] != PageIds(items)[j];
        } else if i < |items| {
          assert all[j] in rest;
          assert !OnPage(items, all[j].id);
        } else {
          assert all[i] == rest[i - |items|] && all[j] == rest[j - |items|];
        }
      }
    }
  }

  // A refresh keeps a loaded detail if and only if the page does not list the
  // asset, or lists it at the same revision.
  lemma RefreshKeepsDetail(current: seq<Asset>, items: seq<Summary>, o: Origin, a: Asset)
    requires AssetsOnce(current) && Distinct(PageIds(items)) && a in current && a.loaded
    ensures a in ReplaceAssets(current, items, o) <==>
            forall i :: 0 <= i < |items| && items[i].id == a.id ==> items[i].revisionId == a.revisionId
  {
    var listed := ListedAssets(current, items, o);
    LoadedElsewhereHas(current, items, a);
    forall i | 0 <= i < |items|
      ensures listed[i].id == items[i].id
      ensures items[i].id == a.id ==>
              listed[i] == (if a.revisionId == items[i].revisionId then a else ProjectSummary(items[i], o))
    {
      ListedKeepsId(current, items[i], o);
      FindLoadedFinds(current, items[i].id);
      if items[i].id == a.id { OnceMeansSame(current, a, FindLoaded(current, a.id).value); }
    }
    if OnPage(items, a.id) {
      var i :| 0 <= i < |items| && items[i].id == a.id;
      forall j | 0 <= j < |items| && items[j].id == a.id
        ensures j == i
      {
        assert PageIds(items)[j] == PageIds(items)[i];
      }
      if items[i].revisionId == a.revisionId { assert a == listed[i]; }
    }
  }

  // ---- Appending a page ----

  lemma AppendOneOnce(assets: seq<Asset>, item: Summary, o: Origin)
    requires AssetsOnce(assets)
    ensures AssetsOnce(AppendAsset(assets, item, o))
    ensures forall id :: HasAsset(AppendAsset(assets, item, o), id) <==> HasAsset(assets, id) || id == item.id
  {
    var after := AppendAsset(assets, item, o);
    var i := IndexOfAsset(assets, item.id);
    forall id
      ensures HasAsset(after, id) <==> HasAsset(assets, id) || id == item.id
    {
      if HasAsset(assets, id) {
        var j :| 0 <= j < |assets| && assets[j].id == id;
        assert after[j].id == id;
      }
      if id == item.id { assert after[if i < 0 then |assets| else i].id == id; }
      if HasAsset(after, id) {
        var j :| 0 <= j < |after| && after[j].id == id;
        assert j < |assets| ==> assets[j].id == id;
      }
    }
  }

  // Appending never lists an asset twice, whatever the page repeats.
  lemma {:induction false} AppendOnce(assets: seq<Asset>, items: seq<Summary>, o: Origin)
    requires AssetsOnce(assets)
    ensures AssetsOnce(MergeAssets(assets, items, o))
    ensures forall id :: HasAsset(MergeAssets(assets, items, o), id) <==> HasAsset(assets, id) || OnPage(items, id)
  {
    hide AppendAsset, AssetsOnce, HasAsset;
    if items != [] {
      var before, last := items[..|items| - 1], items[|items| - 1];
      AppendOnce(assets, before, o);
      AppendOneOnce(MergeAssets(assets, before, o), last, o);
      forall id
        ensures OnPage(items, id) <==> OnPage(before, id) || id == last.id
      {
        if OnPage(before, id) {
          var i :| 0 <= i < |before| && before[i].id == id;
          assert items[i].id == id;
        }
        if id == last.id { assert items[|items| - 1].id == id; }
        if OnPage(items, id) {
          var i :| 0 <= i < |items| && items[i].id == id;
          assert i < |before| ==> before[i].id == id;
        }
      }
    }
  }

  lemma AppendOneKeeps(assets: seq<Asset>, item: Summary, o: Origin, a: Asset)
    requires AssetsOnce(assets) && a.loaded
    ensures a in AppendAsset(assets, item, o) <==> a in assets && (a.id == item.id ==> a.revisionId == item.revisionId)
  {
    var after, i := AppendAsset(assets, item, o), IndexOfAsset(assets, item.id);
    if a in assets {
      var j :| 0 <= j < |assets| && assets[j] == a;
      assert j != i ==> after[j] == a;
      if j == i { assert after[i] == a || after[i] == ProjectSummary(item, o); }
      if a in after {
        var k :| 0 <= k < |after| && after[k] == a;
        assert k < |assets| && assets[k].id == a.id;
      }
    }
    if a in after {
      var k :| 0 <= k < |after| && after[k] == a;
      assert k < |assets| && after[k] == assets[k];
    }
  }

  // An appended page keeps a loaded detail if and only if every entry for it has
  // its revision.
  lemma {:induction false} AppendKeepsDetail(assets: seq<Asset>, items: seq<Summary>, o: Origin, a: Asset)
    requires AssetsOnce(assets) && a.loaded
    ensures a in MergeAssets(assets, items, o) <==>
            a in assets && forall i :: 0 <= i < |items| && items[i].id == a.id ==> items[i].revisionId == a.revisionId
  {
    hide AppendAsset;
    if items != [] {
      var before, last := items[..|items| - 1], items[|items| - 1];
      AppendKeepsDetail(assets, before, o, a);
      AppendOnce(assets, before, o);
      AppendOneKeeps(MergeAssets(assets, before, o), last, o, a);
      assert forall i :: 0 <= i < |before| ==> before[i] == items[i];
    }
  }

  lemma {:induction false} NewIdsAre(current: seq<Id>, ids: seq<Id>)
    ensures forall id :: id in NewIds(current, ids) <==> id in ids && id !in current
    ensures Distinct(ids) ==> Distinct(NewIds(current, ids))
  {
    if ids != [] {
      NewIdsAre(current, ids[1..]);
      assert ids == [ids[0]] + ids[1..];
    }
  }

  // Ids that the page repeats are held already.
  ghost predicate RepeatsHeld(current: seq<Id>, ids: seq<Id>) {
    forall i, j :: 0 <= i < j < |ids| && ids[i] == ids[j] ==> ids[i] in current
  }

  lemma ConsOnce(id: Id, ids: seq<Id>)
    ensures Distinct([id] + ids) <==> Distinct(ids) && id !in ids
  {
    var all := [id] + ids;
    if Distinct(all) {
      forall i, j | 0 <= i < j < |ids|
        ensures ids[i] != ids[j]
      {
        assert all[i + 1] != all[j + 1];
      }
      forall i | 0 <= i < |ids|
        ensures ids[i] != id
      {
        assert all[0] != all[i + 1];
      }
    }
  }

  lemma ConsRepeats(current: seq<Id>, id: Id, ids: seq<Id>)
    ensures RepeatsHeld(current, [id] + ids) <==> RepeatsHeld(current, ids) && (id in ids ==> id in current)
  {
    var all := [id] + ids;
    if RepeatsHeld(current, all) {
      forall i, j | 0 <= i < j < |ids| && ids[i] == ids[j]
        ensures ids[i] in current
      {
        assert all[i + 1] == all[j + 1];
      }
      if id in ids {
        var i :| 0 <= i < |ids| && ids[i] == id;
        assert all[0] == all[i + 1];
      }
    }
  }

  lemma {:induction false} NewIdsOnce(current: seq<Id>, ids: seq<Id>)
    ensures Distinct(NewIds(current, ids)) <==> RepeatsHeld(current, ids)
  {
    hide Distinct, RepeatsHeld;
    if ids == [] {
      NothingRepeats(current);
    } else {
      var rest := ids[1..];
      NewIdsOnce(current, rest);
      NewIdsAre(current, rest);
      ConsOnce(ids[0], NewIds(current, rest));
      ConsRepeats(current, ids[0], rest);
      assert [ids[0]] + rest == ids && [] + NewIds(current, rest) == NewIds(current, rest);
    }
  }

  lemma NothingRepeats(current: seq<Id>)
    ensures Distinct<Id>([]) && RepeatsHeld(current, [])
  {
  }

  // The appended list of ids has no repetition if and only if the page repeats
  // none but ids that are held.
  lemma AppendedIdsOnce(current: seq<Id>, ids: seq<Id>)
    requires Distinct(current)
    ensures Distinct(current + NewIds(current, ids)) <==>
            forall i, j :: 0 <= i < j < |ids| && ids[i] == ids[j] ==> ids[i] in current
  {
    NewIdsAre(current, ids);
    NewIdsOnce(current, ids);
    var more := NewIds(current, ids);
    var all := current + more;
    if Distinct(all) {
      forall i, j | 0 <= i < j < |more|
        ensures more[i] != more[j]
      {
        assert all[|current| + i] != all[|current| + j];
      }
    }
    if Distinct(more) {
      forall i, j | 0 <= i < j < |all|
        ensures all[i] != all[j]
      {
        if j >= |current| {
          assert all[j] in more;
          assert i >= |current| ==> more[i - |current|] != more[j - |current|];
        }
      }
    }
  }

  // ---- Steps ----

  // The server's pages name each asset once.
  ghost predicate CleanAnswer(answer: Answer) {
    answer.AssetPage? ==> Distinct(PageIds(answer.page.items))
  }

  lemma {:induction false} WithoutAssetHas(assets: seq<Asset>, id: Id)
    requires AssetsOnce(assets)
    ensures AssetsOnce(WithoutAsset(assets, id))
    ensures forall a :: a in WithoutAsset(assets, id) <==> a in assets && a.id != id
  {
    if assets != [] {
      WithoutAssetHas(assets[1..], id);
      assert assets == [assets[0]] + assets[1..];
    }
  }

  lemma HasByElement(assets: seq<Asset>, a: Asset)
    requires a in assets
    ensures HasAsset(assets, a.id)
  {
  }

  ghost predicate KeepsIds(before: seq<Asset>, after: seq<Asset>) {
    AssetsOnce(after) && forall id :: HasAsset(before, id) ==> HasAsset(after, id)
  }

  lemma PutDetailIds(assets: seq<Asset>, asset: Asset)
    requires AssetsOnce(assets)
    ensures KeepsIds(assets, PutDetail(assets, asset))
  {
    var after := PutDetail(assets, asset);
    var shift := |after| - |assets|;
    forall id | HasAsset(assets, id)
      ensures HasAsset(after, id)
    {
      var i :| 0 <= i < |assets| && assets[i].id == id;
      assert after[i + shift].id == id;
    }
  }

  lemma NewAssetIds(assets: seq<Asset>, asset: Asset)
    requires AssetsOnce(assets)
    ensures KeepsIds(assets, [asset] + WithoutAsset(assets, asset.id))
  {
    WithoutAssetHas(assets, asset.id);
    var rest := WithoutAsset(assets, asset.id);
    var after := [asset] + rest;
    forall id | HasAsset(assets, id)
      ensures HasAsset(after, id)
    {
      var i :| 0 <= i < |assets| && assets[i].id == id;
      assert id != asset.id ==> assets[i] in rest;
      assert after[0].id == asset.id;
      HasByElement(after, if id == asset.id then asset else assets[i]);
    }
    forall i | 0 < i < |after|
      ensures after[i].id != asset.id
    {
      assert after[i] in rest;
    }
  }

  lemma AppendRecordsIds(assets: seq<Asset>, id: Id, kind: string, cursor: Cursor, page: Page<Authority>, o: Origin)
    requires AssetsOnce(assets)
    ensures KeepsIds(assets, AppendRecords(assets, id, kind, cursor, page, o))
  {
    hide AppendSection;
    var after := AppendRecords(assets, id, kind, cursor, page, o);
    assert forall i :: 0 <= i < |assets| ==> after[i].id == assets[i].id;
    forall x | HasAsset(assets, x)
      ensures HasAsset(after, x)
    {
      var i :| 0 <= i < |assets| && assets[i].id == x;
      assert after[i].id == x;
    }
  }

  lemma ListIds(shown: Shown, o: Origin, page: Page<Summary>)
    requires IdsHeld(shown) && Distinct(PageIds(page.items))
    ensures IdsHeld(ShowList(shown, o, AssetPage(page)))
  {
    ReplaceOnce(shown.assets, page.items, o);
    var all := ReplaceAssets(shown.assets, page.items, o);
    forall i | 0 <= i < |page.items|
      ensures HasAsset(all, PageIds(page.items)[i])
    {
      ListedKeepsId(shown.assets, page.items[i], o);
      assert all[i].id == page.items[i].id;
    }
    hide ReplaceAssets;
  }

  lemma AppendedIds(shown: Shown, o: Origin, cursor: Cursor, page: Page<Summary>)
    requires IdsHeld(shown) && Distinct(PageIds(page.items))
    ensures IdsHeld(ShowAppended(shown, o, cursor, AssetPage(page)))
  {
    hide MergeAssets, AssetsOnce, HasAsset;
    var ids := PageIds(page.items);
    NewIdsAre(shown.catalogIds, ids);
    AppendedIdsOnce(shown.catalogIds, ids);
    AppendOnce(shown.assets, page.items, o);
    var all := shown.catalogIds + NewIds(shown.catalogIds, ids);
    forall i | 0 <= i < |all|
      ensures HasAsset(MergeAssets(shown.assets, page.items, o), all[i])
    {
      if i >= |shown.catalogIds| {
        assert all[i] in NewIds(shown.catalogIds, ids);
        var j :| 0 <= j < |ids| && ids[j] == all[i];
        assert page.items[j].id == all[i];
      }
    }
  }

  lemma AuthorityIds(shown: Shown, o: Origin, asset: Id, section: string, cursor: Cursor, answer: Answer)
    requires IdsHeld(shown)
    ensures IdsHeld(ShowMoreAuthority(shown, o, asset, section, cursor, answer))
  {
    hide AppendRecords, SectionCursor;
    if answer.AuthorityPage? { AppendRecordsIds(shown.assets, asset, section, cursor, answer.records, o); }
    hide AssetsOnce, HasAsset;
  }

  lemma DetailIds(shown: Shown, o: Origin, asset: Id, answer: Answer)
    requires IdsHeld(shown)
    ensures IdsHeld(ShowDetail(shown, o, asset, answer))
  {
    hide PutDetail, WithoutSections, ProjectDetail;
    if answer.OneDetail? { PutDetailIds(shown.assets, ProjectDetail(answer.detail, o)); }
    hide AssetsOnce, HasAsset;
  }

  lemma NewAssetShownIds(shown: Shown, o: Origin, answer: Answer)
    requires IdsHeld(shown)
    ensures IdsHeld(ShowNewAsset(shown, o, answer))
  {
    hide WithoutAsset;
    if answer.OneDetail? { NewAssetIds(shown.assets, ProjectDetail(answer.detail, o)); }
    hide AssetsOnce, HasAsset;
  }

  lemma ListAnswerIds(shown: Shown, o: Origin, cursor: Cursor, answer: Answer)
    requires IdsHeld(shown) && CleanAnswer(answer)
    ensures IdsHeld(ShowList(shown, o, answer)) && IdsHeld(ShowAppended(shown, o, cursor, answer))
  {
    hide ReplaceAssets, MergeAssets, NewIds, PageIds, AssetsOnce, HasAsset;
    if answer.AssetPage? {
      ListIds(shown, o, answer.page);
      AppendedIds(shown, o, cursor, answer.page);
    }
  }

  lemma ShowKeepsIds(shown: Shown, r: Request, answer: Answer)
    requires IdsHeld(shown) && CleanAnswer(answer)
    ensures IdsHeld(Show(shown, r, answer))
  {
    var o := r.origin;
    hide ShowMoreAuthority, ShowDetail, ShowNewAsset;
    match r.kind
    case ListAssets(_, _, _) => hide ShowList, IdsHeld; ListAnswerIds(shown, o, "", answer);
    case AppendAssets(_, _, cursor) => hide ShowAppended, IdsHeld; ListAnswerIds(shown, o, cursor, answer);
    case MoreAuthority(asset, section, cursor) => hide IdsHeld; AuthorityIds(shown, o, asset, section, cursor, answer);
    case DetailOf(asset) => hide IdsHeld; DetailIds(shown, o, asset, answer);
    case NewAsset => hide IdsHeld; NewAssetShownIds(shown, o, answer);
    case _ =>
      OtherAnswersKeepAssets(shown, r, answer);
      OtherAnswersKeepList(shown, r, answer);
      hide Show, AssetsOnce, HasAsset;
  }

  ghost predicate CleanStep(step: Step) {
    step.Deliver? ==> CleanAnswer(step.answer)
  }

  lemma WaitingKeepsIds(shown: Shown, kind: Kind, workspace: string)
    requires IdsHeld(shown)
    ensures IdsHeld(Waiting(shown, kind, workspace))
  {
    hide AssetsOnce;
  }

  lemma StepKeepsIds(s: State, step: Step)
    requires IdsHeld(s.shown) && Enabled(s, step) && CleanStep(step)
    ensures IdsHeld(Next(s, step).shown)
  {
    hide AssetsOnce, Show, Wanted, Waiting, CleanUp, HasAsset;
    match step
    case Do(seen, command) =>
      var wanted := Wanted(s, seen, command);
      if wanted.Some? {
        WaitingKeepsIds(s.shown, wanted.value, if wanted.value.NewWorkspace? then "" else seen.workspace);
      }
      hide IdsHeld;
      BlankHoldsIds(true);
      BlankHoldsIds(false);
      ClearedHoldsIds(s.shown);
    case Deliver(id, answer) =>
      BlankHoldsIds(true);
      BlankHoldsIds(false);
      ShowKeepsIds(s.shown, s.net.requests[id], answer);
      hide IdsHeld;
    case _ =>
      BlankHoldsIds(true);
      BlankHoldsIds(false);
  }

  lemma BlankHoldsIds(loading: bool)
    ensures IdsHeld(Blank(loading))
  {
  }

  lemma ClearedHoldsIds(shown: Shown)
    requires IdsHeld(shown)
    ensures IdsHeld(shown.(catalogIds := [], page := NO_PAGE))
  {
  }

  ghost predicate CleanRun(steps: seq<Step>) {
    forall i :: 0 <= i < |steps| ==> CleanStep(steps[i])
  }

  lemma {:induction false} RunKeepsIds(s: State, steps: seq<Step>)
    requires IdsHeld(s.shown) && CleanRun(steps) && Run(s, steps).Some?
    ensures IdsHeld(Run(s, steps).value.shown)
    decreases |steps|
  {
    hide Next, IdsHeld;
    if steps != [] {
      StepKeepsIds(s, steps[0]);
      RunKeepsIds(Next(s, steps[0]), steps[1..]);
    }
  }
}
