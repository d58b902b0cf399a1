# Semlia verification

A Dafny model of the parts of Semlia whose correctness depends on order, on repetition or on exact text: the
catalog runtime and its racing requests, release verification, canonical JSON and change sets, the candidate
recovery lock, the inbox, the resumable demo import with its reference rebinding and its source fixture, and the
draft protocol of the knowledge panel. `dafny verify dfyconfig.toml` checks all of it.

Semlia's components work step by step almost everywhere, so each has two faces here. What changes state is a class or
a method with Semlia's statements in their order (`CatalogRuntime`, `RecoveryLock`, `DraftPanel`,
`DemoSeed`, `DemoSourceValidator`, `DemoSourceReceipt`, `Remap`, `WebDependencies`, `ReleaseArchive`,
`SourceFingerprint`, `Inbox`); its contract ties the new state to a function of the old one. What is promised is
proved about those functions, over every run: interleavings, lost answers, crashes and restarts are steps. That
things go wrong in no run is one half; the other is that they get done: pages load, drafts are saved, a demo run to
which nothing bad happens completes.

| file | component |
|---|---|
| `CatalogModel`, `CatalogRuntime`, `CatalogProvenance`, `CatalogLate`, `CatalogListing`, `CatalogFlight`, `CatalogIds`, `CatalogAnswers`, `Paging`, `CatalogPaging`, `CatalogSections`, `CatalogList`, `CatalogListRuns`, `CatalogProgress`, `CatalogDetails`, `CatalogKeys` | catalog runtime |
| `WebDependencies`, `WebDependenciesProofs`, `ReleaseArchive`, `SourceFingerprint`, `SourceFingerprintProofs` | release verification |
| `JsonText`, `JsonQuoting`, `CanonicalJson`, `CanonicalJsonProofs`, `CanonicalJsonOrder`, `ChangeSet`, `ChangeSetLines` | governance values |
| `RecoveryLock` | candidate recovery lock |
| `Inbox`, `InboxProofs`, `InboxOrder` | inbox |
| `DemoSeed`, `Remap` | demo import |
| `DemoSource`, `DemoSourceValidator`, `DemoSourceDb`, `DemoSourceReceipt`, `DemoSourceReading`, `DemoSourceMatch` | demo source fixture |
| `DraftPanel`, `DraftPanelProofs`, `DraftPanelNewDraft`, `DraftPanelProgress` | knowledge panel |
| `Ordering`, `Wrappers` | sorting; option and result |

## Where the code does less than it looks like

Each is the exact condition under which the code does what is expected of it, and most stand next to a concrete
input or run that fails it.

- `loadMoreAssets` sends the workspace, query and asset type of its closure and checks the request fingerprint of a
  ref. Called from a closure of an earlier workspace it puts that workspace's assets into the current list
  (`CatalogLate.StaleWorkspaceShows`), and does so only then (`CatalogLate.AppendNeedsFreshClosure`); called from a
  closure of an earlier query it puts that query's page under the new one (`CatalogListing.StaleQueryShows`). The list
  stays the current one for every answer if and only if all three are current
  (`CatalogListing.AppendNeedsCurrentList`). Every other callback keeps provenance from any closure
  (`CatalogLate.OtherCallbacksAreSafe`).
- A page that `loadMoreAssets` asked for is appended whatever the list shows by then. Asked for twice from one render,
  its second answer may come late and set the cursor back (`CatalogListRuns.LateAppendTurnsBack`); asked for between a
  refresh and its answer, it skips the pages between (`CatalogListRuns.EarlyAppendSkips`). With k pages listed, of pages that
  share no asset, the list stays the first pages if and only if the page is the next one or the last one listed
  (`CatalogListRuns.PageKeepsListIff`); it always is when each append is made from the list at hand, after the list
  was answered (`CatalogList.AlwaysListsPages`).
- A revision page that fails after its list was dropped leaves an entry with a message and no list; loading the
  revisions again replaces it (`CatalogProgress.PageAfterDrop`).
- Entering a created workspace that is the current one already, under a query, empties the query but keeps the list
  until the next answer (`CatalogListing.CreatedUnderQuery`, `CatalogListing.CreatedKeepsList`).
- A saved correction of a frozen operation that someone else replaces before it is read lets the next save
  overwrite a version its author never loaded, because only the version number of the draft key is sent
  (`DraftPanelProofs.UnseenVersionOverwritten`, `DraftPanelProofs.SaveIsSafe`).
- A fixture whose first data asset writes the snapshot id as a UUID, or leaves it blank, is imported once and
  rejected the second time (`DemoSourceReceipt.SecondImport`).
- A demo run stops at a binding whose asset is published later; the order of the fixture rules it out
  (`DemoSeed.Seed.Run`, `DemoSeed.SmoothRunCompletes`).
- Rebinding references twice is not rebinding once in general, even when no result is a key
  (`Remap.DisjointResultsNotEnough`, `Remap.IdempotentIffStable`).
- The web dependency check looks at each lock key once, by whichever package it meets first, so the verdict on a lock
  whose packages share a key may depend on the order of map iteration and hide a package
  (`WebDependenciesProofs.SharedKeyHidesPackage`). In a given order it is right for every SBOM if and only if every
  component is looked up (`WebDependenciesProofs.RightForEverySbom`, `WebDependenciesProofs.RightInEveryOrder`); keys
  that decide the components are enough in every order (`WebDependenciesProofs.DecidedLooksUpAll`) but not needed
  (`WebDependenciesProofs.KeysNeedNotDecide`), and plain names are enough for that.
- The archive check accepts a second entry for a staged file under an unclean name
  (`ReleaseArchive.AliasAccepted`, `ReleaseArchive.FilesOnceMeansPlainNames`).

## Model

| member | source | states |
|---|---|---|
| `CatalogProvenance.RunKeepsInv` | web/src/catalogRuntime.tsx:128-148 | over any interleaving of commands, answers and failures, everything held was fetched for the current workspace in its current visit (appends called from a render of the current workspace) |
| `CatalogProvenance.AlwaysFromHere` | web/src/catalogRuntime.tsx:185-265 | the same for every run from the start |
| `CatalogProvenance.StepKeepsProvenance` | web/src/catalogRuntime.tsx:267-455 | one step, for each callback, the timer and each kind of answer |
| `CatalogProvenance.NewRequestKnown` | web/src/catalogRuntime.tsx:188-191 | a request on its way is for the list and visit of its issue |
| `CatalogLate.StepRaises` | web/src/catalogRuntime.tsx:128-132 | the visit grows exactly when the workspace changes, the list generation exactly when the fingerprint does; so A, B, A is a third visit |
| `CatalogLate.UserMovesOn` | web/src/catalogRuntime.tsx:216-233 | which commands start another list, exactly |
| `CatalogLate.LateAnswerChangesNothing` | web/src/catalogRuntime.tsx:59-64 | in every run from the start, stale closures included: after a switch (or, for lists, after any change of the list), however the run goes on, the answer takes its request away and changes nothing else |
| `CatalogLate.OutdatedAnswer` | web/src/catalogRuntime.tsx:276-288 | an outdated answer leaves all that is shown, all refs and all pending entries as they are |
| `CatalogLate.AppendNeedsFreshClosure` | web/src/catalogRuntime.tsx:235-265 | an append's answers keep everything held from the current workspace if and only if its closure was made for the current workspace |
| `CatalogLate.StaleWorkspaceShows` | web/src/catalogRuntime.tsx:235-253 | a run from the start: list, switch, append from the old closure, and the other workspace's asset is in the list |
| `CatalogListing.AlwaysCurrentList` | web/src/catalogRuntime.tsx:185-265 | in every run whose appends come from a render of the current list and whose created workspaces are not the current one under a query, every id listed is one that the server lists for the current workspace, query and asset type |
| `CatalogListing.AppendNeedsCurrentList` | web/src/catalogRuntime.tsx:235-253 | an append's answers keep the list the current one, whatever the server lists, if and only if workspace, query and asset type of its closure are current |
| `CatalogListing.StaleQueryShows` | web/src/catalogRuntime.tsx:226-253 | a run from the start that puts the old query's page under the new query |
| `CatalogListing.CreatedKeepsList` | web/src/catalogRuntime.tsx:426-432 | entering a created workspace keeps the list its own if and only if it is not the current one under a query with a list |
| `CatalogListing.CreatedUnderQuery` | web/src/catalogRuntime.tsx:426-432 | a run from the start: a workspace is created, listed, entered and queried before its creation is answered; then the query is empty and the list is still the query's |
| `CatalogListing.StepKeepsFilter` | web/src/catalogRuntime.tsx:226-232 | query and asset type change only with the list generation |
| `CatalogLate.OtherCallbacksAreSafe` | web/src/catalogRuntime.tsx:267-455 | every other callback keeps the invariant from any closure |
| `CatalogFlight.RunKeepsFlight` | web/src/catalogRuntime.tsx:364-424 | over every run the pending maps list exactly this visit's requests, one per key, and the cache agrees with what is shown |
| `CatalogFlight.CacheTellsTheTruth` | web/src/catalogRuntime.tsx:364-389 | a cached revision has the asset and id of its key, and no request for a cached key is on its way |
| `CatalogFlight.OneRequestPerKey` | web/src/catalogRuntime.tsx:369-387 | two requests for one key in one visit are the same request |
| `CatalogFlight.EarlierVisitTouchesNothing` | web/src/catalogRuntime.tsx:384-386 | the clean-up of a request from an earlier visit removes no successor's entry |
| `CatalogFlight.EndKeepsFlight` | web/src/catalogRuntime.tsx:419-421 | a request's clean-up keeps the maps exact |
| `CatalogIds.RunKeepsIds` | web/src/catalogRuntime.tsx:194-199 | over every run no asset and no list id is held twice and every list id is held as an asset (pages naming each asset once) |
| `CatalogIds.ReplaceOnce` | web/src/catalogRuntime.tsx:194-199 | a refreshed list names each asset once if and only if the page does |
| `CatalogIds.RefreshKeepsDetail` | web/src/catalogRuntime.tsx:194-198 | a refresh keeps a loaded detail if and only if the page does not list the asset or lists its revision |
| `CatalogIds.AppendOnce` | web/src/catalogRuntime.tsx:243-252 | an append holds exactly the old and the listed assets, each once, whatever the page repeats |
| `CatalogIds.AppendKeepsDetail` | web/src/catalogRuntime.tsx:243-252 | an append keeps a loaded detail if and only if every entry for it has its revision |
| `CatalogIds.AppendedIdsOnce` | web/src/catalogRuntime.tsx:253-253 | the appended ids repeat nothing if and only if every id that the page repeats is held already |
| `Paging.FirstPage` | web/src/catalogRuntime.tsx:277-285 | a first page is held as the distinct items of the chain if and only if it repeats no key |
| `Paging.MergeReadsOn` | web/src/catalogRuntime.tsx:307-310 | merging a page is reading on and dropping what was read before |
| `Paging.NextPage` | web/src/catalogRuntime.tsx:304-320 | the page for the current cursor moves on by exactly one page |
| `Paging.LastPageStops` | web/src/catalogRuntime.tsx:316-318 | there is a cursor to go on with exactly while pages are left, even if the server repeats its last cursor |
| `CatalogPaging.RunRefines` | web/src/catalogRuntime.tsx:293-362 | against a steady server, in any interleaving and from any closures, every revision list and authority section is a prefix of the server's pages, each key once |
| `CatalogPaging.MoreRevisionsMove` | web/src/catalogRuntime.tsx:303-320 | an answer for the cursor at hand advances by one page; any other changes neither items nor cursor |
| `CatalogPaging.AppendSectionMoves` | web/src/catalogRuntime.tsx:341-352 | the same for a section of authority records |
| `CatalogPaging.CursorUsedOnce` | web/src/catalogRuntime.tsx:303-306 | over any run of one visit: once the page after a cursor is held, no later answer for that cursor changes what is shown until the list is loaded anew |
| `CatalogPaging.AuthorityCursorUsedUp` | web/src/catalogRuntime.tsx:340-350 | after an authority page is appended the section does not wait for its cursor any more |
| `CatalogSections.SectionCursorUsedOnce` | web/src/catalogRuntime.tsx:339-352 | the same for a section over any run of one visit in which no detail, creation or list at another revision replaces the asset: it keeps its pages, and no later answer for a used cursor changes what is shown |
| `CatalogSections.ReplaceHolds` | web/src/catalogRuntime.tsx:194-198 | a refresh that does not name the asset at another revision leaves it, with its sections, the first of its id |
| `CatalogSections.MergeHolds` | web/src/catalogRuntime.tsx:243-252 | the same for an appended page |
| `CatalogList.AlwaysListsPages` | web/src/catalogRuntime.tsx:185-214 | from the start, in any interleaving with a steady server and appends from the list at hand: nothing is listed, or the ids are the distinct ids of the first k pages in order and the cursor is the one after them |
| `CatalogList.RunHoldsPages` | web/src/catalogRuntime.tsx:185-263 | the invariant behind it: one append of the current list at most is on its way, for the cursor at hand |
| `CatalogList.AppendShowsNext` | web/src/catalogRuntime.tsx:235-259 | an accepted page for the cursor at hand moves k pages to k + 1 exactly |
| `CatalogList.ListShowsFirst` | web/src/catalogRuntime.tsx:192-203 | a list answer shows the first page |
| `CatalogListRuns.PageKeepsListIff` | web/src/catalogRuntime.tsx:241-259 | with k pages listed, of non-empty pages that share no asset, an accepted page keeps the list if and only if it is page k + 1 or page k |
| `CatalogListRuns.LateAppendTurnsBack` | web/src/catalogRuntime.tsx:235-259 | a run from the start in which all pages are listed and a late answer sets the cursor back |
| `CatalogListRuns.EarlyAppendSkips` | web/src/catalogRuntime.tsx:235-259 | a run from the start in which an append made before the list was answered skips a page for good |
| `CatalogProgress.FirstPageLoads` | web/src/catalogRuntime.tsx:185-214 | a running timer ends in the first page, without loading state or error |
| `CatalogProgress.NextPageLoads` | web/src/catalogRuntime.tsx:235-259 | loading more from the render at hand shows one page more while there is one, and tells of a repeated cursor |
| `CatalogProgress.AllPagesLoad` | web/src/catalogRuntime.tsx:235-259 | from any list at hand all pages can be loaded, two steps each, and then there is no cursor left |
| `CatalogProgress.FailedListStays` | web/src/catalogRuntime.tsx:204-209 | a failed list leaves everything as it was, with its message |
| `CatalogProgress.FailedPageStays` | web/src/catalogRuntime.tsx:260-264 | a failed page leaves list and cursor, with its message, to be tried again |
| `CatalogProgress.RevisionsLoad` | web/src/catalogRuntime.tsx:267-285 | absent revisions are asked for and the answer is held, with its cursor |
| `CatalogProgress.RevisionsFail` | web/src/catalogRuntime.tsx:286-291 | a failure shows its message and can be tried again |
| `CatalogProgress.MoreRevisionsLoad` | web/src/catalogRuntime.tsx:293-321 | with k pages held, loading more holds k + 1, and tells of a repeated cursor |
| `CatalogProgress.MoreRevisionsFail` | web/src/catalogRuntime.tsx:322-326 | a failed page leaves the held ones, with its message |
| `CatalogProgress.PageAfterDrop` | web/src/catalogRuntime.tsx:302-326 | a page for a list that was dropped is dropped; its failure leaves an entry without a list that can be loaded again |
| `CatalogProgress.ExactLoads` | web/src/catalogRuntime.tsx:364-379 | an exact revision is fetched and cached if it is the one asked for; otherwise the state says so and nothing is cached |
| `CatalogProgress.ExactFails` | web/src/catalogRuntime.tsx:380-384 | a failure is the revision's state and nothing else |
| `CatalogDetails.DetailLoads` | web/src/catalogRuntime.tsx:391-416 | a detail stands in place of its listed asset, or first; every other asset keeps its place; revisions and section states of the asset are dropped |
| `CatalogDetails.DetailFails` | web/src/catalogRuntime.tsx:402-421 | a detail of another asset, and a failure, is a message and nothing else |
| `CatalogDetails.MoreAuthorityLoads` | web/src/catalogRuntime.tsx:328-357 | with k pages of a section held, loading more holds k + 1 |
| `CatalogDetails.CreatedComesFirst` | web/src/catalogRuntime.tsx:439-450 | a created asset comes first, once, and the list is asked for again |
| `CatalogDetails.SwitchLeavesNothing` | web/src/catalogRuntime.tsx:128-148 | a step that changes the workspace leaves nothing shown, cached or pending, and starts a list of the new one |
| `CatalogDetails.QueryStartsOver` | web/src/catalogRuntime.tsx:226-233 | another query empties the list and its cursor and asks for the new one; the same query does nothing |
| `CatalogDetails.CreatedIsEntered` | web/src/catalogRuntime.tsx:426-437 | a created workspace is entered without a query |
| `CatalogDetails.WorkspacesChosen` | web/src/catalogRuntime.tsx:165-183 | the wanted workspace, else the current one untouched, else the first |
| `CatalogDetails.AsksIff` | web/src/catalogRuntime.tsx:235-412 | from the render at hand a request is sent if and only if there is something to ask for |
| `CatalogDetails.AskedOnce` | web/src/catalogRuntime.tsx:235-412 | what was asked for is not asked for again from the next render |
| `CatalogKeys.RevisionKeysDiffer` | web/src/catalogRuntime.tsx:99-101 | two exact-revision cache keys are equal if and only if workspace, asset and revision are |
| `CatalogKeys.ColonKeysDiffer` | web/src/catalogRuntime.tsx:332-332 | keys joined by a colon tell both parts when the left part holds no colon |
| `CatalogRuntime.CatalogRuntimeProvider.ApplyWorkspace` | web/src/catalogRuntime.tsx:128-148 | the method does the switch step |
| `CatalogRuntime.CatalogRuntimeProvider.SetWorkspaceId` | web/src/catalogRuntime.tsx:216-224 | refresh for the closure's own workspace, otherwise the switch step |
| `CatalogRuntime.CatalogRuntimeProvider.SetQuery` | web/src/catalogRuntime.tsx:226-233 | the query step |
| `CatalogRuntime.CatalogRuntimeProvider.Refresh` | web/src/catalogRuntime.tsx:452-455 | the refresh step |
| `CatalogRuntime.CatalogRuntimeProvider.WorkspacesArrived` | web/src/catalogRuntime.tsx:168-176 | the choice of workspace when the list of workspaces arrives |
| `CatalogRuntime.CatalogRuntimeProvider.FireListTimer` | web/src/catalogRuntime.tsx:188-191 | the list request of the effect's timer, with the current fingerprint, query and asset type |
| `CatalogRuntime.CatalogRuntimeProvider.LoadMoreAssets` | web/src/catalogRuntime.tsx:235-241 | the append request with the closure's workspace, query and asset type and the ref's fingerprint, guarded by the closure's cursor |
| `CatalogRuntime.CatalogRuntimeProvider.EnsureRevisions` | web/src/catalogRuntime.tsx:267-275 | the first revision page's request |
| `CatalogRuntime.CatalogRuntimeProvider.LoadMoreRevisions` | web/src/catalogRuntime.tsx:293-301 | the next revision page's request |
| `CatalogRuntime.CatalogRuntimeProvider.LoadMoreAuthorityRecords` | web/src/catalogRuntime.tsx:328-338 | the next authority page's request |
| `CatalogRuntime.CatalogRuntimeProvider.EnsureRevision` | web/src/catalogRuntime.tsx:364-389 | cache, single flight, then the request |
| `CatalogRuntime.CatalogRuntimeProvider.EnsureAsset` | web/src/catalogRuntime.tsx:391-423 | single flight, then the request |
| `CatalogRuntime.CatalogRuntimeProvider.CreateAsset` | web/src/catalogRuntime.tsx:439-443 | the creation request |
| `CatalogRuntime.CatalogRuntimeProvider.Arrived` | web/src/catalogRuntime.tsx:192-208 | the code after each await, with its currency check and its clean-up, is the receive step |
| `CatalogRuntime.CatalogRuntimeProvider.ShowAppendedPage` | web/src/catalogRuntime.tsx:242-263 | the append loop and the id filter |
| `CatalogRuntime.CatalogRuntimeProvider.ShowNextRevisions` | web/src/catalogRuntime.tsx:302-324 | the revision merge with its cursor check |
| `CatalogRuntime.CatalogRuntimeProvider.ShowAuthorityPage` | web/src/catalogRuntime.tsx:339-360 | the authority merge with its cursor check |
| `CatalogRuntime.CatalogRuntimeProvider.ShowExactRevision` | web/src/catalogRuntime.tsx:374-383 | the exact revision's check and cache |
| `CatalogRuntime.CatalogRuntimeProvider.ShowAssetDetail` | web/src/catalogRuntime.tsx:402-417 | the detail's check and what it resets |
| `CatalogRuntime.CatalogRuntimeProvider.WorkspaceCreated` | web/src/catalogRuntime.tsx:426-436 | entering a created workspace with an empty query |
| `CatalogRuntime.MergeInto` | web/src/catalogRuntime.tsx:307-310 | the loop that pushes new items is the merge |
| `CatalogRuntime.MergeAssetsInto` | web/src/catalogRuntime.tsx:243-252 | the loop that pushes or replaces summaries is the merge |
| `CatalogRuntime.AppendRecordsInto` | web/src/catalogRuntime.tsx:341-352 | the nested maps over assets and sections |
| `WebDependencies.VerifyWebDependencyCoverage` | scripts/release/manifest.go:360-419 | the recursive check terminates on cyclic locks and accepts, in each order of map iteration, exactly when the packages it looks up are in SBOM and lock; in every order it accepts when all is covered and only when every reachable key is; if the keys decide the components, exactly when every reachable package is |
| `WebDependencies.Visit` | scripts/release/manifest.go:378-406 | a visit succeeds exactly when what it looks up is found, and has then seen the keys of it |
| `WebDependencies.LookedOncePerKey` | scripts/release/manifest.go:380-386 | every run looks up each reachable key exactly once, by one of its packages, and nothing else |
| `WebDependencies.AcceptsBetween` | scripts/release/manifest.go:376-418 | acceptance in any order lies between full coverage and coverage of every key |
| `WebDependenciesProofs.RightForEverySbom` | scripts/release/manifest.go:380-392 | in a given order the verdict is right for every SBOM if and only if every reachable component is looked up (or the lock is incomplete and never accepted) |
| `WebDependenciesProofs.RightInEveryOrder` | scripts/release/manifest.go:380-392 | the verdict is right in every order for every SBOM if and only if every order looks all components up |
| `WebDependenciesProofs.DecidedLooksUpAll` | scripts/release/manifest.go:380-392 | keys that decide the components are enough for that, in every order |
| `WebDependenciesProofs.KeysNeedNotDecide` | scripts/release/manifest.go:380-392 | a lock whose keys do not decide and which is still looked up in full in every order |
| `WebDependencies.DecidedKeysCover` | scripts/release/manifest.go:385-392 | covered keys cover every package if the keys decide the components |
| `WebDependenciesProofs.OneLookPerKey` | scripts/release/manifest.go:385-392 | a check free to look at any one package of each key would be right for every SBOM if and only if the keys decide the components |
| `WebDependenciesProofs.PlainNamesDecide` | scripts/release/manifest.go:380-388 | package names without "(" make the keys decide |
| `WebDependenciesProofs.SharedKeyHidesPackage` | scripts/release/manifest.go:380-392 | a lock and an SBOM without one of its packages that one order of iteration accepts and another rejects |
| `ReleaseArchive.VerifyArchiveInputs` | scripts/release/manifest.go:219-296 | the two-way comparison accepts exactly what it checks entry by entry |
| `ReleaseArchive.CheckedMeansSameFiles` | scripts/release/manifest.go:231-294 | for plain names and a collision-free digest: accepted if and only if archive and staging are the same files, each once, with both provenance files and an equal external SBOM |
| `ReleaseArchive.FilesOnceMeansPlainNames` | scripts/release/manifest.go:246-262 | an accepted archive holds each staged file once if and only if all its names are plain |
| `ReleaseArchive.CleanLaws` | scripts/release/manifest.go:253-262 | cleaning drops empty and "." segments, lets ".." take back a name, leaves plain paths alone and leaves nothing to drop |
| `ReleaseArchive.LocalStaysInside` | scripts/release/manifest.go:246-249 | a name is local if and only if it is relative and never leads out of the root on its way |
| `ReleaseArchive.AliasAccepted` | scripts/release/manifest.go:246-262 | an accepted archive that packs a file twice |
| `SourceFingerprint.WalkDir` | scripts/release/manifest.go:493-517 | the walk appends exactly the files it may include and stops at a symlink |
| `SourceFingerprint.SourceFingerprint` | scripts/release/manifest.go:485-529 | the payload is that of the fixed inputs |
| `SourceFingerprint.InputsAreSeparate` | scripts/release/manifest.go:486-486 | no input lies in another |
| `SourceFingerprintProofs.InputsFind` | scripts/release/manifest.go:492-521 | the walk finds exactly the included files |
| `SourceFingerprintProofs.InputsAccept` | scripts/release/manifest.go:493-520 | a fingerprint exists exactly when every input exists and holds no symlink |
| `SourceFingerprintProofs.PayloadIdentifiesFiles` | scripts/release/manifest.go:522-528 | whatever the traversal order, two readable trees have the same payload if and only if they hold the same included files |
| `SourceFingerprintProofs.PayloadListsFiles` | scripts/release/manifest.go:492-528 | the payload is the included files and no others, each once, strictly ascending by path |
| `CanonicalJsonProofs.CanonicalAccepts` | web/src/governance.ts:90-99 | a value is printed if and only if it is JSON |
| `CanonicalJsonProofs.DecodeCanonical` | web/src/governance.ts:90-99 | decoding the printed text gives the tree back |
| `CanonicalJsonProofs.CanonicalIdentifies` | web/src/governance.ts:90-99 | two values print the same text if and only if they are the same tree, objects taken as maps |
| `CanonicalJsonOrder.KeysAscend` | web/src/governance.ts:94-97 | read off the text in order, the keys of every object are strictly ascending by code unit |
| `CanonicalJsonOrder.WrittenOneWay` | web/src/governance.ts:94-97 | a tree has one way to be written with ascending keys |
| `CanonicalJsonOrder.CanonicalIsTheAscendingText` | web/src/governance.ts:90-99 | any text of the tree with ascending keys reads as the canonical one does |
| `CanonicalJsonOrder.SampleTexts` | web/src/governance.ts:90-99 | the literals, signs and key order of an object and a list |
| `CanonicalJsonProofs.CanonicalWellFormed` | web/src/governance.ts:90-103 | the text has no lone surrogate, so its UTF-8 bytes are defined |
| `CanonicalJsonProofs.BytesIdentify` | web/src/governance.ts:101-105 | the bytes that are hashed are equal if and only if the trees are |
| `JsonText.UnescapeEscape` | web/src/governance.ts:91-91 | the quoted text of a string reads back as the string |
| `JsonQuoting.QuotingIsShortest` | web/src/governance.ts:91-91 | of all texts that read back as the string, with no raw control character or lone surrogate, the one printed is the shortest, and the only one as short |
| `JsonQuoting.EscapeWrites` | web/src/governance.ts:91-91 | the printed text is one of them |
| `JsonQuoting.ScalarsRead` | web/src/governance.ts:103-103 | the code points that are encoded give the text back |
| `ChangeSet.PrepareIdempotent` | web/src/governance.ts:108-121 | preparing a prepared change set changes nothing |
| `ChangeSet.PrepareItemAccepts` | web/src/governance.ts:109-120 | an item is accepted exactly when its values are JSON and hashing is available if needed |
| `ChangeSet.DigestsCompareValues` | web/src/governance.ts:117-118 | each digest is that of the value sent with it, and the two agree if and only if the values do |
| `ChangeSet.DigestsCompareAcross` | web/src/governance.ts:101-106 | the same across items and callers |
| `ChangeSet.CatalogNamesAreFinal` | web/src/governance.ts:73-80 | a mapped path maps to itself, names inherited from Object.prototype included |
| `ChangeSetLines.LinesAreClean` | web/src/governance.ts:84-86 | list lines are trimmed, unbroken and not empty |
| `ChangeSetLines.LinesRoundTrip` | web/src/governance.ts:84-86 | the lines of a list, entered again, give the list |
| `ChangeSetLines.LinesCover` | web/src/governance.ts:84-86 | the lines and white space between them make up the whole text |
| `ChangeSetLines.LinesAreTheOnlyCover` | web/src/governance.ts:84-86 | no other clean lines do |
| `ChangeSetLines.PreparedSays` | web/src/governance.ts:109-120 | a prepared item carries the normalised values, a digest for each, and all else as given |
| `ChangeSetLines.CatalogNames` | web/src/governance.ts:73-80 | which fields are renamed, and that all others keep their names |
| `RecoveryLock.RecoveryLocks.Enter` | web/src/candidateRecovery.ts:38-40 | a call takes its predecessor from the map and puts its own promise there |
| `RecoveryLock.RecoveryLocks.Begin` | web/src/candidateRecovery.ts:39-39 | an action starts once its predecessor's promise is settled, rejected or not |
| `RecoveryLock.RecoveryLocks.Finish` | web/src/candidateRecovery.ts:39-41 | the action's promise is settled either way; the map is not touched |
| `RecoveryLock.RecoveryLocks.Exit` | web/src/candidateRecovery.ts:41-42 | a finishing caller deletes the entry only if it is its own |
| `RecoveryLock.RunKeepsInv` | web/src/candidateRecovery.ts:35-43 | the links between callers hold over every run |
| `RecoveryLock.MutualExclusion` | web/src/candidateRecovery.ts:39-39 | at most one action runs per key |
| `RecoveryLock.ArrivalOrder` | web/src/candidateRecovery.ts:38-39 | actions on a key start in arrival order, rejected ones included |
| `RecoveryLock.EntryIsLastCaller` | web/src/candidateRecovery.ts:40-42 | the entry is the last caller's until it finishes |
| `RecoveryLock.NoEntryLeft` | web/src/candidateRecovery.ts:42-42 | once all callers of a key are finished the map has no entry for it |
| `RecoveryLock.LeaveSparesSuccessor` | web/src/candidateRecovery.ts:42-42 | a finishing caller never deletes a later caller's entry |
| `RecoveryLock.LeavesWithItsOwn` | web/src/candidateRecovery.ts:39-42 | a caller has an outcome if and only if its own action settled with it |
| `RecoveryLock.OtherKeysUntouched` | web/src/candidateRecovery.ts:36-42 | no step changes another key's entry or callers |
| `RecoveryLock.Drains` | web/src/candidateRecovery.ts:38-42 | from every reachable state there is a run without new calls in which all callers finish and the map ends empty |
| `RecoveryLock.EveryRunDrains` | web/src/candidateRecovery.ts:38-42 | every run without new calls is bounded by the work left, and all callers have finished, with an empty map, exactly when it has done that much |
| `Inbox.ReadInboxPages` | web/src/inbox.ts:47-61 | whatever the n-th read answers: returns the whole chain in order if and only if it ends within 100 reads with no cursor coming twice and no abort, and fails otherwise, for exactly the reason that stopped it |
| `Inbox.RepeatNeverEnds` | web/src/inbox.ts:56-58 | if each cursor is answered the same way every time, a repeated cursor means that the chain never ends |
| `Inbox.BuildInbox` | web/src/inbox.ts:23-44 | the two loops and the sort build the rows |
| `InboxProofs.LatestKeepsLast` | web/src/inbox.ts:26-33 | of items with one id the last is kept, in the place of the first |
| `InboxProofs.ScopesPartitionInbox` | web/src/inbox.ts:28-43 | the initiated rows are, as a multiset, the pending and the done ones |
| `InboxProofs.NewestFirst` | web/src/inbox.ts:43-43 | rows are sorted by update time, newest first |
| `InboxProofs.InboxRows` | web/src/inbox.ts:25-42 | row ids are unique, and no task row is for a proposal that an operation owns |
| `InboxProofs.PendingShowsOpen` | web/src/inbox.ts:24-43 | "pending" is exactly the latest listed operations neither superseded, released nor unchanged, and the latest open tasks whose proposal no operation owns |
| `InboxProofs.DoneShowsClosed` | web/src/inbox.ts:24-43 | "done" is exactly the others |
| `InboxProofs.InitiatedShowsBoth` | web/src/inbox.ts:24-43 | "initiated" is both |
| `InboxProofs.RowSays` | web/src/inbox.ts:9-42 | what each row says: id, title, date, group, action, reason and state |
| `InboxProofs.InboxFails` | web/src/inbox.ts:37-39 | there are no rows if and only if a latest task of the scope has a malformed target |
| `InboxOrder.TiesKeepOrder` | web/src/inbox.ts:27-44 | rows of the same date stand in the order of first appearance, knowledge before tasks |
| `Remap.PlacesKept` | cmd/demo-seed/main.go:681-702 | places are kept, and what stands there is the rewrite of what stood there, except below an overridden releaseId |
| `Remap.ReleaseOfOriginal` | cmd/demo-seed/main.go:691-699 | a releaseId becomes the release of the object's original asset, whatever order keys are visited in |
| `Remap.LeavesRebound` | cmd/demo-seed/main.go:681-685 | a text that is a key becomes its replacement; every other leaf stays |
| `Remap.ReleaseRebound` | cmd/demo-seed/main.go:690-699 | an object that names an asset gets the release recorded for it, and keeps its own if none is |
| `Remap.IdempotentIffStable` | cmd/demo-seed/main.go:675-704 | rewriting twice is rewriting once for every value if and only if no result is replaced again and assets keep their releases |
| `Remap.DisjointResultsNotEnough` | cmd/demo-seed/main.go:695-699 | results that are no keys do not make it so |
| `Remap.DisjointIsStable` | cmd/demo-seed/main.go:393-396 | results that are neither keys nor subjects of release keys do |
| `Remap.Visit` | cmd/demo-seed/main.go:679-702 | the in-place visit leaves the rewritten tree and touches nothing outside the value |
| `Remap.VisitSlice` | cmd/demo-seed/main.go:686-689 | the loop over a slice |
| `Remap.VisitDict` | cmd/demo-seed/main.go:690-699 | the loop over a dictionary in any key order, then the release |
| `Remap.RemapCopy` | cmd/demo-seed/main.go:676-703 | the rewrite is made on a copy in fresh references; the caller's value, whatever it shares, is untouched |
| `Remap.Copy` | cmd/demo-seed/main.go:676-678 | encoding and decoding makes the same tree anew, without sharing |
| `DemoSeed.Import` | cmd/demo-seed/main.go:178-534 | the program started any number of times from nothing, stopping anywhere: per key at most one target and one proposal beyond the runs that stopped between creating and saving it; done keys have released proposals, assets their three replacements, a complete import all keys |
| `DemoSeed.ImportIsSafe` | cmd/demo-seed/main.go:352-534 | the same for any sequence of such runs |
| `DemoSeed.RunsGrow` | cmd/demo-seed/main.go:208-220 | saved progress only grows; nothing is created again for a saved key; a key's creations are the saved one and those that a run stopped before saving, exactly |
| `DemoSeed.OrphansAreStops` | cmd/demo-seed/main.go:208-220 | a run that ends well leaves no creation unsaved |
| `DemoSeed.RunsKeepWorldOk` | cmd/demo-seed/main.go:178-197 | runs that each keep the promises of the saved file keep them together, and nobody reviews twice |
| `DemoSeed.SmoothRunCompletes` | cmd/demo-seed/main.go:178-197 | one run in which no call fails, no proposal is rejected and each reaches review within the looks completes the import, whatever came before or after it: every key done, its proposal released and reviewed exactly once |
| `DemoSeed.Seed.Save` | cmd/demo-seed/main.go:208-220 | the file is replaced as a whole or not at all |
| `DemoSeed.Seed.Target` | cmd/demo-seed/main.go:366-379 | a target is created and saved, unless it is saved already |
| `DemoSeed.Seed.Proposal` | cmd/demo-seed/main.go:406-424 | the same for a proposal |
| `DemoSeed.Seed.Publish` | cmd/demo-seed/main.go:405-461 | without an error the proposal is released and was reviewed exactly once; an error names the call that failed, a rejected proposal, or 179 looks that found it in validation |
| `DemoSeed.Seed.Asset` | cmd/demo-seed/main.go:352-403 | the replacements are recorded together with the key's being done |
| `DemoSeed.Seed.Physical` | cmd/demo-seed/main.go:463-534 | bindings, then joins |
| `DemoSeed.Seed.Poll` | cmd/demo-seed/main.go:427-457 | a look that goes well ends in release, or leaves the proposal submitted, counting the look if it already was |
| `DemoSeed.Seed.ReviewAndPublish` | cmd/demo-seed/main.go:442-455 | a proposal in review ends released, with one review, unless a call fails |
| `DemoSeed.Seed.Run` | cmd/demo-seed/main.go:178-197 | one run, wherever it stops, has the effect the runs are made of; it stops only where a call failed, a proposal was rejected or never reached review, or a binding comes before what it binds |
| `DemoSourceValidator.SourceStatements` | internal/demodata/source.go:134-290 | accepts exactly the valid fixtures and emits exactly their rows |
| `DemoSourceValidator.Validator.ReadSpecs` | internal/demodata/source.go:157-184 | the loop over the assets accepts exactly good data assets and maps each dataset to its spec |
| `DemoSourceValidator.Validator.CheckMembers` | internal/demodata/source.go:214-230 | the loop over the members |
| `DemoSourceValidator.Validator.CheckFields` | internal/demodata/source.go:231-257 | the loop over the fields against the fixed schema |
| `DemoSourceValidator.Validator.CheckRelations` | internal/demodata/source.go:191-258 | the loop over the relations, no table and no object twice |
| `DemoSourceValidator.Emit` | internal/demodata/source.go:264-288 | the loops that append the statements |
| `DemoSourceDb.RowsFit` | internal/demodata/source.go:264-288 | executed in order the rows find their parents and clash with none of each other |
| `DemoSourceReceipt.ImportSucceeds` | internal/demodata/source.go:51-56 | an accepted fixture is imported if and only if none of its keys is taken, and commits |
| `DemoSourceReceipt.SecondImport` | internal/demodata/source.go:28-57 | the second import changes nothing if and only if the first data asset writes the snapshot id as a TypeID; otherwise it fails |
| `DemoSourceReceipt.ReceiptAfter` | internal/demodata/source.go:102-132 | after the import the receipt query holds |
| `DemoSourceReceipt.RecognisedByReceipt` | internal/demodata/source.go:60-132 | an import that inserts nothing found the fixture's own connection, snapshot digest and counts |
| `DemoSourceReading.ImportReadsBack` | internal/demodata/source.go:264-288 | after an import a reader who joins the tables finds the two tables of the source, each with one revision and its columns in the fixed order with names and types, and a snapshot of exactly these members |
| `DemoSourceReceipt.CountRows` | internal/demodata/source.go:113-121 | the receipt's numbers are the fixture's |
| `DemoSourceReceipt.SeedKeepsConsistent` | internal/demodata/source.go:36-56 | every reference is kept |
| `DemoSourceReceipt.Application.SeedSource` | internal/demodata/source.go:28-57 | the transaction ends as specified; a failure leaves the tables as they were |
| `DemoSourceMatch.AcceptedIsOneToOne` | internal/demodata/source.go:157-258 | acceptance makes data assets and relations the same datasets, one to one, with the same fields, one to one, at the same revisions |
| `DemoSourceMatch.SpellingDoesNotMatter` | internal/demodata/source.go:138-149 | acceptance is the same for dataset and field ids in either spelling |
| `DraftPanelProofs.RunKeepsInv` | web/src/SemanticProductionPanel.tsx:88-94 | the protocol's invariant over every run |
| `DraftPanelProofs.DirtyDraftSurvives` | web/src/SemanticProductionPanel.tsx:88-94 | a dirty draft survives every step but an edit, a discard, leaving, and the read of its own accepted save, which brings what the draft holds |
| `DraftPanelProofs.RunNeverLosesDraft` | web/src/SemanticProductionPanel.tsx:88-100 | the same in every reachable state |
| `DraftPanelNewDraft.NewDraftSurvives` | web/src/SemanticProductionPanel.tsx:88-94 | a draft that was never loaded survives every step but an edit, leaving, and a read of the operation that its own save created |
| `DraftPanelNewDraft.RunNeverLosesNewDraft` | web/src/SemanticProductionPanel.tsx:88-152 | in every reachable state such a read is of an operation whose first version, kept by the server, holds what the draft holds |
| `DraftPanelProofs.SentReplacesNameTheirBase` | web/src/SemanticProductionPanel.tsx:151-151 | every replace names the version that its draft was loaded from, and no key is answered twice |
| `DraftPanelProofs.SaveIsSafe` | web/src/SemanticProductionPanel.tsx:147-152 | a save never overwrites an unseen version, whatever the server holds, if and only if the draft was loaded from the open operation |
| `DraftPanelProofs.RunNeverOverwritesUnseen` | web/src/SemanticProductionPanel.tsx:138-156 | while each save is for its draft's operation, no accepted replace ever overwrites a version its author had not loaded |
| `DraftPanelProofs.FrozenIsSuperseded` | web/src/SemanticProductionPanel.tsx:148-149 | saving over a frozen operation changes no existing operation |
| `DraftPanelProofs.UnseenVersionOverwritten` | web/src/SemanticProductionPanel.tsx:88-151 | a run from the start that overwrites an unseen version |
| `DraftPanelProgress.NewDraftIsSaved` | web/src/SemanticProductionPanel.tsx:100-156 | a started draft becomes the first version of a new operation, shown clean, whether or not the first answer is lost |
| `DraftPanelProgress.EditIsSaved` | web/src/SemanticProductionPanel.tsx:100-156 | an edit of the server's version becomes the next one, or a new operation's first if it is frozen; no other version is written |
| `DraftPanelProgress.OutdatedEditIsKept` | web/src/SemanticProductionPanel.tsx:138-156 | an edit of an outdated version writes nothing and stays in the draft |
| `DraftPanelProgress.RecordOpens` | web/src/semanticProductionRuntime.tsx:38-59 | an opened record is shown as the server has it |
| `DraftPanelProgress.RefreshUnlocks` | web/src/semanticProductionRuntime.tsx:38-59 | a refresh keeps what is shown and edited, and its answer unlocks the panel after failures |
| `DraftPanelProgress.SaveIff` | web/src/SemanticProductionPanel.tsx:100-101 | when saving is possible |
| `DraftPanelProgress.EditIff` | web/src/SemanticProductionPanel.tsx:100-116 | when editing is |
| `DraftPanelProgress.DiscardedAndLeft` | web/src/SemanticProductionPanel.tsx:178-204 | discarding shows the loaded version, leaving forgets the draft, neither touches a request |
| `DraftPanel.ProductionPanel.ReloadEffect` | web/src/SemanticProductionPanel.tsx:88-94 | the reload effect |
| `DraftPanel.ProductionPanel.UpdateDraft` | web/src/SemanticProductionPanel.tsx:116-116 | an edit replaces the draft and makes it dirty |
| `DraftPanel.ProductionPanel.DiscardDraft` | web/src/SemanticProductionPanel.tsx:204-204 | discarding makes the draft clean and reads the loaded version |
| `DraftPanel.ProductionPanel.SaveDraft` | web/src/SemanticProductionPanel.tsx:100-152 | the lock, the guard and the request of a save |
| `DraftPanel.ProductionPanel.AnswerReceived` | web/src/semanticProductionRuntime.tsx:80-101 | an accepted save is remembered and read |
| `DraftPanel.ProductionPanel.DetailArrived` | web/src/semanticProductionRuntime.tsx:38-59 | a read sets the detail and runs the effect |
| `DraftPanel.ProductionPanel.BackToRecords` | web/src/SemanticProductionPanel.tsx:178-181 | leaving resets the draft |

## Left out

- Rendering, dialogs, labels, focus, dates, totals and the mapping of catalog assets to view fields.
- HTTP clients, command lines, PostgreSQL locking, triggers and encryption; a server is any answer of the right kind,
  a steady chain of pages, or the compare-and-set store of the draft protocol.
- SHA-256, tar, gzip, YAML and JSON decoding of files: digests are injective functions, inputs are already parsed.
- Array holes, `toJSON` and class instances in canonical JSON: values are the trees that JSON itself can hold, plus
  the values that are rejected.
- The Web Locks branch of the recovery lock.
- Liveness of loading flags and timers in the catalog runtime: the code does not promise it on every failure path.
- A state setter, its re-render and the effect it triggers are one step; nothing runs between them.
- Detail and section keys of the catalog runtime are pairs in the step system; `CatalogKeys` says when the texts
  the code uses tell the pairs.
- `Remap.Copy`: the JSON text between encoding and decoding is not modelled; the copy is made reference by reference.
- `DemoSeed.ImportIsSafe`: keys and fixture references are distinct texts, as the fixture has them; bootstrap, source
  import, relations and the final proof query are outside calls that may stop a run.
- `DemoSeed.Seed.Publish`: what the server does with a call is taken from the server: proposals only move forward, a
  submission begins validation, a release needs review and approval. Whether a call takes effect, whether its answer
  arrives and how far others move a proposal meanwhile is the outcome given for it.
- Symbolic links inside the staging directory, and the JSON text of the fingerprint payload: the payload is the
  sequence of path and digest.
- `InboxProofs.NewestFirst`: `localeCompare` is any ranking of the time texts.
- Diagnostics, names, disclosure texts and JSON metadata of the fixture's rows.
- `DraftPanelProofs.RunNeverOverwritesUnseen`: targets, rules, generations and publishing are not part of the model;
  an operation is its version, its content and whether it is frozen.
- `DraftPanel.ProductionPanel.AnswerReceived`: the list is read again between an accepted save and the read of its
  operation, and an older read may arrive meanwhile; here the acceptance and the start of the read are one step.
- Permissions and source loading are the `ready` argument of a save; the operation a located panel is opened for does
  not change while the panel is mounted.
