// Single flight and the exact-revision cache: at most one request per key and
// visit is on its way, its clean-up touches no other entry, and the cache holds
// only what the server returned for its key.
module CatalogFlight {
  import opened Wrappers
  import opened CatalogModel
  import opened CatalogProvenance

  function ExactKeyOf(r: Request): Option<ExactKey> {
    if r.kind.ExactRevision? then Some(ExactKey(r.origin.workspace, r.kind.asset, r.kind.revision)) else None
  }

  function DetailKeyOf(r: Request): Option<DetailKey> {
    if r.kind.DetailOf? then Some(DetailKey(r.origin.workspace, r.kind.asset)) else None
  }

  ghost predicate Issued(visit: nat, net: Net) {
    forall id :: id in net.requests ==> id < net.nextRequest && net.requests[id].origin.visit <= visit
  }

  // The pending map lists exactly this visit's requests that have a key, one per
  // key.
  ghost predicate OneEach<K>(
    keyOf: Request -> Option<K>, visit: nat, pending: map<K, nat>, requests: map<nat, Request>)
  {
    && (forall k :: k in pending ==>
          pending[k] in requests && keyOf(requests[pending[k]]) == Some(k)
            && requests[pending[k]].origin.visit == visit)
    && (forall id :: id in requests && requests[id].origin.visit == visit && keyOf(requests[id]).Some? ==>
          Lookup(pending, keyOf(requests[id]).value) == Some(id))
  }

  ghost predicate Flight(visit: nat, net: Net) {
    && Issued(visit, net)
    && OneEach(ExactKeyOf, visit, net.exactPending, net.requests)
    && OneEach(DetailKeyOf, visit, net.detailPending, net.requests)
  }

  // The cache agrees with what is shown for its keys and with the server's ids.
  ghost predicate CacheAgrees(
    workspace: string, cache: map<ExactKey, Held<Revision>>, states: map<ExactKey, ExactState>)
  {
    && (forall k :: k in cache ==>
          && k.workspace == workspace
          && cache[k].item.assetId == k.asset
          && cache[k].item.id == k.revision
          && k in states
          && states[k] == ExactReady(cache[k]))
    && (forall k :: k in states && states[k].ExactReady? ==> k in cache)
  }

  ghost predicate NotYetCached(pending: map<ExactKey, nat>, cache: map<ExactKey, Held<Revision>>) {
    pending.Keys !! cache.Keys
  }

  ghost predicate FlightInv(s: State) {
    && Flight(s.nav.visit, s.net)
    && CacheAgrees(s.nav.workspace, s.shown.exactCache, s.shown.exactStates)
    && NotYetCached(s.net.exactPending, s.shown.exactCache)
  }

  // ---- Starting ----

  ghost predicate FreeKey(net: Net, kind: Kind, workspace: string) {
    && (kind.ExactRevision? ==> ExactKey(workspace, kind.asset, kind.revision) !in net.exactPending)
    && (kind.DetailOf? ==> DetailKey(workspace, kind.asset) !in net.detailPending)
  }

  lemma AddOne<K>(
    keyOf: Request -> Option<K>, visit: nat, pending: map<K, nat>, requests: map<nat, Request>, id: nat, r: Request)
    requires OneEach(keyOf, visit, pending, requests) && id !in requests && r.origin.visit == visit
    ensures match keyOf(r)
            case None => OneEach(keyOf, visit, pending, requests[id := r])
            case Some(k) => k !in pending ==> OneEach(keyOf, visit, pending[k := id], requests[id := r])
  {
  }

  // A request removes its own entry if it belongs to this visit, and otherwise
  // nothing: a successor's entry stays.
  lemma EndOne<K>(keyOf: Request -> Option<K>, visit: nat, pending: map<K, nat>, requests: map<nat, Request>, id: nat)
    requires OneEach(keyOf, visit, pending, requests) && id in requests
    ensures match keyOf(requests[id])
            case None => OneEach(keyOf, visit, pending, requests - {id})
            case Some(k) =>
              && (Lookup(pending, k) == Some(id) <==> requests[id].origin.visit == visit)
              && OneEach(keyOf, visit, if Lookup(pending, k) == Some(id) then pending - {k} else pending,
                requests - {id})
  {
  }

  lemma IssueKeepsFlight(s: State, kind: Kind, workspace: string)
    requires Flight(s.nav.visit, s.net) && FreeKey(s.net, kind, workspace)
    ensures Flight(s.nav.visit, Issue(s, kind, workspace).net)
  {
    var id, r := s.net.nextRequest, Request(kind, Origin(workspace, s.nav.visit));
    AddOne(ExactKeyOf, s.nav.visit, s.net.exactPending, s.net.requests, id, r);
    AddOne(DetailKeyOf, s.nav.visit, s.net.detailPending, s.net.requests, id, r);
    hide OneEach;
  }

  lemma WantedIsFree(s: State, seen: Render, command: Command)
    ensures Wanted(s, seen, command).Some? && !command.CreateWorkspace? ==>
              FreeKey(s.net, Wanted(s, seen, command).value, seen.workspace)
    ensures Wanted(s, seen, command).Some? && Wanted(s, seen, command).value.ExactRevision? ==>
              var kind := Wanted(s, seen, command).value;
              ExactKey(seen.workspace, kind.asset, kind.revision) !in s.shown.exactCache
    ensures Wanted(s, seen, command).Some? ==>
            (command.CreateWorkspace? <==> Wanted(s, seen, command).value.NewWorkspace?)
    ensures Wanted(s, seen, command).Some? ==> !Wanted(s, seen, command).value.ListAssets?
  {
    hide SectionCursor;
  }

  lemma StartKeepsFlight(s: State, kind: Kind, workspace: string)
    requires FlightInv(s) && FreeKey(s.net, kind, workspace)
    requires kind.ExactRevision? ==> ExactKey(workspace, kind.asset, kind.revision) !in s.shown.exactCache
    ensures FlightInv(Start(s, kind, workspace))
  {
    IssueKeepsFlight(s.(shown := Waiting(s.shown, kind, workspace)), kind, workspace);
    hide Flight, CacheAgrees;
    if kind.ExactRevision? {
      var key := ExactKey(workspace, kind.asset, kind.revision);
      PutExactState(s.nav.workspace, s.shown.exactCache, s.shown.exactStates, key, ExactLoading);
    }
  }

  lemma SwitchKeepsFlight(s: State, next: string)
    requires FlightInv(s)
    ensures FlightInv(ApplyWorkspace(s, next))
  {
  }

  lemma CreatedKeepsFlight(s: State, id: string)
    requires FlightInv(s)
    ensures FlightInv(EnterCreated(s, id))
  {
    hide ApplyWorkspace, Flight;
    SwitchKeepsFlight(s, id);
  }

  lemma PerformKeepsFlight(s: State, seen: Render, command: Command)
    requires FlightInv(s)
    ensures FlightInv(Perform(s, seen, command))
  {
    hide ApplyWorkspace, Wanted, Start, Flight, NotYetCached;
    SwitchKeepsFlight(s, if command.SetWorkspace? then command.next else s.nav.workspace);
    var wanted := Wanted(s, seen, command);
    WantedIsFree(s, seen, command);
    if wanted.Some? {
      StartKeepsFlight(s, wanted.value, if wanted.value.NewWorkspace? then "" else seen.workspace);
    }
  }

  // ---- Finishing ----

  lemma EndKeepsFlight(visit: nat, net: Net, id: nat)
    requires Flight(visit, net) && id in net.requests
    ensures Flight(visit, CleanUp(net.(requests := net.requests - {id}), id, net.requests[id]))
  {
    EndOne(ExactKeyOf, visit, net.exactPending, net.requests, id);
    EndOne(DetailKeyOf, visit, net.detailPending, net.requests, id);
    hide OneEach;
  }

  // The clean-up of a request from an earlier visit changes no pending entry.
  lemma EarlierVisitTouchesNothing(visit: nat, net: Net, id: nat)
    requires Flight(visit, net) && id in net.requests && net.requests[id].origin.visit != visit
    ensures CleanUp(net.(requests := net.requests - {id}), id, net.requests[id]) ==
            net.(requests := net.requests - {id})
  {
    EndOne(ExactKeyOf, visit, net.exactPending, net.requests, id);
    EndOne(DetailKeyOf, visit, net.detailPending, net.requests, id);
  }

  lemma ShowExactAgrees(shown: Shown, o: Origin, asset: Id, revision: Id, answer: Answer)
    requires CacheAgrees(o.workspace, shown.exactCache, shown.exactStates)
    requires ExactKey(o.workspace, asset, revision) !in shown.exactCache
    ensures var after := ShowExact(shown, o, asset, revision, answer);
            CacheAgrees(o.workspace, after.exactCache, after.exactStates)
  {
    var key := ExactKey(o.workspace, asset, revision);
    match answer
    case OneRevision(r) =>
      if r.assetId != asset || r.id != revision {
        PutExactState(o.workspace, shown.exactCache, shown.exactStates, key, ExactFailed(WRONG_REVISION));
      } else {
        PutExact(o.workspace, shown.exactCache, shown.exactStates, key, Held(r, o));
      }
    case Failure(message) =>
      PutExactState(o.workspace, shown.exactCache, shown.exactStates, key, ExactFailed(message));
    case _ =>
  }

  lemma PutExact(
    workspace: string, cache: map<ExactKey, Held<Revision>>, states: map<ExactKey, ExactState>, key: ExactKey,
    revision: Held<Revision>)
    requires CacheAgrees(workspace, cache, states)
    requires key == ExactKey(workspace, revision.item.assetId, revision.item.id)
    ensures CacheAgrees(workspace, cache[key := revision], states[key := ExactReady(revision)])
  {
  }

  lemma PutExactState(
    workspace: string, cache: map<ExactKey, Held<Revision>>, states: map<ExactKey, ExactState>, key: ExactKey,
    state: ExactState)
    requires CacheAgrees(workspace, cache, states) && key !in cache && !state.ExactReady?
    ensures CacheAgrees(workspace, cache, states[key := state])
  {
  }

  lemma ShowKeepsCache(shown: Shown, r: Request, answer: Answer)
    requires !r.kind.ExactRevision?
    ensures SameExact(shown, Show(shown, r, answer))
  {
    hide ShowList, ShowAppended, ShowRevisions, ShowMoreRevisions, ShowMoreAuthority, ShowDetail, ShowNewAsset;
  }

  lemma ShowExactIsNew(shown: Shown, o: Origin, asset: Id, revision: Id, answer: Answer, pending: map<ExactKey, nat>)
    requires NotYetCached(pending, shown.exactCache)
    ensures NotYetCached(pending - {ExactKey(o.workspace, asset, revision)},
                         ShowExact(shown, o, asset, revision, answer).exactCache)
  {
  }

  // The request that the answer belongs to has left the cache's way: its key is
  // pending until now, so it was not cached.
  lemma CleanUpShrinks(net: Net, id: nat, r: Request)
    ensures CleanUp(net, id, r).exactPending.Keys <= net.exactPending.Keys
  {
  }

  lemma EndKeepsInv(s: State, id: nat)
    requires FlightInv(s) && id in s.net.requests
    ensures FlightInv(s.(net := CleanUp(s.net.(requests := s.net.requests - {id}), id, s.net.requests[id])))
  {
    EndKeepsFlight(s.nav.visit, s.net, id);
    CleanUpShrinks(s.net.(requests := s.net.requests - {id}), id, s.net.requests[id]);
    hide Flight, CleanUp, CacheAgrees;
  }

  lemma ExactAnswerKeepsFlight(s: State, id: nat, answer: Answer)
    requires FlightInv(s) && id in s.net.requests && Current(s.nav, s.net.requests[id])
    requires s.net.requests[id].kind.ExactRevision?
    ensures FlightInv(Receive(s, id, answer))
  {
    var r := s.net.requests[id];
    EndKeepsFlight(s.nav.visit, s.net, id);
    EndOne(ExactKeyOf, s.nav.visit, s.net.exactPending, s.net.requests, id);
    hide Flight, OneEach, ShowExact, CacheAgrees;
    ShowExactAgrees(s.shown, r.origin, r.kind.asset, r.kind.revision, answer);
    ShowExactIsNew(s.shown, r.origin, r.kind.asset, r.kind.revision, answer, s.net.exactPending);
  }

  lemma ReceiveKeepsFlight(s: State, id: nat, answer: Answer)
    requires FlightInv(s) && id in s.net.requests
    ensures FlightInv(Receive(s, id, answer))
  {
    hide Flight, Show, ApplyWorkspace, CleanUp, CacheAgrees, NotYetCached;
    var r := s.net.requests[id];
    if Current(s.nav, r) && r.kind.ExactRevision? {
      ExactAnswerKeepsFlight(s, id, answer);
    } else {
      if !r.kind.ExactRevision? { ShowKeepsCache(s.shown, r, answer); }
      if answer.Created? { CreatedKeepsFlight(s, answer.workspace); }
      AcceptAdvances(s, r, answer);
      EndKeepsInv(if Current(s.nav, r) then Accept(s, r, answer) else s, id);
    }
  }

  lemma StepKeepsFlight(s: State, step: Step)
    requires FlightInv(s) && Enabled(s, step)
    ensures FlightInv(Next(s, step))
  {
    hide Perform, ApplyWorkspace, Receive, Flight, NotYetCached;
    match step
    case Do(seen, command) => PerformKeepsFlight(s, seen, command);
    case Prefer(preferred) => SwitchKeepsFlight(s, preferred);
    case WorkspacesListed(ids, wanted) =>
      SwitchKeepsFlight(s, Chosen(s, ids, wanted));
      ErrorKeepsFlight(ApplyWorkspace(s, Chosen(s, ids, wanted)), ShowWorkspaces(s, ids, wanted).shown);
    case WorkspacesFailed(message) => ErrorKeepsFlight(s, s.shown.(error := message, loading := false));
    case TimerFires =>
      var t := s.(nav := s.nav.(timer := false), shown := s.shown.(loading := true));
      ErrorKeepsFlight(s, t.shown);
      IssueKeepsFlight(t, ListAssets(s.nav.fingerprint, s.nav.effect, FilterOf(s.nav)), s.nav.workspace);
    case Deliver(id, answer) => ReceiveKeepsFlight(s, id, answer);
  }

  lemma ErrorKeepsFlight(s: State, shown: Shown)
    requires FlightInv(s) && shown.exactCache == s.shown.exactCache && shown.exactStates == s.shown.exactStates
    ensures FlightInv(s.(shown := shown))
  {
  }

  // Over every run from the start, with any callbacks, stale or not.
  lemma {:induction false} RunKeepsFlight(s: State, steps: seq<Step>)
    requires FlightInv(s) && Run(s, steps).Some?
    ensures FlightInv(Run(s, steps).value)
    decreases |steps|
  {
    hide FlightInv, Next;
    if steps != [] {
      StepKeepsFlight(s, steps[0]);
      RunKeepsFlight(Next(s, steps[0]), steps[1..]);
    }
  }

  ghost predicate SameKey(a: Request, b: Request) {
    (a.kind.ExactRevision? || a.kind.DetailOf?) && a == b
  }

  // At most one request per key is on its way in a visit, and none for a key that
  // is cached; what is cached for a key is that key's revision.
  lemma CacheTellsTheTruth(steps: seq<Step>, k: ExactKey)
    requires Run(INITIAL, steps).Some?
    ensures var s := Run(INITIAL, steps).value;
            k in s.shown.exactCache ==>
              && k.workspace == s.nav.workspace
              && s.shown.exactCache[k].item.assetId == k.asset
              && s.shown.exactCache[k].item.id == k.revision
              && (forall id :: id in s.net.requests ==>
                    s.net.requests[id] != Request(ExactRevision(k.asset, k.revision), Here(s.nav)))
  {
    hide Next;
    assert FlightInv(INITIAL);
    RunKeepsFlight(INITIAL, steps);
    var s := Run(INITIAL, steps).value;
    forall id | id in s.net.requests && s.net.requests[id] == Request(ExactRevision(k.asset, k.revision), Here(s.nav))
      ensures k !in s.shown.exactCache
    {
      assert ExactKeyOf(s.net.requests[id]) == Some(ExactKey(s.nav.workspace, k.asset, k.revision));
    }
  }

  lemma OneRequestPerKey(steps: seq<Step>, a: nat, b: nat)
    requires Run(INITIAL, steps).Some?
    requires var s := Run(INITIAL, steps).value;
             && a in s.net.requests && b in s.net.requests && SameKey(s.net.requests[a], s.net.requests[b])
             && s.net.requests[a].origin.visit == s.nav.visit
    ensures a == b
  {
    hide Next;
    assert FlightInv(INITIAL);
    RunKeepsFlight(INITIAL, steps);
  }
}
