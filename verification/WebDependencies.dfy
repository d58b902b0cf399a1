// Dependency coverage of the web lockfile: every production package reachable
// from the two importers must have an SBOM component and a lock snapshot.
module WebDependencies {
  // Go iterates over maps in no fixed order: an Order below is what one run happens
  // to take.
  type Versions = map<string, string>

  datatype Snapshot = Snapshot(dependencies: Versions, optional: Versions)

  // The parsed lockfile: importer name to its dependencies, and snapshots by key.
  datatype Lock = Lock(importers: map<string, Versions>, snapshots: map<string, Snapshot>)

  datatype Edge = Edge(name: string, version: string)

  const LINK := "link:"
  const WEB := "web"
  const SDK := "sdk/typescript"

  predicate IsLink(version: string) {
    LINK <= version
  }

  function Key(e: Edge): string {
    e.name + "@" + e.version
  }

  // strings.Split(version, "(")[0]
  function BeforeParen(s: string): string {
    if s == "" || s[0] == '(' then "" else [s[0]] + BeforeParen(s[1..])
  }

  function Component(e: Edge): string {
    "pkg:npm/" + e.name + "@" + BeforeParen(e.version)
  }

  ghost function EdgesOf(versions: Versions): set<Edge> {
    set name | name in versions :: Edge(name, versions[name])
  }

  ghost function Children(lock: Lock, key: string): set<Edge>
    requires key in lock.snapshots
  {
    EdgesOf(lock.snapshots[key].dependencies) + EdgesOf(lock.snapshots[key].optional)
  }

  ghost predicate Root(lock: Lock, e: Edge) {
    (WEB in lock.importers && e in EdgesOf(lock.importers[WEB]))
    || (SDK in lock.importers && e in EdgesOf(lock.importers[SDK]))
  }

  ghost predicate Linked(lock: Lock, e: Edge, c: Edge) {
    !IsLink(e.version) && Key(e) in lock.snapshots && c in Children(lock, Key(e))
  }

  // A chain of dependencies from an importer to e.
  ghost predicate Chain(lock: Lock, p: seq<Edge>, e: Edge) {
    && p != []
    && p[|p| - 1] == e
    && if |p| == 1 then Root(lock, e) else Chain(lock, p[..|p| - 1], p[|p| - 2]) && Linked(lock, p[|p| - 2], e)
  }

  ghost predicate Reachable(lock: Lock, e: Edge) {
    exists p :: Chain(lock, p, e)
  }

  ghost predicate Package(lock: Lock, e: Edge) {
    Reachable(lock, e) && !IsLink(e.version)
  }

  ghost predicate Importers(lock: Lock) {
    WEB in lock.importers && SDK in lock.importers
  }

  // What the check promises: each reachable package is in the SBOM and the lock.
  ghost predicate Covered(lock: Lock, components: set<string>) {
    && Importers(lock)
    && forall e :: Package(lock, e) ==> Component(e) in components && Key(e) in lock.snapshots
  }

  // Some reachable package with this key is in the SBOM.
  ghost predicate Vouched(lock: Lock, components: set<string>, key: string) {
    exists e :: Package(lock, e) && Key(e) == key && Component(e) in components
  }

  // What the check establishes: it looks at each key once.
  ghost predicate KeysCovered(lock: Lock, components: set<string>) {
    && Importers(lock)
    && forall e :: Package(lock, e) ==> Key(e) in lock.snapshots && Vouched(lock, components, Key(e))
  }

  lemma ChildReachable(lock: Lock, e: Edge, c: Edge)
    requires Package(lock, e) && Key(e) in lock.snapshots && c in Children(lock, Key(e))
    ensures Reachable(lock, c)
  {
    var p :| Chain(lock, p, e);
    assert (p + [c])[..|p + [c]| - 1] == p;
    assert Chain(lock, p + [c], c);
  }

  lemma RootReachable(lock: Lock, e: Edge)
    requires Root(lock, e)
    ensures Reachable(lock, e)
  {
    assert Chain(lock, [e], e);
  }

  // ---- The order of the visit ----

  // The order in which this run happens to iterate over each map. Each is iterated
  // over once at most, because a key is visited once.
  datatype Order = Order(
    importers: map<string, seq<string>>,
    dependencies: map<string, seq<string>>,
    optional: map<string, seq<string>>)

  predicate NamesIn(names: seq<string>, versions: Versions) {
    forall i :: 0 <= i < |names| ==> names[i] in versions
  }

  predicate Lists(names: seq<string>, versions: Versions) {
    && (forall i, j :: 0 <= i < j < |names| ==> names[i] != names[j])
    && NamesIn(names, versions)
    && (forall name :: name in versions ==> name in names)
  }

  predicate IsOrder(lock: Lock, order: Order) {
    && (forall i :: i in lock.importers ==> i in order.importers && Lists(order.importers[i], lock.importers[i]))
    && (forall k :: k in lock.snapshots ==>
          && k in order.dependencies && Lists(order.dependencies[k], lock.snapshots[k].dependencies)
          && k in order.optional && Lists(order.optional[k], lock.snapshots[k].optional))
  }

  ghost function KeysOf(looked: seq<Edge>): set<string> {
    set e | e in looked :: Key(e)
  }

  lemma KeysOfMore(looked: seq<Edge>, e: Edge)
    ensures KeysOf(looked + [e]) == KeysOf(looked) + {Key(e)}
  {
    assert forall f :: f in looked + [e] <==> f in looked || f == e;
  }

  // The packages that are looked up, in order, whatever the SBOM holds: a package
  // whose key was met before is passed by.
  ghost function Look(lock: Lock, order: Order, e: Edge, looked: seq<Edge>): (r: seq<Edge>)
    requires IsOrder(lock, order)
    ensures looked <= r && KeysOf(looked) <= KeysOf(r)
    decreases lock.snapshots.Keys - KeysOf(looked), 0
  {
    var key := Key(e);
    if IsLink(e.version) || key in KeysOf(looked) then looked
    else
      KeysOfMore(looked, e);
      if key !in lock.snapshots then looked + [e]
      else
        assert key in lock.snapshots.Keys - KeysOf(looked);
        var middle := LookAll(lock, order, order.dependencies[key], lock.snapshots[key].dependencies, looked + [e]);
        LookAll(lock, order, order.optional[key], lock.snapshots[key].optional, middle)
  }

  ghost function LookAll(lock: Lock, order: Order, names: seq<string>, versions: Versions,
      looked: seq<Edge>): (r: seq<Edge>)
    requires IsOrder(lock, order)
    requires NamesIn(names, versions)
    ensures looked <= r && KeysOf(looked) <= KeysOf(r)
    decreases lock.snapshots.Keys - KeysOf(looked), 1 + |names|
  {
    if names == [] then looked
    else LookAll(lock, order, names[1..], versions, Look(lock, order, Edge(names[0], versions[names[0]]), looked))
  }

  ghost function LookImporter(lock: Lock, order: Order, importer: string, looked: seq<Edge>): (r: seq<Edge>)
    requires IsOrder(lock, order)
    ensures looked <= r && KeysOf(looked) <= KeysOf(r)
  {
    if importer in lock.importers
    then LookAll(lock, order, order.importers[importer], lock.importers[importer], looked)
    else looked
  }

  // All packages that a run in this order looks up.
  ghost function Looked(lock: Lock, order: Order): seq<Edge>
    requires IsOrder(lock, order)
  {
    LookImporter(lock, order, SDK, LookImporter(lock, order, WEB, []))
  }

  ghost predicate Found(lock: Lock, components: set<string>, looked: seq<Edge>) {
    forall e :: e in looked ==> Component(e) in components && Key(e) in lock.snapshots
  }

  // The verdict of a run in this order.
  ghost predicate Accepts(lock: Lock, components: set<string>, order: Order)
    requires IsOrder(lock, order)
  {
    Importers(lock) && Found(lock, components, Looked(lock, order))
  }

  // ---- The check ----

  method Visit(lock: Lock, components: set<string>, order: Order, e: Edge, before: set<string>, ghost looked: seq<Edge>)
    returns (ok: bool, seen: set<string>)
    requires IsOrder(lock, order) && before == KeysOf(looked) && Found(lock, components, looked)
    ensures ok <==> Found(lock, components, Look(lock, order, e, looked))
    ensures ok ==> seen == KeysOf(Look(lock, order, e, looked))
    decreases lock.snapshots.Keys - before, 0
  {
    seen := before;
    if IsLink(e.version) {
      return true, seen;
    }
    var key := Key(e);
    if key in seen {
      return true, seen;
    }
    seen := seen + {key};
    KeysOfMore(looked, e);
    if Component(e) !in components || key !in lock.snapshots {
      assert e in looked + [e] && looked + [e] <= Look(lock, order, e, looked);
      return false, seen;
    }
    assert key in lock.snapshots.Keys - before;
    var node := lock.snapshots[key];
    ghost var mine := looked + [e];
    ok, seen := VisitAll(lock, components, order, order.dependencies[key], node.dependencies, seen, mine);
    ghost var middle := LookAll(lock, order, order.dependencies[key], node.dependencies, mine);
    ghost var all := LookAll(lock, order, order.optional[key], node.optional, middle);
    assert all == Look(lock, order, e, looked);
    if ok {
      assert lock.snapshots.Keys - seen <= lock.snapshots.Keys - KeysOf(mine);
      ok, seen := VisitAll(lock, components, order, order.optional[key], node.optional, seen, middle);
    } else {
      if Found(lock, components, all) { FoundEarlier(lock, components, middle, all); }
    }
  }

  lemma FoundEarlier(lock: Lock, components: set<string>, looked: seq<Edge>, more: seq<Edge>)
    requires looked <= more && Found(lock, components, more)
    ensures Found(lock, components, looked)
  {
    forall e | e in looked
      ensures e in more
    {
      var i :| 0 <= i < |looked| && looked[i] == e;
      assert more[i] == e;
    }
  }

  // The loop over a map, in the order of its names.
  method VisitAll(
    lock: Lock, components: set<string>, order: Order, names: seq<string>, versions: Versions, before: set<string>,
    ghost looked: seq<Edge>)
    returns (ok: bool, seen: set<string>)
    requires IsOrder(lock, order) && before == KeysOf(looked) && Found(lock, components, looked)
    requires NamesIn(names, versions)
    ensures ok <==> Found(lock, components, LookAll(lock, order, names, versions, looked))
    ensures ok ==> seen == KeysOf(LookAll(lock, order, names, versions, looked))
    decreases lock.snapshots.Keys - before, 1
  {
    ok, seen := true, before;
    ghost var done, all := looked, LookAll(lock, order, names, versions, looked);
    for i := 0 to |names|
      invariant seen == KeysOf(done) && before <= seen && Found(lock, components, done)
      invariant LookAll(lock, order, names[i..], versions, done) == all
    {
      var e := Edge(names[i], versions[names[i]]);
      assert names[i..][0] == names[i] && names[i..][1..] == names[i + 1..];
      ghost var next := Look(lock, order, e, done);
      assert next <= LookAll(lock, order, names[i + 1..], versions, next) == all;
      ok, seen := Visit(lock, components, order, e, seen, done);
      if !ok {
        if Found(lock, components, all) { FoundEarlier(lock, components, next, all); }
        return;
      }
      done := next;
    }
  }

  // The check accepts exactly when the packages it looks up are in the SBOM and
  // the lock.
  method VerifyWebDependencyCoverage(lock: Lock, components: set<string>, order: Order) returns (ok: bool)
    requires IsOrder(lock, order)
    ensures ok <==> Accepts(lock, components, order)
    ensures Covered(lock, components) ==> ok
    ensures ok ==> KeysCovered(lock, components)
    ensures KeysDecideComponents(lock) ==> (ok <==> Covered(lock, components))
  {
    AcceptsBetween(lock, components, order);
    hide Covered, KeysCovered, KeysDecideComponents, IsOrder, Lists, LookAll;
    var seen: set<string> := {};
    if WEB !in lock.importers {
      return false;
    }
    assert Lists(order.importers[WEB], lock.importers[WEB]) by { OrderLists(lock, order, WEB); }
    NamesListed(order.importers[WEB], lock.importers[WEB]);
    ok, seen := VisitAll(lock, components, order, order.importers[WEB], lock.importers[WEB], seen, []);
    ghost var middle := LookImporter(lock, order, WEB, []);
    if !ok || SDK !in lock.importers {
      if SDK in lock.importers && Found(lock, components, Looked(lock, order)) {
        FoundEarlier(lock, components, middle, Looked(lock, order));
      }
      return false;
    }
    assert Lists(order.importers[SDK], lock.importers[SDK]) by { OrderLists(lock, order, SDK); }
    NamesListed(order.importers[SDK], lock.importers[SDK]);
    ok, seen := VisitAll(lock, components, order, order.importers[SDK], lock.importers[SDK], seen, middle);
  }

  lemma OrderLists(lock: Lock, order: Order, importer: string)
    requires IsOrder(lock, order) && importer in lock.importers
    ensures importer in order.importers && Lists(order.importers[importer], lock.importers[importer])
  {
  }

  lemma NamesListed(names: seq<string>, versions: Versions)
    requires Lists(names, versions)
    ensures NamesIn(names, versions)
  {
  }

  // ---- What is looked up ----

  // Only packages, one per key.
  ghost predicate OneEach(lock: Lock, looked: seq<Edge>) {
    && (forall i :: 0 <= i < |looked| ==> Package(lock, looked[i]))
    && (forall i, j :: 0 <= i < j < |looked| ==> Key(looked[i]) != Key(looked[j]))
  }

  // The dependencies of a package that was looked up are looked up, or were.
  ghost predicate Followed(lock: Lock, e: Edge, looked: seq<Edge>) {
    Key(e) in lock.snapshots ==> forall c :: c in Children(lock, Key(e)) ==>
      IsLink(c.version) || Key(c) in KeysOf(looked)
  }

  ghost predicate FollowedFrom(lock: Lock, n: nat, looked: seq<Edge>) {
    forall i :: n <= i < |looked| ==> Followed(lock, looked[i], looked)
  }

  lemma FollowedLater(lock: Lock, n: nat, looked: seq<Edge>, more: seq<Edge>)
    requires looked <= more && KeysOf(looked) <= KeysOf(more)
    requires FollowedFrom(lock, n, looked) && FollowedFrom(lock, |looked|, more)
    ensures FollowedFrom(lock, n, more)
  {
    forall i | n <= i < |more|
      ensures Followed(lock, more[i], more)
    {
      if i < |looked| { assert Followed(lock, looked[i], looked); }
    }
  }

  lemma OneMore(lock: Lock, e: Edge, looked: seq<Edge>)
    requires OneEach(lock, looked) && Package(lock, e) && Key(e) !in KeysOf(looked)
    ensures OneEach(lock, looked + [e])
  {
    hide Package;
    forall i | 0 <= i < |looked|
      ensures Key(looked[i]) != Key(e)
    {
      assert looked[i] in looked;
    }
  }

  lemma ChildrenReachable(lock: Lock, e: Edge)
    requires Package(lock, e) && Key(e) in lock.snapshots
    ensures forall c :: c in Children(lock, Key(e)) ==> Reachable(lock, c)
  {
    forall c | c in Children(lock, Key(e))
      ensures Reachable(lock, c)
    {
      ChildReachable(lock, e, c);
    }
  }

  lemma OrderChildren(lock: Lock, order: Order, key: string)
    requires IsOrder(lock, order) && key in lock.snapshots
    requires forall c :: c in Children(lock, key) ==> Reachable(lock, c)
    ensures key in order.dependencies && NamesIn(order.dependencies[key], lock.snapshots[key].dependencies)
    ensures key in order.optional && NamesIn(order.optional[key], lock.snapshots[key].optional)
    ensures key in order.dependencies && AllReachable(lock, order.dependencies[key], lock.snapshots[key].dependencies)
    ensures key in order.optional && AllReachable(lock, order.optional[key], lock.snapshots[key].optional)
    ensures forall c :: c in Children(lock, key) ==>
              Listed(c, order.dependencies[key], lock.snapshots[key].dependencies)
              || Listed(c, order.optional[key], lock.snapshots[key].optional)
  {
    hide Reachable;
    var node := lock.snapshots[key];
    forall i | 0 <= i < |order.dependencies[key]|
      ensures Reachable(lock, Edge(order.dependencies[key][i], node.dependencies[order.dependencies[key][i]]))
    {
      var name := order.dependencies[key][i];
      assert Edge(name, node.dependencies[name]) in EdgesOf(node.dependencies);
    }
    forall i | 0 <= i < |order.optional[key]|
      ensures Reachable(lock, Edge(order.optional[key][i], node.optional[order.optional[key][i]]))
    {
      assert Edge(order.optional[key][i], node.optional[order.optional[key][i]]) in EdgesOf(node.optional);
    }
  }

  // The edge of one of the names.
  ghost predicate Listed(e: Edge, names: seq<string>, versions: Versions) {
    e.name in names && e.name in versions && e.version == versions[e.name]
  }

  ghost predicate AllReachable(lock: Lock, names: seq<string>, versions: Versions) {
    forall i :: 0 <= i < |names| ==> names[i] in versions && Reachable(lock, Edge(names[i], versions[names[i]]))
  }

  ghost predicate AllLooked(names: seq<string>, versions: Versions, looked: seq<Edge>) {
    forall e :: Listed(e, names, versions) ==> IsLink(e.version) || Key(e) in KeysOf(looked)
  }

  lemma {:induction false} LookFollows(lock: Lock, order: Order, e: Edge, looked: seq<Edge>)
    requires IsOrder(lock, order) && Reachable(lock, e) && OneEach(lock, looked)
    ensures OneEach(lock, Look(lock, order, e, looked))
    ensures IsLink(e.version) || Key(e) in KeysOf(Look(lock, order, e, looked))
    ensures FollowedFrom(lock, |looked|, Look(lock, order, e, looked))
    decreases lock.snapshots.Keys - KeysOf(looked), 0
  {
    hide OneEach, FollowedFrom, Reachable, IsOrder, LookAll, AllReachable, AllLooked, Listed, KeysOf;
    var key := Key(e);
    if IsLink(e.version) || key in KeysOf(looked) {
      NothingToFollow(lock, looked);
    } else {
      KeysOfMore(looked, e);
      var mine := looked + [e];
      OneMore(lock, e, looked);
      if key !in lock.snapshots {
        NothingFollows(lock, e, looked);
      } else {
        assert key in lock.snapshots.Keys - KeysOf(looked);
        ChildrenReachable(lock, e);
        OrderChildren(lock, order, key);
        hide Children;
        var node := lock.snapshots[key];
        var middle := LookAll(lock, order, order.dependencies[key], node.dependencies, mine);
        var all := LookAll(lock, order, order.optional[key], node.optional, middle);
        LookAllFollows(lock, order, order.dependencies[key], node.dependencies, mine);
        LookAllFollows(lock, order, order.optional[key], node.optional, middle);
        NodeFollowed(lock, order, e, looked, middle, all);
      }
    }
  }

  lemma NothingToFollow(lock: Lock, looked: seq<Edge>)
    ensures FollowedFrom(lock, |looked|, looked)
  {
  }

  lemma NothingFollows(lock: Lock, e: Edge, looked: seq<Edge>)
    requires Key(e) !in lock.snapshots
    ensures FollowedFrom(lock, |looked|, looked + [e])
  {
  }

  lemma NodeFollowed(lock: Lock, order: Order, e: Edge, looked: seq<Edge>, middle: seq<Edge>, all: seq<Edge>)
    requires Key(e) in lock.snapshots && Key(e) in order.dependencies && Key(e) in order.optional
    requires looked + [e] <= middle <= all && KeysOf(middle) <= KeysOf(all)
    requires FollowedFrom(lock, |looked| + 1, middle) && FollowedFrom(lock, |middle|, all)
    requires AllLooked(order.dependencies[Key(e)], lock.snapshots[Key(e)].dependencies, middle)
    requires AllLooked(order.optional[Key(e)], lock.snapshots[Key(e)].optional, all)
    requires forall c :: c in Children(lock, Key(e)) ==>
               Listed(c, order.dependencies[Key(e)], lock.snapshots[Key(e)].dependencies)
               || Listed(c, order.optional[Key(e)], lock.snapshots[Key(e)].optional)
    ensures FollowedFrom(lock, |looked|, all)
  {
    FollowedLater(lock, |looked| + 1, middle, all);
    assert (looked + [e])[|looked|] == e;
    assert middle[|looked|] == e;
    assert all[|looked|] == e;
    assert Followed(lock, e, all);
  }

  lemma {:induction false} LookAllFollows(lock: Lock, order: Order, names: seq<string>, versions: Versions,
      looked: seq<Edge>)
    requires IsOrder(lock, order) && OneEach(lock, looked) && AllReachable(lock, names, versions)
    ensures NamesIn(names, versions)
    ensures var r := LookAll(lock, order, names, versions, looked);
            OneEach(lock, r) && FollowedFrom(lock, |looked|, r) && AllLooked(names, versions, r)
    decreases lock.snapshots.Keys - KeysOf(looked), 1 + |names|
  {
    hide OneEach, FollowedFrom, Reachable, IsOrder, KeysOf;
    if names == [] {
      NothingToFollow(lock, looked);
    } else {
      var e := Edge(names[0], versions[names[0]]);
      var next := Look(lock, order, e, looked);
      hide Look;
      LookFollows(lock, order, e, looked);
      var rest := names[1..];
      assert names == [names[0]] + rest;
      assert forall i :: 0 <= i < |rest| ==> rest[i] == names[i + 1];
      LookAllFollows(lock, order, rest, versions, next);
      FollowedLater(lock, |looked|, next, LookAll(lock, order, rest, versions, next));
    }
  }

  lemma ImporterFollows(lock: Lock, order: Order, importer: string, looked: seq<Edge>)
    requires IsOrder(lock, order) && OneEach(lock, looked) && FollowedFrom(lock, 0, looked)
    requires importer == WEB || importer == SDK
    ensures var r := LookImporter(lock, order, importer, looked);
            && OneEach(lock, r)
            && FollowedFrom(lock, 0, r)
            && (importer in lock.importers ==>
                  forall e :: e in EdgesOf(lock.importers[importer]) ==> IsLink(e.version) || Key(e) in KeysOf(r))
  {
    if importer in lock.importers {
      var names, versions := order.importers[importer], lock.importers[importer];
      OrderLists(lock, order, importer);
      forall i | 0 <= i < |names|
        ensures names[i] in versions && Reachable(lock, Edge(names[i], versions[names[i]]))
      {
        RootReachable(lock, Edge(names[i], versions[names[i]]));
      }
      LookAllFollows(lock, order, names, versions, looked);
      FollowedLater(lock, 0, looked, LookAll(lock, order, names, versions, looked));
    }
  }

  // Every run looks up each reachable key exactly once, by one of its packages.
  lemma LookedOncePerKey(lock: Lock, order: Order)
    requires IsOrder(lock, order)
    ensures OneEach(lock, Looked(lock, order))
    ensures forall e :: Package(lock, e) ==> Key(e) in KeysOf(Looked(lock, order))
  {
    var web := LookImporter(lock, order, WEB, []);
    var all := LookImporter(lock, order, SDK, web);
    ImporterFollows(lock, order, WEB, []);
    ImporterFollows(lock, order, SDK, web);
    forall e | Package(lock, e)
      ensures Key(e) in KeysOf(all)
    {
      var p :| Chain(lock, p, e);
      ChainLooked(lock, all, p, e);
    }
  }

  lemma {:induction false} ChainLooked(lock: Lock, looked: seq<Edge>, p: seq<Edge>, e: Edge)
    requires forall r :: Root(lock, r) ==> IsLink(r.version) || Key(r) in KeysOf(looked)
    requires FollowedFrom(lock, 0, looked) && Chain(lock, p, e)
    ensures IsLink(e.version) || Key(e) in KeysOf(looked)
    decreases |p|
  {
    if |p| > 1 {
      var f := p[|p| - 2];
      ChainLooked(lock, looked, p[..|p| - 1], f);
      var i :| 0 <= i < |looked| && Key(looked[i]) == Key(f);
      assert Followed(lock, looked[i], looked);
    }
  }

  // In any order: covered means accepted, and accepted means that every key is.
  lemma AcceptsBetween(lock: Lock, components: set<string>, order: Order)
    requires IsOrder(lock, order)
    ensures Covered(lock, components) ==> Accepts(lock, components, order)
    ensures Accepts(lock, components, order) ==> KeysCovered(lock, components)
    ensures KeysDecideComponents(lock) ==> (Accepts(lock, components, order) <==> Covered(lock, components))
  {
    hide Reachable, Component, Looked;
    LookedOncePerKey(lock, order);
    var looked := Looked(lock, order);
    forall e | e in looked
      ensures Package(lock, e)
    {
      var i :| 0 <= i < |looked| && looked[i] == e;
    }
    if Accepts(lock, components, order) {
      forall e | Package(lock, e)
        ensures Key(e) in lock.snapshots && Vouched(lock, components, Key(e))
      {
        var f :| f in looked && Key(f) == Key(e);
      }
      if KeysDecideComponents(lock) { DecidedKeysCover(lock, components); }
    }
  }

  // ---- Keys that decide ----

  ghost predicate Decides(lock: Lock, key: string, component: string) {
    forall e :: Package(lock, e) && Key(e) == key ==> Component(e) == component
  }

  // Some reachable key can only be vouched for by this component.
  ghost predicate Forced(lock: Lock, component: string) {
    exists e :: Package(lock, e) && Decides(lock, Key(e), component)
  }

  // Every reachable package's component is forced by some reachable key.
  ghost predicate KeysDecideComponents(lock: Lock) {
    forall e :: Package(lock, e) ==> Forced(lock, Component(e))
  }

  lemma DecidedKeysCover(lock: Lock, components: set<string>)
    requires KeysDecideComponents(lock) && KeysCovered(lock, components)
    ensures Covered(lock, components)
  {
    forall e | Package(lock, e)
      ensures Component(e) in components
    {
      var f :| Package(lock, f) && Decides(lock, Key(f), Component(e));
      assert Vouched(lock, components, Key(f));
    }
  }
}
