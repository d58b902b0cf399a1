// When the verdict of the web dependency check is right: exactly, in a given order
// of iteration, and enough for every order.
module WebDependenciesProofs {
  import opened WebDependencies

  // ---- When the verdict is right ----

  ghost predicate Locked(lock: Lock) {
    Importers(lock) && forall e :: Package(lock, e) ==> Key(e) in lock.snapshots
  }

  ghost predicate LooksUp(looked: seq<Edge>, component: string) {
    exists i :: 0 <= i < |looked| && Component(looked[i]) == component
  }

  // Every reachable package's component is looked up in this order.
  ghost predicate LooksUpAll(lock: Lock, order: Order)
    requires IsOrder(lock, order)
  {
    forall e :: Package(lock, e) ==> LooksUp(Looked(lock, order), Component(e))
  }

  lemma LookingUpAllCovers(lock: Lock, components: set<string>, order: Order)
    requires IsOrder(lock, order) && LooksUpAll(lock, order) && Accepts(lock, components, order)
    ensures Covered(lock, components)
  {
    hide Package, Component, Looked, IsOrder;
    AcceptsBetween(lock, components, order);
    hide KeysDecideComponents;
    var looked := Looked(lock, order);
    forall e | Package(lock, e)
      ensures Component(e) in components
    {
      var i :| 0 <= i < |looked| && Component(looked[i]) == Component(e);
      assert looked[i] in looked;
    }
  }

  // The SBOM of just the components that are looked up is accepted, and covers the
  // lock only if they are all.
  lemma LookedComponents(lock: Lock, order: Order)
    requires IsOrder(lock, order) && Locked(lock)
    ensures var components := ComponentsOf(Looked(lock, order));
            && Accepts(lock, components, order)
            && (Covered(lock, components) ==> LooksUpAll(lock, order))
  {
    hide Package, Component, Looked, IsOrder, ComponentsOf, LooksUp;
    var looked := Looked(lock, order);
    var components := ComponentsOf(looked);
    LookedOncePerKey(lock, order);
    forall e | e in looked
      ensures Key(e) in lock.snapshots && Component(e) in components
    {
      var i :| 0 <= i < |looked| && looked[i] == e;
      assert Package(lock, looked[i]);
      ComponentOfLooked(looked, e);
    }
    if Covered(lock, components) {
      forall e | Package(lock, e)
        ensures LooksUp(looked, Component(e))
      {
        ComponentIsLooked(looked, Component(e));
      }
    }
  }

  lemma ComponentOfLooked(looked: seq<Edge>, e: Edge)
    requires e in looked
    ensures Component(e) in ComponentsOf(looked)
  {
  }

  lemma ComponentIsLooked(looked: seq<Edge>, component: string)
    requires component in ComponentsOf(looked)
    ensures LooksUp(looked, component)
  {
    var e :| e in looked && Component(e) == component;
    var i :| 0 <= i < |looked| && looked[i] == e;
  }

  ghost function ComponentsOf(looked: seq<Edge>): set<string> {
    set e | e in looked :: Component(e)
  }

  // In a given order the verdict is right for every SBOM if and only if all
  // components are looked up, or the lock is incomplete and never accepted.
  lemma RightForEverySbom(lock: Lock, order: Order)
    requires IsOrder(lock, order)
    ensures (forall components :: Accepts(lock, components, order) <==> Covered(lock, components))
       <==> (Locked(lock) ==> LooksUpAll(lock, order))
  {
    hide Reachable, Component, Looked, IsOrder, LooksUpAll, KeysDecideComponents, Found;
    if Locked(lock) ==> LooksUpAll(lock, order) {
      forall components
        ensures Accepts(lock, components, order) <==> Covered(lock, components)
      {
        AcceptsBetween(lock, components, order);
        if Accepts(lock, components, order) { LookingUpAllCovers(lock, components, order); }
      }
    } else {
      LookedComponents(lock, order);
    }
  }

  // So it is right in every order, for every SBOM, if and only if every order looks
  // all components up.
  lemma RightInEveryOrder(lock: Lock)
    ensures (forall order, components :: IsOrder(lock, order) ==>
               (Accepts(lock, components, order) <==> Covered(lock, components)))
       <==> (Locked(lock) ==> forall order :: IsOrder(lock, order) ==> LooksUpAll(lock, order))
  {
    hide Accepts, Covered, Locked, LooksUpAll, IsOrder;
    forall order | IsOrder(lock, order)
      ensures (forall components :: Accepts(lock, components, order) <==> Covered(lock, components))
         <==> (Locked(lock) ==> LooksUpAll(lock, order))
    {
      RightForEverySbom(lock, order);
    }
  }

  // If the keys decide the components, that holds in every order.
  lemma DecidedLooksUpAll(lock: Lock, order: Order)
    requires IsOrder(lock, order) && KeysDecideComponents(lock)
    ensures LooksUpAll(lock, order)
  {
    hide Package, Component, Looked, IsOrder, LooksUp, Decides, OneEach;
    var looked := Looked(lock, order);
    LookedOncePerKey(lock, order);
    hide KeysDecideComponents, KeysOf;
    forall e | Package(lock, e)
      ensures LooksUp(looked, Component(e))
    {
      PackageLooked(lock, looked, e);
    }
  }

  lemma PackageLooked(lock: Lock, looked: seq<Edge>, e: Edge)
    requires KeysDecideComponents(lock) && OneEach(lock, looked) && Package(lock, e)
    requires forall f :: Package(lock, f) ==> Key(f) in KeysOf(looked)
    ensures LooksUp(looked, Component(e))
  {
    hide Package, Component, KeysOf;
    assert Forced(lock, Component(e));
    var f :| Package(lock, f) && Decides(lock, Key(f), Component(e));
    var i := KeyIsLooked(looked, Key(f));
    assert Package(lock, looked[i]);
  }

  lemma KeyIsLooked(looked: seq<Edge>, key: string) returns (i: nat)
    requires key in KeysOf(looked)
    ensures i < |looked| && Key(looked[i]) == key
  {
    var e :| e in looked && Key(e) == key;
    i :| 0 <= i < |looked| && looked[i] == e;
  }

  // ---- When any look per key is enough ----

  ghost function AllEdges(lock: Lock): set<Edge> {
    (if WEB in lock.importers then EdgesOf(lock.importers[WEB]) else {})
    + (if SDK in lock.importers then EdgesOf(lock.importers[SDK]) else {})
    + set key, e | key in lock.snapshots && e in Children(lock, key) :: e
  }

  lemma ReachableIsEdge(lock: Lock, e: Edge)
    requires Reachable(lock, e)
    ensures e in AllEdges(lock)
  {
    var p :| Chain(lock, p, e);
  }

  // A check that may look at any one package of each key is right for every SBOM
  // exactly when the keys decide the components.
  lemma OneLookPerKey(lock: Lock)
    requires Importers(lock)
    requires forall e :: Package(lock, e) ==> Key(e) in lock.snapshots
    ensures (forall components :: KeysCovered(lock, components) ==> Covered(lock, components))
       <==> KeysDecideComponents(lock)
  {
    if KeysDecideComponents(lock) {
      forall components | KeysCovered(lock, components)
        ensures Covered(lock, components)
      {
        DecidedKeysCover(lock, components);
      }
    } else {
      var e :| Package(lock, e) && !Forced(lock, Component(e));
      AllButOne(lock, e);
    }
  }

  // The components of all packages but those that share e's.
  ghost function OtherComponents(lock: Lock, e: Edge): set<string> {
    set f | f in AllEdges(lock) && Component(f) != Component(e) :: Component(f)
  }

  lemma AllButOne(lock: Lock, e: Edge)
    requires Importers(lock)
    requires forall f :: Package(lock, f) ==> Key(f) in lock.snapshots
    requires Package(lock, e) && !Forced(lock, Component(e))
    ensures KeysCovered(lock, OtherComponents(lock, e)) && !Covered(lock, OtherComponents(lock, e))
  {
    hide AllEdges, Component, Reachable;
    var components := OtherComponents(lock, e);
    forall f | Package(lock, f)
      ensures Vouched(lock, components, Key(f))
    {
      assert !Decides(lock, Key(f), Component(e));
      var g :| Package(lock, g) && Key(g) == Key(f) && Component(g) != Component(e);
      ReachableIsEdge(lock, g);
      assert Component(g) in components;
    }
    assert Component(e) !in components;
  }

  ghost predicate PlainNamesIn(versions: Versions) {
    forall name :: name in versions ==> '(' !in name
  }

  // No package name in the lock contains "(".
  ghost predicate PlainNames(lock: Lock) {
    && (forall i :: i in lock.importers ==> PlainNamesIn(lock.importers[i]))
    && (forall k :: k in lock.snapshots ==>
          PlainNamesIn(lock.snapshots[k].dependencies) && PlainNamesIn(lock.snapshots[k].optional))
  }

  lemma {:induction false} BeforeParenAppend(a: string, b: string)
    requires '(' !in a
    ensures BeforeParen(a + b) == a + BeforeParen(b)
  {
    var s := a + b;
    if a == "" {
      assert s == b;
    } else {
      assert s[0] == a[0] && a[0] in a;
      assert s[1..] == a[1..] + b;
      assert BeforeParen(s) == [a[0]] + BeforeParen(a[1..] + b);
      BeforeParenAppend(a[1..], b);
    }
  }

  lemma ComponentFromKey(e: Edge)
    requires '(' !in e.name
    ensures Component(e) == "pkg:npm/" + BeforeParen(Key(e))
  {
    BeforeParenAppend(e.name + "@", e.version);
    assert e.name + "@" + e.version == (e.name + "@") + e.version;
    assert "pkg:npm/" + (e.name + "@" + BeforeParen(e.version)) == Component(e);
  }

  lemma ReachableNamePlain(lock: Lock, e: Edge)
    requires PlainNames(lock) && Reachable(lock, e)
    ensures '(' !in e.name
  {
    var p :| Chain(lock, p, e);
  }

  // Package names without "(" are enough for the keys to decide.
  lemma PlainNamesDecide(lock: Lock)
    requires PlainNames(lock)
    ensures KeysDecideComponents(lock)
  {
    forall e | Package(lock, e)
      ensures Decides(lock, Key(e), Component(e))
    {
      forall f | Package(lock, f) && Key(f) == Key(e)
        ensures Component(f) == Component(e)
      {
        ReachableNamePlain(lock, e);
        ReachableNamePlain(lock, f);
        ComponentFromKey(e);
        ComponentFromKey(f);
      }
    }
  }

  // A lock in which two packages share a key although only one is in the SBOM: the
  // verdict depends on which of the two the iteration comes to first.
  function SharedKeyVersions(): Versions {
    map["a" := "x(@y", "a@x(" := "y"]
  }

  function SharedKeyLock(): Lock {
    Lock(map[WEB := SharedKeyVersions(), SDK := map[]], map["a@x(@y" := Snapshot(map[], map[])])
  }

  lemma SharedKeyRoots()
    ensures forall e :: Root(SharedKeyLock(), e) <==> e == Edge("a", "x(@y") || e == Edge("a@x(", "y")
  {
    assert |"a"| != |"a@x("| && |WEB| != |SDK|;
    var lock := SharedKeyLock();
    assert lock.importers[WEB] == SharedKeyVersions();
    assert SharedKeyVersions()["a"] == "x(@y" && SharedKeyVersions()["a@x("] == "y";
    assert EdgesOf(SharedKeyVersions()) == {Edge("a", "x(@y"), Edge("a@x(", "y")};
  }

  lemma SharedKeyComponents()
    ensures Component(Edge("a", "x(@y")) == "pkg:npm/a@x"
    ensures Component(Edge("a@x(", "y")) == "pkg:npm/a@x(@y"
  {
    assert "x(@y"[1..] == "(@y" && BeforeParen("(@y") == "";
    assert "y"[1..] == "" && BeforeParen("") == "";
  }

  function SharedKeyOrder(names: seq<string>): Order {
    Order(map[WEB := names, SDK := []], map["a@x(@y" := []], map["a@x(@y" := []])
  }

  const LISTED := Edge("a", "x(@y")
  const HIDDEN := Edge("a@x(", "y")

  lemma SharedKeys()
    ensures Key(LISTED) == Key(HIDDEN) == "a@x(@y"
    ensures !IsLink(LISTED.version) && !IsLink(HIDDEN.version)
    ensures Package(SharedKeyLock(), LISTED) && Package(SharedKeyLock(), HIDDEN)
    ensures Component(HIDDEN) != Component(LISTED) == "pkg:npm/a@x"
  {
    SharedKeyRoots();
    SharedKeyComponents();
    hide SharedKeyVersions, BeforeParen, Component;
    RootReachable(SharedKeyLock(), LISTED);
    RootReachable(SharedKeyLock(), HIDDEN);
    assert LISTED.version[0] != LINK[0] && HIDDEN.version[0] != LINK[0];
    assert |Component(HIDDEN)| != |Component(LISTED)|;
  }

  // Whichever is named first is the only one looked up.
  lemma FirstNamedIsLooked(first: Edge, second: Edge)
    requires (first == LISTED && second == HIDDEN) || (first == HIDDEN && second == LISTED)
    ensures IsOrder(SharedKeyLock(), SharedKeyOrder([first.name, second.name]))
    ensures Looked(SharedKeyLock(), SharedKeyOrder([first.name, second.name])) == [first]
  {
    var lock, names := SharedKeyLock(), [first.name, second.name];
    var order := SharedKeyOrder(names);
    var versions := SharedKeyVersions();
    SharedKeys();
    hide Package, Component, Key, IsLink;
    assert |"a"| != |"a@x("| && |WEB| != |SDK|;
    assert lock.importers[WEB] == versions && lock.importers[SDK] == map[];
    assert versions[first.name] == first.version && versions[second.name] == second.version;
    assert IsOrder(lock, order);
    hide SharedKeyVersions, IsOrder;
    KeysOfMore([], first);
    assert [] + [first] == [first];
    assert Look(lock, order, first, []) == [first];
    assert Look(lock, order, second, [first]) == [first];
    assert names[1..] == [second.name] && names[1..][1..] == [];
    assert LookAll(lock, order, [second.name], versions, [first]) == [first];
    assert LookAll(lock, order, names, versions, []) == [first];
  }

  lemma ListedFirstAccepts()
    ensures var lock, order := SharedKeyLock(), SharedKeyOrder(["a", "a@x("]);
            IsOrder(lock, order) && Accepts(lock, {"pkg:npm/a@x"}, order)
  {
    FirstNamedIsLooked(LISTED, HIDDEN);
    SharedKeys();
    hide Looked, IsOrder, Component, Package, Key;
    assert Importers(SharedKeyLock());
  }

  lemma HiddenFirstRejects()
    ensures var lock, order := SharedKeyLock(), SharedKeyOrder(["a@x(", "a"]);
            IsOrder(lock, order) && !Accepts(lock, {"pkg:npm/a@x"}, order)
  {
    FirstNamedIsLooked(HIDDEN, LISTED);
    SharedKeys();
    hide Looked, IsOrder, Component, Package, Key;
    assert HIDDEN in [HIDDEN];
  }

  lemma SharedKeyHidesPackage()
    ensures var lock, components := SharedKeyLock(), {"pkg:npm/a@x"};
            var one, other := SharedKeyOrder(["a", "a@x("]), SharedKeyOrder(["a@x(", "a"]);
            && IsOrder(lock, one) && IsOrder(lock, other)
            && !Covered(lock, components)
            && Accepts(lock, components, one)
            && !Accepts(lock, components, other)
  {
    ListedFirstAccepts();
    HiddenFirstRejects();
    SharedKeys();
    hide Accepts, IsOrder, Component, Package, Key, SharedKeyLock, SharedKeyOrder;
  }

  // ---- Keys that need not decide ----

  // Here the shared key is met first by the same package in every order, and the
  // other package's component is looked up under a key of its own.
  const APART := Edge("a@x(", "y(z)")

  function ApartLock(): Lock {
    Lock(map[WEB := map["a" := "x(@y"], SDK := map["a@x(" := "y(z)"]],
         map["a@x(@y" := Snapshot(map["a@x(" := "y"], map[]), "a@x(@y(z)" := Snapshot(map[], map[])])
  }

  lemma ApartKeys()
    ensures Key(LISTED) == Key(HIDDEN) == "a@x(@y" && Key(APART) == "a@x(@y(z)" && Key(APART) != Key(LISTED)
    ensures !IsLink(LISTED.version) && !IsLink(HIDDEN.version) && !IsLink(APART.version)
    ensures Component(HIDDEN) == Component(APART) != Component(LISTED)
  {
    SharedKeyComponents();
    assert LISTED.version[0] != LINK[0] && HIDDEN.version[0] != LINK[0] && APART.version[0] != LINK[0];
    assert |Component(HIDDEN)| != |Component(LISTED)|;
    assert |Key(APART)| != |Key(LISTED)|;
    assert "y(z)"[1..] == "(z)" && BeforeParen("(z)") == "";
    assert BeforeParen(APART.version) == "y" == BeforeParen(HIDDEN.version) by {
      assert "y"[1..] == "" && BeforeParen("") == "";
    }
  }

  lemma ApartEdges()
    ensures WEB in ApartLock().importers && EdgesOf(ApartLock().importers[WEB]) == {LISTED}
    ensures SDK in ApartLock().importers && EdgesOf(ApartLock().importers[SDK]) == {APART}
    ensures ApartLock().snapshots.Keys == {Key(LISTED), Key(APART)}
    ensures Children(ApartLock(), Key(LISTED)) == {HIDDEN} && Children(ApartLock(), Key(APART)) == {}
  {
    ApartKeys();
    assert |WEB| != |SDK|;
    hide Component, IsLink;
    OneEdge("a", "x(@y");
    OneEdge("a@x(", "y(z)");
    OneEdge("a@x(", "y");
    assert EdgesOf(map[]) == {};
    hide EdgesOf;
  }

  lemma OneEdge(name: string, version: string)
    ensures EdgesOf(map[name := version]) == {Edge(name, version)}
  {
    var versions: Versions := map[name := version];
    assert name in versions && versions[name] == version;
  }

  lemma ApartPackages(e: Edge)
    ensures Package(ApartLock(), e) <==> e == LISTED || e == HIDDEN || e == APART
  {
    var lock := ApartLock();
    ApartKeys();
    ApartEdges();
    hide ApartLock, Key, IsLink, Children, EdgesOf;
    RootReachable(lock, LISTED);
    RootReachable(lock, APART);
    ChildReachable(lock, LISTED, HIDDEN);
    if Reachable(lock, e) {
      var p :| Chain(lock, p, e);
    }
  }

  lemma KeysNeedNotDecide()
    ensures !KeysDecideComponents(ApartLock())
    ensures forall order :: IsOrder(ApartLock(), order) ==> LooksUpAll(ApartLock(), order)
  {
    var lock := ApartLock();
    ApartKeys();
    ApartPackages(LISTED);
    ApartPackages(HIDDEN);
    ApartPackages(APART);
    forall f | Package(lock, f)
      ensures !Decides(lock, Key(f), Component(LISTED))
    {
      ApartPackages(f);
      assert Key(f) == Key(HIDDEN) || f == APART;
    }
    assert !Forced(lock, Component(LISTED));
    forall order | IsOrder(lock, order)
      ensures LooksUpAll(lock, order)
    {
      ApartLooked(order);
    }
  }

  lemma OneName(names: seq<string>, versions: Versions, name: string)
    requires Lists(names, versions) && versions.Keys == {name}
    ensures names == [name]
  {
    assert name in versions;
    OnlyFirst(names, versions, name, |names| - 1);
  }

  lemma OnlyFirst(names: seq<string>, versions: Versions, name: string, i: nat)
    requires Lists(names, versions) && versions.Keys == {name} && i < |names|
    ensures i == 0 && names[0] == name
  {
    assert names[i] in versions && names[0] in versions;
  }

  lemma ApartLooked(order: Order)
    requires IsOrder(ApartLock(), order)
    ensures LooksUpAll(ApartLock(), order)
  {
    var lock := ApartLock();
    ApartKeys();
    LookedOncePerKey(lock, order);
    ApartLookedFirst(order);
    forall e | Package(lock, e)
      ensures LooksUp(Looked(lock, order), Component(e))
    {
      ApartPackages(e);
      ApartPackages(APART);
      var i := KeyIsLooked(Looked(lock, order), Key(APART));
      ApartPackages(Looked(lock, order)[i]);
      hide Looked, Component, Key, Package;
    }
  }

  // In every order the first package looked up is the web importer's only one.
  lemma ApartLookedFirst(order: Order)
    requires IsOrder(ApartLock(), order)
    ensures Looked(ApartLock(), order) != [] && Looked(ApartLock(), order)[0] == LISTED
  {
    var lock := ApartLock();
    ApartKeys();
    assert |WEB| != |SDK|;
    var versions := lock.importers[WEB];
    assert versions == map["a" := "x(@y"];
    OneName(order.importers[WEB], versions, "a");
    var names := order.importers[WEB];
    KeysOfMore([], LISTED);
    assert [] + [LISTED] == [LISTED] <= Look(lock, order, LISTED, []);
    assert Look(lock, order, LISTED, []) <= LookAll(lock, order, names, versions, []) ==
      LookImporter(lock, order, WEB, []);
    assert LookImporter(lock, order, WEB, []) <= Looked(lock, order);
  }
}
