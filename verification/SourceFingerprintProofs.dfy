// The fingerprint identifies exactly the set of included files: neither the
// order of the walk nor anything in a skipped directory matters.
module SourceFingerprintProofs {
  import opened Wrappers
  import opened Ordering
  import opened SourceFingerprint

  // ---- What the walk finds ----

  ghost predicate FoundUnder<C>(f: Found<C>, path: Path, node: Node<C>)
    requires path != []
  {
    path <= f.path && Holds(path[|path| - 1], node, f.path[|path|..], f.content)
  }

  lemma {:induction false} CollectFinds<C>(path: Path, node: Node<C>, f: Found<C>)
    requires path != [] && Collect(path, node).Some?
    ensures f in Collect(path, node).value <==> FoundUnder(f, path, node)
    decreases node, 0
  {
    match node
    case File(content) =>
      assert path <= f.path ==> f.path == path + f.path[|path|..];
      assert FoundUnder(f, path, node) ==> f == Found(path, content);
      assert f.path == path ==> f.path[|path|..] == [];
    case Dir(children) =>
      if path[|path| - 1] !in SKIPPED {
        CollectAllFinds(path, children, f);
        if FoundUnder(f, path, node) {
          var rel := f.path[|path|..];
          var i :| 0 <= i < |children| && children[i].name == rel[0]
                   && Holds(children[i].name, children[i].node, rel[1..], f.content);
          assert f.path == path + rel;
          assert f.path[|path| + 1..] == rel[1..];
          assert f.path == path + [rel[0]] + rel[1..];
          assert FoundUnder(f, path + [children[i].name], children[i].node);
        }
        if i: nat :| i < |children| && FoundUnder(f, path + [children[i].name], children[i].node) {
          var rel := f.path[|path|..];
          assert rel[1..] == f.path[|path| + 1..];
          assert f.path[|path|] == (path + [children[i].name])[|path|];
        }
      }
  }

  lemma {:induction false} CollectAllFinds<C>(path: Path, children: seq<Child<C>>, f: Found<C>)
    requires CollectAll(path, children).Some?
    ensures f in CollectAll(path, children).value
       <==> exists i :: 0 <= i < |children| && FoundUnder(f, path + [children[i].name], children[i].node)
    decreases children, 0
  {
    if children != [] {
      var rest := children[1..];
      CollectFinds(path + [children[0].name], children[0].node, f);
      CollectAllFinds(path, rest, f);
      assert forall i :: 0 <= i < |rest| ==> rest[i] == children[i + 1];
      if i :| 0 <= i < |children| && FoundUnder(f, path + [children[i].name], children[i].node) {
        if i > 0 {
          assert FoundUnder(f, path + [rest[i - 1].name], rest[i - 1].node);
        }
      }
      if i :| 0 <= i < |rest| && FoundUnder(f, path + [rest[i].name], rest[i].node) {
        assert FoundUnder(f, path + [children[i + 1].name], children[i + 1].node);
      }
    }
  }

  // The walk succeeds exactly when it meets no symlink.
  lemma {:induction false} CollectAccepts<C>(path: Path, node: Node<C>)
    requires path != []
    ensures Collect(path, node).Some? <==> !HoldsLink(path[|path| - 1], node)
    decreases node, 0
  {
    if node.Dir? && path[|path| - 1] !in SKIPPED {
      CollectAllAccepts(path, node.children);
    }
  }

  lemma {:induction false} CollectAllAccepts<C>(path: Path, children: seq<Child<C>>)
    ensures CollectAll(path, children).Some?
       <==> forall i :: 0 <= i < |children| ==> !HoldsLink(children[i].name, children[i].node)
    decreases children, 0
  {
    if children != [] {
      CollectAccepts(path + [children[0].name], children[0].node);
      CollectAllAccepts(path, children[1..]);
      assert children == [children[0]] + children[1..];
    }
  }

  // ---- Paths are distinct ----

  ghost predicate DistinctPaths<C>(found: seq<Found<C>>) {
    forall i, j :: 0 <= i < j < |found| ==> found[i].path != found[j].path
  }

  ghost predicate SlashFree(path: Path) {
    forall i :: 0 <= i < |path| ==> '/' !in path[i]
  }

  ghost predicate AllUnder<C>(found: seq<Found<C>>, path: Path) {
    forall i :: 0 <= i < |found| ==> path <= found[i].path && SlashFree(found[i].path)
  }

  lemma {:induction false} CollectDistinct<C>(path: Path, node: Node<C>)
    requires path != [] && SlashFree(path) && FileTree(node) && Collect(path, node).Some?
    ensures DistinctPaths(Collect(path, node).value) && AllUnder(Collect(path, node).value, path)
    decreases node, 0
  {
    if node.Dir? && path[|path| - 1] !in SKIPPED {
      CollectAllDistinct(path, node.children);
    }
  }

  lemma {:induction false} CollectAllDistinct<C>(path: Path, children: seq<Child<C>>)
    requires SlashFree(path) && CollectAll(path, children).Some?
    requires forall i :: 0 <= i < |children| ==> '/' !in children[i].name && FileTree(children[i].node)
    requires forall i, j :: 0 <= i < j < |children| ==> children[i].name != children[j].name
    ensures DistinctPaths(CollectAll(path, children).value) && AllUnder(CollectAll(path, children).value, path)
    ensures forall k :: 0 <= k < |CollectAll(path, children).value| ==>
      exists i :: 0 <= i < |children| && path + [children[i].name] <= CollectAll(path, children).value[k].path
    decreases children, 0
  {
    if children != [] {
      var rest := children[1..];
      var first := path + [children[0].name];
      var a := Collect(first, children[0].node).value;
      var b := CollectAll(path, rest).value;
      CollectDistinct(first, children[0].node);
      CollectAllDistinct(path, rest);
      assert forall i :: 0 <= i < |rest| ==> rest[i] == children[i + 1];
      forall k | 0 <= k < |b|
        ensures exists i :: 0 <= i < |children| && path + [children[i].name] <= b[k].path
        ensures !(first <= b[k].path)
      {
        var i :| 0 <= i < |rest| && path + [rest[i].name] <= b[k].path;
        assert path + [children[i + 1].name] <= b[k].path;
        assert (path + [rest[i].name])[|path|] == b[k].path[|path|];
        assert first[|path|] != b[k].path[|path|];
      }
      forall k | 0 <= k < |a|
        ensures path <= a[k].path
      {
        assert first <= a[k].path;
      }
      DistinctJoin(a, b, first);
    }
  }

  lemma DistinctJoin<C>(a: seq<Found<C>>, b: seq<Found<C>>, first: Path)
    requires DistinctPaths(a) && DistinctPaths(b)
    requires forall i :: 0 <= i < |a| ==> first <= a[i].path
    requires forall i :: 0 <= i < |b| ==> !(first <= b[i].path)
    ensures DistinctPaths(a + b)
  {
  }

  lemma {:induction false} InputsDistinct<C>(root: Node<C>, inputs: seq<Path>)
    requires InputList(inputs) && FileTree(root) && CollectInputs(root, inputs).Some?
    ensures DistinctPaths(CollectInputs(root, inputs).value)
    ensures forall k :: 0 <= k < |CollectInputs(root, inputs).value| ==>
      SlashFree(CollectInputs(root, inputs).value[k].path)
      && exists i :: 0 <= i < |inputs| && inputs[i] <= CollectInputs(root, inputs).value[k].path
  {
    if inputs != [] {
      var rest := inputs[1..];
      var node := Find(root, inputs[0]).value;
      var a := Collect(inputs[0], node).value;
      var b := CollectInputs(root, rest).value;
      FindKeepsTree(root, inputs[0]);
      CollectDistinct(inputs[0], node);
      InputsDistinct(root, rest);
      assert forall i :: 0 <= i < |rest| ==> rest[i] == inputs[i + 1];
      forall k | 0 <= k < |b|
        ensures exists i :: 0 <= i < |inputs| && inputs[i] <= b[k].path
        ensures !(inputs[0] <= b[k].path)
      {
        var i :| 0 <= i < |rest| && rest[i] <= b[k].path;
        assert inputs[i + 1] <= b[k].path;
        if inputs[0] <= b[k].path {
          PrefixesNest(inputs[0], inputs[i + 1], b[k].path);
        }
      }
      DistinctJoin(a, b, inputs[0]);
    }
  }

  lemma PrefixesNest(a: Path, b: Path, path: Path)
    requires a <= path && b <= path
    ensures a <= b || b <= a
  {
    if |a| <= |b| {
      assert a == path[..|a|] == b[..|a|];
    } else {
      assert b == path[..|b|] == a[..|b|];
    }
  }

  lemma {:induction false} FindKeepsTree<C>(node: Node<C>, path: Path)
    requires FileTree(node)
    ensures Find(node, path).Some? ==> FileTree(Find(node, path).value)
    decreases |path|
  {
    if path != [] && node.Dir? && FindChild(node.children, path[0]).Some? {
      FindChildIsChild(node.children, path[0]);
      FindKeepsTree(FindChild(node.children, path[0]).value, path[1..]);
    }
  }

  lemma {:induction false} FindChildIsChild<C>(children: seq<Child<C>>, name: string)
    requires FindChild(children, name).Some?
    ensures exists i :: 0 <= i < |children| && children[i].node == FindChild(children, name).value
  {
    if children[0].name != name {
      FindChildIsChild(children[1..], name);
      var i :| 0 <= i < |children[1..]| && children[1..][i].node == FindChild(children, name).value;
      assert children[i + 1].node == FindChild(children, name).value;
    }
  }

  // ---- Inputs together ----

  // The walk over all inputs finds exactly the included files.
  lemma {:induction false} InputsFind<C>(root: Node<C>, inputs: seq<Path>, f: Found<C>)
    requires InputList(inputs) && CollectInputs(root, inputs).Some?
    ensures f in CollectInputs(root, inputs).value <==> Included(root, inputs, f.path, f.content)
  {
    if inputs != [] {
      var rest := inputs[1..];
      CollectFinds(inputs[0], Find(root, inputs[0]).value, f);
      InputsFind(root, rest, f);
      assert forall i :: 0 <= i < |rest| ==> rest[i] == inputs[i + 1];
      if Included(root, rest, f.path, f.content) {
        var k :| 0 <= k < |rest| && HoldsFrom(root, rest[k], f.path, f.content);
        assert HoldsFrom(root, inputs[k + 1], f.path, f.content);
      }
      if Included(root, inputs, f.path, f.content) {
        var k :| 0 <= k < |inputs| && HoldsFrom(root, inputs[k], f.path, f.content);
        if k > 0 {
          assert HoldsFrom(root, rest[k - 1], f.path, f.content);
        }
      }
      assert FoundUnder(f, inputs[0], Find(root, inputs[0]).value) <==> HoldsFrom(root, inputs[0], f.path, f.content);
    }
  }

  lemma ReadableFirst<C>(root: Node<C>, inputs: seq<Path>)
    requires InputList(inputs) && inputs != []
    ensures InputList(inputs[1..]) && inputs[0] != []
    ensures Readable(root, inputs) <==>
            && Find(root, inputs[0]).Some?
            && !HoldsLink(inputs[0][|inputs[0]| - 1], Find(root, inputs[0]).value)
            && Readable(root, inputs[1..])
  {
    hide Find, HoldsLink;
    var rest := inputs[1..];
    assert forall i :: 0 <= i < |rest| ==> rest[i] == inputs[i + 1];
    if Readable(root, rest) {
      assert forall i :: 1 <= i < |inputs| ==> inputs[i] == rest[i - 1];
    }
  }

  // A fingerprint exists exactly when every input exists and holds no symlink.
  lemma {:induction false} InputsAccept<C>(root: Node<C>, inputs: seq<Path>)
    requires InputList(inputs)
    ensures CollectInputs(root, inputs).Some? <==> Readable(root, inputs)
  {
    if inputs != [] {
      ReadableFirst(root, inputs);
      hide Readable, InputList, Find, HoldsLink, Collect;
      InputsAccept(root, inputs[1..]);
      if Find(root, inputs[0]).Some? {
        CollectAccepts(inputs[0], Find(root, inputs[0]).value);
      }
    }
  }

  // ---- Joined paths ----

  lemma SegmentFront(a: string, b: string, x: string, y: string)
    requires '/' !in a && '/' !in b
    requires a + "/" + x == b + "/" + y
    ensures a == b && x == y
  {
    var s := a + "/" + x;
    assert s[|a|] == '/' && s[|b|] == '/' by { assert s == b + "/" + y; }
    assert forall i :: 0 <= i < |a| ==> s[i] == a[i] && s[i] != '/';
    assert forall i :: 0 <= i < |b| ==> s[i] == b[i] && s[i] != '/';
    assert a == s[..|a|] && b == s[..|b|];
    assert x == s[|a| + 1..] && y == (b + "/" + y)[|b| + 1..];
  }

  lemma SegmentEnd(a: string, b: string, y: string)
    requires '/' !in a
    ensures a != b + "/" + y
  {
    assert (b + "/" + y)[|b|] == '/';
  }

  lemma {:induction false} JoinInjective(p: Path, q: Path)
    requires p != [] && q != [] && SlashFree(p) && SlashFree(q)
    requires Join(p) == Join(q)
    ensures p == q
  {
    if |p| > 1 {
      SegmentEnd(q[0], p[0], Join(p[1..]));
    }
    if |q| > 1 {
      SegmentEnd(p[0], q[0], Join(q[1..]));
    }
    if |p| > 1 && |q| > 1 {
      SegmentFront(p[0], q[0], Join(p[1..]), Join(q[1..]));
      JoinInjective(p[1..], q[1..]);
      assert p == [p[0]] + p[1..] && q == [q[0]] + q[1..];
    }
  }

  // ---- The payload ----

  lemma EntryOrder<D(!new)>()
    ensures TotalPreorder<Entry<D>>(EntryLeq)
  {
    forall x: Entry<D>, y: Entry<D>
      ensures EntryLeq(x, y) || EntryLeq(y, x)
    {
      LexTotal(Codes(x.path), Codes(y.path));
    }
    forall x: Entry<D>, y: Entry<D>, z: Entry<D> | EntryLeq(x, y) && EntryLeq(y, z)
      ensures EntryLeq(x, z)
    {
      LexTransitive(Codes(x.path), Codes(y.path), Codes(z.path));
    }
  }

  ghost predicate PathsOnce<D>(entries: seq<Entry<D>>) {
    forall i, j :: 0 <= i < j < |entries| ==> entries[i].path != entries[j].path
  }

  lemma PathsOnceOrdered<D(!new)>(entries: seq<Entry<D>>)
    requires PathsOnce(entries)
    ensures AntisymmetricOn(EntryLeq, entries) && Distinct(entries)
  {
    forall x, y | x in entries && y in entries && EntryLeq(x, y) && EntryLeq(y, x)
      ensures x == y
    {
      LexAntisymmetric(Codes(x.path), Codes(y.path));
      CodesInjective(x.path, y.path);
    }
  }

  lemma RenderedOnce<C(!new), D>(root: Node<C>, inputs: seq<Path>, digest: C -> D)
    requires InputList(inputs) && FileTree(root) && CollectInputs(root, inputs).Some?
    ensures PathsOnce(Render(CollectInputs(root, inputs).value, digest))
  {
    var found := CollectInputs(root, inputs).value;
    InputsDistinct(root, inputs);
    forall i, j | 0 <= i < j < |found|
      ensures Join(found[i].path) != Join(found[j].path)
    {
      if Join(found[i].path) == Join(found[j].path) {
        JoinInjective(found[i].path, found[j].path);
      }
    }
  }

  lemma RenderMember<C(!new), D>(found: seq<Found<C>>, digest: C -> D, e: Entry<D>)
    ensures e in Render(found, digest)
       <==> exists f :: f in found && e == Entry(Join(f.path), digest(f.content))
  {
    if e in Render(found, digest) {
      var i :| 0 <= i < |found| && Render(found, digest)[i] == e;
      assert found[i] in found;
    }
    if f :| f in found && e == Entry(Join(f.path), digest(f.content)) {
      var i :| 0 <= i < |found| && found[i] == f;
      assert Render(found, digest)[i] == e;
    }
  }

  ghost predicate CollisionFree<C(!new), D>(digest: C -> D) {
    forall a, b :: digest(a) == digest(b) ==> a == b
  }

  ghost predicate SameFiles<C(!new)>(r: Node<C>, s: Node<C>, inputs: seq<Path>)
    requires InputList(inputs)
  {
    forall path, content :: Included(r, inputs, path, content) <==> Included(s, inputs, path, content)
  }

  // Two readable trees have the same payload exactly when they hold the same
  // included files.
  lemma PayloadIdentifiesFiles<C(!new), D(!new)>(r: Node<C>, s: Node<C>, inputs: seq<Path>, digest: C -> D)
    requires InputList(inputs) && FileTree(r) && FileTree(s) && CollisionFree(digest)
    ensures Payload(r, inputs, digest).Some? <==> Readable(r, inputs)
    ensures Readable(r, inputs) && Readable(s, inputs) ==>
      (Payload(r, inputs, digest) == Payload(s, inputs, digest) <==> SameFiles(r, s, inputs))
  {
    InputsAccept(r, inputs);
    InputsAccept(s, inputs);
    if Readable(r, inputs) && Readable(s, inputs) {
      if SameFiles(r, s, inputs) {
        SameFilesSamePayload(r, s, inputs, digest);
      }
      if Payload(r, inputs, digest) == Payload(s, inputs, digest) {
        forall path, content | Included(r, inputs, path, content)
          ensures Included(s, inputs, path, content)
        {
          SamePayloadSameFile(r, s, inputs, digest, Found(path, content));
        }
        forall path, content | Included(s, inputs, path, content)
          ensures Included(r, inputs, path, content)
        {
          SamePayloadSameFile(s, r, inputs, digest, Found(path, content));
        }
      }
    }
  }

  lemma SameFilesSamePayload<C(!new), D(!new)>(r: Node<C>, s: Node<C>, inputs: seq<Path>, digest: C -> D)
    requires InputList(inputs) && FileTree(r) && FileTree(s)
    requires CollectInputs(r, inputs).Some? && CollectInputs(s, inputs).Some?
    requires SameFiles(r, s, inputs)
    ensures Payload(r, inputs, digest) == Payload(s, inputs, digest)
  {
    var a, b := CollectInputs(r, inputs).value, CollectInputs(s, inputs).value;
    forall f
      ensures f in a <==> f in b
    {
      InputsFind(r, inputs, f);
      InputsFind(s, inputs, f);
    }
    forall e
      ensures e in Render(a, digest) <==> e in Render(b, digest)
    {
      RenderMember(a, digest, e);
      RenderMember(b, digest, e);
    }
    RenderedOnce(r, inputs, digest);
    RenderedOnce(s, inputs, digest);
    PathsOnceOrdered(Render(a, digest));
    PathsOnceOrdered(Render(b, digest));
    EntryOrder<D>();
    SortDependsOnSet(EntryLeq, Render(a, digest), Render(b, digest));
  }

  lemma SamePayloadSameFile<C(!new), D(!new)>(r: Node<C>, s: Node<C>, inputs: seq<Path>, digest: C -> D, f: Found<C>)
    requires InputList(inputs) && FileTree(r) && FileTree(s) && CollisionFree(digest)
    requires CollectInputs(r, inputs).Some? && CollectInputs(s, inputs).Some?
    requires Payload(r, inputs, digest) == Payload(s, inputs, digest)
    requires Included(r, inputs, f.path, f.content)
    ensures Included(s, inputs, f.path, f.content)
  {
    var a, b := CollectInputs(r, inputs).value, CollectInputs(s, inputs).value;
    var e := Entry(Join(f.path), digest(f.content));
    InputsFind(r, inputs, f);
    RenderMember(a, digest, e);
    SortPermutes(EntryLeq, Render(a, digest));
    SortPermutes(EntryLeq, Render(b, digest));
    assert e in multiset(Render(a, digest));
    assert e in multiset(Render(b, digest));
    assert e in Render(b, digest);
    RenderMember(b, digest, e);
    var g :| g in b && e == Entry(Join(g.path), digest(g.content));
    InputsDistinct(r, inputs);
    InputsDistinct(s, inputs);
    JoinInjective(f.path, g.path);
    InputsFind(s, inputs, g);
  }

  // ---- The order of the payload ----

  ghost predicate PathsAscend<D>(entries: seq<Entry<D>>) {
    forall i, j :: 0 <= i < j < |entries| ==> Before(Codes(entries[i].path), Codes(entries[j].path))
  }

  lemma SortedAscends<D(!new)>(entries: seq<Entry<D>>, sorted: seq<Entry<D>>)
    requires PathsOnce(entries) && sorted == Sort(EntryLeq, entries)
    ensures PathsAscend(sorted)
    ensures forall e :: e in sorted <==> e in entries
  {
    EntryOrder<D>();
    SortSorts(EntryLeq, entries);
    SortPermutes(EntryLeq, entries);
    PathsOnceOrdered(entries);
    DistinctOfMultiset(entries, sorted);
    assert forall e :: e in sorted <==> e in multiset(sorted);
    forall i, j | 0 <= i < j < |sorted|
      ensures Before(Codes(sorted[i].path), Codes(sorted[j].path))
    {
      assert sorted[i] in sorted && sorted[j] in sorted && EntryLeq(sorted[i], sorted[j]);
      OtherPath(entries, sorted[i], sorted[j]);
      LexIsBefore(Codes(sorted[i].path), Codes(sorted[j].path));
    }
  }

  lemma OtherPath<D>(entries: seq<Entry<D>>, a: Entry<D>, b: Entry<D>)
    requires PathsOnce(entries) && a in entries && b in entries && a != b
    ensures Codes(a.path) != Codes(b.path)
  {
    if a.path != b.path {
      if Codes(a.path) == Codes(b.path) { CodesInjective(a.path, b.path); }
    }
  }

  // The payload is the included files and no others, each once, as path and digest, in
  // ascending order of the paths.
  lemma PayloadListsFiles<C(!new), D(!new)>(root: Node<C>, inputs: seq<Path>, digest: C -> D)
    requires InputList(inputs) && FileTree(root) && Payload(root, inputs, digest).Some?
    ensures var payload := Payload(root, inputs, digest).value;
            && PathsAscend(payload)
            && (forall path, content :: Included(root, inputs, path, content) ==>
                  Entry(Join(path), digest(content)) in payload)
            && (forall e :: e in payload ==>
                  exists path, content :: Included(root, inputs, path, content)
                                          && e == Entry(Join(path), digest(content)))
  {
    var found := CollectInputs(root, inputs).value;
    RenderedOnce(root, inputs, digest);
    var payload := Payload(root, inputs, digest).value;
    SortedAscends(Render(found, digest), payload);
    hide PathsAscend, Sort, PathsOnce, CollectInputs, FileTree;
    forall path, content | Included(root, inputs, path, content)
      ensures Entry(Join(path), digest(content)) in payload
    {
      InputsFind(root, inputs, Found(path, content));
      var k :| 0 <= k < |found| && found[k] == Found(path, content);
      assert Render(found, digest)[k] in Render(found, digest);
    }
    forall e | e in payload
      ensures exists path, content :: Included(root, inputs, path, content) && e == Entry(Join(path), digest(content))
    {
      RenderMember(found, digest, e);
      var g :| g in found && e == Entry(Join(g.path), digest(g.content));
      InputsFind(root, inputs, g);
      assert Included(root, inputs, g.path, g.content);
    }
  }
}
