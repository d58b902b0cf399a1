// Rebinding fixture references to published identities: the rewrite as a function
// on trees, when doing it twice is doing it once, and the in-place visit that
// demo-seed runs on its copy of the value.
module Remap {
  import opened Wrappers

  datatype Tree =
    | Null
    | Bool(b: bool)
    | Num(token: string)
    | Str(s: string)
    | Arr(items: seq<Tree>)
    | Obj(fields: map<string, Tree>)

  type Replacements = map<string, string>

  const ASSET_ID := "assetId"
  const RELEASE_ID := "releaseId"

  function Replace(reps: Replacements, s: string): string {
    if s in reps then reps[s] else s
  }

  // The release recorded for an asset; "" if there is none.
  function ReleaseOf(reps: Replacements, asset: string): string {
    if "release:" + asset in reps then reps["release:" + asset] else ""
  }

  // The asset an object names: "" if it names none.
  function Original(fields: map<string, Tree>): string {
    if ASSET_ID in fields && fields[ASSET_ID].Str? then fields[ASSET_ID].s else ""
  }

  predicate Overridden(reps: Replacements, fields: map<string, Tree>) {
    RELEASE_ID in fields && Original(fields) != "" && ReleaseOf(reps, Original(fields)) != ""
  }

  function Remap(reps: Replacements, v: Tree): Tree
    decreases v, 1
  {
    match v
    case Str(s) => Str(Replace(reps, s))
    case Arr(items) => Arr(seq(|items|, i requires 0 <= i < |items| => Remap(reps, items[i])))
    case Obj(fields) => Obj(RemapFields(reps, v))
    case _ => v
  }

  function RemapFields(reps: Replacements, v: Tree): (r: map<string, Tree>)
    requires v.Obj?
    ensures r.Keys == v.fields.Keys
    decreases v, 0
  {
    map k | k in v.fields ::
      if k == RELEASE_ID && Overridden(reps, v.fields) then Str(ReleaseOf(reps, Original(v.fields)))
      else Remap(reps, v.fields[k])
  }

  // ---- What is kept ----

  datatype Key = Index(i: nat) | Field(name: string)

  function Child(v: Tree, key: Key): Option<Tree> {
    match key
    case Index(i) => if v.Arr? && i < |v.items| then Some(v.items[i]) else None
    case Field(name) => if v.Obj? && name in v.fields then Some(v.fields[name]) else None
  }

  function At(v: Tree, path: seq<Key>): Option<Tree> {
    if path == [] then Some(v)
    else
      match Child(v, path[0])
      case None => None
      case Some(child) => At(child, path[1..])
  }

  // The path goes through a releaseId that is overridden.
  ghost predicate ThroughRelease(reps: Replacements, v: Tree, path: seq<Key>)
    decreases path
  {
    path != [] &&
    ((v.Obj? && path[0] == Field(RELEASE_ID) && Overridden(reps, v.fields))
     || (Child(v, path[0]).Some? && ThroughRelease(reps, Child(v, path[0]).value, path[1..])))
  }

  // Every place that the original has, the result has, and no other, except below
  // an overridden releaseId; what stands there is the rewrite of what stood there.
  lemma {:induction false} PlacesKept(reps: Replacements, v: Tree, path: seq<Key>)
    requires !ThroughRelease(reps, v, path)
    ensures At(Remap(reps, v), path).Some? <==> At(v, path).Some?
    ensures At(v, path).Some? ==> At(Remap(reps, v), path).value == Remap(reps, At(v, path).value)
  {
    if path != [] {
      var child := Child(v, path[0]);
      assert Child(Remap(reps, v), path[0])
          == match child { case None => None case Some(c) => Some(Remap(reps, c)) };
      if child.Some? { PlacesKept(reps, child.value, path[1..]); }
    }
  }

  // An object that names a published asset gets that asset's release, whatever the
  // asset itself is rewritten to.
  lemma ReleaseOfOriginal(reps: Replacements, v: Tree, path: seq<Key>)
    requires !ThroughRelease(reps, v, path)
    requires At(v, path).Some? && At(v, path).value.Obj? && RELEASE_ID in At(v, path).value.fields
    ensures At(Remap(reps, v), path).Some? && At(Remap(reps, v), path).value.Obj?
    ensures var before, after := At(v, path).value.fields, At(Remap(reps, v), path).value.fields;
            && RELEASE_ID in after
            && after[RELEASE_ID]
               == (if Overridden(reps, before) then Str(ReleaseOf(reps, Original(before)))
                   else Remap(reps, before[RELEASE_ID]))
  {
    PlacesKept(reps, v, path);
  }

  // A text that stands for a published identity becomes that identity, and everything
  // else that is neither list nor object stays what it is.
  lemma LeavesRebound(reps: Replacements, v: Tree, path: seq<Key>)
    requires !ThroughRelease(reps, v, path) && At(v, path).Some?
    requires !At(v, path).value.Arr? && !At(v, path).value.Obj?
    ensures var leaf := At(v, path).value;
            At(Remap(reps, v), path)
            == if leaf.Str? && leaf.s in reps then Some(Str(reps[leaf.s])) else Some(leaf)
  {
    PlacesKept(reps, v, path);
  }

  // The release of an object is that recorded for the asset it named before, if one is
  // recorded; an object without an asset, or without a recorded release, keeps its own.
  lemma ReleaseRebound(reps: Replacements, v: Tree, path: seq<Key>, asset: string)
    requires !ThroughRelease(reps, v, path) && At(v, path).Some? && At(v, path).value.Obj?
    requires var fields := At(v, path).value.fields;
             ASSET_ID in fields && fields[ASSET_ID] == Str(asset) && asset != "" && RELEASE_ID in fields
    ensures At(Remap(reps, v), path).Some? && At(Remap(reps, v), path).value.Obj?
    ensures var before, after := At(v, path).value.fields, At(Remap(reps, v), path).value.fields;
            && after.Keys == before.Keys
            && after[ASSET_ID] == Str(if asset in reps then reps[asset] else asset)
            && after[RELEASE_ID]
               == if "release:" + asset in reps && reps["release:" + asset] != "" then Str(reps["release:" + asset])
                  else Remap(reps, before[RELEASE_ID])
  {
    PlacesKept(reps, v, path);
    assert ASSET_ID[0] != RELEASE_ID[0];
    var original := At(v, path).value;
    assert RemapFields(reps, original)[ASSET_ID] == Remap(reps, original.fields[ASSET_ID]);
  }

  // ---- Rewriting twice ----

  ghost predicate Idempotent(reps: Replacements) {
    forall v :: Remap(reps, Remap(reps, v)) == Remap(reps, v)
  }

  // No result is itself replaced by something else, and an asset keeps its release
  // when it is rewritten.
  ghost predicate Stable(reps: Replacements) {
    && (forall k :: k in reps ==> Replace(reps, reps[k]) == reps[k])
    && (forall a :: a in reps && reps[a] != "" && ReleaseOf(reps, reps[a]) != "" ==>
          a != "" && ReleaseOf(reps, a) == ReleaseOf(reps, reps[a]))
  }

  lemma {:induction false} StableRewritesOnce(reps: Replacements, v: Tree)
    requires Stable(reps)
    ensures Remap(reps, Remap(reps, v)) == Remap(reps, v)
    decreases v
  {
    match v
    case Arr(items) =>
      forall i | 0 <= i < |items|
        ensures Remap(reps, Remap(reps, items[i])) == Remap(reps, items[i])
      {
        StableRewritesOnce(reps, items[i]);
      }
    case Obj(fields) =>
      var once := RemapFields(reps, v);
      forall k | k in fields
        ensures RemapFields(reps, Obj(once))[k] == once[k]
      {
        StableRewritesOnce(reps, fields[k]);
        if k == RELEASE_ID {
          ReleaseStays(reps, v);
        }
      }
      assert RemapFields(reps, Obj(once)) == once;
    case _ =>
  }

  lemma OriginalAfter(reps: Replacements, v: Tree)
    requires v.Obj?
    ensures Original(RemapFields(reps, v))
         == if ASSET_ID in v.fields && v.fields[ASSET_ID].Str? then Replace(reps, Original(v.fields)) else ""
  {
    hide Overridden, ReleaseOf, Replace;
    assert ASSET_ID[0] != RELEASE_ID[0];
    if ASSET_ID in v.fields {
      assert RemapFields(reps, v)[ASSET_ID] == Remap(reps, v.fields[ASSET_ID]);
    }
  }

  lemma ReleaseStays(reps: Replacements, v: Tree)
    requires Stable(reps) && v.Obj? && RELEASE_ID in v.fields
    requires Remap(reps, Remap(reps, v.fields[RELEASE_ID])) == Remap(reps, v.fields[RELEASE_ID])
    ensures RemapFields(reps, Obj(RemapFields(reps, v)))[RELEASE_ID] == RemapFields(reps, v)[RELEASE_ID]
  {
    var once := RemapFields(reps, v);
    var a := Original(v.fields);
    OriginalAfter(reps, v);
    assert once[RELEASE_ID] == if Overridden(reps, v.fields) then Str(ReleaseOf(reps, a))
      else Remap(reps, v.fields[RELEASE_ID]);
    assert RemapFields(reps, Obj(once))[RELEASE_ID]
        == if Overridden(reps, once) then Str(ReleaseOf(reps, Original(once))) else Remap(reps, once[RELEASE_ID]);
    ReleaseIsFinal(reps, a);
    hide Original, RemapFields;
  }

  lemma ReleaseIsFinal(reps: Replacements, a: string)
    requires Stable(reps)
    ensures ReleaseOf(reps, a) != "" ==> Remap(reps, Str(ReleaseOf(reps, a))) == Str(ReleaseOf(reps, a))
  {
  }

  function Naming(asset: string): Tree {
    Obj(map[ASSET_ID := Str(asset), RELEASE_ID := Null])
  }

  lemma NamingTwice(reps: Replacements, a: string)
    requires a in reps && Remap(reps, Remap(reps, Naming(a))) == Remap(reps, Naming(a))
    requires reps[a] != "" && ReleaseOf(reps, reps[a]) != ""
    ensures a != "" && ReleaseOf(reps, a) == ReleaseOf(reps, reps[a])
  {
    var v := Naming(a);
    assert ASSET_ID[0] != RELEASE_ID[0];
    assert ASSET_ID in v.fields && RELEASE_ID in v.fields && Original(v.fields) == a;
    var once := RemapFields(reps, v);
    OriginalAfter(reps, v);
    assert Original(once) == reps[a];
    assert RemapFields(reps, Obj(once))[RELEASE_ID] == Str(ReleaseOf(reps, reps[a]));
    assert once[RELEASE_ID] == if a != "" && ReleaseOf(reps, a) != "" then Str(ReleaseOf(reps, a)) else Null;
  }

  // Rewriting twice is rewriting once, for every value, if and only if the
  // replacements are stable.
  lemma IdempotentIffStable(reps: Replacements)
    ensures Idempotent(reps) <==> Stable(reps)
  {
    if Stable(reps) {
      forall v
        ensures Remap(reps, Remap(reps, v)) == Remap(reps, v)
      {
        StableRewritesOnce(reps, v);
      }
    }
    if Idempotent(reps) {
      forall k | k in reps
        ensures Replace(reps, reps[k]) == reps[k]
      {
        assert Remap(reps, Remap(reps, Str(k))) == Remap(reps, Str(k));
      }
      forall a | a in reps && reps[a] != "" && ReleaseOf(reps, reps[a]) != ""
        ensures a != "" && ReleaseOf(reps, a) == ReleaseOf(reps, reps[a])
      {
        assert Remap(reps, Remap(reps, Naming(a))) == Remap(reps, Naming(a));
        NamingTwice(reps, a);
      }
    }
  }

  // Results that are no keys are not enough: the release of a result may be one.
  lemma DisjointResultsNotEnough()
    ensures var reps := map["a" := "b", "release:b" := "r2"];
            && reps.Keys !! reps.Values
            && Remap(reps, Naming("a")) == Obj(map[ASSET_ID := Str("b"), RELEASE_ID := Null])
            && Remap(reps, Remap(reps, Naming("a"))) != Remap(reps, Naming("a"))
  {
    var reps := map["a" := "b", "release:b" := "r2"];
    assert "release:" + "b" == "release:b";
    assert reps.Values == {"b", "r2"} by {
      assert reps["a"] == "b" && reps["release:b"] == "r2";
    }
    assert |"release:" + "a"| == 9 && ("release:" + "a")[8] == 'a' && "release:b"[8] == 'b' && |"a"| == 1;
    assert ReleaseOf(reps, "a") == "" && ReleaseOf(reps, "b") == "r2";
    assert RemapFields(reps, Naming("a")) == map[ASSET_ID := Str("b"), RELEASE_ID := Null];
    if Remap(reps, Remap(reps, Naming("a"))) == Remap(reps, Naming("a")) {
      NamingTwice(reps, "a");
      assert false;
    }
  }

  // The replacements that demo-seed records: no result is a key or the subject of
  // a release key.
  lemma DisjointIsStable(reps: Replacements)
    requires forall k :: k in reps ==> reps[k] !in reps && "release:" + reps[k] !in reps
    ensures Stable(reps)
  {
  }

  // ---- The visit in place ----

  // A decoded value: slices and dictionaries are references.
  datatype Any =
    | ANull
    | ABool(b: bool)
    | ANum(token: string)
    | AStr(s: string)
    | ASlice(a: array<Any>)
    | ADict(d: Dict)

  class Dict {
    var m: map<string, Any>

    constructor (m: map<string, Any>)
      ensures this.m == m
    {
      this.m := m;
    }
  }

  // Which references a value is made of; feet is all that it may use, its parts'
  // included.
  datatype Shape =
    | Leaf(feet: set<object>)
    | SliceOf(a: array<Any>, kids: seq<Shape>, feet: set<object>)
    | DictOf(d: Dict, parts: map<string, Shape>, feet: set<object>)

  // v is the tree t, held in the references of sh; no reference occurs twice.
  ghost predicate Holds(v: Any, t: Tree, sh: Shape)
    reads sh.feet
    decreases sh
  {
    match sh
    case Leaf(_) =>
      (match v
       case ANull => t == Null
       case ABool(b) => t == Bool(b)
       case ANum(token) => t == Num(token)
       case AStr(s) => t == Str(s)
       case _ => false)
    case SliceOf(a, kids, feet) =>
      && v == ASlice(a) && a in feet && t.Arr? && a.Length == |kids| == |t.items|
      && (forall i :: 0 <= i < |kids| ==>
            a !in kids[i].feet && kids[i].feet <= feet && Holds(a[i], t.items[i], kids[i]))
      && (forall i, j :: 0 <= i < |kids| && 0 <= j < |kids| && i != j ==> kids[i].feet !! kids[j].feet)
    case DictOf(d, parts, feet) =>
      && v == ADict(d) && d in feet && t.Obj? && d.m.Keys == parts.Keys == t.fields.Keys
      && (forall k :: k in parts ==>
            d !in parts[k].feet && parts[k].feet <= feet && Holds(d.m[k], t.fields[k], parts[k]))
      && (forall k, l :: k in parts && l in parts && k != l ==> parts[k].feet !! parts[l].feet)
  }

  // visit: the value is rewritten where it stands.
  method Visit(v: Any, reps: Replacements, ghost t: Tree, ghost sh: Shape) returns (r: Any, ghost after: Shape)
    requires Holds(v, t, sh)
    modifies sh.feet
    ensures after.feet == sh.feet && Holds(r, Remap(reps, t), after)
    decreases sh, 3
  {
    r, after := v, sh;
    match v {
      case AStr(s) =>
        if s in reps { r := AStr(reps[s]); }
      case ASlice(a) =>
        after := VisitSlice(a, reps, t, sh);
      case ADict(d) =>
        after := VisitDict(d, reps, t, sh);
      case _ =>
    }
  }

  method VisitItem(a: array<Any>, i: nat, reps: Replacements, ghost t: Tree, ghost kid: Shape)
      returns (ghost after: Shape)
    requires i < a.Length && a !in kid.feet && Holds(a[i], t, kid)
    modifies a, kid.feet
    ensures after.feet == kid.feet && Holds(a[i], Remap(reps, t), after)
    ensures forall j :: 0 <= j < a.Length && j != i ==> a[j] == old(a[j])
    decreases kid, 4
  {
    hide Holds, Remap;
    var item;
    item, after := Visit(a[i], reps, t, kid);
    a[i] := item;
  }

  // What a slice's references are, and what is rewritten.
  ghost predicate SlicePart(a: array<Any>, sh: Shape, kid: Shape) {
    kid < sh && a !in kid.feet && kid.feet <= sh.feet
  }

  lemma SliceParts(a: array<Any>, reps: Replacements, t: Tree, sh: Shape)
    requires Holds(ASlice(a), t, sh)
    ensures sh.SliceOf? && sh == SliceOf(a, sh.kids, sh.feet) && a in sh.feet
    ensures |sh.kids| == a.Length && t.Arr? && |t.items| == a.Length
    ensures Remap(reps, t).Arr? && |Remap(reps, t).items| == a.Length
    ensures forall i :: 0 <= i < a.Length ==> Remap(reps, t).items[i] == Remap(reps, t.items[i])
    ensures forall i :: 0 <= i < a.Length ==> SlicePart(a, sh, sh.kids[i]) && Holds(a[i], t.items[i], sh.kids[i])
    ensures forall i, j :: 0 <= i < a.Length && 0 <= j < a.Length && i != j ==> sh.kids[i].feet !! sh.kids[j].feet
  {
  }

  lemma SliceHolds(a: array<Any>, t: Tree, kids: seq<Shape>, sh: Shape)
    requires sh.SliceOf? && a in sh.feet && t.Arr? && a.Length == |kids| == |t.items| == |sh.kids|
    requires forall i :: 0 <= i < |kids| ==>
               kids[i].feet == sh.kids[i].feet && SlicePart(a, sh, sh.kids[i]) && Holds(a[i], t.items[i], kids[i])
    requires forall i, j :: 0 <= i < a.Length && 0 <= j < a.Length && i != j ==> sh.kids[i].feet !! sh.kids[j].feet
    ensures Holds(ASlice(a), t, SliceOf(a, kids, sh.feet))
  {
    assert forall i :: 0 <= i < |kids| ==> kids[i].feet == sh.kids[i].feet;
  }

  method VisitSlice(a: array<Any>, reps: Replacements, ghost t: Tree, ghost sh: Shape) returns (ghost after: Shape)
    requires Holds(ASlice(a), t, sh)
    modifies sh.feet
    ensures after.feet == sh.feet && Holds(ASlice(a), Remap(reps, t), after)
    decreases sh, 1
  {
    hide Holds, Remap;
    SliceParts(a, reps, t, sh);
    ghost var before, kids := sh.kids, sh.kids;
    for i := 0 to a.Length
      invariant |kids| == a.Length
      invariant forall j :: 0 <= j < a.Length ==> kids[j].feet == before[j].feet
      invariant forall j :: 0 <= j < i ==> Holds(a[j], Remap(reps, t.items[j]), kids[j])
      invariant forall j :: i <= j < a.Length ==> kids[j] == before[j] && Holds(a[j], t.items[j], before[j])
    {
      ghost var kid := VisitItem(a, i, reps, t.items[i], before[i]);
      kids := kids[i := kid];
    }
    after := SliceOf(a, kids, sh.feet);
    SliceHolds(a, Remap(reps, t), kids, sh);
  }

  // What a dictionary's references are.
  ghost predicate DictPart(d: Dict, sh: Shape, part: Shape) {
    part < sh && d !in part.feet && part.feet <= sh.feet
  }

  ghost predicate PartsApart(d: Dict, sh: Shape) {
    && sh.DictOf? && d == sh.d && d in sh.feet
    && (forall k :: k in sh.parts ==> DictPart(d, sh, sh.parts[k]))
    && (forall k, l :: k in sh.parts && l in sh.parts && k != l ==> sh.parts[k].feet !! sh.parts[l].feet)
  }

  lemma DictParts(d: Dict, t: Tree, sh: Shape)
    requires Holds(ADict(d), t, sh)
    ensures PartsApart(d, sh) && t.Obj? && d.m.Keys == sh.parts.Keys && t.fields.Keys == sh.parts.Keys
    ensures forall k :: k in sh.parts ==> Holds(d.m[k], t.fields[k], sh.parts[k])
    ensures Original(t.fields) == if ASSET_ID in d.m && d.m[ASSET_ID].AStr? then d.m[ASSET_ID].s else ""
  {
    assert ASSET_ID in sh.parts ==> Holds(d.m[ASSET_ID], t.fields[ASSET_ID], sh.parts[ASSET_ID]);
  }

  method VisitField(d: Dict, key: string, reps: Replacements, ghost t: Tree, ghost part: Shape)
      returns (ghost after: Shape)
    requires key in d.m && d !in part.feet && Holds(d.m[key], t, part)
    modifies d, part.feet
    ensures after.feet == part.feet
    ensures d.m.Keys == old(d.m.Keys) && Holds(d.m[key], Remap(reps, t), after)
    ensures forall k :: k in d.m && k != key ==> d.m[k] == old(d.m[k])
    decreases part, 4
  {
    hide Holds, Remap;
    var item;
    item, after := Visit(d.m[key], reps, t, part);
    d.m := d.m[key := item];
  }

  // A field's value before and after its visit.
  ghost predicate FieldIs(v: Any, reps: Replacements, field: Tree, before: Shape, now: Shape, done: bool)
    reads now.feet
  {
    && now.feet == before.feet
    && (if done then Holds(v, Remap(reps, field), now) else now == before && Holds(v, field, now))
  }

  // The keys in left are still to be visited.
  ghost predicate FieldsDone(d: Dict, reps: Replacements, t: Tree, sh: Shape, parts: map<string, Shape>,
      left: set<string>)
    requires sh.DictOf?
    reads d, sh.feet
  {
    && t.Obj? && d.m.Keys == t.fields.Keys == sh.parts.Keys == parts.Keys
    && forall k :: k in parts ==>
         parts[k].feet <= sh.feet && FieldIs(d.m[k], reps, t.fields[k], sh.parts[k], parts[k], k !in left)
  }

  method VisitNext(
    d: Dict, key: string, reps: Replacements, ghost t: Tree, ghost sh: Shape, ghost was: map<string, Shape>,
    ghost left: set<string>)
    returns (ghost parts: map<string, Shape>)
    requires PartsApart(d, sh) && FieldsDone(d, reps, t, sh, was, left) && key in left && key in was
    modifies sh.feet
    ensures FieldsDone(d, reps, t, sh, parts, left - {key})
    decreases sh, 0
  {
    hide Holds, Remap;
    ghost var part := sh.parts[key];
    assert DictPart(d, sh, part) && FieldIs(d.m[key], reps, t.fields[key], part, was[key], false);
    forall k | k in was
      ensures was[k].feet == sh.parts[k].feet && FieldIs(d.m[k], reps, t.fields[k], sh.parts[k], was[k], k !in left)
    {
    }
    ghost var after := VisitField(d, key, reps, t.fields[key], part);
    parts := was[key := after];
    assert FieldIs(d.m[key], reps, t.fields[key], part, after, true);
    hide FieldIs;
    forall k | k in parts
      ensures parts[k].feet <= sh.feet
      ensures FieldIs(d.m[k], reps, t.fields[k], sh.parts[k], parts[k], k !in left - {key})
    {
      if k != key {
        assert DictPart(d, sh, sh.parts[k]);
        assert sh.parts[k].feet !! part.feet;
        assert old(FieldIs(d.m[k], reps, t.fields[k], sh.parts[k], was[k], k !in left));
      }
    }
    assert sh.DictOf? && t.Obj? && d.m.Keys == t.fields.Keys == sh.parts.Keys == parts.Keys;
    hide FieldsDone, PartsApart;
    FieldsAreDone(d, reps, t, sh, parts, left - {key});
  }

  lemma FieldsAreDone(d: Dict, reps: Replacements, t: Tree, sh: Shape, parts: map<string, Shape>, left: set<string>)
    requires sh.DictOf? && t.Obj? && d.m.Keys == t.fields.Keys == sh.parts.Keys == parts.Keys
    requires forall k :: k in parts ==>
               parts[k].feet <= sh.feet && FieldIs(d.m[k], reps, t.fields[k], sh.parts[k], parts[k], k !in left)
    ensures FieldsDone(d, reps, t, sh, parts, left)
  {
    hide FieldIs;
  }

  // The loop over the keys, in any order.
  method VisitFields(d: Dict, reps: Replacements, ghost t: Tree, ghost sh: Shape)
      returns (ghost parts: map<string, Shape>)
    requires Holds(ADict(d), t, sh)
    modifies sh.feet
    ensures sh.DictOf? && FieldsDone(d, reps, t, sh, parts, {})
    decreases sh, 1
  {
    hide Holds, Remap;
    DictParts(d, t, sh);
    parts := sh.parts;
    var left := d.m.Keys;
    assert FieldsDone(d, reps, t, sh, parts, left) by {
      assert forall k :: k in parts ==> DictPart(d, sh, parts[k]);
    }
    hide FieldsDone, FieldIs, PartsApart;
    while left != {}
      invariant left <= sh.parts.Keys && parts.Keys == sh.parts.Keys && FieldsDone(d, reps, t, sh, parts, left)
      decreases left
    {
      var key :| key in left;
      parts := VisitNext(d, key, reps, t, sh, parts, left);
      left := left - {key};
    }
  }

  lemma RemapDict(reps: Replacements, t: Tree)
    requires t.Obj?
    ensures Remap(reps, t).Obj? && Remap(reps, t).fields.Keys == t.fields.Keys
    ensures forall k :: k in t.fields && !(k == RELEASE_ID && Overridden(reps, t.fields)) ==>
              Remap(reps, t).fields[k] == Remap(reps, t.fields[k])
    ensures Overridden(reps, t.fields) ==>
              RELEASE_ID in t.fields && Remap(reps, t).fields[RELEASE_ID] == Str(ReleaseOf(reps, Original(t.fields)))
  {
  }

  ghost predicate PartIs(v: Any, t: Tree, before: Shape, now: Shape)
    reads now.feet
  {
    now.feet == before.feet && Holds(v, t, now)
  }

  lemma DictHolds(d: Dict, t: Tree, parts: map<string, Shape>, sh: Shape)
    requires PartsApart(d, sh) && t.Obj? && d.m.Keys == parts.Keys == t.fields.Keys == sh.parts.Keys
    requires forall k :: k in parts ==> PartIs(d.m[k], t.fields[k], sh.parts[k], parts[k])
    ensures Holds(ADict(d), t, DictOf(d, parts, sh.feet))
  {
    forall k | k in parts
      ensures parts[k].feet == sh.parts[k].feet && DictPart(d, sh, sh.parts[k])
    {
      assert PartIs(d.m[k], t.fields[k], sh.parts[k], parts[k]);
    }
  }

  // The release of the original asset, if it has one, replaces the releaseId.
  method Override(
    d: Dict, original: string, reps: Replacements, ghost t: Tree, ghost sh: Shape, ghost was: map<string, Shape>)
    returns (ghost parts: map<string, Shape>)
    requires PartsApart(d, sh) && FieldsDone(d, reps, t, sh, was, {}) && original == Original(t.fields)
    modifies d
    ensures Holds(ADict(d), Remap(reps, t), DictOf(d, parts, sh.feet))
  {
    hide Remap, Holds, Original;
    RemapDict(reps, t);
    parts := was;
    forall k | k in was
      ensures PartIs(d.m[k], Remap(reps, t.fields[k]), sh.parts[k], was[k]) && d !in was[k].feet
    {
      assert DictPart(d, sh, sh.parts[k]);
    }
    hide PartIs, FieldsDone, FieldIs;
    if RELEASE_ID in d.m && original != "" {
      var release := if "release:" + original in reps then reps["release:" + original] else "";
      if release != "" {
        d.m := d.m[RELEASE_ID := AStr(release)];
        parts := was[RELEASE_ID := Leaf(sh.parts[RELEASE_ID].feet)];
        ReleaseIs(release, sh.parts[RELEASE_ID]);
      }
    }
    hide PartsApart;
    DictHolds(d, Remap(reps, t), parts, sh);
  }

  lemma ReleaseIs(release: string, before: Shape)
    ensures PartIs(AStr(release), Str(release), before, Leaf(before.feet))
  {
  }

  method VisitDict(d: Dict, reps: Replacements, ghost t: Tree, ghost sh: Shape) returns (ghost after: Shape)
    requires Holds(ADict(d), t, sh)
    modifies sh.feet
    ensures after.feet == sh.feet && Holds(ADict(d), Remap(reps, t), after)
    decreases sh, 2
  {
    hide Holds, Remap, Original, FieldsDone, Overridden;
    DictParts(d, t, sh);
    var original := "";
    if ASSET_ID in d.m && d.m[ASSET_ID].AStr? { original := d.m[ASSET_ID].s; }
    ghost var parts := VisitFields(d, reps, t, sh);
    parts := Override(d, original, reps, t, sh, parts);
    after := DictOf(d, parts, sh.feet);
  }

  // ---- The copy ----

  // v is the tree t, whatever references its parts share.
  ghost predicate Shows(v: Any, t: Tree, sh: Shape)
    reads sh.feet
    decreases sh
  {
    match sh
    case Leaf(_) =>
      (match v
       case ANull => t == Null
       case ABool(b) => t == Bool(b)
       case ANum(token) => t == Num(token)
       case AStr(s) => t == Str(s)
       case _ => false)
    case SliceOf(a, kids, feet) =>
      && v == ASlice(a) && a in feet && t.Arr? && a.Length == |kids| == |t.items|
      && (forall i :: 0 <= i < |kids| ==> kids[i].feet <= feet && Shows(a[i], t.items[i], kids[i]))
    case DictOf(d, parts, feet) =>
      && v == ADict(d) && d in feet && t.Obj? && d.m.Keys == parts.Keys == t.fields.Keys
      && (forall k :: k in parts ==> parts[k].feet <= feet && Shows(d.m[k], t.fields[k], parts[k]))
  }

  lemma ShownParts(v: Any, t: Tree, sh: Shape)
    requires Shows(v, t, sh)
    ensures v.ASlice? ==>
              && sh.SliceOf? && t.Arr? && v.a.Length == |sh.kids| == |t.items|
              && forall i :: 0 <= i < |sh.kids| ==> sh.kids[i] < sh && Shows(v.a[i], t.items[i], sh.kids[i])
    ensures v.ADict? ==>
              && sh.DictOf? && t.Obj? && v.d.m.Keys == sh.parts.Keys == t.fields.Keys
              && forall k :: k in sh.parts ==> sh.parts[k] < sh && Shows(v.d.m[k], t.fields[k], sh.parts[k])
  {
  }

  // Encoding and decoding a value makes the same tree anew, without sharing.
  method Copy(v: Any, ghost t: Tree, ghost sh: Shape) returns (r: Any, ghost own: Shape)
    requires Shows(v, t, sh)
    ensures Holds(r, t, own) && fresh(own.feet)
    decreases sh, 1
  {
    match v {
      case ASlice(a) => r, own := CopySlice(a, t, sh);
      case ADict(d) => r, own := CopyDict(d, t, sh);
      case _ => r, own := v, Leaf({});
    }
  }

  method CopySlice(a: array<Any>, ghost t: Tree, ghost sh: Shape) returns (r: Any, ghost own: Shape)
    requires Shows(ASlice(a), t, sh)
    ensures Holds(r, t, own) && fresh(own.feet)
    decreases sh, 0
  {
    ShownParts(ASlice(a), t, sh);
    hide Holds, Shows;
    var items: seq<Any> := [];
    ghost var kids: seq<Shape>, feet: set<object> := [], {};
    for i := 0 to a.Length
      invariant |items| == |kids| == i && fresh(feet)
      invariant forall j :: 0 <= j < i ==> kids[j].feet <= feet && Holds(items[j], t.items[j], kids[j])
      invariant forall j, k :: 0 <= j < i && 0 <= k < i && j != k ==> kids[j].feet !! kids[k].feet
    {
      var item; ghost var kid;
      item, kid := Copy(a[i], t.items[i], sh.kids[i]);
      assert kid.feet !! feet;
      items, kids, feet := items + [item], kids + [kid], feet + kid.feet;
    }
    var copied := new Any[|items|](i requires 0 <= i < |items| => items[i]);
    r, own := ASlice(copied), SliceOf(copied, kids, feet + {copied});
    CopiedSliceHolds(copied, t, kids, feet);
  }

  lemma CopiedSliceHolds(a: array<Any>, t: Tree, kids: seq<Shape>, feet: set<object>)
    requires a !in feet && t.Arr? && a.Length == |kids| == |t.items|
    requires forall i :: 0 <= i < |kids| ==> kids[i].feet <= feet && Holds(a[i], t.items[i], kids[i])
    requires forall i, j :: 0 <= i < |kids| && 0 <= j < |kids| && i != j ==> kids[i].feet !! kids[j].feet
    ensures Holds(ASlice(a), t, SliceOf(a, kids, feet + {a}))
  {
  }

  // The fields copied so far, in references of their own.
  ghost predicate Copied(m: map<string, Any>, t: Tree, parts: map<string, Shape>, feet: set<object>)
    reads feet
  {
    && t.Obj? && m.Keys == parts.Keys <= t.fields.Keys
    && (forall k :: k in parts ==> parts[k].feet <= feet && Holds(m[k], t.fields[k], parts[k]))
    && (forall k, l :: k in parts && l in parts && k != l ==> parts[k].feet !! parts[l].feet)
  }

  lemma OneMoreCopied(
    m: map<string, Any>, t: Tree, parts: map<string, Shape>, feet: set<object>, key: string, item: Any, part: Shape)
    requires Copied(m, t, parts, feet) && key !in m && key in t.fields
    requires Holds(item, t.fields[key], part) && part.feet !! feet
    ensures Copied(m[key := item], t, parts[key := part], feet + part.feet)
  {
    hide Holds;
  }

  method CopyDict(d: Dict, ghost t: Tree, ghost sh: Shape) returns (r: Any, ghost own: Shape)
    requires Shows(ADict(d), t, sh)
    ensures Holds(r, t, own) && fresh(own.feet)
    decreases sh, 0
  {
    ShownParts(ADict(d), t, sh);
    var m: map<string, Any> := map[];
    ghost var parts: map<string, Shape>, feet: set<object> := map[], {};
    var left := d.m.Keys;
    assert Copied(m, t, parts, feet);
    hide Holds, Shows, Copied;
    while left != {}
      invariant left <= d.m.Keys && m.Keys == d.m.Keys - left && fresh(feet) && Copied(m, t, parts, feet)
      decreases left
    {
      var key :| key in left;
      var item; ghost var part;
      item, part := Copy(d.m[key], t.fields[key], sh.parts[key]);
      OneMoreCopied(m, t, parts, feet, key, item, part);
      m, parts, feet := m[key := item], parts[key := part], feet + part.feet;
      left := left - {key};
    }
    var copied := new Dict(m);
    r, own := ADict(copied), DictOf(copied, parts, feet + {copied});
    CopiedDictHolds(copied, t, parts, feet);
  }

  lemma CopiedDictHolds(d: Dict, t: Tree, parts: map<string, Shape>, feet: set<object>)
    requires d !in feet && t.Obj? && d.m.Keys == t.fields.Keys && Copied(d.m, t, parts, feet)
    ensures Holds(ADict(d), t, DictOf(d, parts, feet + {d}))
  {
  }

  // remap: the visit works on a copy, so the caller keeps the tree it had, in the
  // references it had.
  method RemapCopy(value: Any, reps: Replacements, ghost t: Tree, ghost own: Shape) returns (r: Any, ghost after: Shape)
    requires Shows(value, t, own)
    ensures Holds(r, Remap(reps, t), after) && fresh(after.feet)
    ensures Shows(value, t, own)
  {
    hide Holds, Shows, Remap;
    var copy; ghost var other;
    copy, other := Copy(value, t, own);
    r, after := Visit(copy, reps, t, other);
  }
}
