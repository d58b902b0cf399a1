// What acceptance of a fixture means: the data assets and the relations describe
// the same datasets, one to one, with the same fields, one to one, at the same
// revisions; and how the ids are spelled does not matter.
module DemoSourceMatch {
  import opened Wrappers
  import opened DemoSource
  import opened DemoSourceDb
  import opened DemoSourceReceipt

  // ---- Counting to the end ----

  function Below(n: nat): set<nat> {
    if n == 0 then {} else Below(n - 1) + {n - 1}
  }

  lemma {:induction false} BelowCounts(n: nat)
    ensures |Below(n)| == n && forall v: nat :: v in Below(n) <==> v < n
  {
    if n > 0 { BelowCounts(n - 1); }
  }

  function Values(f: seq<nat>): set<nat> {
    if f == [] then {} else Values(f[..|f| - 1]) + {f[|f| - 1]}
  }

  lemma {:induction false} ValuesCount(f: seq<nat>)
    ensures forall v :: v in Values(f) <==> v in f
    ensures Once(f) ==> |Values(f)| == |f|
  {
    if f != [] {
      ValuesCount(f[..|f| - 1]);
      assert f == f[..|f| - 1] + [f[|f| - 1]];
    }
  }

  lemma {:induction false} SmallerSet(a: set<nat>, b: set<nat>)
    requires a <= b
    ensures |a| <= |b|
  {
    if a != {} {
      var x :| x in a;
      SmallerSet(a - {x}, b - {x});
    }
  }

  // n different numbers below n are all of them.
  lemma Pigeonhole(f: seq<nat>, n: nat)
    requires |f| == n && Once(f) && forall i :: 0 <= i < n ==> f[i] < n
    ensures forall v: nat :: v < n ==> v in f
  {
    BelowCounts(n);
    ValuesCount(f);
    forall v: nat | v < n
      ensures v in f
    {
      if v !in f {
        assert Values(f) <= Below(n) - {v};
        SmallerSet(Values(f), Below(n) - {v});
      }
    }
  }

  // ---- One to one ----

  ghost predicate HasRight(i: nat, m: nat, same: (nat, nat) -> bool) {
    exists j: nat :: j < m && same(i, j)
  }

  ghost predicate HasLeft(j: nat, n: nat, same: (nat, nat) -> bool) {
    exists i: nat :: i < n && same(i, j)
  }

  // Each of n is the same as exactly one of m, and the other way round.
  ghost predicate OneToOne(n: nat, m: nat, same: (nat, nat) -> bool) {
    && (forall i: nat :: i < n ==> HasRight(i, m, same))
    && (forall j: nat :: j < m ==> HasLeft(j, n, same))
    && Unique(n, m, same)
  }

  ghost predicate Unique(n: nat, m: nat, same: (nat, nat) -> bool) {
    && (forall i: nat, j: nat, k: nat :: i < n && j < m && k < m && same(i, j) && same(i, k) ==> j == k)
    && (forall i: nat, j: nat, k: nat :: i < n && k < n && j < m && same(i, j) && same(k, j) ==> i == k)
  }

  lemma {:induction false} PickRights(n: nat, m: nat, same: (nat, nat) -> bool) returns (pick: seq<nat>)
    requires forall i: nat :: i < n ==> HasRight(i, m, same)
    ensures |pick| == n && forall i :: 0 <= i < n ==> pick[i] < m && same(i, pick[i])
  {
    if n == 0 {
      pick := [];
    } else {
      var before := PickRights(n - 1, m, same);
      assert HasRight(n - 1, m, same);
      var j: nat :| j < m && same(n - 1, j);
      pick := before + [j];
    }
  }

  // With as many on both sides, finding each on the left is finding all.
  lemma FoundIsOneToOne(n: nat, same: (nat, nat) -> bool)
    requires Unique(n, n, same) && forall i: nat :: i < n ==> HasRight(i, n, same)
    ensures OneToOne(n, n, same)
  {
    var pick := PickRights(n, n, same);
    assert Once(pick);
    Pigeonhole(pick, n);
    forall j: nat | j < n
      ensures HasLeft(j, n, same)
    {
      assert j in pick;
      var i :| 0 <= i < |pick| && pick[i] == j;
      assert same(i, j);
    }
  }

  // ---- Fields ----

  ghost function FieldMatch(rel: Relation, members: seq<Member>): (nat, nat) -> bool {
    (i: nat, j: nat) => i < |rel.fields| && j < |members| && SameField(members[j], rel.fields[i])
  }

  // The fields of the relation and the members of the spec are the same objects at
  // the same revisions, one to one.
  ghost predicate FieldsOneToOne(rel: Relation, members: seq<Member>) {
    OneToOne(|rel.fields|, |members|, FieldMatch(rel, members))
  }

  lemma MatchedFieldsOneToOne(rel: Relation, members: seq<Member>, snapshotId: Spelling)
    requires |members| == |rel.fields| && MembersOk(members, snapshotId) && FieldsOk(rel, members)
    requires FieldsApart(rel.fields)
    ensures FieldsOneToOne(rel, members)
  {
    var n, same := |rel.fields|, FieldMatch(rel, members);
    forall i: nat | i < n
      ensures HasRight(i, n, same)
    {
      assert FieldOk(rel.fields[i], Expected(rel.relation)[i], members);
      var j: nat :| j < |members| && SameField(members[j], rel.fields[i]);
      assert same(i, j);
    }
    forall i: nat, j: nat, k: nat | i < n && j < n && k < n && same(i, j) && same(i, k)
      ensures j == k
    {
      assert MemberUuid(members[j]) == MemberUuid(members[k]);
    }
    hide MembersOk, FieldsOk;
    FoundIsOneToOne(n, same);
  }

  // ---- Datasets ----

  ghost function DatasetMatch(rels: seq<Relation>, specs: seq<Option<Spec>>): (nat, nat) -> bool {
    (i: nat, k: nat) => i < |rels| && k < |specs| && SameDataset(specs[k], rels[i])
  }

  ghost predicate DatasetsOneToOne(rels: seq<Relation>, specs: seq<Option<Spec>>) {
    OneToOne(|rels|, |specs|, DatasetMatch(rels, specs))
  }

  lemma DatasetsApart(a: Relation, b: Relation)
    requires RelsApart(a, b)
    ensures UuidOf(a.datasetId) != UuidOf(b.datasetId)
  {
    assert ObjectsOf(a)[0] in ObjectsOf(a) && ObjectsOf(b)[0] in ObjectsOf(b);
  }

  lemma MatchIsSame(spec: Option<Spec>, rel: Relation, snapshotId: Spelling)
    requires Matches(spec, rel, snapshotId)
    ensures SameDataset(spec, rel)
  {
  }

  lemma AcceptedDatasets(rels: seq<Relation>, specs: seq<Option<Spec>>, snap: Spelling)
    requires |rels| == |specs| && rels != [] && SpecsOk(specs) && RelationsOk(rels, rels[0], specs, snap)
            && AllApart(rels)
    ensures DatasetsOneToOne(rels, specs)
  {
    var n, same := |rels|, DatasetMatch(rels, specs);
    hide Matches, RelationShape, Once, Objects, RelsApart, DatasetRefOk, TablesOnce;
    forall i: nat | i < n
      ensures HasRight(i, n, same)
    {
      assert RelationOk(rels[i], rels[0], specs, snap);
      var k: nat :| k < |specs| && Matches(specs[k], rels[i], snap);
      MatchIsSame(specs[k], rels[i], snap);
      assert same(i, k);
    }
    forall i: nat, j: nat, k: nat | i < n && j < n && k < n && same(i, j) && same(i, k)
      ensures j == k
    {
    }
    forall i: nat, j: nat, k: nat | i < n && k < n && j < n && same(i, j) && same(k, j)
      ensures i == k
    {
      if i < k { DatasetsApart(rels[i], rels[k]); }
      if k < i { DatasetsApart(rels[k], rels[i]); }
    }
    hide SpecsOk, RelationsOk, AllApart;
    FoundIsOneToOne(n, same);
  }

  // A relation and the spec of its dataset have the same fields, one to one.
  lemma SameDatasetMatches(rel: Relation, first: Relation, specs: seq<Option<Spec>>, k: nat, snap: Spelling)
    requires RelationOk(rel, first, specs, snap) && SpecsOk(specs) && k < |specs| && SameDataset(specs[k], rel)
    ensures Matches(specs[k], rel, snap)
  {
    hide MembersOk, FieldsOk, RelationShape, DatasetRefOk;
    var l :| 0 <= l < |specs| && Matches(specs[l], rel, snap);
    assert UuidOf(RefOf(specs[l]).objectId) == UuidOf(RefOf(specs[k]).objectId);
    assert l == k;
  }

  // Acceptance makes the data assets and the relations the same datasets at the
  // same revisions, one to one, each pair with the same fields, one to one.
  lemma AcceptedIsOneToOne(workspace: Option<Uuid>, actor: Option<Uuid>, snapshot: Option<Snapshot>)
    requires Valid(workspace, actor, snapshot)
    ensures var rels, specs := snapshot.value.execution.value, DataSpecs(snapshot.value.assets);
            && DatasetsOneToOne(rels, specs)
            && (forall i, k :: 0 <= i < |rels| && 0 <= k < |specs| && SameDataset(specs[k], rels[i]) ==>
                  specs[k].Some? && FieldsOneToOne(rels[i], specs[k].value.members))
  {
    var rels, specs := snapshot.value.execution.value, DataSpecs(snapshot.value.assets);
    var snap := SnapshotIdOf(specs);
    ValidApart(rels, rels[0], specs, snap);
    AcceptedDatasets(rels, specs, snap);
    hide DatasetsOneToOne, SpecsOk, FieldsOneToOne, FieldsApart;
    forall i, k | 0 <= i < |rels| && 0 <= k < |specs| && SameDataset(specs[k], rels[i])
      ensures specs[k].Some? && FieldsOneToOne(rels[i], specs[k].value.members)
    {
      assert RelationOk(rels[i], rels[0], specs, snap);
      SameDatasetMatches(rels[i], rels[0], specs, k, snap);
      MatchedFieldsOneToOne(rels[i], specs[k].value.members, snap);
    }
  }

  // ---- Spelling ----

  // The same id, and an id of the kind in either spelling.
  ghost predicate SameId(prefix: Prefix, a: Spelling, b: Spelling) {
    UuidOf(a) == UuidOf(b) && IsId(prefix, a) && IsId(prefix, b)
  }

  ghost predicate SameRef(object_: Prefix, revision: Prefix, a: Ref, b: Ref) {
    && a.kind == b.kind && a.snapshotId == b.snapshotId
    && SameId(object_, a.objectId, b.objectId) && SameId(revision, a.revisionId, b.revisionId)
  }

  ghost predicate SameMember(a: Member, b: Member) {
    && a.nullPolicy == b.nullPolicy
    && a.fieldRef.Some? && b.fieldRef.Some?
    && SameRef(PhysicalField, PhysicalFieldRevision, a.fieldRef.value, b.fieldRef.value)
  }

  ghost predicate SameSpec(a: Option<Spec>, b: Option<Spec>) {
    && a.Some? && b.Some? && a.value.datasetRef.Some? && b.value.datasetRef.Some?
    && SameRef(PhysicalDataset, PhysicalDatasetRevision, a.value.datasetRef.value, b.value.datasetRef.value)
    && |a.value.members| == |b.value.members|
    && forall j :: 0 <= j < |a.value.members| ==> SameMember(a.value.members[j], b.value.members[j])
  }

  ghost predicate SameColumn(a: Field, b: Field) {
    && a.name == b.name && a.dataType == b.dataType
    && SameId(PhysicalField, a.fieldId, b.fieldId) && SameId(PhysicalFieldRevision, a.revisionId, b.revisionId)
  }

  ghost predicate SameRelation(a: Relation, b: Relation) {
    && a.sourceId == b.sourceId && a.sourceRevisionId == b.sourceRevisionId && a.locator == b.locator
    && a.adapterKind == b.adapterKind && a.schema == b.schema && a.relation == b.relation
    && SameId(PhysicalDataset, a.datasetId, b.datasetId)
    && SameId(PhysicalDatasetRevision, a.datasetRevisionId, b.datasetRevisionId)
    && |a.fields| == |b.fields| && forall i :: 0 <= i < |a.fields| ==> SameColumn(a.fields[i], b.fields[i])
  }

  // The two snapshots differ only in how dataset and field ids are spelled.
  ghost predicate Respelled(a: Snapshot, b: Snapshot) {
    && a.workspace == b.workspace && a.execution.Some? && b.execution.Some?
    && |a.execution.value| == |b.execution.value|
    && (forall i :: 0 <= i < |a.execution.value| ==> SameRelation(a.execution.value[i], b.execution.value[i]))
    && |a.assets| == |b.assets|
    && (forall i :: 0 <= i < |a.assets| ==>
          && a.assets[i].dataAsset == b.assets[i].dataAsset
          && (a.assets[i].dataAsset ==> SameSpec(a.assets[i].content, b.assets[i].content)))
  }

  ghost predicate SameSpecs(a: seq<Option<Spec>>, b: seq<Option<Spec>>) {
    |a| == |b| && forall i :: 0 <= i < |a| ==> SameSpec(a[i], b[i])
  }

  lemma {:induction false} SpecsRespelled(a: seq<Asset>, b: seq<Asset>)
    requires |a| == |b|
    requires forall i :: 0 <= i < |a| ==>
               a[i].dataAsset == b[i].dataAsset && (a[i].dataAsset ==> SameSpec(a[i].content, b[i].content))
    ensures SameSpecs(DataSpecs(a), DataSpecs(b))
  {
    hide SameSpec;
    if a != [] { SpecsRespelled(a[..|a| - 1], b[..|b| - 1]); }
  }

  lemma {:induction false} FieldObjectsRespelled(a: seq<Field>, b: seq<Field>)
    requires |a| == |b| && forall i :: 0 <= i < |a| ==> SameColumn(a[i], b[i])
    ensures FieldObjects(a) == FieldObjects(b)
  {
    if a != [] { FieldObjectsRespelled(a[..|a| - 1], b[..|b| - 1]); }
  }

  lemma {:induction false} ObjectsRespelled(a: seq<Relation>, b: seq<Relation>)
    requires |a| == |b| && forall i :: 0 <= i < |a| ==> SameRelation(a[i], b[i])
    ensures Objects(a) == Objects(b)
  {
    if a != [] {
      ObjectsRespelled(a[..|a| - 1], b[..|b| - 1]);
      FieldObjectsRespelled(a[|a| - 1].fields, b[|b| - 1].fields);
    }
  }

  lemma SpecsOkRespelled(a: seq<Option<Spec>>, b: seq<Option<Spec>>)
    requires SameSpecs(a, b) && SpecsOk(a)
    ensures SpecsOk(b) && SnapshotIdOf(a) == SnapshotIdOf(b)
  {
    forall i | 0 <= i < |b| ensures DatasetRefOk(b[i]) { assert SameSpec(a[i], b[i]) && DatasetRefOk(a[i]); }
    assert forall i :: 0 <= i < |a| ==>
      UuidOf(RefOf(a[i]).objectId) == UuidOf(RefOf(b[i]).objectId) && RefOf(a[i]).snapshotId == RefOf(b[i]).snapshotId;
    hide SameSpec, DatasetRefOk, RefOf;
  }

  lemma MatchRespelled(s: Option<Spec>, t: Option<Spec>, a: Relation, b: Relation, snap: Spelling)
    requires SameSpec(s, t) && SameRelation(a, b) && Matches(s, a, snap)
    ensures Matches(t, b, snap)
  {
    var ms, ns := s.value.members, t.value.members;
    assert MembersOk(ns, snap) by {
      forall j | 0 <= j < |ns|
        ensures MemberOk(ns[j], snap)
      {
        assert SameMember(ms[j], ns[j]) && MemberOk(ms[j], snap);
      }
      forall i, j | 0 <= i < j < |ns| ensures MemberUuid(ns[i]) != MemberUuid(ns[j]) {
        assert SameMember(ms[i], ns[i]) && SameMember(ms[j], ns[j]);
      }
    }
    forall i | 0 <= i < |b.fields|
      ensures FieldOk(b.fields[i], Expected(b.relation)[i], ns)
    {
      assert SameColumn(a.fields[i], b.fields[i]) && FieldOk(a.fields[i], Expected(a.relation)[i], ms);
      var j :| 0 <= j < |ms| && SameField(ms[j], a.fields[i]);
      assert SameMember(ms[j], ns[j]);
      assert SameField(ns[j], b.fields[i]);
    }
    hide MembersOk, FieldOk, Expected, SameMember;
  }

  lemma RelationRespelled(
    a: Relation, b: Relation, first: Relation, other: Relation, specs: seq<Option<Spec>>, specs': seq<Option<Spec>>,
    snap: Spelling)
    requires SameRelation(a, b) && SameRelation(first, other) && SameSpecs(specs, specs')
            && RelationOk(a, first, specs, snap)
    ensures RelationOk(b, other, specs', snap) && b.relation == a.relation
  {
    hide Matches, SameSpec;
    var k :| 0 <= k < |specs| && Matches(specs[k], a, snap);
    MatchRespelled(specs[k], specs'[k], a, b, snap);
  }

  lemma RelationsRespelled(
    rels: seq<Relation>, rels': seq<Relation>, specs: seq<Option<Spec>>, specs': seq<Option<Spec>>, snap: Spelling)
    requires rels != [] && |rels| == |rels'| && forall i :: 0 <= i < |rels| ==> SameRelation(rels[i], rels'[i])
    requires SameSpecs(specs, specs') && RelationsOk(rels, rels[0], specs, snap)
    ensures RelationsOk(rels', rels'[0], specs', snap)
  {
    hide RelationOk, SameSpecs, SameRelation, Once, Objects;
    ObjectsRespelled(rels, rels');
    forall i | 0 <= i < |rels'|
      ensures RelationOk(rels'[i], rels'[0], specs', snap) && rels'[i].relation == rels[i].relation
    {
      RelationRespelled(rels[i], rels'[i], rels[0], rels'[0], specs, specs', snap);
    }
  }

  // Writing dataset and field ids as TypeIDs or as UUIDs makes no difference to
  // acceptance.
  lemma SpellingDoesNotMatter(workspace: Option<Uuid>, actor: Option<Uuid>, a: Snapshot, b: Snapshot)
    requires Respelled(a, b) && Valid(workspace, actor, Some(a))
    ensures Valid(workspace, actor, Some(b))
  {
    var rels, rels' := a.execution.value, b.execution.value;
    var specs, specs' := DataSpecs(a.assets), DataSpecs(b.assets);
    SpecsRespelled(a.assets, b.assets);
    assert |specs| == |specs'| && SameRelation(rels[0], rels'[0]);
    SpecsOkRespelled(specs, specs');
    hide RelationsOk, SpecsOk, SameSpecs, DataSpecs;
    RelationsRespelled(rels, rels', specs, specs', SnapshotIdOf(specs));
  }
}
