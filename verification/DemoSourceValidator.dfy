// sourceStatements, step by step: the loops that fill ids, specs and the sets of
// what was seen accept exactly the valid fixtures and emit exactly their rows.
module DemoSourceValidator {
  import opened Wrappers
  import opened DemoSource

  // No two columns of a table share a name.
  lemma ColumnsOnce(relation: string)
    ensures forall i, j :: 0 <= i < j < |Expected(relation)| ==>
            Expected(relation)[i].name != Expected(relation)[j].name
  {
    assert "id" != "amount" && "id" != "paid_at" && "id" != "customer_id" && "id" != "is_valid";
    assert |"amount"| == 6 && |"paid_at"| == 7 && |"customer_id"| == 11 && |"is_valid"| == 8;
    assert |"id"| == 2 && |"region"| == 6 && |"first_paid_at"| == 13;
  }

  class Validator {
    var ids: map<Spelling, Uuid>
    var specs: map<Uuid, Spec>
    var snapshotId: Spelling
    var seenTables: set<string>
    var seenObjects: set<Uuid>

    constructor ()
      ensures ids == map[] && specs == map[] && snapshotId == BLANK && seenTables == {} && seenObjects == {}
    {
      ids, specs, snapshotId, seenTables, seenObjects := map[], map[], BLANK, {}, {};
    }

    // Every parsed spelling is mapped to its UUID.
    ghost predicate Parsed()
      reads `ids
    {
      forall s :: s in ids ==> ids[s] == UuidOf(s)
    }

    method Parse(prefix: Prefix, s: Spelling) returns (ok: bool)
      requires Parsed()
      modifies `ids
      ensures Parsed() && old(ids).Keys <= ids.Keys
      ensures ok <==> IsId(prefix, s)
      ensures ok ==> s in ids
    {
      match s {
        case TypeId(p, u) =>
          if p != prefix { return false; }
          ids := ids[s := u];
          return true;
        case Bare(u) =>
          ids := ids[s := u];
          return true;
        case Garbage(_) =>
          return false;
      }
    }

    // An id that no object before it has.
    method ParseNew(prefix: Prefix, s: Spelling) returns (ok: bool)
      requires Parsed()
      modifies `ids, `seenObjects
      ensures Parsed() && old(ids).Keys <= ids.Keys
      ensures ok <==> IsId(prefix, s) && UuidOf(s) !in old(seenObjects)
      ensures ok ==> s in ids && seenObjects == old(seenObjects) + {UuidOf(s)}
    {
      ok := Parse(prefix, s);
      if !ok { return; }
      if ids[s] in seenObjects { return false; }
      seenObjects := seenObjects + {ids[s]};
    }

    // The specs of the data assets by dataset, and the last snapshot id.
    ghost predicate SpecsRead(read: seq<Option<Spec>>)
      reads `specs, `snapshotId, `ids
    {
      && specs == SpecMap(read)
      && snapshotId == SnapshotIdOf(read)
      && RefsParsed(read, ids)
    }

    method ReadSpec(asset: Asset, ghost read: seq<Option<Spec>>) returns (ok: bool)
      requires Parsed() && SpecsOk(read) && SpecsRead(read) && asset.dataAsset
      modifies `ids, `specs, `snapshotId
      ensures Parsed() && old(ids).Keys <= ids.Keys
      ensures ok <==> SpecsOk(read + [asset.content])
      ensures ok ==> SpecsRead(read + [asset.content])
    {
      SpecsGrow(read, asset.content);
      if asset.content.None? { return false; }
      var spec := asset.content.value;
      if spec.datasetRef.None? { return false; }
      var ref := spec.datasetRef.value;
      SpecMapKeys(read, UuidOf(ref.objectId));
      hide SpecsOk, SpecMap;
      if ref.kind != "dataset" || (snapshotId != BLANK && snapshotId != ref.snapshotId) { return false; }
      ok := Parse(PhysicalDataset, ref.objectId);
      if !ok { return; }
      ok := Parse(PhysicalDatasetRevision, ref.revisionId);
      if !ok { return; }
      if ids[ref.objectId] in specs { return false; }
      snapshotId := ref.snapshotId;
      specs := specs[ids[ref.objectId] := spec];
      SpecMapMore(read, asset.content);
      return true;
    }

    method ReadSpecs(assets: seq<Asset>) returns (ok: bool)
      requires Parsed() && specs == map[] && snapshotId == BLANK
      modifies `ids, `specs, `snapshotId
      ensures Parsed() && old(ids).Keys <= ids.Keys
      ensures ok <==> SpecsOk(DataSpecs(assets))
      ensures ok ==> SpecsRead(DataSpecs(assets))
    {
      assert assets[..0] == [] && SpecsOk(DataSpecs([])) && SpecsRead(DataSpecs([]));
      hide SpecsOk, SpecsRead, Parsed;
      for i := 0 to |assets|
        invariant Parsed() && old(ids).Keys <= ids.Keys && SpecsOk(DataSpecs(assets[..i]))
                && SpecsRead(DataSpecs(assets[..i]))
      {
        DataSpecsNext(assets, i);
        if assets[i].dataAsset {
          ok := ReadSpec(assets[i], DataSpecs(assets[..i]));
          if !ok {
            SpecsOkPrefix(assets, i + 1);
            return;
          }
        }
      }
      assert assets[..|assets|] == assets;
      return true;
    }

    // The members of a spec by field.
    method CheckMembers(members: seq<Member>) returns (ok: bool, fields: map<Uuid, Ref>)
      requires Parsed()
      modifies `ids
      ensures Parsed() && old(ids).Keys <= ids.Keys
      ensures ok <==> MembersOk(members, snapshotId)
      ensures ok ==> fields == RefMap(members) && MembersParsed(members, ids)
    {
      fields := map[];
      hide Parsed, RefMap, MembersOk;
      assert members[..0] == [];
      NoMembers(snapshotId, ids);
      for i := 0 to |members|
        invariant Parsed() && old(ids).Keys <= ids.Keys
        invariant MembersOk(members[..i], snapshotId) && fields == RefMap(members[..i])
                && MembersParsed(members[..i], ids)
      {
        assert members[..i + 1] == members[..i] + [members[i]];
        MembersGrow(members[..i], members[i], snapshotId);
        ok := CheckMember(members[i], fields);
        if !ok {
          MembersOkShorter(members[..i + 1], members, snapshotId);
          return;
        }
        fields := fields[MemberUuid(members[i]) := members[i].fieldRef.value];
      }
      assert members[..|members|] == members;
      ok := true;
    }

    method CheckMember(m: Member, fields: map<Uuid, Ref>) returns (ok: bool)
      requires Parsed()
      modifies `ids
      ensures Parsed() && old(ids).Keys <= ids.Keys
      ensures ok <==> MemberOk(m, snapshotId) && MemberUuid(m) !in fields
      ensures ok ==> m.fieldRef.value.revisionId in ids
    {
      if m.fieldRef.None? { return false; }
      var ref := m.fieldRef.value;
      if ref.kind != "field" || ref.snapshotId != snapshotId || m.nullPolicy != "required" { return false; }
      ok := Parse(PhysicalField, ref.objectId);
      if !ok { return; }
      ok := Parse(PhysicalFieldRevision, ref.revisionId);
      if !ok { return; }
      ok := ids[ref.objectId] !in fields;
    }

    // The objects seen so far, in the order they were seen.
    ghost predicate Seen(seen: seq<Uuid>)
      reads `seenObjects
    {
      Once(seen) && forall u :: u in seenObjects <==> u in seen
    }

    // One column of the fixed schema.
    method CheckField(f: Field, column: Column, seenNames: set<string>, fields: map<Uuid, Ref>,
        ghost members: seq<Member>,
                      ghost seen: seq<Uuid>)
      returns (ok: bool)
      requires Parsed() && Seen(seen) && MembersOk(members, snapshotId) && fields == RefMap(members)
      requires MembersParsed(members, ids) && column.name !in seenNames
      modifies `ids, `seenObjects
      ensures Parsed() && old(ids).Keys <= ids.Keys
      ensures ok <==> FieldOk(f, column, members) && Once(seen + [UuidOf(f.fieldId), UuidOf(f.revisionId)])
      ensures ok ==> Seen(seen + [UuidOf(f.fieldId), UuidOf(f.revisionId)])
    {
      RefMapFinds(members, f, snapshotId);
      OnceGrows(seen, UuidOf(f.fieldId));
      OnceGrows(seen + [UuidOf(f.fieldId)], UuidOf(f.revisionId));
      assert seen + [UuidOf(f.fieldId)] + [UuidOf(f.revisionId)] == seen + [UuidOf(f.fieldId), UuidOf(f.revisionId)];
      hide Once, MembersOk, RefMap, HasMember;
      ok := ParseNew(PhysicalField, f.fieldId);
      if !ok { return; }
      ok := ParseNew(PhysicalFieldRevision, f.revisionId);
      if !ok { return; }
      var u := ids[f.fieldId];
      if f.name != column.name || f.dataType != column.dataType || f.name in seenNames || u !in fields { return false; }
      RefMapParsed(members, u, ids, snapshotId);
      ok := ids[fields[u].revisionId] == ids[f.revisionId];
    }

    method CheckFields(rel: Relation, fields: map<Uuid, Ref>, ghost members: seq<Member>, ghost seen: seq<Uuid>)
      returns (ok: bool)
      requires Parsed() && Seen(seen) && MembersOk(members, snapshotId) && fields == RefMap(members)
      requires MembersParsed(members, ids)
      modifies `ids, `seenObjects
      ensures Parsed()
      ensures old(ids).Keys <= ids.Keys
      ensures ok <==> FieldsOk(rel, members) && Once(seen + FieldObjects(rel.fields))
      ensures ok ==> Seen(seen + FieldObjects(rel.fields))
    {
      var columns := Expected(rel.relation);
      if |rel.fields| != |columns| { return false; }
      ColumnsOnce(rel.relation);
      hide Expected, Once, MembersOk, RefMap, Parsed, Seen, FieldOk, MembersParsed, FieldObjects, HasMember, IsId,
        UuidOf;
      hide FieldsOk, FieldsOkUpTo;
      NoFields(seen);
      NoFieldsOk(rel, members);
      assert rel.fields[..0] == [];
      var seenNames: set<string> := {};
      for i := 0 to |columns|
        invariant Parsed() && old(ids).Keys <= ids.Keys && |rel.fields| == |columns|
        invariant Seen(seen + FieldObjects(rel.fields[..i])) && FieldsOkUpTo(rel, members, i)
        invariant forall k :: i <= k < |columns| ==> columns[k].name !in seenNames
      {
        var f := rel.fields[i];
        FieldObjectsNext(rel.fields, seen, i);
        StillParsed(members, old(ids), ids);
        ok := CheckField(f, columns[i], seenNames, fields, members, seen + FieldObjects(rel.fields[..i]));
        FieldsOkNext(rel, members, i);
        if !ok {
          FieldObjectsShorter(rel.fields, seen, i + 1);
          return;
        }
        NameIs(f, columns[i], members);
        seenNames := seenNames + {f.name};
      }
      AllFieldsOk(rel, members);
      assert rel.fields[..|columns|] == rel.fields;
      SeenOnce(seen + FieldObjects(rel.fields));
      ok := true;
    }

    // The relation's own ids are new.
    method CheckIdentity(rel: Relation, first: Relation, ghost seen: seq<Uuid>) returns (ok: bool)
      requires Parsed() && Seen(seen)
      modifies `ids, `seenObjects, `seenTables
      ensures Parsed() && old(ids).Keys <= ids.Keys
      ensures ok <==> RelationShape(rel, first) && rel.relation !in old(seenTables)
                      && IsId(PhysicalDataset, rel.datasetId) && IsId(PhysicalDatasetRevision, rel.datasetRevisionId)
                      && Once(seen + [UuidOf(rel.datasetId), UuidOf(rel.datasetRevisionId)])
      ensures ok ==> Seen(seen + [UuidOf(rel.datasetId), UuidOf(rel.datasetRevisionId)])
      ensures ok ==>
              rel.datasetId in ids && rel.datasetRevisionId in ids
              && seenTables == old(seenTables) + {rel.relation}
    {
      OnceGrows(seen, UuidOf(rel.datasetId));
      OnceGrows(seen + [UuidOf(rel.datasetId)], UuidOf(rel.datasetRevisionId));
      assert seen + [UuidOf(rel.datasetId)] + [UuidOf(rel.datasetRevisionId)]
          == seen + [UuidOf(rel.datasetId), UuidOf(rel.datasetRevisionId)];
      hide Once;
      if !RelationShape(rel, first) || rel.relation in seenTables { return false; }
      seenTables := seenTables + {rel.relation};
      ok := ParseNew(PhysicalDataset, rel.datasetId);
      if !ok { return; }
      ok := ParseNew(PhysicalDatasetRevision, rel.datasetRevisionId);
    }

    // The relation matches the spec of its dataset.
    method CheckMatch(rel: Relation, ghost read: seq<Option<Spec>>, ghost seen: seq<Uuid>) returns (ok: bool)
      requires Parsed() && Seen(seen) && SpecsOk(read) && SpecsRead(read)
      requires rel.datasetId in ids && rel.datasetRevisionId in ids
      modifies `ids, `seenObjects
      ensures Parsed() && old(ids).Keys <= ids.Keys
      ensures ok <==> UuidOf(rel.datasetId) in specs && Matches(Some(specs[UuidOf(rel.datasetId)]), rel, snapshotId)
                      && Once(seen + FieldObjects(rel.fields))
      ensures ok ==> Seen(seen + FieldObjects(rel.fields))
    {
      hide Once, SpecsOk, SpecMap, MembersOk, FieldsOk, RefMap, Seen;
      if ids[rel.datasetId] !in specs { return false; }
      var spec := specs[ids[rel.datasetId]];
      RevisionParsed(read, UuidOf(rel.datasetId), ids);
      if ids[spec.datasetRef.value.revisionId] != ids[rel.datasetRevisionId]
         || |spec.members| != |rel.fields| || |rel.fields| == 0
      {
        return false;
      }
      var fields;
      ok, fields := CheckMembers(spec.members);
      if !ok { return; }
      ok := CheckFields(rel, fields, spec.members, seen);
    }

    method CheckRelation(rel: Relation, first: Relation, ghost read: seq<Option<Spec>>, ghost seen: seq<Uuid>)
      returns (ok: bool)
      requires Parsed() && Seen(seen) && SpecsOk(read) && SpecsRead(read)
      modifies `ids, `seenObjects, `seenTables
      ensures Parsed() && old(ids).Keys <= ids.Keys
      ensures ok <==>
              RelationOk(rel, first, read, snapshotId) && rel.relation !in old(seenTables)
              && Once(seen + ObjectsOf(rel))
      ensures ok ==> Seen(seen + ObjectsOf(rel)) && seenTables == old(seenTables) + {rel.relation}
    {
      ghost var seen' := seen + [UuidOf(rel.datasetId), UuidOf(rel.datasetRevisionId)];
      assert seen + ObjectsOf(rel) == seen' + FieldObjects(rel.fields);
      OnceShorter(seen', seen + ObjectsOf(rel));
      OneMatch(read, rel, first, snapshotId);
      hide Once, SpecsOk, SpecMap, Matches, RelationOk, Seen, Parsed, RelationShape;
      ok := CheckIdentity(rel, first, seen);
      if !ok { return; }
      SpecsStillRead(read, old(ids), ids);
      ok := CheckMatch(rel, read, seen');
    }

    lemma SpecsStillRead(read: seq<Option<Spec>>, before: map<Spelling, Uuid>, after: map<Spelling, Uuid>)
      requires RefsParsed(read, before) && before.Keys <= after.Keys
      ensures RefsParsed(read, after)
    {
    }

    method CheckRelations(rels: seq<Relation>, ghost read: seq<Option<Spec>>) returns (ok: bool)
      requires Parsed() && SpecsOk(read) && SpecsRead(read) && rels != [] && seenTables == {} && seenObjects == {}
      modifies `ids, `seenObjects, `seenTables
      ensures Parsed() && old(ids).Keys <= ids.Keys
      ensures ok <==> RelationsOk(rels, rels[0], read, snapshotId)
    {
      hide Parsed, SpecsOk, Seen, RelationOk, Objects, ObjectsOf, Once, SpecMap, TablesOnce, TableSet, RefsParsed;
      hide SnapshotIdOf, RelationsOk;
      NothingSeen(rels);
      for i := 0 to |rels|
        invariant Parsed() && old(ids).Keys <= ids.Keys && RefsParsed(read, ids)
        invariant Seen(Objects(rels[..i]))
        invariant forall k :: 0 <= k < i ==> RelationOk(rels[k], rels[0], read, snapshotId)
        invariant TablesOnce(rels[..i])
        invariant seenTables == TableSet(rels[..i])
      {
        ObjectsNext(rels, i);
        TablesNext(rels, i);
        ghost var seen := Objects(rels[..i]);
        ok := CheckRelation(rels[i], rels[0], read, seen);
        if !ok {
          RelationsShorter(rels, i + 1, read, snapshotId);
          return;
        }
        SpecsStillRead(read, old(ids), ids);
      }
      assert rels[..|rels|] == rels;
      SeenOnce(Objects(rels));
      RelationsMean(rels, read, snapshotId);
      ok := true;
    }

    lemma NothingSeen(rels: seq<Relation>)
      requires seenObjects == {}
      ensures Seen(Objects(rels[..0])) && TablesOnce(rels[..0]) && TableSet(rels[..0]) == {}
    {
    }

    lemma SeenOnce(seen: seq<Uuid>)
      requires Seen(seen)
      ensures Once(seen)
    {
    }
  }

  // The rows of the relations, appended one by one.
  method Emit(ids: Ids, rels: seq<Relation>) returns (statements: seq<Row>)
    requires rels != []
    ensures statements == Rows(ids, rels)
  {
    statements := HeadRows(ids, rels);
    assert rels[..0] == [];
    for i := 0 to |rels|
      invariant statements == HeadRows(ids, rels) + RelationsRows(ids, rels[..i])
    {
      var rel := rels[i];
      ghost var before := statements;
      statements := statements + DatasetRows(ids, rel);
      for ordinal := 0 to |rel.fields|
        invariant statements == before + DatasetRows(ids, rel) + FieldsRows(ids, rel, ordinal)
      {
        statements := statements + FieldRows(ids, rel, ordinal);
      }
      assert rels[..i + 1][..i] == rels[..i];
    }
    assert rels[..|rels|] == rels;
    statements := statements + [EffectiveRow(ids.workspace, ids.source, OfText(SCHEMA), ids.snapshot)];
  }

  datatype Failure = Rejected

  // sourceStatements: exactly the valid fixtures are accepted, and the statements
  // are exactly their rows.
  method SourceStatements(workspace: Option<Uuid>, actor: Option<Uuid>, snapshot: Option<Snapshot>)
    returns (r: Result<seq<Row>, Failure>)
    ensures r.Ok? <==> Valid(workspace, actor, snapshot)
    ensures r.Ok? ==> r.value == StatementsOf(workspace.value, snapshot.value)
  {
    hide SpecsOk, RelationsOk;
    if !HeadOk(workspace, actor, snapshot) { return Err(Rejected); }
    var rels, assets := snapshot.value.execution.value, snapshot.value.assets;
    var v := new Validator();
    var ok := v.Parse(SourceConnection, rels[0].sourceId);
    if !ok { return Err(Rejected); }
    ok := v.Parse(SourceRevision, rels[0].sourceRevisionId);
    if !ok { return Err(Rejected); }
    ok := v.ReadSpecs(assets);
    if !ok { return Err(Rejected); }
    SpecCount(DataSpecs(assets));
    if |v.specs| != 2 { return Err(Rejected); }
    ok := v.Parse(SourceSnapshot, v.snapshotId);
    if !ok { return Err(Rejected); }
    ok := v.CheckRelations(rels, DataSpecs(assets));
    if !ok { return Err(Rejected); }
    var first := rels[0];
    var ids := Ids(workspace.value, v.ids[first.sourceId], v.ids[first.sourceRevisionId], v.ids[v.snapshotId]);
    var statements := Emit(ids, rels);
    r := Ok(statements);
  }

  lemma SpecCount(read: seq<Option<Spec>>)
    ensures SpecsOk(read) ==> |SpecMap(read)| == |read|
  {
    if SpecsOk(read) { SpecMapKeys(read, 0); }
  }

  lemma ObjectsNext(rels: seq<Relation>, i: nat)
    requires i < |rels|
    ensures Objects(rels[..i + 1]) == Objects(rels[..i]) + ObjectsOf(rels[i])
  {
    assert rels[..i + 1][..i] == rels[..i];
  }

  function TableSet(rels: seq<Relation>): set<string> {
    if rels == [] then {} else TableSet(rels[..|rels| - 1]) + {rels[|rels| - 1].relation}
  }

  lemma {:induction false} TableSetHas(rels: seq<Relation>, t: string)
    ensures t in TableSet(rels) <==> exists k :: 0 <= k < |rels| && rels[k].relation == t
  {
    if rels != [] {
      TableSetHas(rels[..|rels| - 1], t);
      assert forall k :: 0 <= k < |rels| - 1 ==> rels[..|rels| - 1][k] == rels[k];
      if exists k :: 0 <= k < |rels| - 1 && rels[k].relation == t {
        var k :| 0 <= k < |rels| - 1 && rels[k].relation == t;
        assert rels[..|rels| - 1][k].relation == t;
      }
    }
  }

  lemma TablesNext(rels: seq<Relation>, i: nat)
    requires i < |rels| && TablesOnce(rels[..i])
    ensures TablesOnce(rels[..i + 1]) <==> rels[i].relation !in TableSet(rels[..i])
    ensures TableSet(rels[..i + 1]) == TableSet(rels[..i]) + {rels[i].relation}
  {
    var more, some := rels[..i + 1], rels[..i];
    TableSetHas(some, rels[i].relation);
    assert more[..i] == some;
    assert more[i] == rels[i] && forall k :: 0 <= k < i ==> more[k] == some[k];
  }

  lemma {:induction false} ObjectsPrefix(rels: seq<Relation>, i: nat)
    requires i <= |rels|
    ensures Objects(rels[..i]) <= Objects(rels)
    decreases |rels|
  {
    if i == |rels| {
      assert rels[..i] == rels;
    } else {
      ObjectsPrefix(rels[..|rels| - 1], i);
      assert rels[..|rels| - 1][..i] == rels[..i];
    }
  }

  lemma RelationsMean(rels: seq<Relation>, read: seq<Option<Spec>>, snapshotId: Spelling)
    requires rels != []
    requires forall k :: 0 <= k < |rels| ==> RelationOk(rels[k], rels[0], read, snapshotId)
    requires TablesOnce(rels) && Once(Objects(rels))
    ensures RelationsOk(rels, rels[0], read, snapshotId)
  {
  }

  // Relations that are accepted are accepted up to any point.
  lemma RelationsShorter(rels: seq<Relation>, i: nat, read: seq<Option<Spec>>, snapshotId: Spelling)
    requires 0 < i <= |rels|
    ensures RelationsOk(rels, rels[0], read, snapshotId) ==>
              RelationOk(rels[i - 1], rels[0], read, snapshotId) && TablesOnce(rels[..i]) && Once(Objects(rels[..i]))
  {
    hide RelationOk;
    ObjectsPrefix(rels, i);
    OnceShorter(Objects(rels[..i]), Objects(rels));
    assert forall k :: 0 <= k < i ==> rels[..i][k] == rels[k];
  }

  lemma NoFields(seen: seq<Uuid>)
    ensures seen + FieldObjects([]) == seen
  {
  }

  lemma StillParsed(members: seq<Member>, before: map<Spelling, Uuid>, after: map<Spelling, Uuid>)
    requires MembersParsed(members, before) && before.Keys <= after.Keys
    ensures MembersParsed(members, after)
  {
  }

  // Under distinct datasets the relation can only match the spec of its dataset.
  lemma OneMatch(read: seq<Option<Spec>>, rel: Relation, first: Relation, snapshotId: Spelling)
    requires SpecsOk(read)
    ensures var u, specs := UuidOf(rel.datasetId), SpecMap(read);
            RelationOk(rel, first, read, snapshotId) <==>
            && RelationShape(rel, first)
            && IsId(PhysicalDataset, rel.datasetId) && IsId(PhysicalDatasetRevision, rel.datasetRevisionId)
            && u in specs && Matches(Some(specs[u]), rel, snapshotId)
  {
    var u := UuidOf(rel.datasetId);
    SpecMapKeys(read, u);
    hide SpecMap, MembersOk, FieldsOk;
  }

  lemma RevisionParsed(read: seq<Option<Spec>>, u: Uuid, ids: map<Spelling, Uuid>)
    requires SpecsOk(read) && RefsParsed(read, ids) && u in SpecMap(read)
    ensures SpecMap(read)[u].datasetRef.Some? && SpecMap(read)[u].datasetRef.value.revisionId in ids
    ensures UuidOf(SpecMap(read)[u].datasetRef.value.objectId) == u
  {
    SpecMapKeys(read, u);
    var k :| 0 <= k < |read| && UuidOf(RefOf(read[k]).objectId) == u;
    assert DatasetRefOk(read[k]) && read[k] == Some(SpecMap(read)[u]);
  }

  ghost predicate FieldsOkUpTo(rel: Relation, members: seq<Member>, n: nat) {
    && |rel.fields| == |Expected(rel.relation)| >= n
    && forall i :: 0 <= i < n ==> FieldOk(rel.fields[i], Expected(rel.relation)[i], members)
  }

  lemma NoFieldsOk(rel: Relation, members: seq<Member>)
    requires |rel.fields| == |Expected(rel.relation)|
    ensures FieldsOkUpTo(rel, members, 0)
  {
  }

  lemma FieldsOkNext(rel: Relation, members: seq<Member>, i: nat)
    requires i < |rel.fields| && FieldsOkUpTo(rel, members, i)
    ensures FieldsOkUpTo(rel, members, i + 1) <==> FieldOk(rel.fields[i], Expected(rel.relation)[i], members)
    ensures FieldsOk(rel, members) ==> FieldOk(rel.fields[i], Expected(rel.relation)[i], members)
  {
    hide FieldOk, Expected;
  }

  lemma AllFieldsOk(rel: Relation, members: seq<Member>)
    requires FieldsOkUpTo(rel, members, |rel.fields|)
    ensures FieldsOk(rel, members)
  {
    hide FieldOk, Expected;
  }

  lemma NameIs(f: Field, column: Column, members: seq<Member>)
    requires FieldOk(f, column, members)
    ensures f.name == column.name
  {
  }

  function RefMap(members: seq<Member>): map<Uuid, Ref> {
    if members == [] then map[]
    else
      var last := members[|members| - 1];
      var before := RefMap(members[..|members| - 1]);
      if last.fieldRef.Some? then before[MemberUuid(last) := last.fieldRef.value] else before
  }

  ghost predicate MembersParsed(members: seq<Member>, ids: map<Spelling, Uuid>) {
    forall k :: 0 <= k < |members| && members[k].fieldRef.Some? ==> members[k].fieldRef.value.revisionId in ids
  }

  lemma NoMembers(snapshotId: Spelling, ids: map<Spelling, Uuid>)
    ensures MembersOk([], snapshotId) && RefMap([]) == map[] && MembersParsed([], ids)
  {
  }

  lemma {:induction false} RefMapKeys(members: seq<Member>, u: Uuid, snapshotId: Spelling)
    requires MembersOk(members, snapshotId)
    ensures u in RefMap(members) <==> exists k :: 0 <= k < |members| && MemberUuid(members[k]) == u
    ensures forall k :: 0 <= k < |members| && MemberUuid(members[k]) == u ==>
              u in RefMap(members) && members[k].fieldRef == Some(RefMap(members)[u])
  {
    if members != [] {
      var before := members[..|members| - 1];
      MembersOkShorter(before, members, snapshotId);
      RefMapKeys(before, u, snapshotId);
      assert MemberOk(members[|members| - 1], snapshotId);
      assert forall k :: 0 <= k < |before| ==> before[k] == members[k];
    }
  }

  lemma MembersOkShorter(some: seq<Member>, all: seq<Member>, snapshotId: Spelling)
    requires some <= all
    ensures MembersOk(all, snapshotId) ==> MembersOk(some, snapshotId)
  {
    assert forall k :: 0 <= k < |some| ==> some[k] == all[k];
  }

  lemma MembersGrow(members: seq<Member>, m: Member, snapshotId: Spelling)
    requires MembersOk(members, snapshotId)
    ensures MembersOk(members + [m], snapshotId) <==> MemberOk(m, snapshotId) && MemberUuid(m) !in RefMap(members)
    ensures m.fieldRef.Some? ==> RefMap(members + [m]) == RefMap(members)[MemberUuid(m) := m.fieldRef.value]
  {
    RefMapKeys(members, MemberUuid(m), snapshotId);
    var more := members + [m];
    assert more[..|members|] == members && more[|members|] == m;
    assert forall k :: 0 <= k < |members| ==> more[k] == members[k];
  }

  lemma RefMapFinds(members: seq<Member>, f: Field, snapshotId: Spelling)
    requires MembersOk(members, snapshotId)
    ensures var u := UuidOf(f.fieldId);
            HasMember(members, f) <==>
            u in RefMap(members) && UuidOf(RefMap(members)[u].revisionId) == UuidOf(f.revisionId)
  {
    var u := UuidOf(f.fieldId);
    RefMapKeys(members, u, snapshotId);
    if u in RefMap(members) {
      var k :| 0 <= k < |members| && MemberUuid(members[k]) == u;
      assert MemberOk(members[k], snapshotId);
      if UuidOf(RefMap(members)[u].revisionId) == UuidOf(f.revisionId) { assert SameField(members[k], f); }
    }
    if HasMember(members, f) {
      var k :| 0 <= k < |members| && SameField(members[k], f);
      assert MemberUuid(members[k]) == u;
    }
  }

  lemma RefMapParsed(members: seq<Member>, u: Uuid, ids: map<Spelling, Uuid>, snapshotId: Spelling)
    requires MembersOk(members, snapshotId) && MembersParsed(members, ids) && u in RefMap(members)
    ensures RefMap(members)[u].revisionId in ids
  {
    RefMapKeys(members, u, snapshotId);
    var k :| 0 <= k < |members| && MemberUuid(members[k]) == u;
    assert members[k].fieldRef == Some(RefMap(members)[u]);
  }

  lemma OnceGrows(seen: seq<Uuid>, u: Uuid)
    ensures Once(seen + [u]) <==> Once(seen) && u !in seen
  {
    var more := seen + [u];
    assert more[|seen|] == u && forall k :: 0 <= k < |seen| ==> more[k] == seen[k];
  }

  lemma OnceShorter(some: seq<Uuid>, all: seq<Uuid>)
    requires some <= all
    ensures Once(all) ==> Once(some)
  {
    assert forall k :: 0 <= k < |some| ==> some[k] == all[k];
  }

  lemma FieldObjectsNext(fields: seq<Field>, seen: seq<Uuid>, i: nat)
    requires i < |fields|
    ensures seen + FieldObjects(fields[..i + 1])
         == seen + FieldObjects(fields[..i]) + [UuidOf(fields[i].fieldId), UuidOf(fields[i].revisionId)]
  {
    assert fields[..i + 1][..i] == fields[..i];
  }

  lemma {:induction false} FieldObjectsPrefix(fields: seq<Field>, i: nat)
    requires i <= |fields|
    ensures FieldObjects(fields[..i]) <= FieldObjects(fields)
    decreases |fields|
  {
    if i == |fields| {
      assert fields[..i] == fields;
    } else {
      FieldObjectsPrefix(fields[..|fields| - 1], i);
      assert fields[..|fields| - 1][..i] == fields[..i];
    }
  }

  lemma FieldObjectsShorter(fields: seq<Field>, seen: seq<Uuid>, i: nat)
    requires i <= |fields|
    ensures Once(seen + FieldObjects(fields)) ==> Once(seen + FieldObjects(fields[..i]))
  {
    FieldObjectsPrefix(fields, i);
    OnceShorter(seen + FieldObjects(fields[..i]), seen + FieldObjects(fields));
  }

  function SpecMap(read: seq<Option<Spec>>): map<Uuid, Spec> {
    if read == [] then map[]
    else
      var last := read[|read| - 1];
      var before := SpecMap(read[..|read| - 1]);
      if last.Some? then before[UuidOf(RefOf(last).objectId) := last.value] else before
  }

  ghost predicate RefsParsed(read: seq<Option<Spec>>, ids: map<Spelling, Uuid>) {
    forall k :: 0 <= k < |read| ==> RefOf(read[k]).revisionId in ids
  }

  lemma {:induction false} SpecMapKeys(read: seq<Option<Spec>>, u: Uuid)
    requires SpecsOk(read)
    ensures u in SpecMap(read) <==> exists k :: 0 <= k < |read| && UuidOf(RefOf(read[k]).objectId) == u
    ensures |SpecMap(read)| == |read|
    ensures forall k :: 0 <= k < |read| && UuidOf(RefOf(read[k]).objectId) == u ==>
              u in SpecMap(read) && read[k] == Some(SpecMap(read)[u])
  {
    if read != [] {
      var before := read[..|read| - 1];
      SpecsOkShorter(before, read);
      SpecMapKeys(before, u);
      var last := UuidOf(RefOf(read[|read| - 1]).objectId);
      SpecMapKeys(before, last);
      assert DatasetRefOk(read[|read| - 1]);
      assert forall k :: 0 <= k < |before| ==> before[k] == read[k];
    }
  }

  lemma SpecMapMore(read: seq<Option<Spec>>, spec: Option<Spec>)
    requires spec.Some?
    ensures SpecMap(read + [spec]) == SpecMap(read)[UuidOf(RefOf(spec).objectId) := spec.value]
    ensures SnapshotIdOf(read + [spec]) == RefOf(spec).snapshotId
    ensures forall ids :: RefsParsed(read, ids) && RefOf(spec).revisionId in ids ==> RefsParsed(read + [spec], ids)
  {
    assert (read + [spec])[..|read|] == read;
  }

  lemma DataSpecsNext(assets: seq<Asset>, i: nat)
    requires i < |assets|
    ensures DataSpecs(assets[..i + 1]) ==
            DataSpecs(assets[..i]) + (if assets[i].dataAsset then [assets[i].content] else [])
    ensures DataSpecs(assets[..i]) + [] == DataSpecs(assets[..i])
  {
    assert assets[..i + 1][..i] == assets[..i];
  }

  lemma SpecsGrow(read: seq<Option<Spec>>, spec: Option<Spec>)
    requires SpecsOk(read)
    ensures SpecsOk(read + [spec]) <==>
            DatasetRefOk(spec)
            && (forall k :: 0 <= k < |read| ==> UuidOf(RefOf(read[k]).objectId) != UuidOf(RefOf(spec).objectId))
            && (read == [] || SnapshotIdOf(read) == BLANK || SnapshotIdOf(read) == RefOf(spec).snapshotId)
  {
    var more := read + [spec];
    assert more[|read|] == spec && forall k :: 0 <= k < |read| ==> more[k] == read[k];
    if SpecsOk(more) && read != [] {
      assert more[|read| - 1] == read[|read| - 1];
    }
  }

  lemma {:induction false} DataSpecsPrefix(assets: seq<Asset>, i: nat)
    requires i <= |assets|
    ensures DataSpecs(assets[..i]) <= DataSpecs(assets)
    decreases |assets|
  {
    if i == |assets| {
      assert assets[..i] == assets;
    } else {
      DataSpecsPrefix(assets[..|assets| - 1], i);
      assert assets[..|assets| - 1][..i] == assets[..i];
    }
  }

  // A prefix that is not accepted is not accepted as a part of more.
  lemma SpecsOkPrefix(assets: seq<Asset>, i: nat)
    requires i <= |assets| && !SpecsOk(DataSpecs(assets[..i]))
    ensures !SpecsOk(DataSpecs(assets))
  {
    DataSpecsPrefix(assets, i);
    SpecsOkShorter(DataSpecs(assets[..i]), DataSpecs(assets));
  }

  lemma SpecsOkShorter(some: seq<Option<Spec>>, all: seq<Option<Spec>>)
    requires some <= all
    ensures SpecsOk(all) ==> SpecsOk(some)
  {
    assert forall k :: 0 <= k < |some| ==> some[k] == all[k];
  }
}
