// Reading the tables back: after the import a reader who joins them finds the two
// tables of the fixed schema, column by column, and the snapshot's members.
module DemoSourceReading {
  import opened Wrappers
  import opened DemoSource
  import opened DemoSourceValidator
  import opened DemoSourceDb
  import opened DemoSourceReceipt

  // ---- Queries ----

  datatype Query =
    | DatasetsOf(source: Uuid)
    | RevisionsOf(dataset: Uuid)
    | ColumnsOf(revision: Uuid)
    | FieldWith(id: Uuid)
    | MembersOf(snapshot: Uuid)

  predicate Selects(q: Query, r: Row) {
    match q
    case DatasetsOf(source) => r.DatasetRow? && r.source == source
    case RevisionsOf(dataset) => r.DatasetRevisionRow? && r.dataset == dataset
    case ColumnsOf(revision) => r.FieldRevisionRow? && r.datasetRevision == revision
    case FieldWith(id) => r.FieldRow? && r.id == id
    case MembersOf(snapshot) => r.MemberRow? && r.snapshot == snapshot
  }

  function Select(q: Query, db: seq<Row>): seq<Row> {
    if db == [] then []
    else
      var last := db[|db| - 1];
      Select(q, db[..|db| - 1]) + (if Selects(q, last) then [last] else [])
  }

  // ---- What a reader rebuilds ----

  datatype ColumnRead = ColumnRead(field: Uuid, revision: Uuid, ordinal: nat, column: Column)
  datatype TableRead = TableRead(
    dataset: Uuid,
    revision: Uuid,
    sourceRevision: Uuid,
    name: string,
    locator: string,
    digest: Digest,
    columns: seq<ColumnRead>)
  datatype MemberRead = MemberRead(
    isField: bool,
    object_: Uuid,
    revision: Uuid,
    name: string,
    locator: string,
    digest: Digest,
    coverage: string,
    parent: Option<(Uuid, Uuid)>)

  // A field revision's column: its name is that of the one field it revises, which
  // belongs to the dataset and has this revision as its current one.
  function ReadColumn(db: seq<Row>, dataset: Uuid, r: Row): Option<ColumnRead> {
    if !r.FieldRevisionRow? then None
    else
      var f := Select(FieldWith(r.field), db);
      if |f| == 1 && f[0].FieldRow? && f[0].dataset == dataset && f[0].current == r.id then
        Some(ColumnRead(r.field, r.id, r.ordinal, Column(f[0].name, r.dataType)))
      else None
  }

  function ReadColumns(db: seq<Row>, dataset: Uuid, revisions: seq<Row>): Option<seq<ColumnRead>> {
    if revisions == [] then Some([])
    else
      match (ReadColumns(db, dataset, revisions[..|revisions| - 1]),
             ReadColumn(db, dataset, revisions[|revisions| - 1]))
      case (Some(before), Some(column)) => Some(before + [column])
      case (_, _) => None
  }

  // A dataset with its only revision and that revision's columns.
  function ReadTable(db: seq<Row>, r: Row): Option<TableRead> {
    if !r.DatasetRow? then None
    else
      var v := Select(RevisionsOf(r.id), db);
      var columns := ReadColumns(db, r.id, Select(ColumnsOf(r.current), db));
      if |v| == 1 && v[0].DatasetRevisionRow? && v[0].id == r.current && columns.Some? then
        Some(TableRead(r.id, r.current, v[0].sourceRevision, r.name, v[0].locator, v[0].digest, columns.value))
      else None
  }

  function ReadTables(db: seq<Row>, datasets: seq<Row>): Option<seq<TableRead>> {
    if datasets == [] then Some([])
    else
      match (ReadTables(db, datasets[..|datasets| - 1]), ReadTable(db, datasets[|datasets| - 1]))
      case (Some(before), Some(table)) => Some(before + [table])
      case (_, _) => None
  }

  function ReadMembers(rows: seq<Row>): seq<MemberRead> {
    if rows == [] then []
    else
      var last := rows[|rows| - 1];
      ReadMembers(rows[..|rows| - 1])
      + (if last.MemberRow?
         then
           [MemberRead(last.isField, last.object_, last.revision, last.name, last.locator, last.digest,
                       last.coverage, last.parent)]
         else [])
  }

  // ---- The fixture ----

  // The columns of the fixed schema, in order, under the relation's ids.
  function Table(rel: Relation, sourceRevision: Uuid): TableRead
    requires |rel.fields| == |Expected(rel.relation)|
  {
    TableRead(
      UuidOf(rel.datasetId),
      UuidOf(rel.datasetRevisionId),
      sourceRevision,
      SCHEMA + "." + rel.relation,
      SCHEMA + "." + rel.relation,
      OfRelation(rel),
      seq(|rel.fields|, i requires 0 <= i < |rel.fields| =>
        ColumnRead(UuidOf(rel.fields[i].fieldId), UuidOf(rel.fields[i].revisionId), i + 1,
          Expected(rel.relation)[i])))
  }

  function FieldMember(rel: Relation, i: nat): MemberRead
    requires i < |rel.fields| == |Expected(rel.relation)|
  {
    var column := Expected(rel.relation)[i].name;
    MemberRead(
      true, UuidOf(rel.fields[i].fieldId), UuidOf(rel.fields[i].revisionId), column,
      SCHEMA + "." + rel.relation + "." + column,
      OfField(rel.fields[i]), SCHEMA,
      Some((UuidOf(rel.datasetId), UuidOf(rel.datasetRevisionId))))
  }

  // The table and then its columns.
  function Members(rel: Relation): seq<MemberRead>
    requires |rel.fields| == |Expected(rel.relation)|
  {
    [MemberRead(
       false, UuidOf(rel.datasetId), UuidOf(rel.datasetRevisionId), rel.relation, SCHEMA + "." + rel.relation,
       OfRelation(rel), SCHEMA, None)]
    + seq(|rel.fields|, i requires 0 <= i < |rel.fields| => FieldMember(rel, i))
  }

  // ---- Selecting from lists of rows ----

  lemma {:induction false} SelectSplit(q: Query, a: seq<Row>, b: seq<Row>)
    ensures Select(q, a + b) == Select(q, a) + Select(q, b)
  {
    hide Selects;
    if b == [] {
      assert a + b == a;
    } else {
      SelectSplit(q, a, b[..|b| - 1]);
      assert (a + b)[..|a + b| - 1] == a + b[..|b| - 1];
    }
  }

  lemma {:induction false} SelectNone(q: Query, rows: seq<Row>)
    requires forall r :: r in rows ==> !Selects(q, r)
    ensures Select(q, rows) == []
  {
    hide Selects;
    if rows != [] { SelectNone(q, rows[..|rows| - 1]); }
  }

  lemma SelectThree(q: Query, a: Row, b: Row, c: Row)
    ensures Select(q, [a, b, c])
         == (if Selects(q, a) then [a] else []) + (if Selects(q, b) then [b] else [])
          + (if Selects(q, c) then [c] else [])
  {
    hide Selects;
    assert [a, b, c][..2] == [a, b] && [a, b][..1] == [a] && [a][..0] == [];
    assert Select(q, [a]) == if Selects(q, a) then [a] else [];
    assert Select(q, [a, b]) == Select(q, [a]) + if Selects(q, b) then [b] else [];
  }

  // The import's rows that a query selects are those of the two relations.
  lemma SelectRows(q: Query, ids: Ids, rels: seq<Relation>)
    requires |rels| == 2
    ensures Select(q, Rows(ids, rels))
         == Select(q, DatasetRows(ids, rels[0])) + Select(q, FieldsRows(ids, rels[0], |rels[0].fields|))
          + (Select(q, DatasetRows(ids, rels[1])) + Select(q, FieldsRows(ids, rels[1], |rels[1].fields|)))
  {
    TwoRelations(ids, rels);
    var h, e := HeadRows(ids, rels), [EffectiveRow(ids.workspace, ids.source, OfText(SCHEMA), ids.snapshot)];
    SelectNone(q, h);
    SelectNone(q, e);
    hide HeadRows, RelationsRows, DatasetRows, FieldsRows, Select, Selects;
    var d0, f0 := DatasetRows(ids, rels[0]), FieldsRows(ids, rels[0], |rels[0].fields|);
    var d1, f1 := DatasetRows(ids, rels[1]), FieldsRows(ids, rels[1], |rels[1].fields|);
    SelectSplit(q, h + RelationsRows(ids, rels), e);
    SelectSplit(q, h, RelationsRows(ids, rels));
    SelectSplit(q, d0 + f0, d1 + f1);
    SelectSplit(q, d0, f0);
    SelectSplit(q, d1, f1);
  }

  // ---- Nothing of this was there before ----

  ghost predicate IsNew(q: Query, ids: Ids, keys: set<UniqueKey>) {
    match q
    case DatasetsOf(source) => source == ids.source
    case RevisionsOf(dataset) => DatasetId(dataset) in keys
    case ColumnsOf(revision) => DatasetRevId(revision) in keys
    case FieldWith(id) => FieldId(id) in keys
    case MembersOf(snapshot) => snapshot == ids.snapshot
  }

  lemma DatasetRevisionIsKnown(db: seq<Row>, w: Uuid, id: Uuid)
    requires DatasetRevWs(w, id) in DbKeys(db)
    ensures DatasetRevId(id) in DbKeys(db)
  {
    KeyHolder(db, DatasetRevWs(w, id));
    var r :| r in db && DatasetRevWs(w, id) in Keys(r);
    KeysThere(db, r);
  }

  lemma OldIsNotSelected(q: Query, db: seq<Row>, ids: Ids, keys: set<UniqueKey>, r: Row)
    requires Consistent(db) && Unused(db, ids) && keys !! DbKeys(db) && IsNew(q, ids, keys) && r in db
    ensures !Selects(q, r)
  {
    hide DbKeys;
    assert Needs(r) <= DbKeys(db);
    KeysThere(db, r);
    if q.RevisionsOf? && r.DatasetRevisionRow? { DatasetIsKnown(db, r.workspace, r.dataset); }
    if q.ColumnsOf? && r.FieldRevisionRow? { DatasetRevisionIsKnown(db, r.workspace, r.datasetRevision); }
  }

  lemma SelectAfter(q: Query, db: seq<Row>, ids: Ids, rels: seq<Relation>)
    requires rels != [] && Consistent(db) && DbKeys(Rows(ids, rels)) !! DbKeys(db)
    requires IsNew(q, ids, DbKeys(Rows(ids, rels)))
    ensures Select(q, db + Rows(ids, rels)) == Select(q, Rows(ids, rels))
  {
    hide DbKeys, Rows, Selects, Select;
    var rows := Rows(ids, rels);
    NoSource(db, rows, ids, rels);
    forall r | r in db ensures !Selects(q, r) { OldIsNotSelected(q, db, ids, DbKeys(rows), r); }
    SelectNone(q, db);
    SelectSplit(q, db, rows);
    assert [] + Select(q, rows) == Select(q, rows);
  }

  // The keys of the relation are keys of the import.
  lemma RelationKeys(ids: Ids, rels: seq<Relation>, k: nat)
    requires rels != [] && k < |rels|
    ensures var keys := DbKeys(Rows(ids, rels));
            && DatasetId(UuidOf(rels[k].datasetId)) in keys
            && DatasetRevId(UuidOf(rels[k].datasetRevisionId)) in keys
            && forall i :: 0 <= i < |rels[k].fields| ==> FieldId(UuidOf(rels[k].fields[i].fieldId)) in keys
  {
    var rel, rows := rels[k], Rows(ids, rels);
    var d := DatasetRows(ids, rel);
    RelationRowIn(ids, rels, k, d[0]);
    RelationRowIn(ids, rels, k, d[1]);
    forall i | 0 <= i < |rel.fields|
      ensures FieldId(UuidOf(rel.fields[i].fieldId)) in DbKeys(rows)
    {
      var f := FieldRows(ids, rel, i);
      FieldRowsIn(ids, rel, |rel.fields|, i);
      assert f[0] in f;
      RelationRowIn(ids, rels, k, f[0]);
    }
  }

  lemma RelationRowIn(ids: Ids, rels: seq<Relation>, k: nat, r: Row)
    requires rels != [] && k < |rels|
    requires r in DatasetRows(ids, rels[k]) || r in FieldsRows(ids, rels[k], |rels[k].fields|)
    ensures Keys(r) <= DbKeys(Rows(ids, rels))
  {
    hide DbKeys, Keys;
    RelationRowsIn(ids, rels, k);
    assert r in Rows(ids, rels);
    KeysThere(Rows(ids, rels), r);
  }

  // ---- Selecting from one relation ----

  lemma SelectDataset(q: Query, ids: Ids, rel: Relation)
    ensures var d, rows := DatasetRows(ids, rel), Select(q, DatasetRows(ids, rel));
            match q
            case DatasetsOf(source) => source == ids.source ==> rows == [d[0]]
            case RevisionsOf(dataset) => rows == if dataset == UuidOf(rel.datasetId) then [d[1]] else []
            case MembersOf(snapshot) => snapshot == ids.snapshot ==> rows == [d[2]]
            case _ => rows == []
  {
    var d := DatasetRows(ids, rel);
    SelectThree(q, d[0], d[1], d[2]);
    hide TableLocator;
    assert d == [d[0], d[1], d[2]];
  }

  function FieldRevisionOf(ids: Ids, rel: Relation, i: nat): Row
    requires i < |rel.fields|
  {
    FieldRows(ids, rel, i)[1]
  }

  function FieldMemberOf(ids: Ids, rel: Relation, i: nat): Row
    requires i < |rel.fields|
  {
    FieldRows(ids, rel, i)[2]
  }

  function FieldRevisions(ids: Ids, rel: Relation, n: nat): seq<Row>
    requires n <= |rel.fields|
  {
    seq(n, i requires 0 <= i < n => FieldRevisionOf(ids, rel, i))
  }

  function FieldMembers(ids: Ids, rel: Relation, n: nat): seq<Row>
    requires n <= |rel.fields|
  {
    seq(n, i requires 0 <= i < n => FieldMemberOf(ids, rel, i))
  }

  lemma SelectField(q: Query, ids: Ids, rel: Relation, i: nat)
    requires i < |rel.fields|
    ensures var f, rows := FieldRows(ids, rel, i), Select(q, FieldRows(ids, rel, i));
            match q
            case ColumnsOf(revision) => rows == if revision == UuidOf(rel.datasetRevisionId) then [f[1]] else []
            case FieldWith(id) => rows == if id == UuidOf(rel.fields[i].fieldId) then [f[0]] else []
            case MembersOf(snapshot) => snapshot == ids.snapshot ==> rows == [f[2]]
            case _ => rows == []
  {
    var f := FieldRows(ids, rel, i);
    SelectThree(q, f[0], f[1], f[2]);
    hide TableLocator;
    assert f == [f[0], f[1], f[2]];
  }

  lemma {:induction false} SelectColumns(ids: Ids, rel: Relation, revision: Uuid, n: nat)
    requires n <= |rel.fields|
    ensures Select(ColumnsOf(revision), FieldsRows(ids, rel, n))
         == if revision == UuidOf(rel.datasetRevisionId)
            then FieldRevisions(ids, rel, n) else []
  {
    if n > 0 {
      assert FieldRevisions(ids, rel, n) == FieldRevisions(ids, rel, n - 1) + [FieldRevisionOf(ids, rel, n - 1)];
      hide FieldRows, FieldRevisions, Select;
      SelectColumns(ids, rel, revision, n - 1);
      SelectSplit(ColumnsOf(revision), FieldsRows(ids, rel, n - 1), FieldRows(ids, rel, n - 1));
      SelectField(ColumnsOf(revision), ids, rel, n - 1);
    }
  }

  lemma {:induction false} SelectFieldMembers(ids: Ids, rel: Relation, n: nat)
    requires n <= |rel.fields|
    ensures Select(MembersOf(ids.snapshot), FieldsRows(ids, rel, n))
         == FieldMembers(ids, rel, n)
  {
    hide FieldRows;
    if n > 0 {
      var q := MembersOf(ids.snapshot);
      SelectFieldMembers(ids, rel, n - 1);
      SelectSplit(q, FieldsRows(ids, rel, n - 1), FieldRows(ids, rel, n - 1));
      SelectField(q, ids, rel, n - 1);
    }
  }

  // The field with an id, if it is among the first n.
  lemma {:induction false} SelectFieldWith(ids: Ids, rel: Relation, n: nat, i: nat)
    requires n <= |rel.fields| && i < |rel.fields| && FieldsApart(rel.fields)
    ensures Select(FieldWith(UuidOf(rel.fields[i].fieldId)), FieldsRows(ids, rel, n))
         == if i < n then [FieldRows(ids, rel, i)[0]] else []
  {
    hide FieldRows, Select;
    if n == 0 {
      SelectNone(FieldWith(UuidOf(rel.fields[i].fieldId)), []);
    } else {
      var q := FieldWith(UuidOf(rel.fields[i].fieldId));
      SelectFieldWith(ids, rel, n - 1, i);
      SelectSplit(q, FieldsRows(ids, rel, n - 1), FieldRows(ids, rel, n - 1));
      SelectField(q, ids, rel, n - 1);
    }
  }

  lemma {:induction false} SelectOther(q: Query, ids: Ids, rel: Relation, n: nat)
    requires n <= |rel.fields| && !q.MembersOf?
    requires q.ColumnsOf? ==> q.revision != UuidOf(rel.datasetRevisionId)
    requires q.FieldWith? ==> q.id !in ObjectsOf(rel)
    ensures Select(q, FieldsRows(ids, rel, n)) == []
  {
    hide FieldRows, ObjectsOf;
    if n > 0 {
      SelectOther(q, ids, rel, n - 1);
      FieldIds(rel, n - 1);
      SelectSplit(q, FieldsRows(ids, rel, n - 1), FieldRows(ids, rel, n - 1));
      SelectField(q, ids, rel, n - 1);
    }
  }

  // ---- Selecting after the import ----

  ghost predicate Imported(db: seq<Row>, after: seq<Row>, ids: Ids, rels: seq<Relation>) {
    && |rels| == 2 && AllApart(rels)
    && Consistent(db) && DbKeys(Rows(ids, rels)) !! DbKeys(db)
    && after == db + Rows(ids, rels)
  }

  // The relation has the fixed schema's columns.
  ghost predicate Fixed(rel: Relation) {
    && rel.schema == SCHEMA
    && |rel.fields| == |Expected(rel.relation)|
    && forall i :: 0 <= i < |rel.fields| ==>
         rel.fields[i].name == Expected(rel.relation)[i].name
           && rel.fields[i].dataType == Expected(rel.relation)[i].dataType
  }

  lemma OtherRelation(rels: seq<Relation>, k: nat)
    requires |rels| == 2 && AllApart(rels) && k < 2
    ensures FieldsApart(rels[k].fields)
    ensures forall u :: u in ObjectsOf(rels[k]) ==> u !in ObjectsOf(rels[1 - k])
    ensures UuidOf(rels[k].datasetId) in ObjectsOf(rels[k])
    ensures UuidOf(rels[k].datasetRevisionId) in ObjectsOf(rels[k])
  {
    hide FieldObjects, TableLocator, FieldsApart, NamesOnce;
    assert RelsApart(rels[0], rels[1]);
  }

  lemma SelectImported(q: Query, db: seq<Row>, after: seq<Row>, ids: Ids, rels: seq<Relation>)
    requires Imported(db, after, ids, rels) && IsNew(q, ids, DbKeys(Rows(ids, rels)))
    ensures Select(q, after)
         == Select(q, DatasetRows(ids, rels[0])) + Select(q, FieldsRows(ids, rels[0], |rels[0].fields|))
          + (Select(q, DatasetRows(ids, rels[1])) + Select(q, FieldsRows(ids, rels[1], |rels[1].fields|)))
  {
    hide Select, Rows, Consistent, DbKeys, DatasetRows, FieldsRows, AllApart, IsNew;
    SelectAfter(q, db, ids, rels);
    SelectRows(q, ids, rels);
  }

  // What a query about the k-th relation selects is among that relation's rows.
  lemma SelectImportedFrom(q: Query, db: seq<Row>, after: seq<Row>, ids: Ids, rels: seq<Relation>, k: nat)
    requires Imported(db, after, ids, rels) && IsNew(q, ids, DbKeys(Rows(ids, rels))) && k < 2
    requires Select(q, DatasetRows(ids, rels[1 - k])) == []
    requires Select(q, FieldsRows(ids, rels[1 - k], |rels[1 - k].fields|)) == []
    ensures Select(q, after)
         == Select(q, DatasetRows(ids, rels[k])) + Select(q, FieldsRows(ids, rels[k], |rels[k].fields|))
  {
    SelectImported(q, db, after, ids, rels);
    hide Imported, IsNew, Select, Rows, DbKeys, DatasetRows, FieldsRows;
    if k == 1 {
      var rows := Select(q, DatasetRows(ids, rels[1])) + Select(q, FieldsRows(ids, rels[1], |rels[1].fields|));
      assert [] + [] + rows == rows;
    }
  }

  lemma DatasetsSelected(db: seq<Row>, after: seq<Row>, ids: Ids, rels: seq<Relation>)
    requires Imported(db, after, ids, rels)
    ensures Select(DatasetsOf(ids.source), after) == [DatasetRows(ids, rels[0])[0], DatasetRows(ids, rels[1])[0]]
  {
    var q := DatasetsOf(ids.source);
    SelectImported(q, db, after, ids, rels);
    hide Select, Rows, Consistent, DbKeys, DatasetRows, AllApart, FieldsRows;
    SelectDataset(q, ids, rels[0]);
    SelectDataset(q, ids, rels[1]);
    SelectOther(q, ids, rels[0], |rels[0].fields|);
    SelectOther(q, ids, rels[1], |rels[1].fields|);
  }

  lemma RevisionSelected(db: seq<Row>, after: seq<Row>, ids: Ids, rels: seq<Relation>, k: nat)
    requires Imported(db, after, ids, rels) && k < 2
    ensures Select(RevisionsOf(UuidOf(rels[k].datasetId)), after) == [DatasetRows(ids, rels[k])[1]]
  {
    var q := RevisionsOf(UuidOf(rels[k].datasetId));
    OtherRelation(rels, k);
    OtherRelation(rels, 1 - k);
    RelationKeys(ids, rels, k);
    SelectDataset(q, ids, rels[k]);
    SelectDataset(q, ids, rels[1 - k]);
    hide Select, Rows, Consistent, DbKeys, DatasetRows, AllApart, ObjectsOf, FieldsRows;
    SelectOther(q, ids, rels[k], |rels[k].fields|);
    SelectOther(q, ids, rels[1 - k], |rels[1 - k].fields|);
    SelectImportedFrom(q, db, after, ids, rels, k);
  }

  lemma ColumnsSelected(db: seq<Row>, after: seq<Row>, ids: Ids, rels: seq<Relation>, k: nat)
    requires Imported(db, after, ids, rels) && k < 2
    ensures Select(ColumnsOf(UuidOf(rels[k].datasetRevisionId)), after)
         == FieldRevisions(ids, rels[k], |rels[k].fields|)
  {
    var q := ColumnsOf(UuidOf(rels[k].datasetRevisionId));
    OtherRelation(rels, k);
    OtherRelation(rels, 1 - k);
    RelationKeys(ids, rels, k);
    SelectDataset(q, ids, rels[k]);
    SelectDataset(q, ids, rels[1 - k]);
    hide Select, Rows, Consistent, DbKeys, DatasetRows, AllApart, ObjectsOf, FieldsRows, FieldRevisions;
    SelectColumns(ids, rels[k], q.revision, |rels[k].fields|);
    SelectColumns(ids, rels[1 - k], q.revision, |rels[1 - k].fields|);
    SelectImportedFrom(q, db, after, ids, rels, k);
    var rows := FieldRevisions(ids, rels[k], |rels[k].fields|);
    assert [] + rows == rows;
  }

  lemma FieldSelected(db: seq<Row>, after: seq<Row>, ids: Ids, rels: seq<Relation>, k: nat, i: nat)
    requires Imported(db, after, ids, rels) && k < 2 && i < |rels[k].fields|
    ensures Select(FieldWith(UuidOf(rels[k].fields[i].fieldId)), after) == [FieldRows(ids, rels[k], i)[0]]
  {
    var q := FieldWith(UuidOf(rels[k].fields[i].fieldId));
    OtherRelation(rels, k);
    FieldIds(rels[k], i);
    RelationKeys(ids, rels, k);
    SelectDataset(q, ids, rels[k]);
    SelectDataset(q, ids, rels[1 - k]);
    hide Select, Rows, Consistent, DbKeys, DatasetRows, AllApart, ObjectsOf, FieldRows, FieldsRows;
    SelectFieldWith(ids, rels[k], |rels[k].fields|, i);
    SelectOther(q, ids, rels[1 - k], |rels[1 - k].fields|);
    SelectImportedFrom(q, db, after, ids, rels, k);
  }

  function MemberRows(ids: Ids, rel: Relation): seq<Row> {
    [DatasetRows(ids, rel)[2]] + FieldMembers(ids, rel, |rel.fields|)
  }

  lemma MembersSelected(db: seq<Row>, after: seq<Row>, ids: Ids, rels: seq<Relation>)
    requires Imported(db, after, ids, rels)
    ensures Select(MembersOf(ids.snapshot), after) == MemberRows(ids, rels[0]) + MemberRows(ids, rels[1])
  {
    var q := MembersOf(ids.snapshot);
    SelectImported(q, db, after, ids, rels);
    hide Select, Rows, Consistent, DbKeys, DatasetRows, AllApart, FieldsRows, FieldMembers;
    SelectDataset(q, ids, rels[0]);
    SelectDataset(q, ids, rels[1]);
    SelectFieldMembers(ids, rels[0], |rels[0].fields|);
    SelectFieldMembers(ids, rels[1], |rels[1].fields|);
  }

  // ---- Rebuilding ----

  lemma ColumnReadBack(db: seq<Row>, after: seq<Row>, ids: Ids, rels: seq<Relation>, k: nat, i: nat)
    requires Imported(db, after, ids, rels) && k < 2 && i < |rels[k].fields| && Fixed(rels[k])
    ensures ReadColumn(after, UuidOf(rels[k].datasetId), FieldRevisionOf(ids, rels[k], i))
         == Some(Table(rels[k], ids.revision).columns[i])
  {
    FieldSelected(db, after, ids, rels, k, i);
    hide Imported, Select;
  }

  lemma {:induction false} ColumnsReadBack(
    db: seq<Row>, after: seq<Row>, ids: Ids, rels: seq<Relation>, k: nat, n: nat)
    requires |rels| == 2 && k < 2 && |rels[k].fields| == |Expected(rels[k].relation)| && n <= |rels[k].fields|
    requires Imported(db, after, ids, rels) && Fixed(rels[k])
    ensures ReadColumns(after, UuidOf(rels[k].datasetId), FieldRevisions(ids, rels[k], n))
         == Some(Table(rels[k], ids.revision).columns[..n])
    decreases n
  {
    hide Imported, Fixed, Select, ReadColumn, FieldRevisionOf;
    if n > 0 {
      var revisions, columns := FieldRevisions(ids, rels[k], n), Table(rels[k], ids.revision).columns;
      ColumnsReadBack(db, after, ids, rels, k, n - 1);
      ColumnReadBack(db, after, ids, rels, k, n - 1);
      assert revisions[..n - 1] == FieldRevisions(ids, rels[k], n - 1);
      assert columns[..n] == columns[..n - 1] + [columns[n - 1]];
    }
  }

  lemma TableReadBack(db: seq<Row>, after: seq<Row>, ids: Ids, rels: seq<Relation>, k: nat)
    requires Imported(db, after, ids, rels) && k < 2 && Fixed(rels[k])
    ensures ReadTable(after, DatasetRows(ids, rels[k])[0]) == Some(Table(rels[k], ids.revision))
  {
    RevisionSelected(db, after, ids, rels, k);
    ColumnsSelected(db, after, ids, rels, k);
    ColumnsReadBack(db, after, ids, rels, k, |rels[k].fields|);
    hide Imported, Select, ReadColumns, FieldRevisions;
    var t := Table(rels[k], ids.revision);
    assert t.columns[..|rels[k].fields|] == t.columns;
  }

  lemma {:induction false} ReadMembersSplit(a: seq<Row>, b: seq<Row>)
    ensures ReadMembers(a + b) == ReadMembers(a) + ReadMembers(b)
  {
    if b == [] {
      assert a + b == a;
    } else {
      ReadMembersSplit(a, b[..|b| - 1]);
      assert (a + b)[..|a + b| - 1] == a + b[..|b| - 1];
    }
  }

  lemma {:induction false} FieldMembersRead(ids: Ids, rel: Relation, n: nat)
    requires Fixed(rel) && n <= |rel.fields|
    ensures ReadMembers(FieldMembers(ids, rel, n)) == seq(n, i requires 0 <= i < n => FieldMember(rel, i))
  {
    if n > 0 {
      FieldMembersRead(ids, rel, n - 1);
      assert FieldMembers(ids, rel, n)[..n - 1] == FieldMembers(ids, rel, n - 1);
    }
  }

  lemma RelationMembersRead(ids: Ids, rel: Relation)
    requires Fixed(rel)
    ensures ReadMembers(MemberRows(ids, rel)) == Members(rel)
  {
    var d := DatasetRows(ids, rel)[2];
    ReadMembersSplit([d], FieldMembers(ids, rel, |rel.fields|));
    FieldMembersRead(ids, rel, |rel.fields|);
    hide FieldMembers, FieldMember;
    assert [d][..0] == [];
    assert ReadMembers([d]) == [Members(rel)[0]];
    assert Members(rel)
        == [Members(rel)[0]] + seq(|rel.fields|, i requires 0 <= i < |rel.fields| => FieldMember(rel, i));
  }

  lemma TablesReadBack(db: seq<Row>, after: seq<Row>, ids: Ids, rels: seq<Relation>)
    requires Imported(db, after, ids, rels) && Fixed(rels[0]) && Fixed(rels[1])
    ensures ReadTables(after, Select(DatasetsOf(ids.source), after))
         == Some([Table(rels[0], ids.revision), Table(rels[1], ids.revision)])
  {
    DatasetsSelected(db, after, ids, rels);
    TableReadBack(db, after, ids, rels, 0);
    TableReadBack(db, after, ids, rels, 1);
    hide Imported, Select, ReadTable, Table;
    var d0, d1 := DatasetRows(ids, rels[0])[0], DatasetRows(ids, rels[1])[0];
    ReadTwoTables(after, d0, d1, Table(rels[0], ids.revision), Table(rels[1], ids.revision));
  }

  lemma ReadTwoTables(db: seq<Row>, a: Row, b: Row, s: TableRead, t: TableRead)
    requires ReadTable(db, a) == Some(s) && ReadTable(db, b) == Some(t)
    ensures ReadTables(db, [a, b]) == Some([s, t])
  {
    hide ReadTable;
    assert [a, b][..1] == [a] && [a][..0] == [];
    assert ReadTables(db, []) == Some([]);
    assert ReadTables(db, [a]) == Some([] + [s]);
    assert [] + [s] + [t] == [s, t];
  }

  lemma MembersReadBack(db: seq<Row>, after: seq<Row>, ids: Ids, rels: seq<Relation>)
    requires Imported(db, after, ids, rels) && Fixed(rels[0]) && Fixed(rels[1])
    ensures ReadMembers(Select(MembersOf(ids.snapshot), after)) == Members(rels[0]) + Members(rels[1])
  {
    MembersSelected(db, after, ids, rels);
    RelationMembersRead(ids, rels[0]);
    RelationMembersRead(ids, rels[1]);
    hide Imported, Select, Members, ReadMembers, MemberRows, Fixed;
    ReadMembersSplit(MemberRows(ids, rels[0]), MemberRows(ids, rels[1]));
  }

  lemma ValidIsFixed(rels: seq<Relation>, first: Relation, specs: seq<Option<Spec>>, snapshotId: Spelling, k: nat)
    requires RelationsOk(rels, first, specs, snapshotId) && k < |rels|
    ensures Fixed(rels[k])
  {
    hide Once, Objects, MembersOk, HasMember, SameDataset, Expected;
    assert RelationOk(rels[k], first, specs, snapshotId);
    var j :| 0 <= j < |specs| && Matches(specs[j], rels[k], snapshotId);
    assert FieldsOk(rels[k], specs[j].value.members);
  }

  // An import that succeeds leaves tables that read back as the fixture: two datasets
  // of its source, each with one revision, its columns in the fixed order with their
  // names and types, and a snapshot of exactly these, each column under its table.
  lemma ImportReadsBack(db: seq<Row>, workspace: Option<Uuid>, actor: Option<Uuid>, snapshot: Option<Snapshot>)
    requires Consistent(db) && Seed(db, workspace, actor, snapshot).Ok?
    requires Seed(db, workspace, actor, snapshot).value != db
    ensures var after, rels := Seed(db, workspace, actor, snapshot).value, snapshot.value.execution.value;
            var source, revision := UuidOf(rels[0].sourceId), UuidOf(rels[0].sourceRevisionId);
            var snap := UuidOf(SnapshotIdOf(DataSpecs(snapshot.value.assets)));
            && |rels| == 2
            && (forall rel :: rel in rels ==> |rel.fields| == |Expected(rel.relation)|)
            && ReadTables(after, Select(DatasetsOf(source), after))
               == Some([Table(rels[0], revision), Table(rels[1], revision)])
            && ReadMembers(Select(MembersOf(snap), after)) == Members(rels[0]) + Members(rels[1])
            && DiagnosticRow(workspace.value, snap, 1, SCHEMA) in after
  {
    var after, rels, specs :=
      Seed(db, workspace, actor, snapshot).value, snapshot.value.execution.value, DataSpecs(snapshot.value.assets);
    var ids := IdsOf(workspace.value, snapshot.value);
    var rows := Rows(ids, rels);
    ValidApart(rels, rels[0], specs, SnapshotIdOf(specs));
    ValidIsFixed(rels, rels[0], specs, SnapshotIdOf(specs), 0);
    ValidIsFixed(rels, rels[0], specs, SnapshotIdOf(specs), 1);
    assert HeadRows(ids, rels)[4] in rows;
    hide DataSpecs, SnapshotIdOf, RelationsOk, SpecsOk, Rows, Existing, Committable, Consistent, AllApart;
    ExecAppends(db, rows);
    hide ExecAll, DbKeys;
    TablesReadBack(db, after, ids, rels);
    MembersReadBack(db, after, ids, rels);
  }
}
