// Importing twice: an accepted fixture goes into any database without its keys,
// and is recognised afterwards, provided its snapshot id is written as a TypeID.
module DemoSourceReceipt {
  import opened Wrappers
  import opened DemoSource
  import opened DemoSourceValidator
  import opened DemoSourceDb

  const SLUG := "demo-202609-commerce"

  // ---- Accepted fixtures have rows that do not clash ----

  lemma {:induction false} ObjectsHas(rels: seq<Relation>, k: nat)
    requires k < |rels|
    ensures forall u :: u in ObjectsOf(rels[k]) ==> u in Objects(rels)
    ensures Once(Objects(rels)) ==> Once(ObjectsOf(rels[k]))
  {
    hide ObjectsOf;
    var before, last := rels[..|rels| - 1], rels[|rels| - 1];
    var all := Objects(rels);
    assert all == Objects(before) + ObjectsOf(last);
    if k < |rels| - 1 {
      ObjectsHas(before, k);
      OnceShorter(Objects(before), all);
    } else {
      assert forall i :: 0 <= i < |ObjectsOf(last)| ==> all[|Objects(before)| + i] == ObjectsOf(last)[i];
    }
  }

  lemma {:induction false} ObjectsApart(rels: seq<Relation>, i: nat, j: nat, u: Uuid)
    requires i < j < |rels| && Once(Objects(rels)) && u in ObjectsOf(rels[i])
    ensures u !in ObjectsOf(rels[j])
  {
    hide ObjectsOf;
    var before, last := rels[..|rels| - 1], rels[|rels| - 1];
    var all := Objects(rels);
    assert all == Objects(before) + ObjectsOf(last);
    OnceShorter(Objects(before), all);
    if j < |rels| - 1 {
      ObjectsApart(before, i, j, u);
    } else {
      ObjectsHas(before, i);
      var x :| 0 <= x < |Objects(before)| && Objects(before)[x] == u;
      assert all[x] == u;
      assert forall y :: 0 <= y < |ObjectsOf(last)| ==> all[|Objects(before)| + y] == ObjectsOf(last)[y];
    }
  }

  lemma LocatorsApart(a: Relation, b: Relation)
    requires a.schema == b.schema && a.relation != b.relation
    ensures TableLocator(a) != TableLocator(b)
  {
    var n := |a.schema| + 1;
    assert TableLocator(a)[n..] == a.relation && TableLocator(b)[n..] == b.relation;
  }

  lemma ValidRelation(rel: Relation, first: Relation, specs: seq<Option<Spec>>, snapshotId: Spelling)
    requires RelationOk(rel, first, specs, snapshotId)
    ensures NamesOnce(rel.fields) && rel.schema == SCHEMA && |rel.fields| == |Expected(rel.relation)|
    ensures rel.relation == "orders" || rel.relation == "customers"
  {
    var k :| 0 <= k < |specs| && Matches(specs[k], rel, snapshotId);
    hide MembersOk, HasMember, SameDataset;
    assert FieldsOk(rel, specs[k].value.members);
    ColumnsOnce(rel.relation);
    hide Expected;
  }

  lemma ValidApart(rels: seq<Relation>, first: Relation, specs: seq<Option<Spec>>, snapshotId: Spelling)
    requires RelationsOk(rels, first, specs, snapshotId)
    ensures AllApart(rels)
  {
    hide Once, Objects, ObjectsOf, FieldObjects, FieldsApart, NamesOnce, TableLocator, RelationOk;
    forall i | 0 <= i < |rels|
      ensures FieldsApart(rels[i].fields) && NamesOnce(rels[i].fields) && rels[i].schema == SCHEMA
    {
      ValidRelation(rels[i], first, specs, snapshotId);
      ObjectsHas(rels, i);
      OnceTail(rels[i]);
      OnceFields(rels[i].fields);
    }
    forall i, j | 0 <= i < j < |rels|
      ensures RelsApart(rels[i], rels[j])
    {
      LocatorsApart(rels[i], rels[j]);
      forall u ensures !(u in ObjectsOf(rels[i]) && u in ObjectsOf(rels[j])) {
        if u in ObjectsOf(rels[i]) { ObjectsApart(rels, i, j, u); }
      }
    }
  }

  lemma OnceTail(rel: Relation)
    requires Once(ObjectsOf(rel))
    ensures Once(FieldObjects(rel.fields))
  {
    assert forall i :: 0 <= i < |FieldObjects(rel.fields)| ==> ObjectsOf(rel)[i + 2] == FieldObjects(rel.fields)[i];
  }

  // ---- The import ----

  predicate Committable(rows: seq<Row>, db: seq<Row>) {
    forall r :: r in rows ==> Later(r) <= DbKeys(db)
  }

  predicate HasConnection(db: seq<Row>, source: Uuid) {
    exists r :: r in db && r.ConnectionRow? && r.id == source
  }

  // The first data asset's snapshot id, which the receipt is looked up by.
  function FirstSnapshotId(snapshot: Snapshot): Spelling {
    var specs := DataSpecs(snapshot.assets);
    if specs == [] then BLANK else RefOf(specs[0]).snapshotId
  }

  predicate DatasetOfSource(db: seq<Row>, dataset: Uuid, source: Uuid) {
    exists d :: d in db && d.DatasetRow? && d.id == dataset && d.source == source
  }

  predicate InSnapshot(r: Row, ids: Ids) {
    r.MemberRow? && r.workspace == ids.workspace && r.snapshot == ids.snapshot
  }

  predicate CurrentDataset(db: seq<Row>, r: Row) {
    && r.MemberRow?
    && exists d :: d in db && d.DatasetRow? && d.workspace == r.workspace && d.id == r.object_
                   && d.current == r.revision && d.name == r.locator
  }

  predicate CurrentField(db: seq<Row>, r: Row) {
    && r.MemberRow?
    && exists f :: f in db && f.FieldRow? && f.workspace == r.workspace && f.id == r.object_
                   && f.current == r.revision && f.name == r.name
  }

  // What the receipt query counts.
  datatype Counted =
    | Snapshots | Revisions | Datasets | Fields | Members | DatasetMembers | CurrentDatasets | CurrentFields | Scopes

  predicate Counts(what: Counted, db: seq<Row>, ids: Ids, r: Row) {
    match what
    case Snapshots => r.SnapshotRow? && r.source == ids.source
    case Revisions => r.RevisionRow? && r.source == ids.source
    case Datasets => r.DatasetRow? && r.source == ids.source
    case Fields => r.FieldRow? && DatasetOfSource(db, r.dataset, ids.source)
    case Members => InSnapshot(r, ids)
    case DatasetMembers => InSnapshot(r, ids) && !r.isField
    case CurrentDatasets => InSnapshot(r, ids) && !r.isField && CurrentDataset(db, r)
    case CurrentFields => InSnapshot(r, ids) && r.isField && CurrentField(db, r)
    case Scopes => r.ScopeRow? && r.workspace == ids.workspace && r.snapshot == ids.snapshot
  }

  function Count(what: Counted, db: seq<Row>, ids: Ids, rows: seq<Row>): nat {
    if rows == [] then 0
    else
      Count(what, db, ids, rows[..|rows| - 1]) + (if Counts(what, db, ids, rows[|rows| - 1]) then 1 else 0)
  }

  function Expects(what: Counted): nat {
    match what
    case Snapshots => 1
    case Revisions => 1
    case Datasets => 2
    case Fields => 8
    case Members => 10
    case DatasetMembers => 2
    case CurrentDatasets => 2
    case CurrentFields => 8
    case Scopes => 1
  }

  predicate ReceiptCounts(db: seq<Row>, ids: Ids) {
    forall what :: Count(what, db, ids, db) == Expects(what)
  }

  predicate SnapshotThere(db: seq<Row>, ids: Ids, digest: Digest) {
    exists s, v :: s in db && v in db && s.SnapshotRow? && v.RevisionRow?
      && s.id == ids.snapshot && s.workspace == ids.workspace && s.source == ids.source && s.adapter == SYNTHETIC
      && s.digest == digest && s.scope == OfText(SCHEMA) && s.verified && s.complete
      && v.workspace == ids.workspace && v.id == s.revision && v.digest == digest && v.adapter == SYNTHETIC
  }

  predicate Receipt(db: seq<Row>, ids: Ids, rels: seq<Relation>)
    requires rels != []
  {
    && ConnectionRow(ids.source, ids.workspace, ADAPTER, rels[0].locator, "postgresql", true, true) in db
    && SnapshotThere(db, ids, OfRelations(rels))
    && ReceiptCounts(db, ids)
    && ScopeRow(ids.workspace, ids.snapshot, SCHEMA, SCHEMA, true) in db
    && EffectiveRow(ids.workspace, ids.source, OfText(SCHEMA), ids.snapshot) in db
  }

  datatype SeedFailure = BadFixture | NotOurWorkspace | BadReceiptId | ReceiptMismatch | Constraint

  // existingDemoSource
  function Existing(db: seq<Row>, workspace: Uuid, snapshot: Snapshot): Result<bool, SeedFailure>
    requires snapshot.execution.Some? && |snapshot.execution.value| == 2
  {
    var ids, rels := IdsOf(workspace, snapshot), snapshot.execution.value;
    if !HasConnection(db, ids.source) then Ok(false)
    else
      match FirstSnapshotId(snapshot)
      case TypeId(SourceSnapshot, u) =>
        if Receipt(db, ids.(snapshot := u), rels) then Ok(true) else Err(ReceiptMismatch)
      case _ => Err(BadReceiptId)
  }

  // SeedSource: the database after it, or why it is as it was.
  ghost function Seed(db: seq<Row>, workspace: Option<Uuid>, actor: Option<Uuid>, snapshot: Option<Snapshot>)
    : Result<seq<Row>, SeedFailure>
  {
    if !Valid(workspace, actor, snapshot) then Err(BadFixture)
    else if WorkspaceRow(workspace.value, SLUG) !in db then Err(NotOurWorkspace)
    else
      match Existing(db, workspace.value, snapshot.value)
      case Err(failure) => Err(failure)
      case Ok(true) => Ok(db)
      case Ok(false) =>
        var rows := StatementsOf(workspace.value, snapshot.value);
        match ExecAll(db, rows)
        case None => Err(Constraint)
        case Some(after) => if Committable(rows, after) then Ok(after) else Err(Constraint)
  }

  // ---- References at commit ----

  lemma KeysThere(rows: seq<Row>, r: Row)
    requires r in rows
    ensures Keys(r) <= DbKeys(rows)
  {
    forall k | k in Keys(r) ensures k in DbKeys(rows) { KeyHolder(rows, k); }
  }

  lemma {:induction false} FieldRowsIn(ids: Ids, rel: Relation, n: nat, i: nat)
    requires i < n <= |rel.fields|
    ensures forall q :: q in FieldRows(ids, rel, i) ==> q in FieldsRows(ids, rel, n)
  {
    hide FieldRows;
    if i < n - 1 { FieldRowsIn(ids, rel, n - 1, i); }
  }

  lemma {:induction false} RelationRowsIn(ids: Ids, rels: seq<Relation>, k: nat)
    requires k < |rels|
    ensures forall q :: q in DatasetRows(ids, rels[k]) ==> q in RelationsRows(ids, rels)
    ensures forall q :: q in FieldsRows(ids, rels[k], |rels[k].fields|) ==> q in RelationsRows(ids, rels)
  {
    hide DatasetRows, FieldsRows;
    if k < |rels| - 1 { RelationRowsIn(ids, rels[..|rels| - 1], k); }
  }

  lemma RelationCommits(ids: Ids, rel: Relation, r: Row, all: seq<Row>)
    requires OfRel(r, ids, rel)
    requires forall q :: q in DatasetRows(ids, rel) ==> q in all
    requires forall q :: q in FieldsRows(ids, rel, |rel.fields|) ==> q in all
    ensures Later(r) <= DbKeys(all)
  {
    var d := DatasetRows(ids, rel);
    assert d[1] in d && d[2] in d;
    KeysThere(all, d[1]);
    KeysThere(all, d[2]);
    if OfFieldUpTo(r, ids, rel, |rel.fields|) {
      var i :| 0 <= i < |rel.fields| && r in FieldRows(ids, rel, i);
      FieldRowsIn(ids, rel, |rel.fields|, i);
      assert FieldRows(ids, rel, i)[1] in FieldRows(ids, rel, i);
      KeysThere(all, FieldRows(ids, rel, i)[1]);
    }
    hide DbKeys, FieldsRows, TableLocator;
  }

  lemma RowsCommit(ids: Ids, rels: seq<Relation>, db: seq<Row>)
    requires rels != []
    ensures Committable(Rows(ids, rels), db + Rows(ids, rels))
  {
    var rows := Rows(ids, rels);
    DbKeysSplit(db, rows);
    hide DbKeys, RelationsRows, OfRel;
    forall r | r in rows
      ensures Later(r) <= DbKeys(rows)
    {
      if r in RelationsRows(ids, rels) {
        RelationsRowsFrom(ids, rels, r);
        var k :| 0 <= k < |rels| && OfRel(r, ids, rels[k]);
        RelationRowsIn(ids, rels, k);
        RelationCommits(ids, rels[k], r, rows);
      }
    }
  }

  // An accepted fixture is imported into a database with the workspace if and only
  // if none of its keys is taken; then the database has exactly its rows more.
  lemma ImportSucceeds(db: seq<Row>, workspace: Option<Uuid>, actor: Option<Uuid>, snapshot: Option<Snapshot>)
    requires Valid(workspace, actor, snapshot) && WorkspaceKey(workspace.value) in DbKeys(db)
    ensures var rows := StatementsOf(workspace.value, snapshot.value);
            && (ExecAll(db, rows).Some? <==> DbKeys(rows) !! DbKeys(db))
            && (ExecAll(db, rows).Some? ==> ExecAll(db, rows).value == db + rows && Committable(rows, db + rows))
  {
    var rels, ids := snapshot.value.execution.value, IdsOf(workspace.value, snapshot.value);
    ValidApart(rels, rels[0], DataSpecs(snapshot.value.assets), SnapshotIdOf(DataSpecs(snapshot.value.assets)));
    hide Rows, AllApart, DbKeys, RelationsOk;
    RowsFit(ids, rels);
    RowsCommit(ids, rels, db);
    ExecAppends(db, Rows(ids, rels));
  }

  // ---- Counting ----

  lemma {:induction false} CountSplit(what: Counted, db: seq<Row>, ids: Ids, a: seq<Row>, b: seq<Row>)
    ensures Count(what, db, ids, a + b) == Count(what, db, ids, a) + Count(what, db, ids, b)
  {
    hide Counts;
    if b == [] {
      assert a + b == a;
    } else {
      CountSplit(what, db, ids, a, b[..|b| - 1]);
      assert (a + b)[..|a + b| - 1] == a + b[..|b| - 1];
    }
  }

  lemma {:induction false} CountNone(what: Counted, db: seq<Row>, ids: Ids, rows: seq<Row>)
    requires forall r :: r in rows ==> !Counts(what, db, ids, r)
    ensures Count(what, db, ids, rows) == 0
  {
    hide Counts;
    if rows != [] { CountNone(what, db, ids, rows[..|rows| - 1]); }
  }

  lemma CountThree(what: Counted, db: seq<Row>, ids: Ids, a: Row, b: Row, c: Row)
    ensures Count(what, db, ids, [a, b, c])
         == (if Counts(what, db, ids, a) then 1 else 0) + (if Counts(what, db, ids, b) then 1 else 0)
          + (if Counts(what, db, ids, c) then 1 else 0)
  {
    hide Counts;
    assert [a, b, c][..2] == [a, b] && [a, b][..1] == [a] && [a][..0] == [];
    assert Count(what, db, ids, [a]) == if Counts(what, db, ids, a) then 1 else 0;
    assert Count(what, db, ids, [a, b]) == Count(what, db, ids, [a]) + if Counts(what, db, ids, b) then 1 else 0;
  }

  // How often the fixture's rows of each kind are counted.
  function PerField(what: Counted): nat {
    if what == Fields || what == Members || what == CurrentFields then 1 else 0
  }

  function PerDataset(what: Counted): nat {
    if what == Datasets || what == Members || what == DatasetMembers || what == CurrentDatasets then 1 else 0
  }

  lemma CountField(what: Counted, db: seq<Row>, ids: Ids, rel: Relation, i: nat)
    requires i < |rel.fields|
    requires forall q :: q in FieldRows(ids, rel, i) ==> q in db
    requires DatasetRows(ids, rel)[0] in db
    ensures Count(what, db, ids, FieldRows(ids, rel, i)) == PerField(what)
  {
    var three := FieldRows(ids, rel, i);
    var d := DatasetRows(ids, rel)[0];
    assert three[0] in three;
    assert CurrentField(db, three[2]);
    assert DatasetOfSource(db, three[0].dataset, ids.source);
    hide TableLocator, CurrentField, DatasetOfSource, CurrentDataset;
    CountThree(what, db, ids, three[0], three[1], three[2]);
    assert three == [three[0], three[1], three[2]];
  }

  lemma CountDataset(what: Counted, db: seq<Row>, ids: Ids, rel: Relation)
    requires forall q :: q in DatasetRows(ids, rel) ==> q in db
    ensures Count(what, db, ids, DatasetRows(ids, rel)) == PerDataset(what)
  {
    var three := DatasetRows(ids, rel);
    assert three[0] in three;
    assert CurrentDataset(db, three[2]);
    hide TableLocator, CurrentField, DatasetOfSource, CurrentDataset;
    CountThree(what, db, ids, three[0], three[1], three[2]);
    assert three == [three[0], three[1], three[2]];
  }

  lemma {:induction false} CountFields(what: Counted, db: seq<Row>, ids: Ids, rel: Relation, n: nat)
    requires n <= |rel.fields|
    requires forall q :: q in FieldsRows(ids, rel, n) ==> q in db
    requires DatasetRows(ids, rel)[0] in db
    ensures Count(what, db, ids, FieldsRows(ids, rel, n)) == n * PerField(what)
  {
    hide FieldRows, DatasetRows, Counts, PerField;
    if n > 0 {
      CountFields(what, db, ids, rel, n - 1);
      CountField(what, db, ids, rel, n - 1);
      CountSplit(what, db, ids, FieldsRows(ids, rel, n - 1), FieldRows(ids, rel, n - 1));
    }
  }

  lemma CountRelation(what: Counted, db: seq<Row>, ids: Ids, rel: Relation)
    requires forall q :: q in DatasetRows(ids, rel) ==> q in db
    requires forall q :: q in FieldsRows(ids, rel, |rel.fields|) ==> q in db
    ensures Count(what, db, ids, DatasetRows(ids, rel) + FieldsRows(ids, rel, |rel.fields|))
         == PerDataset(what) + |rel.fields| * PerField(what)
  {
    assert DatasetRows(ids, rel)[0] in DatasetRows(ids, rel);
    hide FieldsRows, DatasetRows, Count;
    CountDataset(what, db, ids, rel);
    CountFields(what, db, ids, rel, |rel.fields|);
    CountSplit(what, db, ids, DatasetRows(ids, rel), FieldsRows(ids, rel, |rel.fields|));
  }

  lemma TwoRelations(ids: Ids, rels: seq<Relation>)
    requires |rels| == 2
    ensures RelationsRows(ids, rels)
         == DatasetRows(ids, rels[0]) + FieldsRows(ids, rels[0], |rels[0].fields|)
          + (DatasetRows(ids, rels[1]) + FieldsRows(ids, rels[1], |rels[1].fields|))
  {
    hide DatasetRows, FieldsRows;
    assert rels[..1][..0] == [] && rels[..1][0] == rels[0];
    assert RelationsRows(ids, rels[..1]) == DatasetRows(ids, rels[0]) + FieldsRows(ids, rels[0], |rels[0].fields|);
  }

  function PerHead(what: Counted): nat {
    if what == Snapshots || what == Revisions || what == Scopes then 1 else 0
  }

  lemma HeadRowCounts(what: Counted, db: seq<Row>, ids: Ids, rels: seq<Relation>, i: nat)
    requires rels != [] && i < 5
    ensures Counts(what, db, ids, HeadRows(ids, rels)[i]) <==>
            (i == 1 && what == Revisions) || (i == 2 && what == Snapshots) || (i == 3 && what == Scopes)
    ensures !Counts(what, db, ids, EffectiveRow(ids.workspace, ids.source, OfText(SCHEMA), ids.snapshot))
  {
    hide CurrentField, DatasetOfSource, CurrentDataset;
  }

  lemma CountHead(what: Counted, db: seq<Row>, ids: Ids, rels: seq<Relation>)
    requires rels != []
    ensures Count(what, db, ids, HeadRows(ids, rels)) == PerHead(what)
    ensures Count(what, db, ids, [EffectiveRow(ids.workspace, ids.source, OfText(SCHEMA), ids.snapshot)]) == 0
  {
    var h := HeadRows(ids, rels);
    var last := EffectiveRow(ids.workspace, ids.source, OfText(SCHEMA), ids.snapshot);
    assert |h| == 5 && h == [h[0], h[1], h[2]] + [h[3]] + [h[4]];
    HeadRowCounts(what, db, ids, rels, 0);
    HeadRowCounts(what, db, ids, rels, 1);
    HeadRowCounts(what, db, ids, rels, 2);
    HeadRowCounts(what, db, ids, rels, 3);
    HeadRowCounts(what, db, ids, rels, 4);
    hide Counts, HeadRows;
    CountThree(what, db, ids, h[0], h[1], h[2]);
    CountSplit(what, db, ids, [h[0], h[1], h[2]], [h[3]]);
    CountSplit(what, db, ids, [h[0], h[1], h[2]] + [h[3]], [h[4]]);
    CountOne(what, db, ids, h[3]);
    CountOne(what, db, ids, h[4]);
    CountOne(what, db, ids, last);
  }

  lemma CountOne(what: Counted, db: seq<Row>, ids: Ids, r: Row)
    ensures Count(what, db, ids, [r]) == if Counts(what, db, ids, r) then 1 else 0
  {
    hide Counts;
    assert [r][..0] == [];
  }

  lemma Numbers(what: Counted, m: nat, n: nat)
    requires m + n == 8
    ensures PerHead(what) + (PerDataset(what) + m * PerField(what)) + (PerDataset(what) + n * PerField(what)) ==
            Expects(what)
  {
    if PerField(what) == 1 {
      assert m * 1 == m && n * 1 == n;
    } else {
      assert m * 0 == 0 && n * 0 == 0;
    }
  }

  // The receipt's numbers are those of a fixture: two tables with eight fields.
  lemma CountRows(what: Counted, db: seq<Row>, ids: Ids, rels: seq<Relation>)
    requires |rels| == 2 && |rels[0].fields| + |rels[1].fields| == 8
    requires forall q :: q in Rows(ids, rels) ==> q in db
    ensures Count(what, db, ids, Rows(ids, rels)) == Expects(what)
  {
    hide DatasetRows, FieldsRows, HeadRows, RelationsRows, Count, Counts, PerField, PerDataset, PerHead, Expects;
    var d0, f0 := DatasetRows(ids, rels[0]), FieldsRows(ids, rels[0], |rels[0].fields|);
    var d1, f1 := DatasetRows(ids, rels[1]), FieldsRows(ids, rels[1], |rels[1].fields|);
    var head, last := HeadRows(ids, rels), [EffectiveRow(ids.workspace, ids.source, OfText(SCHEMA), ids.snapshot)];
    TwoRelations(ids, rels);
    var all := head + ((d0 + f0) + (d1 + f1)) + last;
    assert Rows(ids, rels) == all;
    forall q | q in d0 || q in f0 || q in d1 || q in f1 ensures q in db { assert q in all; }
    hide Rows;
    CountHead(what, db, ids, rels);
    CountRelation(what, db, ids, rels[0]);
    CountRelation(what, db, ids, rels[1]);
    CountSplit(what, db, ids, d0 + f0, d1 + f1);
    CountSplit(what, db, ids, head, (d0 + f0) + (d1 + f1));
    CountSplit(what, db, ids, head + ((d0 + f0) + (d1 + f1)), last);
    Numbers(what, |rels[0].fields|, |rels[1].fields|);
  }

  // ---- What was there before ----

  // A database without the fixture's keys, in which every reference is kept, has
  // nothing that the receipt counts.
  lemma NothingCountedBefore(what: Counted, db: seq<Row>, rows: seq<Row>, ids: Ids, rels: seq<Relation>, r: Row)
    requires rels != [] && rows == Rows(ids, rels) && Consistent(db) && DbKeys(rows) !! DbKeys(db) && r in db
    ensures !Counts(what, db + rows, ids, r)
  {
    hide DbKeys, Rows, RelationsRows, CurrentDataset, CurrentField;
    assert Needs(r) <= DbKeys(db);
    NoSource(db, rows, ids, rels);
    if r.FieldRow? && DatasetOfSource(db + rows, r.dataset, ids.source) {
      var d :| d in db + rows && d.DatasetRow? && d.id == r.dataset && d.source == ids.source;
      DatasetIsKnown(db, r.workspace, r.dataset);
      FieldHasOldDataset(db, rows, ids, r, d);
    }
    hide Needs;
  }

  // Nothing refers to the source or to the snapshot.
  ghost predicate Unused(db: seq<Row>, ids: Ids) {
    && (forall w :: ConnWs(w, ids.source) !in DbKeys(db))
    && (forall w, v :: RevSource(w, ids.source, v) !in DbKeys(db))
    && (forall w :: SnapWs(w, ids.snapshot) !in DbKeys(db))
    && (forall w, c :: ScopeKey(w, ids.snapshot, c) !in DbKeys(db))
  }

  lemma HeadKeys(ids: Ids, rels: seq<Relation>)
    requires rels != []
    ensures ConnId(ids.source) in DbKeys(Rows(ids, rels)) && SnapId(ids.snapshot) in DbKeys(Rows(ids, rels))
  {
    var rows, h := Rows(ids, rels), HeadRows(ids, rels);
    assert rows[0] == h[0] && rows[2] == h[2];
    KeysThere(rows, h[0]);
    KeysThere(rows, h[2]);
    hide DbKeys;
  }

  lemma NoSource(db: seq<Row>, rows: seq<Row>, ids: Ids, rels: seq<Relation>)
    requires rels != [] && rows == Rows(ids, rels) && Consistent(db) && DbKeys(rows) !! DbKeys(db)
    ensures Unused(db, ids)
  {
    hide DbKeys, Rows;
    HeadKeys(ids, rels);
    assert ConnId(ids.source) !in DbKeys(db) && SnapId(ids.snapshot) !in DbKeys(db);
    forall w ensures ConnWs(w, ids.source) !in DbKeys(db) {
      if ConnWs(w, ids.source) in DbKeys(db) { ConnectionIsKnown(db, w, ids.source); }
    }
    forall w, v ensures RevSource(w, ids.source, v) !in DbKeys(db) {
      if RevSource(w, ids.source, v) in DbKeys(db) { RevisionIsKnown(db, w, ids.source, v); }
    }
    forall w ensures SnapWs(w, ids.snapshot) !in DbKeys(db) {
      if SnapWs(w, ids.snapshot) in DbKeys(db) { SnapshotIsKnown(db, w, ids.snapshot); }
    }
    forall w, c ensures ScopeKey(w, ids.snapshot, c) !in DbKeys(db) {
      if ScopeKey(w, ids.snapshot, c) in DbKeys(db) { ScopeIsKnown(db, w, ids.snapshot, c); }
    }
  }

  lemma ConnectionIsKnown(db: seq<Row>, w: Uuid, id: Uuid)
    requires ConnWs(w, id) in DbKeys(db)
    ensures ConnId(id) in DbKeys(db)
  {
    KeyHolder(db, ConnWs(w, id));
    var r :| r in db && ConnWs(w, id) in Keys(r);
    KeysThere(db, r);
  }

  lemma RevisionIsKnown(db: seq<Row>, w: Uuid, source: Uuid, v: Uuid)
    requires Consistent(db) && RevSource(w, source, v) in DbKeys(db)
    ensures ConnId(source) in DbKeys(db)
  {
    KeyHolder(db, RevSource(w, source, v));
    var r :| r in db && RevSource(w, source, v) in Keys(r);
    assert ConnWs(w, source) in Needs(r);
    ConnectionIsKnown(db, w, source);
  }

  lemma SnapshotIsKnown(db: seq<Row>, w: Uuid, id: Uuid)
    requires SnapWs(w, id) in DbKeys(db)
    ensures SnapId(id) in DbKeys(db)
  {
    KeyHolder(db, SnapWs(w, id));
    var r :| r in db && SnapWs(w, id) in Keys(r);
    KeysThere(db, r);
  }

  lemma ScopeIsKnown(db: seq<Row>, w: Uuid, id: Uuid, c: string)
    requires Consistent(db) && ScopeKey(w, id, c) in DbKeys(db)
    ensures SnapId(id) in DbKeys(db)
  {
    KeyHolder(db, ScopeKey(w, id, c));
    var r :| r in db && ScopeKey(w, id, c) in Keys(r);
    assert SnapWs(w, id) in Needs(r);
    SnapshotIsKnown(db, w, id);
  }

  lemma DatasetIsKnown(db: seq<Row>, w: Uuid, id: Uuid)
    requires DatasetWs(w, id) in DbKeys(db)
    ensures DatasetId(id) in DbKeys(db)
  {
    KeyHolder(db, DatasetWs(w, id));
    var r :| r in db && DatasetWs(w, id) in Keys(r);
    KeysThere(db, r);
  }

  // An old field belongs to an old dataset, which is none of the source's.
  lemma FieldHasOldDataset(db: seq<Row>, rows: seq<Row>, ids: Ids, r: Row, d: Row)
    requires Consistent(db) && Unused(db, ids) && DbKeys(rows) !! DbKeys(db)
    requires r.FieldRow? && DatasetId(r.dataset) in DbKeys(db)
    requires d in db + rows && d.DatasetRow? && d.id == r.dataset
    ensures d.source != ids.source
  {
    assert DatasetId(d.id) in Keys(d);
    if d in rows {
      KeysThere(rows, d);
    } else {
      assert ConnWs(d.workspace, d.source) in Needs(d);
    }
    hide DbKeys;
  }

  lemma CountBefore(what: Counted, db: seq<Row>, rows: seq<Row>, ids: Ids, rels: seq<Relation>)
    requires rels != [] && rows == Rows(ids, rels) && Consistent(db) && DbKeys(rows) !! DbKeys(db)
    ensures Count(what, db + rows, ids, db) == 0
  {
    hide Rows, DbKeys, Counts;
    forall r | r in db ensures !Counts(what, db + rows, ids, r) { NothingCountedBefore(what, db, rows, ids, rels, r); }
    CountNone(what, db + rows, ids, db);
  }

  // ---- The second import ----

  lemma EightFields(rels: seq<Relation>, first: Relation, specs: seq<Option<Spec>>, snapshotId: Spelling)
    requires RelationsOk(rels, first, specs, snapshotId) && |rels| == 2
    ensures |rels[0].fields| + |rels[1].fields| == 8
  {
    hide RelationOk, Once, Objects;
    ValidRelation(rels[0], first, specs, snapshotId);
    ValidRelation(rels[1], first, specs, snapshotId);
    assert rels[0].relation != rels[1].relation;
    assert |Expected("orders")| == 5 && |Expected("customers")| == 3;
  }

  lemma ReceiptAfter(db: seq<Row>, ids: Ids, rels: seq<Relation>)
    requires |rels| == 2 && |rels[0].fields| + |rels[1].fields| == 8
    requires Consistent(db) && DbKeys(Rows(ids, rels)) !! DbKeys(db)
    ensures Receipt(db + Rows(ids, rels), ids, rels) && HasConnection(db + Rows(ids, rels), ids.source)
  {
    var rows, h := Rows(ids, rels), HeadRows(ids, rels);
    var after := db + rows;
    assert forall i :: 0 <= i < 5 ==> rows[i] == h[i];
    assert rows[0] in after && rows[1] in after && rows[2] in after && rows[3] in after && rows[|rows| - 1] in after;
    assert SnapshotThere(after, ids, OfRelations(rels)) by { assert h[2] in after && h[1] in after; }
    forall what ensures Count(what, after, ids, after) == Expects(what) {
      hide Rows, DbKeys, Counts, Count, Expects;
      CountBefore(what, db, rows, ids, rels);
      CountRows(what, after, ids, rels);
      CountSplit(what, after, ids, db, rows);
    }
    hide Count, SnapshotThere;
  }

  // Whether the receipt of the fixture can be looked up again.
  predicate TypedReceipt(snapshot: Snapshot) {
    var s := FirstSnapshotId(snapshot);
    s.TypeId? && s.prefix == SourceSnapshot
  }

  lemma TypedIsTheSnapshot(workspace: Option<Uuid>, actor: Option<Uuid>, snapshot: Option<Snapshot>)
    requires Valid(workspace, actor, snapshot) && TypedReceipt(snapshot.value)
    ensures UuidOf(FirstSnapshotId(snapshot.value)) == IdsOf(workspace.value, snapshot.value).snapshot
  {
    var specs := DataSpecs(snapshot.value.assets);
    assert |specs| == 2 && SpecsOk(specs);
    hide RelationsOk, DatasetRefOk;
    assert RefOf(specs[0]).snapshotId == BLANK || RefOf(specs[0]).snapshotId == RefOf(specs[1]).snapshotId;
  }

  // A fixture that is imported once is recognised the second time, and changes
  // nothing, if and only if its first data asset writes the snapshot id as a
  // TypeID; written as a UUID, or left blank there, the second import fails.
  lemma SecondImport(db: seq<Row>, workspace: Option<Uuid>, actor: Option<Uuid>, snapshot: Option<Snapshot>)
    requires Valid(workspace, actor, snapshot) && WorkspaceRow(workspace.value, SLUG) in db && Consistent(db)
    requires DbKeys(StatementsOf(workspace.value, snapshot.value)) !! DbKeys(db)
    ensures var after := db + StatementsOf(workspace.value, snapshot.value);
            && Seed(db, workspace, actor, snapshot) == Ok(after)
            && (Seed(after, workspace, actor, snapshot) == Ok(after) <==> TypedReceipt(snapshot.value))
            && (Seed(after, workspace, actor, snapshot).Err? <==> !TypedReceipt(snapshot.value))
  {
    var rows := StatementsOf(workspace.value, snapshot.value);
    WorkspaceThere(db, workspace.value);
    ImportSucceeds(db, workspace, actor, snapshot);
    FirstTime(db, workspace, actor, snapshot);
    SecondTime(db, workspace, actor, snapshot);
    hide Valid, Existing, StatementsOf, ExecAll, Committable, DbKeys, TypedReceipt, Consistent;
    assert WorkspaceRow(workspace.value, SLUG) in db + rows;
  }

  // An import that inserts nothing found the fixture's own receipt: its connection, one
  // snapshot with its digest, and as many rows of each kind as it has.
  lemma RecognisedByReceipt(
    db: seq<Row>, workspace: Option<Uuid>, actor: Option<Uuid>, snapshot: Option<Snapshot>)
    requires Seed(db, workspace, actor, snapshot) == Ok(db)
    ensures TypedReceipt(snapshot.value)
    ensures var rels, w := snapshot.value.execution.value, workspace.value;
            var ids := Ids(w, UuidOf(rels[0].sourceId), UuidOf(rels[0].sourceRevisionId),
                           UuidOf(FirstSnapshotId(snapshot.value)));
            && ConnectionRow(ids.source, w, ADAPTER, rels[0].locator, "postgresql", true, true) in db
            && SnapshotThere(db, ids, OfRelations(rels))
            && Count(Snapshots, db, ids, db) == 1 && Count(Revisions, db, ids, db) == 1
            && Count(Datasets, db, ids, db) == 2 && Count(Fields, db, ids, db) == 8
            && Count(Members, db, ids, db) == 10 && Count(DatasetMembers, db, ids, db) == 2
            && Count(CurrentDatasets, db, ids, db) == 2 && Count(CurrentFields, db, ids, db) == 8
            && Count(Scopes, db, ids, db) == 1
            && ScopeRow(w, ids.snapshot, SCHEMA, SCHEMA, true) in db
            && EffectiveRow(w, ids.source, OfText(SCHEMA), ids.snapshot) in db
  {
    NothingInserted(db, workspace, actor, snapshot);
    ReceiptFound(db, workspace.value, snapshot.value);
    var ids := IdsOf(workspace.value, snapshot.value).(snapshot := UuidOf(FirstSnapshotId(snapshot.value)));
    hide Valid, Existing, Count, SnapshotThere, Receipt, TypedReceipt;
    ReceiptSays(db, ids, snapshot.value.execution.value);
  }

  lemma ReceiptSays(db: seq<Row>, ids: Ids, rels: seq<Relation>)
    requires rels != [] && Receipt(db, ids, rels)
    ensures && ConnectionRow(ids.source, ids.workspace, ADAPTER, rels[0].locator, "postgresql", true, true) in db
            && SnapshotThere(db, ids, OfRelations(rels))
            && Count(Snapshots, db, ids, db) == 1 && Count(Revisions, db, ids, db) == 1
            && Count(Datasets, db, ids, db) == 2 && Count(Fields, db, ids, db) == 8
            && Count(Members, db, ids, db) == 10 && Count(DatasetMembers, db, ids, db) == 2
            && Count(CurrentDatasets, db, ids, db) == 2 && Count(CurrentFields, db, ids, db) == 8
            && Count(Scopes, db, ids, db) == 1
            && ScopeRow(ids.workspace, ids.snapshot, SCHEMA, SCHEMA, true) in db
            && EffectiveRow(ids.workspace, ids.source, OfText(SCHEMA), ids.snapshot) in db
  {
    hide Count, SnapshotThere;
    assert forall what :: Count(what, db, ids, db) == Expects(what);
  }

  lemma NothingInserted(
    db: seq<Row>, workspace: Option<Uuid>, actor: Option<Uuid>, snapshot: Option<Snapshot>)
    requires Seed(db, workspace, actor, snapshot) == Ok(db)
    ensures Existing(db, workspace.value, snapshot.value) == Ok(true)
  {
    var rows := StatementsOf(workspace.value, snapshot.value);
    assert |rows| > 0;
    hide Valid, Existing, StatementsOf, ExecAll, Committable;
    ExecAppends(db, rows);
  }

  lemma ReceiptFound(db: seq<Row>, workspace: Uuid, snapshot: Snapshot)
    requires snapshot.execution.Some? && |snapshot.execution.value| == 2
    requires Existing(db, workspace, snapshot) == Ok(true)
    ensures TypedReceipt(snapshot)
    ensures Receipt(db, IdsOf(workspace, snapshot).(snapshot := UuidOf(FirstSnapshotId(snapshot))),
                    snapshot.execution.value)
  {
    hide Receipt, HasConnection;
  }

  lemma WorkspaceThere(db: seq<Row>, workspace: Uuid)
    requires WorkspaceRow(workspace, SLUG) in db
    ensures WorkspaceKey(workspace) in DbKeys(db)
  {
    KeysThere(db, WorkspaceRow(workspace, SLUG));
    assert WorkspaceKey(workspace) in Keys(WorkspaceRow(workspace, SLUG));
  }

  lemma FirstTime(db: seq<Row>, workspace: Option<Uuid>, actor: Option<Uuid>, snapshot: Option<Snapshot>)
    requires Valid(workspace, actor, snapshot) && DbKeys(StatementsOf(workspace.value, snapshot.value)) !! DbKeys(db)
    ensures Existing(db, workspace.value, snapshot.value) == Ok(false)
  {
    var rels, ids := snapshot.value.execution.value, IdsOf(workspace.value, snapshot.value);
    hide Rows, DbKeys, Receipt, RelationsOk, SpecsOk, IdsOf;
    NoConnectionYet(db, Rows(ids, rels), ids, rels);
    hide HasConnection;
  }

  lemma SecondTime(db: seq<Row>, workspace: Option<Uuid>, actor: Option<Uuid>, snapshot: Option<Snapshot>)
    requires Valid(workspace, actor, snapshot) && Consistent(db)
    requires DbKeys(StatementsOf(workspace.value, snapshot.value)) !! DbKeys(db)
    ensures Existing(db + StatementsOf(workspace.value, snapshot.value), workspace.value, snapshot.value)
         == if TypedReceipt(snapshot.value) then Ok(true) else Err(BadReceiptId)
  {
    var rels, ids := snapshot.value.execution.value, IdsOf(workspace.value, snapshot.value);
    var specs := DataSpecs(snapshot.value.assets);
    EightFields(rels, rels[0], specs, SnapshotIdOf(specs));
    if TypedReceipt(snapshot.value) { TypedIsTheSnapshot(workspace, actor, snapshot); }
    hide Rows, DbKeys, Receipt, HasConnection, RelationsOk, SpecsOk, IdsOf, Valid, Consistent;
    ReceiptAfter(db, ids, rels);
    assert ids == ids.(snapshot := ids.snapshot);
  }

  lemma NoConnectionYet(db: seq<Row>, rows: seq<Row>, ids: Ids, rels: seq<Relation>)
    requires rels != [] && rows == Rows(ids, rels) && DbKeys(rows) !! DbKeys(db)
    ensures !HasConnection(db, ids.source)
  {
    hide DbKeys, Rows;
    HeadKeys(ids, rels);
    assert ConnId(ids.source) !in DbKeys(db);
    forall r | r in db && r.ConnectionRow?
      ensures r.id != ids.source
    {
      KeysThere(db, r);
      assert ConnId(r.id) in Keys(r);
    }
  }

  // The tables stay consistent, so any number of fixtures can follow.
  lemma SeedKeepsConsistent(db: seq<Row>, workspace: Option<Uuid>, actor: Option<Uuid>, snapshot: Option<Snapshot>)
    requires Consistent(db) && Seed(db, workspace, actor, snapshot).Ok?
    ensures Consistent(Seed(db, workspace, actor, snapshot).value)
  {
    var after := Seed(db, workspace, actor, snapshot).value;
    if after != db {
      var rows := StatementsOf(workspace.value, snapshot.value);
      hide Valid, Existing, StatementsOf, Later, Needs, DbKeys;
      ExecAppends(db, rows);
      DbKeysSplit(db, rows);
      ExecNeeds(db, rows);
    }
  }

  lemma {:induction false} ExecNeeds(db: seq<Row>, rows: seq<Row>)
    requires ExecAll(db, rows).Some?
    ensures forall r :: r in rows ==> Needs(r) <= DbKeys(db + rows)
  {
    hide Needs, Keys, DbKeys;
    if rows != [] {
      var before, last := rows[..|rows| - 1], rows[|rows| - 1];
      ExecNeeds(db, before);
      ExecAppends(db, before);
      DbKeysSplit(db + before, [last]);
      assert db + rows == db + before + [last];
      assert rows == before + [last];
    }
  }

  // ---- The program ----

  // The transaction ended as seeded says.
  ghost predicate SeededAs(
    seeded: Result<seq<Row>, SeedFailure>, r: Result<bool, SeedFailure>, before: seq<Row>, after: seq<Row>)
  {
    match seeded
    case Ok(rows) => r.Ok? && after == rows
    case Err(failure) => r == Err(failure) && after == before
  }

  class Application {
    var db: seq<Row>

    constructor (db: seq<Row>)
      ensures this.db == db
    {
      this.db := db;
    }

    // SeedSource: one transaction; a failure leaves the tables as they were.
    method SeedSource(workspace: Option<Uuid>, actor: Option<Uuid>, snapshot: Option<Snapshot>)
        returns (r: Result<bool, SeedFailure>)
      modifies this
      ensures SeededAs(Seed(old(db), workspace, actor, snapshot), r, old(db), db)
    {
      var statements := SourceStatements(workspace, actor, snapshot);
      assert statements.Ok? ==> HeadOk(workspace, actor, snapshot);
      hide Valid, Existing, StatementsOf, ExecAll, Committable;
      if statements.Err? { return Err(BadFixture); }
      if WorkspaceRow(workspace.value, SLUG) !in db { return Err(NotOurWorkspace); }
      var present := Existing(db, workspace.value, snapshot.value);
      if present.Err? { return Err(present.error); }
      if present.value { return Ok(true); }
      var tx := Execute(statements.value);
      if tx.None? || !Committable(statements.value, tx.value) { return Err(Constraint); }
      db := tx.value;
      return Ok(true);
    }

    // The statements run one after another until one fails.
    method Execute(statements: seq<Row>) returns (tx: Option<seq<Row>>)
      ensures tx == ExecAll(db, statements)
    {
      hide CanInsert;
      var rows := db;
      for i := 0 to |statements|
        invariant ExecAll(db, statements[..i]) == Some(rows)
      {
        assert statements[..i + 1][..i] == statements[..i];
        if !CanInsert(rows, statements[i]) {
          ExecStops(db, statements, i);
          return None;
        }
        rows := rows + [statements[i]];
      }
      assert statements[..|statements|] == statements;
      return Some(rows);
    }
  }

  lemma {:induction false} ExecStops(db: seq<Row>, rows: seq<Row>, i: nat)
    requires i < |rows| && ExecAll(db, rows[..i]).Some? && !CanInsert(ExecAll(db, rows[..i]).value, rows[i])
    ensures ExecAll(db, rows).None?
  {
    hide CanInsert;
    assert rows[..i + 1][..i] == rows[..i];
    ExecSplit(db, rows[..i + 1], rows[i + 1..]);
    assert rows == rows[..i + 1] + rows[i + 1..];
  }
}
