// The tables the fixture is inserted into: unique keys, references that must be
// there at once, references checked at commit, and the receipt that recognises an
// earlier import.
module DemoSourceDb {
  import opened Wrappers
  import opened DemoSource
  import opened DemoSourceValidator

  // The unique keys of the tables; references name one of them.
  datatype UniqueKey =
    | WorkspaceKey(id: Uuid)
    | ConnId(id: Uuid) | ConnWs(workspace: Uuid, id: Uuid)
    | ConnLocator(workspace: Uuid, adapter: string, locator: string)
    | RevId(id: Uuid) | RevWs(workspace: Uuid, id: Uuid) | RevSource(workspace: Uuid, source: Uuid, id: Uuid)
    | RevDigest(source: Uuid, digest: Digest)
    | SnapId(id: Uuid) | SnapWs(workspace: Uuid, id: Uuid) | SnapSource(workspace: Uuid, source: Uuid, id: Uuid)
    | SnapContent(workspace: Uuid, source: Uuid, revision: Uuid, adapter: string, scope: Digest, digest: Digest)
    | ScopeKey(workspace: Uuid, snapshot: Uuid, coverage: string)
    | DiagKey(workspace: Uuid, snapshot: Uuid, ordinal: nat)
    | DatasetId(id: Uuid) | DatasetWs(workspace: Uuid, id: Uuid) | DatasetName(source: Uuid, name: string)
    | DatasetRevId(id: Uuid) | DatasetRevWs(workspace: Uuid, id: Uuid) | DatasetRevOf(dataset: Uuid, id: Uuid)
    | DatasetRevFrom(dataset: Uuid, revision: Uuid) | DatasetRevSnap(workspace: Uuid, dataset: Uuid, id: Uuid)
    | FieldId(id: Uuid) | FieldWs(workspace: Uuid, id: Uuid) | FieldName(dataset: Uuid, name: string)
    | FieldRevId(id: Uuid) | FieldRevWs(workspace: Uuid, id: Uuid) | FieldRevOf(field: Uuid, id: Uuid)
    | FieldRevOrdinal(datasetRevision: Uuid, ordinal: nat) | FieldRevSnap(workspace: Uuid, field: Uuid, id: Uuid)
    | MemberKey(workspace: Uuid, snapshot: Uuid, isField: bool, object_: Uuid)
    | MemberRev(workspace: Uuid, snapshot: Uuid, isField: bool, object_: Uuid, revision: Uuid)
    | EffectiveKey(workspace: Uuid, source: Uuid, scope: Digest)

  function Keys(r: Row): set<UniqueKey> {
    match r
    case WorkspaceRow(id, _) => {WorkspaceKey(id)}
    case ConnectionRow(id, w, adapter, locator, _, _, _) =>
      {ConnId(id), ConnWs(w, id), ConnLocator(w, adapter, locator)}
    case RevisionRow(id, w, source, digest, _) =>
      {RevId(id), RevWs(w, id), RevSource(w, source, id), RevDigest(source, digest)}
    case SnapshotRow(id, w, source, revision, adapter, scope, digest, _, _) =>
      {SnapId(id), SnapWs(w, id), SnapSource(w, source, id), SnapContent(w, source, revision, adapter, scope, digest)}
    case ScopeRow(w, snapshot, coverage, _, _) => {ScopeKey(w, snapshot, coverage)}
    case DiagnosticRow(w, snapshot, ordinal, _) => {DiagKey(w, snapshot, ordinal)}
    case DatasetRow(id, w, source, name, _) => {DatasetId(id), DatasetWs(w, id), DatasetName(source, name)}
    case DatasetRevisionRow(id, w, dataset, revision, _, _) =>
      {DatasetRevId(id), DatasetRevWs(w, id), DatasetRevOf(dataset, id), DatasetRevFrom(dataset, revision),
       DatasetRevSnap(w, dataset, id)}
    case FieldRow(id, w, dataset, name, _) => {FieldId(id), FieldWs(w, id), FieldName(dataset, name)}
    case FieldRevisionRow(id, w, field, revision, ordinal, _) =>
      {FieldRevId(id), FieldRevWs(w, id), FieldRevOf(field, id), FieldRevOrdinal(revision, ordinal),
        FieldRevSnap(w, field, id)}
    case MemberRow(w, snapshot, isField, obj, revision, _, _, _, _, _) =>
      {MemberKey(w, snapshot, isField, obj), MemberRev(w, snapshot, isField, obj, revision)}
    case EffectiveRow(w, source, scope, _) => {EffectiveKey(w, source, scope)}
  }

  // References that must exist when the row is inserted.
  function Needs(r: Row): set<UniqueKey> {
    match r
    case WorkspaceRow(_, _) => {}
    case ConnectionRow(_, w, _, _, _, _, _) => {WorkspaceKey(w)}
    case RevisionRow(_, w, source, _, _) => {ConnWs(w, source)}
    case SnapshotRow(_, w, source, revision, _, _, _, _, _) => {RevSource(w, source, revision)}
    case ScopeRow(w, snapshot, _, _, _) => {SnapWs(w, snapshot)}
    case DiagnosticRow(w, snapshot, _, coverage) => {ScopeKey(w, snapshot, coverage)}
    case DatasetRow(_, w, source, _, _) => {ConnWs(w, source)}
    case DatasetRevisionRow(_, w, dataset, revision, _, _) => {DatasetWs(w, dataset), RevWs(w, revision)}
    case FieldRow(_, w, dataset, _, _) => {DatasetWs(w, dataset)}
    case FieldRevisionRow(_, w, field, revision, _, _) => {FieldWs(w, field), DatasetRevWs(w, revision)}
    case MemberRow(w, snapshot, isField, obj, revision, _, _, _, coverage, _) =>
      {ScopeKey(w, snapshot, coverage),
       if isField then FieldRevSnap(w, obj, revision) else DatasetRevSnap(w, obj, revision)}
    case EffectiveRow(w, source, _, snapshot) => {SnapSource(w, source, snapshot)}
  }

  // References that must exist when the transaction commits.
  function Later(r: Row): set<UniqueKey> {
    match r
    case DatasetRow(id, _, _, _, current) => {DatasetRevOf(id, current)}
    case FieldRow(id, _, _, _, current) => {FieldRevOf(id, current)}
    case MemberRow(w, snapshot, _, _, _, _, _, _, _, parent) =>
      if parent.Some? then {MemberRev(w, snapshot, false, parent.value.0, parent.value.1)} else {}
    case _ => {}
  }

  function DbKeys(db: seq<Row>): set<UniqueKey> {
    if db == [] then {} else DbKeys(db[..|db| - 1]) + Keys(db[|db| - 1])
  }

  predicate CanInsert(db: seq<Row>, r: Row) {
    Keys(r) !! DbKeys(db) && Needs(r) <= DbKeys(db)
  }

  // The rows are inserted in order; a violated constraint stops all.
  function ExecAll(db: seq<Row>, rows: seq<Row>): Option<seq<Row>> {
    if rows == [] then Some(db)
    else
      match ExecAll(db, rows[..|rows| - 1])
      case None => None
      case Some(before) => if CanInsert(before, rows[|rows| - 1]) then Some(before + [rows[|rows| - 1]]) else None
  }

  // Every reference of every row is there.
  ghost predicate Consistent(db: seq<Row>) {
    forall r :: r in db ==> Needs(r) <= DbKeys(db) && Later(r) <= DbKeys(db)
  }

  // ---- Keys of lists of rows ----

  lemma {:induction false} DbKeysSplit(a: seq<Row>, b: seq<Row>)
    ensures DbKeys(a + b) == DbKeys(a) + DbKeys(b)
  {
    if b == [] {
      assert a + b == a;
    } else {
      DbKeysSplit(a, b[..|b| - 1]);
      assert (a + b)[..|a + b| - 1] == a + b[..|b| - 1];
    }
  }

  lemma {:induction false} KeyHolder(db: seq<Row>, k: UniqueKey)
    ensures k in DbKeys(db) <==> exists r :: r in db && k in Keys(r)
  {
    if db != [] {
      KeyHolder(db[..|db| - 1], k);
      assert db == db[..|db| - 1] + [db[|db| - 1]];
    }
  }

  lemma {:induction false} ExecSplit(db: seq<Row>, a: seq<Row>, b: seq<Row>)
    ensures ExecAll(db, a + b)
         == match ExecAll(db, a) { case None => None case Some(mid) => ExecAll(mid, b) }
  {
    if b == [] {
      assert a + b == a;
    } else {
      ExecSplit(db, a, b[..|b| - 1]);
      assert (a + b)[..|a + b| - 1] == a + b[..|b| - 1];
    }
  }

  lemma {:induction false} ExecAppends(db: seq<Row>, rows: seq<Row>)
    ensures ExecAll(db, rows).Some? ==> ExecAll(db, rows).value == db + rows
    ensures ExecAll(db, rows).Some? ==> DbKeys(rows) !! DbKeys(db)
  {
    if rows == [] {
      assert db + rows == db;
    } else {
      ExecAppends(db, rows[..|rows| - 1]);
      DbKeysSplit(db, rows[..|rows| - 1]);
      assert db + rows == db + rows[..|rows| - 1] + [rows[|rows| - 1]];
    }
  }

  // ---- Rows that cannot clash ----

  // Different tables, or the same table and different in every key.
  ghost predicate RowsApart(a: Row, b: Row) {
    match (a, b)
    case (DatasetRow(i, _, s, n, _), DatasetRow(j, _, t, m, _)) => i != j && (s != t || n != m)
    case (DatasetRevisionRow(i, _, d, _, _, _), DatasetRevisionRow(j, _, e, _, _, _)) => i != j && d != e
    case (FieldRow(i, _, d, n, _), FieldRow(j, _, e, m, _)) => i != j && (d != e || n != m)
    case (FieldRevisionRow(i, _, f, r, o, _), FieldRevisionRow(j, _, g, q, p, _)) => i != j && (r != q || o != p)
    case (MemberRow(_, _, x, o, _, _, _, _, _, _), MemberRow(_, _, y, p, _, _, _, _, _, _)) => x != y || o != p
    case (WorkspaceRow(_, _), WorkspaceRow(_, _)) => false
    case (ConnectionRow(_, _, _, _, _, _, _), ConnectionRow(_, _, _, _, _, _, _)) => false
    case (RevisionRow(_, _, _, _, _), RevisionRow(_, _, _, _, _)) => false
    case (SnapshotRow(_, _, _, _, _, _, _, _, _), SnapshotRow(_, _, _, _, _, _, _, _, _)) => false
    case (ScopeRow(_, _, _, _, _), ScopeRow(_, _, _, _, _)) => false
    case (DiagnosticRow(_, _, _, _), DiagnosticRow(_, _, _, _)) => false
    case (EffectiveRow(_, _, _, _), EffectiveRow(_, _, _, _)) => false
    case (_, _) => true
  }

  function Table(r: Row): nat {
    match r
    case WorkspaceRow(_, _) => 0
    case ConnectionRow(_, _, _, _, _, _, _) => 1
    case RevisionRow(_, _, _, _, _) => 2
    case SnapshotRow(_, _, _, _, _, _, _, _, _) => 3
    case ScopeRow(_, _, _, _, _) => 4
    case DiagnosticRow(_, _, _, _) => 5
    case DatasetRow(_, _, _, _, _) => 6
    case DatasetRevisionRow(_, _, _, _, _, _) => 7
    case FieldRow(_, _, _, _, _) => 8
    case FieldRevisionRow(_, _, _, _, _, _) => 9
    case MemberRow(_, _, _, _, _, _, _, _, _, _) => 10
    case EffectiveRow(_, _, _, _) => 11
  }

  function TableOf(k: UniqueKey): nat {
    if k.WorkspaceKey? then 0
    else if k.ConnId? || k.ConnWs? || k.ConnLocator? then 1
    else if k.RevId? || k.RevWs? || k.RevSource? || k.RevDigest? then 2
    else if k.SnapId? || k.SnapWs? || k.SnapSource? || k.SnapContent? then 3
    else if k.ScopeKey? then 4
    else if k.DiagKey? then 5
    else if k.DatasetId? || k.DatasetWs? || k.DatasetName? then 6
    else if k.DatasetRevId? || k.DatasetRevWs? || k.DatasetRevOf? || k.DatasetRevFrom? || k.DatasetRevSnap? then 7
    else if k.FieldId? || k.FieldWs? || k.FieldName? then 8
    else if k.FieldRevId? || k.FieldRevWs? || k.FieldRevOf? || k.FieldRevOrdinal? || k.FieldRevSnap? then 9
    else if k.MemberKey? || k.MemberRev? then 10
    else 11
  }

  lemma KeysOfTable(r: Row)
    ensures forall k :: k in Keys(r) ==> TableOf(k) == Table(r)
  {
  }

  lemma ApartKeys(a: Row, b: Row)
    requires RowsApart(a, b)
    ensures Keys(a) !! Keys(b)
  {
    if Table(a) != Table(b) {
      KeysOfTable(a);
      KeysOfTable(b);
      hide Keys, RowsApart;
    } else {
      hide TableOf;
      match a
      case DatasetRow(_, _, _, _, _) =>
      case DatasetRevisionRow(_, _, _, _, _, _) =>
      case FieldRow(_, _, _, _, _) =>
      case FieldRevisionRow(_, _, _, _, _, _) =>
      case MemberRow(_, _, _, _, _, _, _, _, _, _) =>
      case _ =>
    }
  }

  ghost predicate ApartFrom(rows: seq<Row>, r: Row) {
    forall e :: e in rows ==> RowsApart(e, r)
  }

  // The rows fit into any database that has none of their keys and all of needed.
  ghost predicate Fits(rows: seq<Row>, needed: set<UniqueKey>) {
    forall db :: DbKeys(rows) !! DbKeys(db) && needed <= DbKeys(db) ==> ExecAll(db, rows) == Some(db + rows)
  }

  lemma NothingFits(needed: set<UniqueKey>)
    ensures Fits([], needed)
  {
    forall db: seq<Row> ensures db + [] == db {}
  }

  lemma NewKeys(rows: seq<Row>, r: Row)
    requires ApartFrom(rows, r)
    ensures Keys(r) !! DbKeys(rows)
  {
    hide Keys, RowsApart;
    forall k | k in Keys(r)
      ensures k !in DbKeys(rows)
    {
      KeyHolder(rows, k);
      forall e | e in rows ensures k !in Keys(e) { ApartKeys(e, r); }
    }
  }

  lemma FitsMore(rows: seq<Row>, needed: set<UniqueKey>, r: Row)
    requires Fits(rows, needed) && ApartFrom(rows, r) && Needs(r) <= needed + DbKeys(rows)
    ensures Fits(rows + [r], needed) && DbKeys(rows + [r]) == DbKeys(rows) + Keys(r)
  {
    var more := rows + [r];
    assert more[..|rows|] == rows;
    NewKeys(rows, r);
    hide Keys, RowsApart, Needs;
    forall db | DbKeys(more) !! DbKeys(db) && needed <= DbKeys(db)
      ensures ExecAll(db, more) == Some(db + more)
    {
      DbKeysSplit(db, rows);
      assert ExecAll(db, rows) == Some(db + rows);
      assert db + more == db + rows + [r];
    }
  }

  // ---- The fixture's rows ----

  // Where a row of the relations comes from.
  ghost predicate OfDataset(r: Row, ids: Ids, rel: Relation) {
    r in DatasetRows(ids, rel)
  }

  ghost predicate OfFieldUpTo(r: Row, ids: Ids, rel: Relation, n: nat) {
    exists i :: 0 <= i < n && i < |rel.fields| && r in FieldRows(ids, rel, i)
  }

  ghost predicate OfRel(r: Row, ids: Ids, rel: Relation) {
    OfDataset(r, ids, rel) || OfFieldUpTo(r, ids, rel, |rel.fields|)
  }

  ghost predicate OfHead(r: Row) {
    r.ConnectionRow? || r.RevisionRow? || r.SnapshotRow? || r.ScopeRow? || r.DiagnosticRow?
  }

  // No object of the one relation is one of the other; the tables differ.
  ghost predicate RelsApart(a: Relation, b: Relation) {
    && TableLocator(a) != TableLocator(b)
    && (forall u :: !(u in ObjectsOf(a) && u in ObjectsOf(b)))
  }

  lemma {:induction false} FieldObjectIn(fields: seq<Field>, i: nat)
    requires i < |fields|
    ensures UuidOf(fields[i].fieldId) in FieldObjects(fields) && UuidOf(fields[i].revisionId) in FieldObjects(fields)
  {
    if i < |fields| - 1 { FieldObjectIn(fields[..|fields| - 1], i); }
  }

  lemma FieldIds(rel: Relation, i: nat)
    requires i < |rel.fields|
    ensures UuidOf(rel.fields[i].fieldId) in ObjectsOf(rel) && UuidOf(rel.fields[i].revisionId) in ObjectsOf(rel)
  {
    FieldObjectIn(rel.fields, i);
  }

  // The row is about objects of the relation, and named after its table.
  ghost predicate Owned(r: Row, ids: Ids, rel: Relation) {
    match r
    case DatasetRow(id, _, source, name, _) => id in ObjectsOf(rel) && source == ids.source && name == TableLocator(rel)
    case DatasetRevisionRow(id, _, d, _, _, _) => id in ObjectsOf(rel) && d in ObjectsOf(rel)
    case FieldRow(id, _, d, _, _) => id in ObjectsOf(rel) && d in ObjectsOf(rel)
    case FieldRevisionRow(id, _, _, q, _, _) => id in ObjectsOf(rel) && q in ObjectsOf(rel)
    case MemberRow(_, _, _, o, _, _, _, _, _, _) => o in ObjectsOf(rel)
    case _ => false
  }

  lemma RelationOwns(ids: Ids, rel: Relation, r: Row)
    requires OfRel(r, ids, rel)
    ensures Owned(r, ids, rel)
  {
    assert UuidOf(rel.datasetId) in ObjectsOf(rel) && UuidOf(rel.datasetRevisionId) in ObjectsOf(rel);
    if OfFieldUpTo(r, ids, rel, |rel.fields|) {
      var i :| 0 <= i < |rel.fields| && r in FieldRows(ids, rel, i);
      FieldIds(rel, i);
      hide ObjectsOf, TableLocator;
    }
  }

  // Rows of different relations do not clash.
  lemma RelationRowsApart(ids: Ids, a: Relation, b: Relation, r: Row, q: Row)
    requires RelsApart(a, b) && OfRel(r, ids, a) && OfRel(q, ids, b)
    ensures RowsApart(r, q)
  {
    RelationOwns(ids, a, r);
    RelationOwns(ids, b, q);
    hide ObjectsOf, TableLocator, OfRel;
  }

  ghost predicate NamesOnce(fields: seq<Field>) {
    forall i, j :: 0 <= i < j < |fields| ==> fields[i].name != fields[j].name
  }

  ghost predicate FieldsApart(fields: seq<Field>) {
    forall i, j :: 0 <= i < j < |fields| ==>
      UuidOf(fields[i].fieldId) != UuidOf(fields[j].fieldId)
        && UuidOf(fields[i].revisionId) != UuidOf(fields[j].revisionId)
  }

  lemma {:induction false} OnceFields(fields: seq<Field>)
    requires Once(FieldObjects(fields))
    ensures FieldsApart(fields)
  {
    if fields != [] {
      var before, last := fields[..|fields| - 1], fields[|fields| - 1];
      var all := FieldObjects(fields);
      assert all == FieldObjects(before) + [UuidOf(last.fieldId), UuidOf(last.revisionId)];
      OnceShorter(FieldObjects(before), all);
      OnceFields(before);
      forall i | 0 <= i < |before|
        ensures UuidOf(before[i].fieldId) != UuidOf(last.fieldId)
                && UuidOf(before[i].revisionId) != UuidOf(last.revisionId)
      {
        FieldObjectIn(before, i);
        assert all[|all| - 2] == UuidOf(last.fieldId) && all[|all| - 1] == UuidOf(last.revisionId);
        assert forall k :: 0 <= k < |all| - 2 ==> all[k] == FieldObjects(before)[k];
      }
      assert forall i :: 0 <= i < |before| ==> before[i] == fields[i];
    }
  }

  lemma FieldRowsApart(ids: Ids, rel: Relation, i: nat, j: nat, r: Row, q: Row)
    requires i < |rel.fields| && j < |rel.fields| && i != j && FieldsApart(rel.fields) && NamesOnce(rel.fields)
    requires r in FieldRows(ids, rel, i) && q in FieldRows(ids, rel, j)
    ensures RowsApart(r, q)
  {
    hide TableLocator;
  }

  lemma DatasetFieldApart(ids: Ids, rel: Relation, j: nat, r: Row, q: Row)
    requires j < |rel.fields| && r in DatasetRows(ids, rel) && q in FieldRows(ids, rel, j)
    ensures RowsApart(r, q)
  {
  }

  // Everything the relations' rows refer to, once the head rows are there.
  ghost predicate HeadThere(ids: Ids, keys: set<UniqueKey>) {
    && ConnWs(ids.workspace, ids.source) in keys && RevWs(ids.workspace, ids.revision) in keys
    && ScopeKey(ids.workspace, ids.snapshot, SCHEMA) in keys
    && SnapSource(ids.workspace, ids.source, ids.snapshot) in keys
  }

  ghost predicate DatasetThere(ids: Ids, rel: Relation, keys: set<UniqueKey>) {
    DatasetWs(ids.workspace, UuidOf(rel.datasetId)) in keys
      && DatasetRevWs(ids.workspace, UuidOf(rel.datasetRevisionId)) in keys
  }

  lemma ApartFromMore(rows: seq<Row>, e: Row, r: Row)
    requires ApartFrom(rows, r) && RowsApart(e, r)
    ensures ApartFrom(rows + [e], r)
  {
    hide RowsApart;
  }

  lemma FitsNext(rows: seq<Row>, needed: set<UniqueKey>, r: Row, keys: set<UniqueKey>)
    requires Fits(rows, needed) && ApartFrom(rows, r) && DbKeys(rows) == keys && Needs(r) <= needed + keys
    ensures Fits(rows + [r], needed) && DbKeys(rows + [r]) == keys + Keys(r)
  {
    hide Fits, ApartFrom, Needs, Keys, DbKeys;
    FitsMore(rows, needed, r);
  }

  // Three rows of one object.
  lemma FitsThree(rows: seq<Row>, needed: set<UniqueKey>, three: seq<Row>)
    requires Fits(rows, needed) && |three| == 3
    requires forall i :: 0 <= i < 3 ==> ApartFrom(rows, three[i])
    requires RowsApart(three[0], three[1]) && RowsApart(three[0], three[2]) && RowsApart(three[1], three[2])
    requires Needs(three[0]) <= needed + DbKeys(rows)
    requires Needs(three[1]) <= needed + (DbKeys(rows) + Keys(three[0]))
    requires Needs(three[2]) <= needed + (DbKeys(rows) + Keys(three[0]) + Keys(three[1]))
    ensures Fits(rows + three, needed)
    ensures DbKeys(rows + three) == DbKeys(rows) + Keys(three[0]) + Keys(three[1]) + Keys(three[2])
  {
    hide Keys, RowsApart, Needs, Fits, ApartFrom, DbKeys;
    var a, b, c := three[0], three[1], three[2];
    var rows1, rows2 := rows + [a], rows + [a] + [b];
    ApartFromMore(rows, a, b);
    ApartFromMore(rows, a, c);
    ApartFromMore(rows1, b, c);
    FitsNext(rows, needed, a, DbKeys(rows));
    FitsNext(rows1, needed, b, DbKeys(rows) + Keys(a));
    FitsNext(rows2, needed, c, DbKeys(rows) + Keys(a) + Keys(b));
    assert rows + three == rows2 + [c];
  }

  lemma DatasetFits(ids: Ids, rel: Relation, rows: seq<Row>, needed: set<UniqueKey>)
    requires Fits(rows, needed) && HeadThere(ids, DbKeys(rows))
    requires forall q :: q in DatasetRows(ids, rel) ==> ApartFrom(rows, q)
    ensures Fits(rows + DatasetRows(ids, rel), needed) && DbKeys(rows) <= DbKeys(rows + DatasetRows(ids, rel))
    ensures DatasetThere(ids, rel, DbKeys(rows + DatasetRows(ids, rel)))
    ensures forall q :: q in DatasetRows(ids, rel) ==> Keys(q) <= DbKeys(rows + DatasetRows(ids, rel))
  {
    var three := DatasetRows(ids, rel);
    assert three[0] in three && three[1] in three && three[2] in three;
    hide Fits, ApartFrom, TableLocator;
    FitsThree(rows, needed, three);
  }

  lemma FieldFits(ids: Ids, rel: Relation, i: nat, rows: seq<Row>, needed: set<UniqueKey>)
    requires i < |rel.fields| && Fits(rows, needed) && HeadThere(ids, DbKeys(rows))
            && DatasetThere(ids, rel, DbKeys(rows))
    requires forall q :: q in FieldRows(ids, rel, i) ==> ApartFrom(rows, q)
    ensures Fits(rows + FieldRows(ids, rel, i), needed) && DbKeys(rows) <= DbKeys(rows + FieldRows(ids, rel, i))
    ensures forall q :: q in FieldRows(ids, rel, i) ==> Keys(q) <= DbKeys(rows + FieldRows(ids, rel, i))
  {
    var three := FieldRows(ids, rel, i);
    assert three[0] in three && three[1] in three && three[2] in three;
    hide Fits, ApartFrom, TableLocator;
    FitsThree(rows, needed, three);
  }

  lemma {:induction false} FieldsRowsFrom(ids: Ids, rel: Relation, n: nat, r: Row)
    requires n <= |rel.fields| && r in FieldsRows(ids, rel, n)
    ensures exists i :: 0 <= i < n && r in FieldRows(ids, rel, i)
  {
    hide FieldRows;
    if r in FieldRows(ids, rel, n - 1) {
    } else {
      FieldsRowsFrom(ids, rel, n - 1, r);
    }
  }

  // The rows of a field do not clash with what was there, nor with earlier fields.
  lemma FieldApartFrom(ids: Ids, rel: Relation, n: nat, rows: seq<Row>, q: Row)
    requires n < |rel.fields| && FieldsApart(rel.fields) && NamesOnce(rel.fields)
    requires q in FieldRows(ids, rel, n) && ApartFrom(rows, q)
    ensures ApartFrom(rows + FieldsRows(ids, rel, n), q)
  {
    hide FieldRows, RowsApart, FieldsApart, NamesOnce, FieldsRows;
    forall e | e in FieldsRows(ids, rel, n)
      ensures RowsApart(e, q)
    {
      FieldsRowsFrom(ids, rel, n, e);
      var i :| 0 <= i < n && e in FieldRows(ids, rel, i);
      FieldRowsApart(ids, rel, i, n, e, q);
    }
  }

  ghost predicate FieldsApartFrom(ids: Ids, rel: Relation, rows: seq<Row>) {
    forall i, q :: 0 <= i < |rel.fields| && q in FieldRows(ids, rel, i) ==> ApartFrom(rows, q)
  }

  lemma {:induction false} FieldsFit(ids: Ids, rel: Relation, n: nat, rows: seq<Row>, needed: set<UniqueKey>)
    requires n <= |rel.fields| && Fits(rows, needed) && HeadThere(ids, DbKeys(rows))
    requires DatasetThere(ids, rel, DbKeys(rows)) && FieldsApart(rel.fields) && NamesOnce(rel.fields)
    requires FieldsApartFrom(ids, rel, rows)
    ensures Fits(rows + FieldsRows(ids, rel, n), needed) && DbKeys(rows) <= DbKeys(rows + FieldsRows(ids, rel, n))
  {
    hide Fits, FieldRows, FieldsApart, NamesOnce, ApartFrom, DbKeys;
    if n == 0 {
      assert rows + [] == rows;
    } else {
      var before := rows + FieldsRows(ids, rel, n - 1);
      FieldsFit(ids, rel, n - 1, rows, needed);
      forall q | q in FieldRows(ids, rel, n - 1)
        ensures ApartFrom(before, q)
      {
        FieldApartFrom(ids, rel, n - 1, rows, q);
      }
      FieldFits(ids, rel, n - 1, before, needed);
      assert rows + FieldsRows(ids, rel, n) == before + FieldRows(ids, rel, n - 1);
    }
  }

  lemma RelationFits(ids: Ids, rel: Relation, rows: seq<Row>, needed: set<UniqueKey>)
    requires Fits(rows, needed) && HeadThere(ids, DbKeys(rows)) && FieldsApart(rel.fields) && NamesOnce(rel.fields)
    requires forall q :: OfRel(q, ids, rel) ==> ApartFrom(rows, q)
    ensures Fits(rows + DatasetRows(ids, rel) + FieldsRows(ids, rel, |rel.fields|), needed)
    ensures DbKeys(rows) <= DbKeys(rows + DatasetRows(ids, rel) + FieldsRows(ids, rel, |rel.fields|))
  {
    hide Fits, FieldRows, DatasetRows, RowsApart, FieldsApart, NamesOnce, FieldsRows;
    var dataset := DatasetRows(ids, rel);
    forall q | q in dataset ensures ApartFrom(rows, q) { assert OfRel(q, ids, rel); }
    DatasetFits(ids, rel, rows, needed);
    forall i, q | 0 <= i < |rel.fields| && q in FieldRows(ids, rel, i)
      ensures ApartFrom(rows + dataset, q)
    {
      assert OfRel(q, ids, rel);
      assert ApartFrom(rows, q);
      forall e | e in dataset ensures RowsApart(e, q) { DatasetFieldApart(ids, rel, i, e, q); }
    }
    assert FieldsApartFrom(ids, rel, rows + dataset);
    FieldsFit(ids, rel, |rel.fields|, rows + dataset, needed);
  }

  lemma {:induction false} RelationsRowsFrom(ids: Ids, rels: seq<Relation>, r: Row)
    requires r in RelationsRows(ids, rels)
    ensures exists k :: 0 <= k < |rels| && OfRel(r, ids, rels[k])
  {
    hide FieldRows, DatasetRows;
    var before, last := rels[..|rels| - 1], rels[|rels| - 1];
    if r in RelationsRows(ids, before) {
      RelationsRowsFrom(ids, before, r);
      var k :| 0 <= k < |before| && OfRel(r, ids, before[k]);
      assert OfRel(r, ids, rels[k]);
    } else if r in DatasetRows(ids, last) {
      assert OfRel(r, ids, rels[|rels| - 1]);
    } else {
      FieldsRowsFrom(ids, last, |last.fields|, r);
      assert OfRel(r, ids, rels[|rels| - 1]);
    }
  }

  ghost predicate AllApart(rels: seq<Relation>) {
    && (forall i :: 0 <= i < |rels| ==> FieldsApart(rels[i].fields) && NamesOnce(rels[i].fields))
    && (forall i, j :: 0 <= i < j < |rels| ==> RelsApart(rels[i], rels[j]))
  }

  // A row of the last relation is apart from the head and from all rows before.
  lemma RowIsApart(ids: Ids, before: seq<Relation>, last: Relation, head: seq<Row>, q: Row, e: Row)
    requires forall i :: 0 <= i < |before| ==> RelsApart(before[i], last)
    requires forall r :: r in head ==> OfHead(r)
    requires OfRel(q, ids, last) && e in head + RelationsRows(ids, before)
    ensures RowsApart(e, q)
  {
    hide RowsApart, RelsApart, OfRel, OfHead, RelationsRows;
    if e in head {
      HeadApart(ids, last, e, q);
    } else {
      RelationsRowsFrom(ids, before, e);
      var k :| 0 <= k < |before| && OfRel(e, ids, before[k]);
      RelationRowsApart(ids, before[k], last, e, q);
    }
  }

  lemma AllApartBefore(rels: seq<Relation>)
    requires rels != [] && AllApart(rels)
    ensures var before, last := rels[..|rels| - 1], rels[|rels| - 1];
            && AllApart(before) && FieldsApart(last.fields) && NamesOnce(last.fields)
            && forall i :: 0 <= i < |before| ==> RelsApart(before[i], last)
  {
    hide FieldsApart, NamesOnce, RelsApart;
  }

  lemma {:induction false} RelationsFit(ids: Ids, rels: seq<Relation>, head: seq<Row>, needed: set<UniqueKey>)
    requires AllApart(rels) && Fits(head, needed) && HeadThere(ids, DbKeys(head))
    requires forall r :: r in head ==> OfHead(r)
    ensures Fits(head + RelationsRows(ids, rels), needed)
    ensures DbKeys(head) <= DbKeys(head + RelationsRows(ids, rels))
  {
    hide Fits, FieldRows, DatasetRows, RowsApart, FieldsApart, NamesOnce, FieldsRows, RelsApart, OfRel, OfHead,
      AllApart;
    if rels == [] {
      assert head + [] == head;
    } else {
      var before, last := rels[..|rels| - 1], rels[|rels| - 1];
      AllApartBefore(rels);
      RelationsFit(ids, before, head, needed);
      var rows := head + RelationsRows(ids, before);
      LastIsApart(ids, before, last, head);
      RowsOfLast(ids, rels, head);
      hide RelationsRows, ApartFrom;
      RelationFits(ids, last, rows, needed);
    }
  }

  lemma LastIsApart(ids: Ids, before: seq<Relation>, last: Relation, head: seq<Row>)
    requires forall i :: 0 <= i < |before| ==> RelsApart(before[i], last)
    requires forall r :: r in head ==> OfHead(r)
    ensures forall q :: OfRel(q, ids, last) ==> ApartFrom(head + RelationsRows(ids, before), q)
  {
    hide RowsApart, RelsApart, OfRel, OfHead, RelationsRows;
    forall q, e | OfRel(q, ids, last) && e in head + RelationsRows(ids, before)
      ensures RowsApart(e, q)
    {
      RowIsApart(ids, before, last, head, q, e);
    }
  }

  lemma RowsOfLast(ids: Ids, rels: seq<Relation>, head: seq<Row>)
    requires rels != []
    ensures var before, last := rels[..|rels| - 1], rels[|rels| - 1];
            head + RelationsRows(ids, rels)
            == head + RelationsRows(ids, before) + DatasetRows(ids, last) + FieldsRows(ids, last, |last.fields|)
  {
    hide DatasetRows, FieldsRows;
  }

  lemma HeadApart(ids: Ids, rel: Relation, e: Row, q: Row)
    requires OfHead(e) && OfRel(q, ids, rel)
    ensures RowsApart(e, q)
  {
    RelationOwns(ids, rel, q);
    hide OfRel;
  }

  lemma HeadFits(ids: Ids, rels: seq<Relation>)
    requires rels != []
    ensures Fits(HeadRows(ids, rels), {WorkspaceKey(ids.workspace)})
    ensures HeadThere(ids, DbKeys(HeadRows(ids, rels)))
    ensures forall r :: r in HeadRows(ids, rels) ==> OfHead(r)
  {
    var needed, h := {WorkspaceKey(ids.workspace)}, HeadRows(ids, rels);
    NothingFits(needed);
    hide Fits;
    assert h == [] + [h[0]] + [h[1]] + [h[2]] + [h[3]] + [h[4]];
    FitsMore([], needed, h[0]);
    FitsMore([] + [h[0]], needed, h[1]);
    FitsMore([] + [h[0]] + [h[1]], needed, h[2]);
    FitsMore([] + [h[0]] + [h[1]] + [h[2]], needed, h[3]);
    FitsMore([] + [h[0]] + [h[1]] + [h[2]] + [h[3]], needed, h[4]);
  }

  // The statements can be executed in order in any database that has the workspace
  // and none of their keys: parents come before their children, no key repeats.
  lemma RowsFit(ids: Ids, rels: seq<Relation>)
    requires rels != [] && AllApart(rels)
    ensures Fits(Rows(ids, rels), {WorkspaceKey(ids.workspace)})
  {
    var needed := {WorkspaceKey(ids.workspace)};
    hide Fits, RelationsRows, HeadRows, AllApart, OfHead;
    HeadFits(ids, rels);
    RelationsFit(ids, rels, HeadRows(ids, rels), needed);
    var before := HeadRows(ids, rels) + RelationsRows(ids, rels);
    var last := EffectiveRow(ids.workspace, ids.source, OfText(SCHEMA), ids.snapshot);
    forall e | e in before
      ensures RowsApart(e, last)
    {
      if e in HeadRows(ids, rels) { EffectiveApart(e, ids, rels[0], last); }
      else {
        RelationsRowsFrom(ids, rels, e);
        var k :| 0 <= k < |rels| && OfRel(e, ids, rels[k]);
        EffectiveApart(e, ids, rels[k], last);
      }
    }
    FitsMore(before, needed, last);
  }

  lemma EffectiveApart(e: Row, ids: Ids, rel: Relation, last: Row)
    requires (OfHead(e) || OfRel(e, ids, rel)) && last.EffectiveRow?
    ensures RowsApart(e, last)
  {
    if OfRel(e, ids, rel) { RelationOwns(ids, rel, e); }
    hide OfRel;
  }
}
