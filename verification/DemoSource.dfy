// The synthetic source fixture: what the validator accepts, and the rows it
// inserts. Ids may be spelled as TypeIDs or as UUIDs.
module DemoSource {
  import opened Wrappers

  type Uuid = nat

  datatype Prefix =
    | SourceConnection | SourceRevision | SourceSnapshot
    | PhysicalDataset | PhysicalDatasetRevision | PhysicalField | PhysicalFieldRevision
    | OtherPrefix

  // The text of an id: a TypeID, a version 7 UUID, or anything else.
  datatype Spelling = TypeId(prefix: Prefix, uuid: Uuid) | Bare(uuid: Uuid) | Garbage(text: string)

  const BLANK := Garbage("")

  predicate IsId(prefix: Prefix, s: Spelling) {
    match s
    case TypeId(p, _) => p == prefix
    case Bare(_) => true
    case Garbage(_) => false
  }

  function UuidOf(s: Spelling): Uuid {
    match s
    case TypeId(_, u) => u
    case Bare(u) => u
    case Garbage(_) => 0
  }

  // ---- The fixture ----

  datatype Ref = Ref(kind: string, snapshotId: Spelling, objectId: Spelling, revisionId: Spelling)
  datatype Member = Member(fieldRef: Option<Ref>, nullPolicy: string)
  datatype Spec = Spec(datasetRef: Option<Ref>, members: seq<Member>)

  // content is None if it is not a knowledge spec.
  datatype Asset = Asset(dataAsset: bool, content: Option<Spec>)

  datatype Field = Field(fieldId: Spelling, revisionId: Spelling, name: string, dataType: string)
  datatype Relation = Relation(
    sourceId: Spelling, sourceRevisionId: Spelling, locator: string, adapterKind: string, schema: string,
      relation: string,
    datasetId: Spelling, datasetRevisionId: Spelling, fields: seq<Field>)

  // A zero workspace is None; execution is None if the snapshot has none.
  datatype Snapshot = Snapshot(workspace: Option<Uuid>, execution: Option<seq<Relation>>, assets: seq<Asset>)

  const LOCATOR := "127.0.0.1:5433/semlia_demo_202609"
  const MACO_LOCATOR := "postgresql:5432/semlia_test"
  const SCHEMA := "semlia_demo_202609"
  const ADAPTER := "postgresql_catalog"

  datatype Column = Column(name: string, dataType: string)

  function Expected(relation: string): seq<Column> {
    if relation == "orders" then
      [Column("id", "text"), Column("amount", "numeric"), Column("paid_at", "timestamptz"),
       Column("customer_id", "text"), Column("is_valid", "integer")]
    else if relation == "customers" then
      [Column("id", "text"), Column("region", "text"), Column("first_paid_at", "timestamptz")]
    else []
  }

  // ---- What is accepted ----

  // The specs of the data assets, in order; None in place of unreadable content.
  function DataSpecs(assets: seq<Asset>): seq<Option<Spec>> {
    if assets == [] then []
    else
      var last := assets[|assets| - 1];
      DataSpecs(assets[..|assets| - 1]) + (if last.dataAsset then [last.content] else [])
  }

  ghost predicate DatasetRefOk(spec: Option<Spec>) {
    && spec.Some? && spec.value.datasetRef.Some?
    && var ref := spec.value.datasetRef.value;
       ref.kind == "dataset" && IsId(PhysicalDataset, ref.objectId) && IsId(PhysicalDatasetRevision, ref.revisionId)
  }

  function RefOf(spec: Option<Spec>): Ref {
    if spec.Some? && spec.value.datasetRef.Some? then spec.value.datasetRef.value else Ref("", BLANK, BLANK, BLANK)
  }

  // The snapshot id is the same in all, once one is not blank.
  ghost predicate SpecsOk(specs: seq<Option<Spec>>) {
    && (forall i :: 0 <= i < |specs| ==> DatasetRefOk(specs[i]))
    && (forall i, j :: 0 <= i < j < |specs| ==> UuidOf(RefOf(specs[i]).objectId) != UuidOf(RefOf(specs[j]).objectId))
    && (forall i, j :: 0 <= i < |specs| && j == i + 1 && j < |specs| ==>
          RefOf(specs[i]).snapshotId == BLANK || RefOf(specs[i]).snapshotId == RefOf(specs[j]).snapshotId)
  }

  function SnapshotIdOf(specs: seq<Option<Spec>>): Spelling {
    if specs == [] then BLANK else RefOf(specs[|specs| - 1]).snapshotId
  }

  ghost predicate MemberOk(m: Member, snapshotId: Spelling) {
    && m.fieldRef.Some?
    && m.fieldRef.value.kind == "field"
    && m.fieldRef.value.snapshotId == snapshotId
    && m.nullPolicy == "required"
    && IsId(PhysicalField, m.fieldRef.value.objectId)
    && IsId(PhysicalFieldRevision, m.fieldRef.value.revisionId)
  }

  function MemberUuid(m: Member): Uuid {
    if m.fieldRef.Some? then UuidOf(m.fieldRef.value.objectId) else 0
  }

  ghost predicate MembersOk(members: seq<Member>, snapshotId: Spelling) {
    && (forall i :: 0 <= i < |members| ==> MemberOk(members[i], snapshotId))
    && (forall i, j :: 0 <= i < j < |members| ==> MemberUuid(members[i]) != MemberUuid(members[j]))
  }

  // The member and the field are the same object at the same revision.
  ghost predicate SameField(m: Member, f: Field) {
    && m.fieldRef.Some?
    && UuidOf(m.fieldRef.value.objectId) == UuidOf(f.fieldId)
    && UuidOf(m.fieldRef.value.revisionId) == UuidOf(f.revisionId)
  }

  ghost predicate HasMember(members: seq<Member>, f: Field) {
    exists j :: 0 <= j < |members| && SameField(members[j], f)
  }

  ghost predicate FieldOk(f: Field, column: Column, members: seq<Member>) {
    && IsId(PhysicalField, f.fieldId) && IsId(PhysicalFieldRevision, f.revisionId)
    && f.name == column.name && f.dataType == column.dataType
    && HasMember(members, f)
  }

  ghost predicate FieldsOk(rel: Relation, members: seq<Member>) {
    && |rel.fields| == |Expected(rel.relation)|
    && forall i :: 0 <= i < |rel.fields| ==> FieldOk(rel.fields[i], Expected(rel.relation)[i], members)
  }

  // The spec and the relation are the same dataset at the same revision.
  ghost predicate SameDataset(spec: Option<Spec>, rel: Relation) {
    && UuidOf(RefOf(spec).objectId) == UuidOf(rel.datasetId)
    && UuidOf(RefOf(spec).revisionId) == UuidOf(rel.datasetRevisionId)
  }

  ghost predicate Matches(spec: Option<Spec>, rel: Relation, snapshotId: Spelling) {
    && SameDataset(spec, rel)
    && spec.Some?
    && |spec.value.members| == |rel.fields| && |rel.fields| > 0
    && MembersOk(spec.value.members, snapshotId)
    && FieldsOk(rel, spec.value.members)
  }

  predicate RelationShape(rel: Relation, first: Relation) {
    && rel.sourceId == first.sourceId && rel.sourceRevisionId == first.sourceRevisionId && rel.locator == first.locator
    && (rel.locator == LOCATOR || rel.locator == MACO_LOCATOR)
    && rel.adapterKind == ADAPTER && rel.schema == SCHEMA
    && (rel.relation == "orders" || rel.relation == "customers")
  }

  ghost predicate RelationOk(rel: Relation, first: Relation, specs: seq<Option<Spec>>, snapshotId: Spelling) {
    && RelationShape(rel, first)
    && IsId(PhysicalDataset, rel.datasetId) && IsId(PhysicalDatasetRevision, rel.datasetRevisionId)
    && exists k :: 0 <= k < |specs| && Matches(specs[k], rel, snapshotId)
  }

  // Every object and revision id of a relation.
  function FieldObjects(fields: seq<Field>): seq<Uuid> {
    if fields == [] then []
    else
      var last := fields[|fields| - 1];
      FieldObjects(fields[..|fields| - 1]) + [UuidOf(last.fieldId), UuidOf(last.revisionId)]
  }

  function ObjectsOf(rel: Relation): seq<Uuid> {
    [UuidOf(rel.datasetId), UuidOf(rel.datasetRevisionId)] + FieldObjects(rel.fields)
  }

  function Objects(rels: seq<Relation>): seq<Uuid> {
    if rels == [] then [] else Objects(rels[..|rels| - 1]) + ObjectsOf(rels[|rels| - 1])
  }

  ghost predicate Once<T>(s: seq<T>) {
    forall i, j :: 0 <= i < j < |s| ==> s[i] != s[j]
  }

  ghost predicate TablesOnce(rels: seq<Relation>) {
    forall i, j :: 0 <= i < j < |rels| ==> rels[i].relation != rels[j].relation
  }

  ghost predicate RelationsOk(rels: seq<Relation>, first: Relation, specs: seq<Option<Spec>>, snapshotId: Spelling) {
    && (forall i :: 0 <= i < |rels| ==> RelationOk(rels[i], first, specs, snapshotId))
    && TablesOnce(rels)
    && Once(Objects(rels))
  }

  predicate HeadOk(workspace: Option<Uuid>, actor: Option<Uuid>, snapshot: Option<Snapshot>) {
    && workspace.Some? && actor.Some? && snapshot.Some? && snapshot.value.workspace == workspace
    && snapshot.value.execution.Some? && |snapshot.value.execution.value| == 2
  }

  ghost predicate Valid(workspace: Option<Uuid>, actor: Option<Uuid>, snapshot: Option<Snapshot>) {
    && HeadOk(workspace, actor, snapshot)
    && var rels, specs := snapshot.value.execution.value, DataSpecs(snapshot.value.assets);
       && IsId(SourceConnection, rels[0].sourceId) && IsId(SourceRevision, rels[0].sourceRevisionId)
       && |specs| == 2 && SpecsOk(specs) && IsId(SourceSnapshot, SnapshotIdOf(specs))
       && RelationsOk(rels, rels[0], specs, SnapshotIdOf(specs))
  }

  // ---- The rows ----

  // Digests name what they digest: no two texts share one.
  datatype Digest =
    | OfRelations(rels: seq<Relation>) | OfRelation(rel: Relation) | OfField(f: Field) | OfText(text: string)

  datatype Row =
    | WorkspaceRow(id: Uuid, slug: string)
    | ConnectionRow(id: Uuid, workspace: Uuid, adapterKind: string, locator: string, sourceKind: string, active: bool,
                    synthetic: bool)
    | RevisionRow(id: Uuid, workspace: Uuid, source: Uuid, digest: Digest, adapter: string)
    | SnapshotRow(id: Uuid, workspace: Uuid, source: Uuid, revision: Uuid, adapter: string, scope: Digest,
      digest: Digest,
                  verified: bool, complete: bool)
    | ScopeRow(workspace: Uuid, snapshot: Uuid, coverage: string, selector: string, complete: bool)
    | DiagnosticRow(workspace: Uuid, snapshot: Uuid, ordinal: nat, coverage: string)
    | DatasetRow(id: Uuid, workspace: Uuid, source: Uuid, name: string, current: Uuid)
    | DatasetRevisionRow(id: Uuid, workspace: Uuid, dataset: Uuid, sourceRevision: Uuid, locator: string,
      digest: Digest)
    | FieldRow(id: Uuid, workspace: Uuid, dataset: Uuid, name: string, current: Uuid)
    | FieldRevisionRow(id: Uuid, workspace: Uuid, field: Uuid, datasetRevision: Uuid, ordinal: nat, dataType: string)
    | MemberRow(workspace: Uuid, snapshot: Uuid, isField: bool, object_: Uuid, revision: Uuid, name: string,
                locator: string, digest: Digest, coverage: string, parent: Option<(Uuid, Uuid)>)
    | EffectiveRow(workspace: Uuid, source: Uuid, scope: Digest, snapshot: Uuid)

  const SYNTHETIC := "synthetic-demo/1"

  // The ids that all rows share.
  datatype Ids = Ids(workspace: Uuid, source: Uuid, revision: Uuid, snapshot: Uuid)

  function HeadRows(ids: Ids, rels: seq<Relation>): seq<Row>
    requires rels != []
  {
    [ConnectionRow(ids.source, ids.workspace, ADAPTER, rels[0].locator, "postgresql", true, true),
     RevisionRow(ids.revision, ids.workspace, ids.source, OfRelations(rels), SYNTHETIC),
     SnapshotRow(ids.snapshot, ids.workspace, ids.source, ids.revision, SYNTHETIC, OfText(SCHEMA), OfRelations(rels),
       true, true),
     ScopeRow(ids.workspace, ids.snapshot, SCHEMA, SCHEMA, true),
     DiagnosticRow(ids.workspace, ids.snapshot, 1, SCHEMA)]
  }

  function TableLocator(rel: Relation): string {
    rel.schema + "." + rel.relation
  }

  function DatasetRows(ids: Ids, rel: Relation): seq<Row> {
    var d, r := UuidOf(rel.datasetId), UuidOf(rel.datasetRevisionId);
    [DatasetRow(d, ids.workspace, ids.source, TableLocator(rel), r),
     DatasetRevisionRow(r, ids.workspace, d, ids.revision, TableLocator(rel), OfRelation(rel)),
     MemberRow(ids.workspace, ids.snapshot, false, d, r, rel.relation, TableLocator(rel), OfRelation(rel), SCHEMA,
       None)]
  }

  function FieldRows(ids: Ids, rel: Relation, i: nat): seq<Row>
    requires i < |rel.fields|
  {
    var d, r := UuidOf(rel.datasetId), UuidOf(rel.datasetRevisionId);
    var f := rel.fields[i];
    var u, v := UuidOf(f.fieldId), UuidOf(f.revisionId);
    [FieldRow(u, ids.workspace, d, f.name, v),
     FieldRevisionRow(v, ids.workspace, u, r, i + 1, f.dataType),
     MemberRow(ids.workspace, ids.snapshot, true, u, v, f.name, TableLocator(rel) + "." + f.name, OfField(f), SCHEMA,
               Some((d, r)))]
  }

  function FieldsRows(ids: Ids, rel: Relation, n: nat): seq<Row>
    requires n <= |rel.fields|
  {
    if n == 0 then [] else FieldsRows(ids, rel, n - 1) + FieldRows(ids, rel, n - 1)
  }

  function RelationsRows(ids: Ids, rels: seq<Relation>): seq<Row> {
    if rels == [] then []
    else
      var last := rels[|rels| - 1];
      RelationsRows(ids, rels[..|rels| - 1]) + DatasetRows(ids, last) + FieldsRows(ids, last, |last.fields|)
  }

  function Rows(ids: Ids, rels: seq<Relation>): seq<Row>
    requires rels != []
  {
    HeadRows(ids, rels) + RelationsRows(ids, rels)
    + [EffectiveRow(ids.workspace, ids.source, OfText(SCHEMA), ids.snapshot)]
  }

  function IdsOf(workspace: Uuid, snapshot: Snapshot): Ids
    requires snapshot.execution.Some? && |snapshot.execution.value| == 2
  {
    var first := snapshot.execution.value[0];
    Ids(workspace, UuidOf(first.sourceId), UuidOf(first.sourceRevisionId),
      UuidOf(SnapshotIdOf(DataSpecs(snapshot.assets))))
  }

  function StatementsOf(workspace: Uuid, snapshot: Snapshot): seq<Row>
    requires snapshot.execution.Some? && |snapshot.execution.value| == 2
  {
    Rows(IdsOf(workspace, snapshot), snapshot.execution.value)
  }
}
