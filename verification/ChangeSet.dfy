// Preparing a catalog change set for a proposal: list fields entered as text
// become arrays, field paths become catalog names, and values get digests.
module ChangeSet {
  import opened Wrappers
  import opened Ordering
  import opened JsonText
  import opened CanonicalJson
  import opened CanonicalJsonProofs

  // A field path; Inherited is what the plain-object lookup of the path table
  // gives for a name such as "constructor": a member of Object.prototype.
  datatype Path = Own(name: string) | Inherited(name: string)

  const PATH_NAMES: map<string, string> := map[
    "definition.boundary" := "definition",
    "definition.includes" := "includes",
    "definition.excludes" := "excludes",
    "spec.expression" := "expression",
    "wiki.disambiguation" := "disambiguationRules",
    "ontology.relations" := "relations"]

  const LIST_PATHS: set<string> :=
    {"definition.includes", "definition.excludes", "wiki.disambiguation", "ontology.relations"}

  const PROTOTYPE_NAMES: set<string> :=
    {"constructor", "__proto__", "__defineGetter__", "__defineSetter__", "__lookupGetter__", "__lookupSetter__",
     "hasOwnProperty", "isPrototypeOf", "propertyIsEnumerable", "toLocaleString", "toString", "valueOf"}

  function CatalogPath(path: Path): Path {
    match path
    case Inherited(_) => path
    case Own(name) =>
      if name in PATH_NAMES then Own(PATH_NAMES[name])
      else if name in PROTOTYPE_NAMES then Inherited(name)
      else path
  }

  const LF: CodeUnit := 0x0A
  const CR: CodeUnit := 0x0D

  // The white space and line terminators that trim() removes.
  predicate Space(c: CodeUnit) {
    0x09 <= c <= 0x0D || c == 0x20 || c == 0xA0 || c == 0x1680 || 0x2000 <= c <= 0x200A
    || c == 0x2028 || c == 0x2029 || c == 0x202F || c == 0x205F || c == 0x3000 || c == 0xFEFF
  }

  // split(/\r?\n/)
  function SplitLines(t: Text): (r: seq<Text>)
    ensures r != []
  {
    if t == [] then [[]]
    else if t[0] == LF then [[]] + SplitLines(t[1..])
    else if t[0] == CR && |t| >= 2 && t[1] == LF then [[]] + SplitLines(t[2..])
    else
      var rest := SplitLines(t[1..]);
      [[t[0]] + rest[0]] + rest[1..]
  }

  function TrimStart(t: Text): Text {
    if t != [] && Space(t[0]) then TrimStart(t[1..]) else t
  }

  function TrimEnd(t: Text): Text {
    if t != [] && Space(t[|t| - 1]) then TrimEnd(t[..|t| - 1]) else t
  }

  function Trim(t: Text): Text {
    TrimEnd(TrimStart(t))
  }

  function TrimmedNonEmpty(lines: seq<Text>): seq<Text> {
    if lines == [] then []
    else
      var line := Trim(lines[0]);
      (if line == [] then [] else [line]) + TrimmedNonEmpty(lines[1..])
  }

  function Lines(t: Text): seq<Text> {
    TrimmedNonEmpty(SplitLines(t))
  }

  function Strings(texts: seq<Text>): (r: Value)
    ensures r.Arr? && |r.items| == |texts| && forall i :: 0 <= i < |texts| ==> r.items[i] == Str(texts[i])
  {
    Arr(seq(|texts|, i requires 0 <= i < |texts| => Str(texts[i])))
  }

  function CatalogValue(path: Path, value: Value): Value {
    if value.Str? && path.Own? && path.name in LIST_PATHS then Strings(Lines(value.s)) else value
  }

  type Digest = seq<int>

  // op stands for the item's fields that preparation copies.
  datatype Item = Item(
    path: Path,
    op: string,
    before: Option<Value>,
    after: Option<Value>,
    beforeDigest: Option<Digest>,
    afterDigest: Option<Digest>)

  function DigestOf(hash: seq<int> -> Digest, crypto: bool, value: Option<Value>): Result<Option<Digest>, Failure> {
    match value
    case None => Ok(None)
    case Some(v) =>
      if !crypto then Err(CryptoUnavailable)
      else
        match Canonical(v)
        case Err(e) => Err(e)
        case Ok(text) => Ok(Some(hash(Encode(text))))
  }

  function Normalised(path: Path, value: Option<Value>): Option<Value> {
    match value
    case None => None
    case Some(v) => Some(CatalogValue(path, v))
  }

  function PrepareItem(hash: seq<int> -> Digest, crypto: bool, item: Item): Result<Item, Failure> {
    var before := Normalised(item.path, item.before);
    var after := Normalised(item.path, item.after);
    match DigestOf(hash, crypto, before)
    case Err(e) => Err(e)
    case Ok(b) =>
      match DigestOf(hash, crypto, after)
      case Err(e) => Err(e)
      case Ok(a) => Ok(Item(CatalogPath(item.path), item.op, before, after, b, a))
  }

  function Prepare(hash: seq<int> -> Digest, crypto: bool, items: seq<Item>): (r: Result<seq<Item>, Failure>)
    ensures r.Ok? ==> |r.value| == |items|
    ensures r.Ok? ==> forall i :: 0 <= i < |items| ==> PrepareItem(hash, crypto, items[i]) == Ok(r.value[i])
    ensures r.Err? ==> exists i :: 0 <= i < |items| && PrepareItem(hash, crypto, items[i]) == Err(r.error)
  {
    if items == [] then Ok([])
    else
      match PrepareItem(hash, crypto, items[0])
      case Err(e) => Err(e)
      case Ok(first) =>
        match Prepare(hash, crypto, items[1..])
        case Err(e) =>
          assert exists i :: 0 <= i < |items[1..]| && PrepareItem(hash, crypto, items[1..][i]) == Err(e);
          Err(e)
        case Ok(rest) => Ok([first] + rest)
  }

  // ---- Idempotence ----

  lemma CatalogNamesAreFinal(path: Path)
    ensures CatalogPath(CatalogPath(path)) == CatalogPath(path)
    ensures CatalogPath(path).Own? ==> CatalogPath(path).name !in LIST_PATHS
  {
  }

  // Preparing a prepared change set changes nothing.
  lemma {:induction false} PrepareIdempotent(hash: seq<int> -> Digest, crypto: bool, items: seq<Item>)
    requires Prepare(hash, crypto, items).Ok?
    ensures Prepare(hash, crypto, Prepare(hash, crypto, items).value) == Prepare(hash, crypto, items)
  {
    if items != [] {
      var prepared := Prepare(hash, crypto, items).value;
      CatalogNamesAreFinal(items[0].path);
      assert PrepareItem(hash, crypto, prepared[0]) == Ok(prepared[0]);
      PrepareIdempotent(hash, crypto, items[1..]);
      assert prepared[1..] == Prepare(hash, crypto, items[1..]).value;
    }
  }

  // ---- What the digests say ----

  ghost predicate CollisionFree(hash: seq<int> -> Digest) {
    forall a, b :: hash(a) == hash(b) ==> a == b
  }

  ghost predicate JsonOrAbsent(value: Option<Value>) {
    value.Some? ==> KeysOnce(value.value) && IsJson(value.value)
  }

  ghost predicate Objects(item: Item) {
    && (item.before.Some? ==> KeysOnce(item.before.value))
    && (item.after.Some? ==> KeysOnce(item.after.value))
  }

  // An item is accepted exactly when its values are JSON and, if it has any,
  // the browser can hash.
  lemma PrepareItemAccepts(hash: seq<int> -> Digest, crypto: bool, item: Item)
    requires Objects(item)
    ensures PrepareItem(hash, crypto, item).Ok?
       <==> JsonOrAbsent(item.before) && JsonOrAbsent(item.after)
            && (crypto || (item.before.None? && item.after.None?))
  {
    DigestAccepts(hash, crypto, item.path, item.before);
    DigestAccepts(hash, crypto, item.path, item.after);
  }

  lemma DigestAccepts(hash: seq<int> -> Digest, crypto: bool, path: Path, value: Option<Value>)
    requires value.Some? ==> KeysOnce(value.value)
    ensures DigestOf(hash, crypto, Normalised(path, value)).Ok?
       <==> JsonOrAbsent(value) && (crypto || value.None?)
    ensures value.Some? ==> KeysOnce(CatalogValue(path, value.value))
  {
    if value.Some? {
      CanonicalAccepts(CatalogValue(path, value.value));
    }
  }

  // Each digest of a prepared item is that of the value it sends, and with both
  // values the digests agree exactly when the values are the same tree.
  lemma DigestsCompareValues(hash: seq<int> -> Digest, crypto: bool, item: Item)
    requires CollisionFree(hash) && Objects(item)
    requires PrepareItem(hash, crypto, item).Ok?
    ensures var out := PrepareItem(hash, crypto, item).value;
            && Ok(out.beforeDigest) == DigestOf(hash, crypto, out.before)
            && Ok(out.afterDigest) == DigestOf(hash, crypto, out.after)
            && (out.beforeDigest.Some? <==> out.before.Some?)
            && (out.afterDigest.Some? <==> out.after.Some?)
            && (out.before.Some? && out.after.Some? ==>
                  (out.beforeDigest == out.afterDigest <==> Denote(out.before.value) == Denote(out.after.value)))
  {
    var out := PrepareItem(hash, crypto, item).value;
    DigestAccepts(hash, crypto, item.path, item.before);
    DigestAccepts(hash, crypto, item.path, item.after);
    if out.before.Some? && out.after.Some? {
      CanonicalAccepts(out.before.value);
      CanonicalAccepts(out.after.value);
      BytesIdentify(out.before.value, out.after.value);
    }
  }

  // The same holds across items, proposals and callers.
  lemma DigestsCompareAcross(hash: seq<int> -> Digest, v: Value, w: Value)
    requires CollisionFree(hash) && KeysOnce(v) && KeysOnce(w) && IsJson(v) && IsJson(w)
    ensures DigestOf(hash, true, Some(v)) == DigestOf(hash, true, Some(w)) <==> Denote(v) == Denote(w)
  {
    BytesIdentify(v, w);
  }
}
