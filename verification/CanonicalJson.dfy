// The canonical JSON text of a governance value: what it identifies and how it
// is read back. Objects are member lists in insertion order; Denote forgets it.
module CanonicalJson {
  import opened Wrappers
  import opened Ordering
  import opened JsonText

  predicate NumberUnit(c: CodeUnit) {
    0x30 <= c <= 0x39 || c == 0x2B || c == 0x2D || c == 0x2E || c == 0x65 || c == 0x45
  }

  predicate NumberStart(c: CodeUnit) {
    0x30 <= c <= 0x39 || c == 0x2D
  }

  predicate IsNumberToken(t: Text) {
    t != [] && NumberStart(t[0]) && forall i :: 0 <= i < |t| ==> NumberUnit(t[i])
  }

  // A finite number, named by the text JSON.stringify prints for it; 0 and -0
  // print the same text and are the same number here.
  type NumberToken = t: Text | IsNumberToken(t) witness [0x30]

  // A JavaScript value: NonFinite is NaN or an infinity, and Other is undefined,
  // a function, a symbol or a bigint.
  datatype Value =
    | Null
    | Bool(b: bool)
    | Number(token: NumberToken)
    | NonFinite
    | Str(s: Text)
    | Arr(items: seq<Value>)
    | Record(members: seq<Member>)
    | Other

  datatype Member = Member(key: Text, value: Value)

  // A JSON tree; an object is a finite map.
  datatype Json =
    | JNull
    | JBool(b: bool)
    | JNumber(token: NumberToken)
    | JStr(s: Text)
    | JArr(items: seq<Json>)
    | JObj(members: map<Text, Json>)

  // A JSON tree as it is written: an object is the sequence of its entries.
  datatype Written =
    | WNull
    | WBool(b: bool)
    | WNumber(token: NumberToken)
    | WStr(s: Text)
    | WArr(items: seq<Written>)
    | WObj(entries: seq<Entry>)

  datatype Entry = Entry(key: Text, value: Written)

  datatype Failure = InvalidArgument | CryptoUnavailable

  const NULL_TEXT: Text := [0x6E, 0x75, 0x6C, 0x6C]
  const TRUE_TEXT: Text := [0x74, 0x72, 0x75, 0x65]
  const FALSE_TEXT: Text := [0x66, 0x61, 0x6C, 0x73, 0x65]

  function Keys(members: seq<Member>): (r: seq<Text>)
    ensures |r| == |members| && forall i :: 0 <= i < |r| ==> r[i] == members[i].key
  {
    seq(|members|, i requires 0 <= i < |members| => members[i].key)
  }

  function IndexOf(members: seq<Member>, key: Text): (i: nat)
    requires key in Keys(members)
    ensures i < |members| && members[i].key == key
  {
    if members[0].key == key then 0
    else
      assert forall j :: 1 <= j < |members| ==> Keys(members)[j] == Keys(members[1..])[j - 1];
      1 + IndexOf(members[1..], key)
  }

  // JavaScript objects hold each key once, at every level.
  ghost predicate KeysOnce(v: Value) {
    match v
    case Arr(items) => forall i :: 0 <= i < |items| ==> KeysOnce(items[i])
    case Record(members) =>
      && Distinct(Keys(members))
      && forall i :: 0 <= i < |members| ==> KeysOnce(members[i].value)
    case _ => true
  }

  // No NaN, infinity, undefined, function, symbol or bigint anywhere.
  ghost predicate IsJson(v: Value) {
    match v
    case Arr(items) => forall i :: 0 <= i < |items| ==> IsJson(items[i])
    case Record(members) => forall i :: 0 <= i < |members| ==> IsJson(members[i].value)
    case NonFinite => false
    case Other => false
    case _ => true
  }

  ghost function Denote(v: Value): Json
    decreases v, 0
  {
    match v
    case Null => JNull
    case Bool(b) => JBool(b)
    case Number(t) => JNumber(t)
    case Str(s) => JStr(s)
    case Arr(items) => JArr(DenoteItems(items))
    case Record(members) =>
      JObj(map k | k in Keys(members) :: Denote(members[IndexOf(members, k)].value))
    case NonFinite => JNull
    case Other => JNull
  }

  ghost function DenoteItems(items: seq<Value>): (r: seq<Json>)
    ensures |r| == |items|
    ensures forall i :: 0 <= i < |items| ==> r[i] == Denote(items[i])
    decreases items, 0
  {
    if items == [] then [] else [Denote(items[0])] + DenoteItems(items[1..])
  }

  // ---- Printing ----

  // The order of sort() on keys: by code unit.
  predicate KeyLeq(a: Text, b: Text) {
    LexLeq(a, b)
  }

  function SortedKeys(members: seq<Member>): seq<Text> {
    Sort(KeyLeq, Keys(members))
  }

  lemma SortedKeysAreKeys(members: seq<Member>)
    ensures forall k :: k in SortedKeys(members) <==> k in Keys(members)
  {
    SortPermutes(KeyLeq, Keys(members));
    forall k: Text
      ensures k in SortedKeys(members) <==> k in Keys(members)
    {
      assert k in SortedKeys(members) <==> k in multiset(SortedKeys(members));
      assert k in Keys(members) <==> k in multiset(Keys(members));
    }
  }

  function Join(texts: seq<Text>): Text {
    if texts == [] then []
    else if |texts| == 1 then texts[0]
    else texts[0] + [COMMA] + Join(texts[1..])
  }

  function Canonical(v: Value): Result<Text, Failure>
    decreases v, 0
  {
    match v
    case Null => Ok(NULL_TEXT)
    case Bool(b) => Ok(if b then TRUE_TEXT else FALSE_TEXT)
    case Number(t) => Ok(t)
    case Str(s) => Ok(Quote(s))
    case Arr(items) =>
      (match CanonicalItems(items)
       case Ok(texts) => Ok([OPEN_BRACKET] + Join(texts) + [CLOSE_BRACKET])
       case Err(e) => Err(e))
    case Record(members) =>
      SortedKeysAreKeys(members);
      (match CanonicalMembers(members, SortedKeys(members))
       case Ok(texts) => Ok([OPEN_BRACE] + Join(texts) + [CLOSE_BRACE])
       case Err(e) => Err(e))
    case NonFinite => Err(InvalidArgument)
    case Other => Err(InvalidArgument)
  }

  function CanonicalItems(items: seq<Value>): (r: Result<seq<Text>, Failure>)
    ensures r.Ok? ==> |r.value| == |items|
    decreases items, 0
  {
    if items == [] then Ok([])
    else
      match Canonical(items[0])
      case Err(e) => Err(e)
      case Ok(text) =>
        match CanonicalItems(items[1..])
        case Err(e) => Err(e)
        case Ok(rest) => Ok([text] + rest)
  }

  // One "key":value text for each key, in the order of keys.
  function CanonicalMembers(members: seq<Member>, keys: seq<Text>): (r: Result<seq<Text>, Failure>)
    requires forall k :: k in keys ==> k in Keys(members)
    ensures r.Ok? ==> |r.value| == |keys|
    decreases members, 1, |keys|
  {
    if keys == [] then Ok([])
    else
      match Canonical(members[IndexOf(members, keys[0])].value)
      case Err(e) => Err(e)
      case Ok(text) =>
        match CanonicalMembers(members, keys[1..])
        case Err(e) => Err(e)
        case Ok(rest) => Ok([Quote(keys[0]) + [COLON] + text] + rest)
  }

  // ---- Reading ----

  function ParseLiteral(t: Text, p: Text, v: Written): Option<(Written, Text)> {
    if |p| <= |t| && t[..|p|] == p then Some((v, t[|p|..])) else None
  }

  function NumberLength(t: Text): (n: nat)
    ensures n <= |t|
    ensures forall i :: 0 <= i < n ==> NumberUnit(t[i])
    ensures n < |t| ==> !NumberUnit(t[n])
  {
    if t == [] || !NumberUnit(t[0]) then 0 else 1 + NumberLength(t[1..])
  }

  // The value at the front of t, and what follows it.
  function ParseValue(t: Text): (r: Option<(Written, Text)>)
    ensures r.Some? ==> |r.value.1| < |t|
    decreases |t|, 0
  {
    if t == [] then None
    else if t[0] == NULL_TEXT[0] then ParseLiteral(t, NULL_TEXT, WNull)
    else if t[0] == TRUE_TEXT[0] then ParseLiteral(t, TRUE_TEXT, WBool(true))
    else if t[0] == FALSE_TEXT[0] then ParseLiteral(t, FALSE_TEXT, WBool(false))
    else if NumberStart(t[0]) then
      var n := NumberLength(t);
      Some((WNumber(t[..n]), t[n..]))
    else if t[0] == QUOTE then
      (match Unescape(t[1..])
       case Some((s, rest)) => Some((WStr(s), rest))
       case None => None)
    else if t[0] == OPEN_BRACKET then
      if |t| >= 2 && t[1] == CLOSE_BRACKET then Some((WArr([]), t[2..]))
      else
        (match ParseItems(t[1..])
         case Some((items, rest)) => Some((WArr(items), rest))
         case None => None)
    else if t[0] == OPEN_BRACE then
      if |t| >= 2 && t[1] == CLOSE_BRACE then Some((WObj([]), t[2..]))
      else
        (match ParseMembers(t[1..])
         case Some((entries, rest)) => Some((WObj(entries), rest))
         case None => None)
    else None
  }

  function ParseItems(t: Text): (r: Option<(seq<Written>, Text)>)
    ensures r.Some? ==> |r.value.1| < |t|
    decreases |t|, 1
  {
    match ParseValue(t)
    case None => None
    case Some((v, rest)) =>
      if rest == [] then None
      else if rest[0] == CLOSE_BRACKET then Some(([v], rest[1..]))
      else if rest[0] != COMMA then None
      else
        match ParseItems(rest[1..])
        case None => None
        case Some((vs, end)) => Some(([v] + vs, end))
  }

  function ParseMembers(t: Text): (r: Option<(seq<Entry>, Text)>)
    ensures r.Some? ==> |r.value.1| < |t|
    decreases |t|, 1
  {
    if t == [] || t[0] != QUOTE then None
    else
      match Unescape(t[1..])
      case None => None
      case Some((k, afterKey)) =>
        if afterKey == [] || afterKey[0] != COLON then None
        else
          match ParseValue(afterKey[1..])
          case None => None
          case Some((v, rest)) =>
            if rest == [] then None
            else if rest[0] == CLOSE_BRACE then Some(([Entry(k, v)], rest[1..]))
            else if rest[0] != COMMA then None
            else
              match ParseMembers(rest[1..])
              case None => None
              case Some((entries, end)) => Some(([Entry(k, v)] + entries, end))
  }

  // A whole text as it is written, if it is the text of one value.
  function Read(t: Text): Option<Written> {
    match ParseValue(t)
    case Some((w, rest)) => if rest == [] then Some(w) else None
    case None => None
  }

  // What is written, with objects as maps; of a key that is written twice the last
  // value counts.
  ghost function Forget(w: Written): Json
    decreases w, 0
  {
    match w
    case WNull => JNull
    case WBool(b) => JBool(b)
    case WNumber(token) => JNumber(token)
    case WStr(s) => JStr(s)
    case WArr(items) => JArr(seq(|items|, i requires 0 <= i < |items| => Forget(items[i])))
    case WObj(entries) => JObj(ForgetEntries(entries))
  }

  ghost function ForgetEntries(entries: seq<Entry>): map<Text, Json>
    decreases entries, 0
  {
    if entries == [] then map[]
    else
      var n := |entries| - 1;
      ForgetEntries(entries[..n])[entries[n].key := Forget(entries[n].value)]
  }

  // The tree of a whole text.
  ghost function Decode(t: Text): Option<Json> {
    match Read(t)
    case Some(w) => Some(Forget(w))
    case None => None
  }

  // What may follow a value: nothing that could continue a number.
  predicate Stops(rest: Text) {
    rest == [] || !NumberUnit(rest[0])
  }
}
