// canonicalJSON is uniquely decodable and forgets exactly the order of keys.
module CanonicalJsonProofs {
  import opened Wrappers
  import opened Ordering
  import opened JsonText
  import opened CanonicalJson

  // The value an object holds under a key.
  function At(members: seq<Member>, key: Text): Value
    requires key in Keys(members)
  {
    members[IndexOf(members, key)].value
  }

  lemma IndexOfOwnKey(members: seq<Member>, i: nat)
    requires i < |members| && Distinct(Keys(members))
    ensures members[i].key in Keys(members) && IndexOf(members, members[i].key) == i
  {
    assert Keys(members)[i] == members[i].key;
    var j := IndexOf(members, members[i].key);
    assert Keys(members)[j] == members[j].key == Keys(members)[i];
  }

  // ---- Acceptance ----

  // The canonical text exists exactly for JSON values.
  lemma {:induction false} CanonicalAccepts(v: Value)
    requires KeysOnce(v)
    ensures Canonical(v).Ok? <==> IsJson(v)
    ensures Canonical(v).Err? ==> Canonical(v).error == InvalidArgument
    decreases v, 0
  {
    match v
    case Arr(items) => ItemsAccept(items);
    case Record(members) =>
      SortedKeysAreKeys(members);
      MembersAccept(members, SortedKeys(members));
      forall i | 0 <= i < |members|
        ensures members[i].key in Keys(members) && IndexOf(members, members[i].key) == i
      {
        IndexOfOwnKey(members, i);
      }
    case _ =>
  }

  lemma {:induction false} ItemsAccept(items: seq<Value>)
    requires forall i :: 0 <= i < |items| ==> KeysOnce(items[i])
    ensures CanonicalItems(items).Ok? <==> forall i :: 0 <= i < |items| ==> IsJson(items[i])
    ensures CanonicalItems(items).Err? ==> CanonicalItems(items).error == InvalidArgument
    decreases items, 0
  {
    if items != [] {
      CanonicalAccepts(items[0]);
      ItemsAccept(items[1..]);
      assert items == [items[0]] + items[1..];
    }
  }

  lemma {:induction false} MembersAccept(members: seq<Member>, keys: seq<Text>)
    requires forall k :: k in keys ==> k in Keys(members)
    requires forall i :: 0 <= i < |members| ==> KeysOnce(members[i].value)
    ensures CanonicalMembers(members, keys).Ok? <==> forall k :: k in keys ==> IsJson(At(members, k))
    ensures CanonicalMembers(members, keys).Err? ==> CanonicalMembers(members, keys).error == InvalidArgument
    decreases members, 1, |keys|
  {
    if keys != [] {
      CanonicalAccepts(members[IndexOf(members, keys[0])].value);
      MembersAccept(members, keys[1..]);
      assert keys == [keys[0]] + keys[1..];
    }
  }

  // ---- Reading back ----

  // The value with the members of its objects in the order of printing.
  ghost function Arrange(v: Value): Written
    decreases v, 0
  {
    match v
    case Null => WNull
    case Bool(b) => WBool(b)
    case Number(t) => WNumber(t)
    case Str(s) => WStr(s)
    case Arr(items) => WArr(ArrangeItems(items))
    case Record(members) =>
      SortedKeysAreKeys(members);
      WObj(ArrangeAt(members, SortedKeys(members)))
    case NonFinite => WNull
    case Other => WNull
  }

  ghost function ArrangeItems(items: seq<Value>): (r: seq<Written>)
    ensures |r| == |items| && forall i :: 0 <= i < |r| ==> r[i] == Arrange(items[i])
    decreases items, 0
  {
    seq(|items|, i requires 0 <= i < |items| => Arrange(items[i]))
  }

  ghost function ArrangeAt(members: seq<Member>, keys: seq<Text>): (r: seq<Entry>)
    requires forall k :: k in keys ==> k in Keys(members)
    ensures |r| == |keys|
    ensures forall i :: 0 <= i < |r| ==> r[i] == Entry(keys[i], Arrange(At(members, keys[i])))
    decreases members, 0
  {
    seq(|keys|, i requires 0 <= i < |keys| => Entry(keys[i], Arrange(members[IndexOf(members, keys[i])].value)))
  }

  lemma NumberLengthOf(token: NumberToken, rest: Text)
    requires Stops(rest)
    ensures NumberLength(token + rest) == |token|
  {
    var t := token + rest;
    var n := NumberLength(t);
    assert forall i :: 0 <= i < |token| ==> t[i] == token[i];
    assert rest != [] ==> t[|token|] == rest[0];
  }

  lemma ParseToken(token: NumberToken, rest: Text)
    requires Stops(rest)
    ensures ParseValue(token + rest) == Some((WNumber(token), rest))
  {
    var t := token + rest;
    NumberLengthOf(token, rest);
    assert t[0] == token[0] && t[..|token|] == token && t[|token|..] == rest;
  }

  lemma ParseLiteralOf(t: Text, p: Text, v: Written)
    ensures ParseLiteral(p + t, p, v) == Some((v, t))
  {
    assert (p + t)[..|p|] == p && (p + t)[|p|..] == t;
  }

  lemma ParseQuoted(s: Text, rest: Text)
    ensures Unescape((Quote(s) + rest)[1..]) == Some((s, rest))
    ensures ParseValue(Quote(s) + rest) == Some((WStr(s), rest))
  {
    var t := Quote(s) + rest;
    assert t[0] == QUOTE && t[1..] == Escape(s) + [QUOTE] + rest;
    UnescapeEscape(s, rest);
  }

  lemma FirstUnit(v: Value)
    requires Canonical(v).Ok?
    ensures var t := Canonical(v).value; t != [] && t[0] != CLOSE_BRACKET && t[0] != CLOSE_BRACE
  {
  }

  lemma JoinFront(texts: seq<Text>, rest: Text)
    requires texts != [] && texts[0] != []
    ensures Join(texts) != [] && (Join(texts) + rest)[0] == texts[0][0]
  {
  }

  lemma JoinMore(texts: seq<Text>, t: Text)
    requires |texts| > 1
    ensures Join(texts) + t == texts[0] + ([COMMA] + (Join(texts[1..]) + t))
  {
  }

  // Reading the canonical text of v gives v as it is arranged and leaves what
  // follows.
  lemma {:induction false} PrintParse(v: Value, rest: Text)
    requires Canonical(v).Ok? && Stops(rest)
    ensures ParseValue(Canonical(v).value + rest) == Some((Arrange(v), rest))
    decreases v, 0
  {
    match v
    case Null => ParseLiteralOf(rest, NULL_TEXT, WNull);
    case Bool(b) => ParseLiteralOf(rest, if b then TRUE_TEXT else FALSE_TEXT, WBool(b));
    case Number(token) => ParseToken(token, rest);
    case Str(s) => ParseQuoted(s, rest);
    case Arr(items) => PrintParseArray(items, rest);
    case Record(members) => PrintParseRecord(members, rest);
  }

  lemma ParseArrayStep(body: Text, items: seq<Written>, rest: Text)
    requires body != [] && body[0] != CLOSE_BRACKET && ParseItems(body) == Some((items, rest))
    ensures ParseValue([OPEN_BRACKET] + body) == Some((WArr(items), rest))
  {
    hide Unescape, NumberLength, ParseItems, ParseMembers;
    var t := [OPEN_BRACKET] + body;
    assert t[1..] == body && t[1] == body[0];
  }

  lemma ParseRecordStep(body: Text, entries: seq<Entry>, rest: Text)
    requires body != [] && body[0] != CLOSE_BRACE && ParseMembers(body) == Some((entries, rest))
    ensures ParseValue([OPEN_BRACE] + body) == Some((WObj(entries), rest))
  {
    hide Unescape, NumberLength, ParseItems, ParseMembers;
    var t := [OPEN_BRACE] + body;
    assert t[1..] == body && t[1] == body[0];
  }

  lemma ParseEmpty(rest: Text)
    ensures ParseValue([OPEN_BRACKET, CLOSE_BRACKET] + rest) == Some((WArr([]), rest))
    ensures ParseValue([OPEN_BRACE, CLOSE_BRACE] + rest) == Some((WObj([]), rest))
  {
    assert ([OPEN_BRACKET, CLOSE_BRACKET] + rest)[2..] == rest;
    assert ([OPEN_BRACE, CLOSE_BRACE] + rest)[2..] == rest;
  }

  lemma ParseLastItem(first: Text, v: Written, rest: Text)
    requires ParseValue(first + ([CLOSE_BRACKET] + rest)) == Some((v, [CLOSE_BRACKET] + rest))
    ensures ParseItems(first + ([CLOSE_BRACKET] + rest)) == Some(([v], rest))
  {
    assert ([CLOSE_BRACKET] + rest)[1..] == rest;
  }

  lemma ParseNextItem(first: Text, v: Written, tail: Text, vs: seq<Written>, rest: Text)
    requires ParseValue(first + ([COMMA] + tail)) == Some((v, [COMMA] + tail))
    requires ParseItems(tail) == Some((vs, rest))
    ensures ParseItems(first + ([COMMA] + tail)) == Some(([v] + vs, rest))
  {
    assert ([COMMA] + tail)[1..] == tail;
  }

  lemma {:induction false} PrintParseArray(items: seq<Value>, rest: Text)
    requires Canonical(Arr(items)).Ok?
    ensures ParseValue(Canonical(Arr(items)).value + rest) == Some((WArr(ArrangeItems(items)), rest))
    decreases items, 2
  {
    hide ParseValue, ParseItems, ParseMembers;
    var texts := CanonicalItems(items).value;
    if items == [] {
      ParseEmpty(rest);
      assert Canonical(Arr(items)).value == [OPEN_BRACKET, CLOSE_BRACKET];
    } else {
      var body := Join(texts) + ([CLOSE_BRACKET] + rest);
      FirstUnit(items[0]);
      JoinFront(texts, [CLOSE_BRACKET] + rest);
      PrintParseItems(items, rest);
      ParseArrayStep(body, ArrangeItems(items), rest);
      assert Canonical(Arr(items)).value + rest == [OPEN_BRACKET] + body;
    }
  }

  lemma {:induction false} PrintParseItems(items: seq<Value>, rest: Text)
    requires items != [] && CanonicalItems(items).Ok?
    ensures ParseItems(Join(CanonicalItems(items).value) + ([CLOSE_BRACKET] + rest))
         == Some((ArrangeItems(items), rest))
    decreases items, 1
  {
    hide ParseValue, ParseItems, ParseMembers;
    var texts := CanonicalItems(items).value;
    assert texts[0] == Canonical(items[0]).value;
    if |items| == 1 {
      assert Join(texts) == texts[0];
      assert ArrangeItems(items) == [Arrange(items[0])];
      PrintParse(items[0], [CLOSE_BRACKET] + rest);
      ParseLastItem(texts[0], Arrange(items[0]), rest);
    } else {
      var tail := Join(texts[1..]) + ([CLOSE_BRACKET] + rest);
      assert texts[1..] == CanonicalItems(items[1..]).value;
      assert ArrangeItems(items) == [Arrange(items[0])] + ArrangeItems(items[1..]);
      PrintParse(items[0], [COMMA] + tail);
      PrintParseItems(items[1..], rest);
      ParseNextItem(texts[0], Arrange(items[0]), tail, ArrangeItems(items[1..]), rest);
      JoinMore(texts, [CLOSE_BRACKET] + rest);
    }
  }

  lemma {:induction false} PrintParseRecord(members: seq<Member>, rest: Text)
    requires Canonical(Record(members)).Ok?
    ensures ParseValue(Canonical(Record(members)).value + rest) == Some((Arrange(Record(members)), rest))
    decreases members, 3
  {
    hide ParseValue, ParseItems, ParseMembers, Quote, IndexOf, Keys;
    SortedKeysAreKeys(members);
    var keys := SortedKeys(members);
    var texts := CanonicalMembers(members, keys).value;
    if keys == [] {
      ParseEmpty(rest);
      assert Canonical(Record(members)).value == [OPEN_BRACE, CLOSE_BRACE];
    } else {
      var body := Join(texts) + ([CLOSE_BRACE] + rest);
      MembersTextHead(members, keys);
      JoinFront(texts, [CLOSE_BRACE] + rest);
      PrintParseMembers(members, keys, rest);
      ParseRecordStep(body, ArrangeAt(members, keys), rest);
      assert Canonical(Record(members)).value + rest == [OPEN_BRACE] + body;
    }
  }

  lemma ParseMemberKey(k: Text, value: Text, after: Text)
    ensures var t := Quote(k) + [COLON] + value + after;
            t[0] == QUOTE && Unescape(t[1..]) == Some((k, [COLON] + (value + after)))
  {
    assert Quote(k) + [COLON] + value + after == Quote(k) + ([COLON] + (value + after));
    ParseQuoted(k, [COLON] + (value + after));
  }

  lemma ParseLastMember(k: Text, value: Text, v: Written, rest: Text)
    requires ParseValue(value + ([CLOSE_BRACE] + rest)) == Some((v, [CLOSE_BRACE] + rest))
    ensures ParseMembers(Quote(k) + [COLON] + value + ([CLOSE_BRACE] + rest)) == Some(([Entry(k, v)], rest))
  {
    var after := [CLOSE_BRACE] + rest;
    ParseMemberKey(k, value, after);
    assert ([COLON] + (value + after))[1..] == value + after && after[1..] == rest;
  }

  lemma ParseNextMember(k: Text, value: Text, v: Written, tail: Text, entries: seq<Entry>, rest: Text)
    requires ParseValue(value + ([COMMA] + tail)) == Some((v, [COMMA] + tail))
    requires ParseMembers(tail) == Some((entries, rest))
    ensures ParseMembers(Quote(k) + [COLON] + value + ([COMMA] + tail)) == Some(([Entry(k, v)] + entries, rest))
  {
    var after := [COMMA] + tail;
    ParseMemberKey(k, value, after);
    assert ([COLON] + (value + after))[1..] == value + after && after[1..] == tail;
  }

  lemma MembersTextHead(members: seq<Member>, keys: seq<Text>)
    requires keys != [] && forall k :: k in keys ==> k in Keys(members)
    requires CanonicalMembers(members, keys).Ok?
    ensures Canonical(At(members, keys[0])).Ok? && CanonicalMembers(members, keys[1..]).Ok?
    ensures CanonicalMembers(members, keys).value[0] != [] && CanonicalMembers(members, keys).value[0][0] == QUOTE
    ensures CanonicalMembers(members, keys).value
         == [Quote(keys[0]) + [COLON] + Canonical(At(members, keys[0])).value]
            + CanonicalMembers(members, keys[1..]).value
  {
  }

  lemma {:induction false} PrintParseMembers(members: seq<Member>, keys: seq<Text>, rest: Text)
    requires keys != [] && forall k :: k in keys ==> k in Keys(members)
    requires CanonicalMembers(members, keys).Ok?
    ensures ParseMembers(Join(CanonicalMembers(members, keys).value) + ([CLOSE_BRACE] + rest))
         == Some((ArrangeAt(members, keys), rest))
    decreases members, 1, |keys|
  {
    hide ParseValue, ParseItems, ParseMembers, Canonical, CanonicalMembers, CanonicalItems;
    hide Quote, Escape, Unescape, Arrange, IndexOf, Keys;
    var k := keys[0];
    MembersTextHead(members, keys);
    var texts := CanonicalMembers(members, keys).value;
    var value := Canonical(At(members, k)).value;
    if |keys| == 1 {
      PrintParse(members[IndexOf(members, k)].value, [CLOSE_BRACE] + rest);
      ParseLastMember(k, value, Arrange(At(members, k)), rest);
      assert ArrangeAt(members, keys) == [Entry(k, Arrange(At(members, k)))];
    } else {
      var tail := Join(texts[1..]) + ([CLOSE_BRACE] + rest);
      assert texts[1..] == CanonicalMembers(members, keys[1..]).value;
      assert |texts| > 1;
      JoinMore(texts, [CLOSE_BRACE] + rest);
      PrintParse(members[IndexOf(members, k)].value, [COMMA] + tail);
      PrintParseMembers(members, keys[1..], rest);
      ParseNextMember(k, value, Arrange(At(members, k)), tail, ArrangeAt(members, keys[1..]), rest);
      assert ArrangeAt(members, keys) == [Entry(k, Arrange(At(members, k)))] + ArrangeAt(members, keys[1..]);
    }
  }

  // Reading the canonical text gives v as it is arranged.
  lemma ReadCanonical(v: Value)
    requires Canonical(v).Ok?
    ensures Read(Canonical(v).value) == Some(Arrange(v))
  {
    PrintParse(v, []);
    assert Canonical(v).value + [] == Canonical(v).value;
  }

  ghost function DenoteAt(members: seq<Member>, keys: seq<Text>): map<Text, Json>
    requires forall k :: k in keys ==> k in Keys(members)
  {
    map k | k in keys :: Denote(At(members, k))
  }

  lemma DenoteRecord(members: seq<Member>, keys: seq<Text>)
    requires forall k :: k in keys <==> k in Keys(members)
    ensures Denote(Record(members)) == JObj(DenoteAt(members, keys))
  {
    assert Denote(Record(members)).members == DenoteAt(members, keys);
  }

  lemma {:induction false} ForgetAt(members: seq<Member>, keys: seq<Text>)
    requires forall k :: k in keys ==> k in Keys(members)
    ensures ForgetEntries(ArrangeAt(members, keys)) == DenoteAt(members, keys)
    decreases members, 1, |keys|
  {
    hide Keys, IndexOf;
    if keys == [] {
      assert ArrangeAt(members, keys) == [];
    } else {
      var n := |keys| - 1;
      ForgetAt(members, keys[..n]);
      ForgetArranged(members[IndexOf(members, keys[n])].value);
      assert ArrangeAt(members, keys)[..n] == ArrangeAt(members, keys[..n]);
      assert keys == keys[..n] + [keys[n]];
    }
  }

  // Arranging a value keeps its tree.
  lemma {:induction false} ForgetArranged(v: Value)
    ensures Forget(Arrange(v)) == Denote(v)
    decreases v, 0
  {
    match v
    case Arr(items) =>
      forall i | 0 <= i < |items|
        ensures Forget(ArrangeItems(items)[i]) == DenoteItems(items)[i]
      {
        ForgetArranged(items[i]);
      }
      assert Forget(Arrange(v)).items == DenoteItems(items);
    case Record(members) =>
      SortedKeysAreKeys(members);
      ForgetAt(members, SortedKeys(members));
      DenoteRecord(members, SortedKeys(members));
    case _ =>
  }

  // Decoding the canonical text gives the tree back.
  lemma DecodeCanonical(v: Value)
    requires Canonical(v).Ok?
    ensures Decode(Canonical(v).value) == Some(Denote(v))
  {
    ReadCanonical(v);
    ForgetArranged(v);
  }

  // ---- Key order does not matter ----

  lemma {:induction false} SameTreeSameText(v: Value, w: Value)
    requires KeysOnce(v) && KeysOnce(w) && IsJson(v) && IsJson(w)
    requires Denote(v) == Denote(w)
    ensures Canonical(v) == Canonical(w)
    decreases v, 0
  {
    match v
    case Arr(items) =>
      forall i | 0 <= i < |items|
        ensures Denote(items[i]) == Denote(w.items[i])
      {
        assert DenoteItems(items)[i] == DenoteItems(w.items)[i];
      }
      SameItemsSameTexts(items, w.items);
    case Record(members) =>
      SameRecordKeys(members, w.members);
      SortedKeysAreKeys(members);
      SameMembersSameTexts(members, w.members, SortedKeys(members));
    case _ =>
  }

  lemma KeyLeqIsOrder(keys: seq<Text>)
    ensures TotalPreorder(KeyLeq) && AntisymmetricOn(KeyLeq, keys)
  {
    forall x: Text, y: Text
      ensures KeyLeq(x, y) || KeyLeq(y, x)
    {
      LexTotal(x, y);
    }
    forall x: Text, y: Text, z: Text | KeyLeq(x, y) && KeyLeq(y, z)
      ensures KeyLeq(x, z)
    {
      LexTransitive(x, y, z);
    }
    forall x: Text, y: Text | KeyLeq(x, y) && KeyLeq(y, x)
      ensures x == y
    {
      LexAntisymmetric(x, y);
    }
  }

  lemma RecordLookup(members: seq<Member>)
    ensures forall k :: k in Keys(members) <==> k in Denote(Record(members)).members
    ensures forall k :: k in Keys(members) ==> Denote(Record(members)).members[k] == Denote(At(members, k))
  {
  }

  lemma SameRecordKeys(members: seq<Member>, others: seq<Member>)
    requires Distinct(Keys(members)) && Distinct(Keys(others))
    requires Denote(Record(members)) == Denote(Record(others))
    ensures SortedKeys(members) == SortedKeys(others)
    ensures forall k :: k in Keys(members) <==> k in Keys(others)
    ensures forall k :: k in Keys(members) ==> Denote(At(members, k)) == Denote(At(others, k))
  {
    var m := Denote(Record(members)).members;
    RecordLookup(members);
    RecordLookup(others);
    hide Denote, Keys, IndexOf;
    KeyLeqIsOrder(Keys(members));
    SortDependsOnSet(KeyLeq, Keys(members), Keys(others));
  }

  lemma {:induction false} SameItemsSameTexts(items: seq<Value>, others: seq<Value>)
    requires |items| == |others|
    requires forall i :: 0 <= i < |items| ==> KeysOnce(items[i]) && KeysOnce(others[i])
    requires forall i :: 0 <= i < |items| ==> IsJson(items[i]) && IsJson(others[i])
    requires forall i :: 0 <= i < |items| ==> Denote(items[i]) == Denote(others[i])
    ensures CanonicalItems(items) == CanonicalItems(others)
    decreases items, 0
  {
    if items != [] {
      SameTreeSameText(items[0], others[0]);
      SameItemsSameTexts(items[1..], others[1..]);
    }
  }

  lemma {:induction false} SameMembersSameTexts(members: seq<Member>, others: seq<Member>, keys: seq<Text>)
    requires forall k :: k in keys ==> k in Keys(members) && k in Keys(others)
    requires forall i :: 0 <= i < |members| ==> KeysOnce(members[i].value) && IsJson(members[i].value)
    requires forall i :: 0 <= i < |others| ==> KeysOnce(others[i].value) && IsJson(others[i].value)
    requires forall k :: k in keys ==> Denote(At(members, k)) == Denote(At(others, k))
    ensures CanonicalMembers(members, keys) == CanonicalMembers(others, keys)
    decreases members, 1, |keys|
  {
    if keys != [] {
      var k := keys[0];
      assert k in keys && Denote(At(members, k)) == Denote(At(others, k));
      SameTreeSameText(members[IndexOf(members, keys[0])].value, others[IndexOf(others, keys[0])].value);
      SameMembersSameTexts(members, others, keys[1..]);
    }
  }

  // Two JSON values print the same text exactly when they are the same tree.
  lemma CanonicalIdentifies(v: Value, w: Value)
    requires KeysOnce(v) && KeysOnce(w) && IsJson(v) && IsJson(w)
    ensures Canonical(v).Ok? && Canonical(w).Ok?
    ensures Canonical(v).value == Canonical(w).value <==> Denote(v) == Denote(w)
  {
    CanonicalAccepts(v);
    CanonicalAccepts(w);
    DecodeCanonical(v);
    DecodeCanonical(w);
    if Denote(v) == Denote(w) {
      SameTreeSameText(v, w);
    }
  }

  // ---- The text has a UTF-8 form of its own ----

  lemma TokenWellFormed(token: NumberToken, t: Text)
    requires WellFormed(t)
    ensures WellFormed(token + t)
  {
    WellFormedPlain(token, t);
  }

  lemma WellFormedWrap(open: CodeUnit, body: Text, close: CodeUnit, t: Text)
    requires !Surrogate(open) && WellFormed(body + ([close] + t))
    ensures WellFormed([open] + body + [close] + t)
  {
    WellFormedFront(open, body + ([close] + t));
    assert [open] + body + [close] + t == [open] + (body + ([close] + t));
  }

  lemma {:induction false} CanonicalWellFormed(v: Value, t: Text)
    requires Canonical(v).Ok? && WellFormed(t)
    ensures WellFormed(Canonical(v).value + t)
    decreases v, 0
  {
    match v
    case Null => WellFormedPlain(NULL_TEXT, t);
    case Bool(b) => WellFormedPlain(if b then TRUE_TEXT else FALSE_TEXT, t);
    case Number(token) => TokenWellFormed(token, t);
    case Str(s) => WellFormedQuote(s, t);
    case Arr(items) =>
      WellFormedFront(CLOSE_BRACKET, t);
      var texts := CanonicalItems(items).value;
      ItemsWellFormed(items, [CLOSE_BRACKET] + t);
      WellFormedWrap(OPEN_BRACKET, Join(texts), CLOSE_BRACKET, t);
    case Record(members) =>
      WellFormedFront(CLOSE_BRACE, t);
      SortedKeysAreKeys(members);
      var texts := CanonicalMembers(members, SortedKeys(members)).value;
      MembersWellFormed(members, SortedKeys(members), [CLOSE_BRACE] + t);
      WellFormedWrap(OPEN_BRACE, Join(texts), CLOSE_BRACE, t);
  }

  lemma {:induction false} ItemsWellFormed(items: seq<Value>, t: Text)
    requires CanonicalItems(items).Ok? && WellFormed(t)
    ensures WellFormed(Join(CanonicalItems(items).value) + t)
    decreases items, 0
  {
    var texts := CanonicalItems(items).value;
    if items == [] {
      assert Join(texts) + t == t;
    } else if |items| == 1 {
      CanonicalWellFormed(items[0], t);
    } else {
      assert texts[1..] == CanonicalItems(items[1..]).value;
      ItemsWellFormed(items[1..], t);
      WellFormedFront(COMMA, Join(texts[1..]) + t);
      CanonicalWellFormed(items[0], [COMMA] + (Join(texts[1..]) + t));
      JoinMore(texts, t);
    }
  }

  lemma MemberWellFormed(k: Text, value: Text, t: Text)
    requires WellFormed(value + t)
    ensures WellFormed(Quote(k) + [COLON] + value + t)
  {
    WellFormedFront(COLON, value + t);
    WellFormedQuote(k, [COLON] + (value + t));
    assert Quote(k) + [COLON] + value + t == Quote(k) + ([COLON] + (value + t));
  }

  lemma {:induction false} MembersWellFormed(members: seq<Member>, keys: seq<Text>, t: Text)
    requires forall k :: k in keys ==> k in Keys(members)
    requires CanonicalMembers(members, keys).Ok? && WellFormed(t)
    ensures WellFormed(Join(CanonicalMembers(members, keys).value) + t)
    decreases members, 1, |keys|
  {
    var texts := CanonicalMembers(members, keys).value;
    if keys == [] {
      assert Join(texts) + t == t;
    } else {
      MembersTextHead(members, keys);
      var i := IndexOf(members, keys[0]);
      var value := Canonical(At(members, keys[0])).value;
      if |keys| == 1 {
        CanonicalWellFormed(members[i].value, t);
        MemberWellFormed(keys[0], value, t);
      } else {
        assert texts[1..] == CanonicalMembers(members, keys[1..]).value;
        MembersWellFormed(members, keys[1..], t);
        var tail := [COMMA] + (Join(texts[1..]) + t);
        WellFormedFront(COMMA, Join(texts[1..]) + t);
        CanonicalWellFormed(members[i].value, tail);
        MemberWellFormed(keys[0], value, tail);
        JoinMore(texts, t);
      }
    }
  }

  // Two JSON values have the same UTF-8 bytes exactly when they are the same tree.
  lemma BytesIdentify(v: Value, w: Value)
    requires KeysOnce(v) && KeysOnce(w) && IsJson(v) && IsJson(w)
    ensures Canonical(v).Ok? && Canonical(w).Ok?
    ensures Encode(Canonical(v).value) == Encode(Canonical(w).value) <==> Denote(v) == Denote(w)
  {
    CanonicalIdentifies(v, w);
    CanonicalWellFormed(v, []);
    CanonicalWellFormed(w, []);
    assert Canonical(v).value + [] == Canonical(v).value;
    assert Canonical(w).value + [] == Canonical(w).value;
    if Encode(Canonical(v).value) == Encode(Canonical(w).value) {
      EncodeInjective(Canonical(v).value, Canonical(w).value);
    }
  }
}
