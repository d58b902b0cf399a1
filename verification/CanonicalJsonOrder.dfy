// In what order canonicalJSON writes the keys of an object: strictly ascending by
// code unit, which leaves one way to write a tree.
module CanonicalJsonOrder {
  import opened Wrappers
  import opened Ordering
  import opened JsonText
  import opened CanonicalJson
  import opened CanonicalJsonProofs

  // Every object is written with its keys in ascending order.
  ghost predicate Ascending(w: Written) {
    match w
    case WArr(items) => forall i :: 0 <= i < |items| ==> Ascending(items[i])
    case WObj(entries) =>
      && (forall i, j :: 0 <= i < j < |entries| ==> Before(entries[i].key, entries[j].key))
      && (forall i :: 0 <= i < |entries| ==> Ascending(entries[i].value))
    case _ => true
  }

  lemma SortedKeysAscend(members: seq<Member>)
    requires Distinct(Keys(members))
    ensures var keys := SortedKeys(members);
            forall i, j :: 0 <= i < j < |keys| ==> Before(keys[i], keys[j])
  {
    var keys := SortedKeys(members);
    KeyLeqIsOrder(Keys(members));
    SortSorts(KeyLeq, Keys(members));
    SortPermutes(KeyLeq, Keys(members));
    DistinctOfMultiset(Keys(members), keys);
    forall i, j | 0 <= i < j < |keys|
      ensures Before(keys[i], keys[j])
    {
      assert KeyLeq(keys[i], keys[j]);
      LexIsBefore(keys[i], keys[j]);
    }
  }

  lemma {:induction false} ArrangedAscends(v: Value)
    requires KeysOnce(v)
    ensures Ascending(Arrange(v))
  {
    match v
    case Arr(items) =>
      forall i | 0 <= i < |items|
        ensures Ascending(ArrangeItems(items)[i])
      {
        ArrangedAscends(items[i]);
      }
    case Record(members) =>
      SortedKeysAreKeys(members);
      SortedKeysAscend(members);
      var keys := SortedKeys(members);
      hide SortedKeys, Before;
      forall i | 0 <= i < |keys|
        ensures Ascending(ArrangeAt(members, keys)[i].value)
      {
        ArrangedAscends(members[IndexOf(members, keys[i])].value);
      }
    case _ =>
  }

  // The text printed for a value, read as it is written, has the keys of every
  // object in ascending order, and is the value's tree.
  lemma KeysAscend(v: Value)
    requires KeysOnce(v) && IsJson(v)
    ensures Canonical(v).Ok? && Read(Canonical(v).value).Some?
    ensures var w := Read(Canonical(v).value).value; Ascending(w) && Forget(w) == Denote(v)
  {
    CanonicalAccepts(v);
    ReadCanonical(v);
    ArrangedAscends(v);
    ForgetArranged(v);
  }

  // ---- One way to write a tree ----

  ghost predicate HasEntry(entries: seq<Entry>, key: Text) {
    exists i :: 0 <= i < |entries| && entries[i].key == key
  }

  lemma HasLast(entries: seq<Entry>, key: Text)
    requires entries != []
    ensures var n := |entries| - 1;
            HasEntry(entries, key) <==> HasEntry(entries[..n], key) || entries[n].key == key
  {
    var n := |entries| - 1;
    var init := entries[..n];
    if HasEntry(init, key) {
      var i :| 0 <= i < n && init[i].key == key;
      assert entries[i].key == key;
    }
    if HasEntry(entries, key) {
      var i :| 0 <= i < |entries| && entries[i].key == key;
      assert i < n ==> init[i].key == key;
    }
  }

  lemma {:induction false} EntriesForget(entries: seq<Entry>)
    requires forall i, j :: 0 <= i < j < |entries| ==> entries[i].key != entries[j].key
    ensures forall key :: key in ForgetEntries(entries) <==> HasEntry(entries, key)
    ensures forall i :: 0 <= i < |entries| ==>
              entries[i].key in ForgetEntries(entries)
              && ForgetEntries(entries)[entries[i].key] == Forget(entries[i].value)
  {
    hide Forget;
    if entries != [] {
      var n := |entries| - 1;
      var init := entries[..n];
      EntriesForget(init);
      assert forall i :: 0 <= i < n ==> init[i] == entries[i];
      forall key
        ensures key in ForgetEntries(entries) <==> HasEntry(entries, key)
      {
        HasLast(entries, key);
      }
      hide HasEntry;
    }
  }

  // Of two ascending sequences with the same keys, neither has an earlier first one.
  lemma {:induction false} SameKeysInOrder(a: seq<Entry>, b: seq<Entry>, i: nat)
    requires forall k, l :: 0 <= k < l < |a| ==> Before(a[k].key, a[l].key)
    requires forall k, l :: 0 <= k < l < |b| ==> Before(b[k].key, b[l].key)
    requires forall key :: HasEntry(a, key) <==> HasEntry(b, key)
    requires i <= |a|
    ensures i <= |b| && forall k :: 0 <= k < i ==> a[k].key == b[k].key
  {
    if i > 0 {
      var n := i - 1;
      SameKeysInOrder(a, b, n);
      AscendingKeysDiffer(a);
      AscendingKeysDiffer(b);
      hide Before;
      assert HasEntry(a, a[n].key);
      var m :| 0 <= m < |b| && b[m].key == a[n].key;
      assert m >= n;
      assert HasEntry(b, b[n].key);
      var l :| 0 <= l < |a| && a[l].key == b[n].key;
      assert l >= n;
      if n < l && n < m { BeforeIsStrict(a[n].key, a[l].key); }
    }
  }

  lemma AscendingKeysDiffer(entries: seq<Entry>)
    requires forall k, l :: 0 <= k < l < |entries| ==> Before(entries[k].key, entries[l].key)
    ensures forall k, l :: 0 <= k < l < |entries| ==> entries[k].key != entries[l].key
  {
    forall k, l | 0 <= k < l < |entries|
      ensures entries[k].key != entries[l].key
    {
      BeforeIsStrict(entries[k].key, entries[l].key);
    }
  }

  // A tree has one way to be written with ascending keys.
  lemma {:induction false} WrittenOneWay(a: Written, b: Written)
    requires Ascending(a) && Ascending(b) && Forget(a) == Forget(b)
    ensures a == b
    decreases a, 1
  {
    match a
    case WArr(items) =>
      assert |items| == |b.items| by { assert |Forget(a).items| == |Forget(b).items|; }
      forall i | 0 <= i < |items|
        ensures items[i] == b.items[i]
      {
        assert Forget(a).items[i] == Forget(b).items[i];
        WrittenOneWay(items[i], b.items[i]);
      }
    case WObj(entries) => EntriesOneWay(a, b);
    case _ =>
  }

  lemma {:induction false} EntriesOneWay(a: Written, b: Written)
    requires a.WObj? && b.WObj? && Ascending(a) && Ascending(b) && Forget(a) == Forget(b)
    ensures a == b
    decreases a, 0
  {
    var xs, ys := a.entries, b.entries;
    AscendingKeysDiffer(xs);
    AscendingKeysDiffer(ys);
    EntriesForget(xs);
    EntriesForget(ys);
    assert forall key :: HasEntry(xs, key) <==> HasEntry(ys, key);
    SameKeysInOrder(xs, ys, |xs|);
    SameKeysInOrder(ys, xs, |ys|);
    hide HasEntry, Before;
    forall i | 0 <= i < |xs|
      ensures xs[i] == ys[i]
    {
      WrittenOneWay(xs[i].value, ys[i].value);
    }
  }

  // So the canonical text is what any text of the tree with ascending keys reads as.
  lemma CanonicalIsTheAscendingText(v: Value, t: Text)
    requires KeysOnce(v) && IsJson(v)
    requires Read(t).Some? && Ascending(Read(t).value) && Decode(t) == Some(Denote(v))
    ensures Canonical(v).Ok? && Read(t) == Read(Canonical(v).value)
  {
    KeysAscend(v);
    WrittenOneWay(Read(t).value, Read(Canonical(v).value).value);
  }

  // ---- The signs themselves ----

  const KEY_A: Text := [0x61]
  const KEY_B: Text := [0x62]

  lemma LiteralTexts()
    ensures NULL_TEXT == Codes("null") && TRUE_TEXT == Codes("true") && FALSE_TEXT == Codes("false")
  {
  }

  lemma QuotedKeys()
    ensures Quote(KEY_A) == Codes("\"a\"") && Quote(KEY_B) == Codes("\"b\"")
  {
    assert KEY_A[1..] == [] && KEY_B[1..] == [];
    assert Escape(KEY_A) == KEY_A + [] && Escape(KEY_B) == KEY_B + [];
  }

  lemma SortedKeysSample()
    ensures var members := [Member(KEY_B, Null), Member(KEY_A, Null)];
            Keys(members) == [KEY_B, KEY_A] && SortedKeys(members) == [KEY_A, KEY_B]
  {
    var members := [Member(KEY_B, Null), Member(KEY_A, Null)];
    assert Keys(members) == [KEY_B, KEY_A];
    assert [KEY_B, KEY_A][1..] == [KEY_A] && [KEY_A][1..] == [];
    assert Sort(KeyLeq, [KEY_A]) == [KEY_A];
    assert !KeyLeq(KEY_B, KEY_A);
    assert Insert(KeyLeq, KEY_B, [KEY_A]) == [KEY_A] + Insert(KeyLeq, KEY_B, []);
  }

  // Literals, brackets, commas, colons and quotes, without any space: an object entered
  // as b and then a, and a list.
  lemma SampleTexts()
    ensures Canonical(Null) == Ok(Codes("null"))
    ensures Canonical(Bool(true)) == Ok(Codes("true")) && Canonical(Bool(false)) == Ok(Codes("false"))
    ensures Canonical(Arr([Null, Null])) == Ok(Codes("[null,null]"))
    ensures Canonical(Record([Member(KEY_B, Null), Member(KEY_A, Null)])) == Ok(Codes("{\"a\":null,\"b\":null}"))
  {
    LiteralTexts();
    var items := [Null, Null];
    assert items[1..] == [Null] && [Null][1..] == [];
    assert CanonicalItems([Null]) == Ok([NULL_TEXT] + []);
    assert CanonicalItems(items).value == [NULL_TEXT, NULL_TEXT];
    JoinTwo(NULL_TEXT, NULL_TEXT);
    assert [OPEN_BRACKET] + (NULL_TEXT + [COMMA] + NULL_TEXT) + [CLOSE_BRACKET] == Codes("[null,null]");
    SampleObject();
  }

  lemma JoinTwo(a: Text, b: Text)
    ensures Join([a, b]) == a + [COMMA] + b
  {
    assert [a, b][1..] == [b];
  }

  lemma SampleObject()
    ensures Canonical(Record([Member(KEY_B, Null), Member(KEY_A, Null)])) == Ok(Codes("{\"a\":null,\"b\":null}"))
  {
    var members := [Member(KEY_B, Null), Member(KEY_A, Null)];
    var a, b := Quote(KEY_A) + [COLON] + NULL_TEXT, Quote(KEY_B) + [COLON] + NULL_TEXT;
    LiteralTexts();
    QuotedKeys();
    assert a == Codes("\"a\":null") && b == Codes("\"b\":null");
    assert [OPEN_BRACE] + (a + [COMMA] + b) + [CLOSE_BRACE] == Codes("{\"a\":null,\"b\":null}");
    SortedKeysSample();
    SortedKeysAreKeys(members);
    MembersSample();
    JoinTwo(a, b);
    hide SortedKeys, Quote, CanonicalMembers;
  }

  lemma MembersSample()
    ensures var members := [Member(KEY_B, Null), Member(KEY_A, Null)];
            && Keys(members) == [KEY_B, KEY_A]
            && CanonicalMembers(members, [KEY_A, KEY_B])
               == Ok([Quote(KEY_A) + [COLON] + NULL_TEXT, Quote(KEY_B) + [COLON] + NULL_TEXT])
  {
    var members := [Member(KEY_B, Null), Member(KEY_A, Null)];
    assert Keys(members) == [KEY_B, KEY_A];
    assert KEY_A in Keys(members) && KEY_B in Keys(members);
    hide Quote;
    assert [KEY_A, KEY_B][1..] == [KEY_B] && [KEY_B][1..] == [];
    assert forall k :: k in Keys(members) ==> Canonical(members[IndexOf(members, k)].value) == Ok(NULL_TEXT);
    var a, b := Quote(KEY_A) + [COLON] + NULL_TEXT, Quote(KEY_B) + [COLON] + NULL_TEXT;
    assert CanonicalMembers(members, []) == Ok([]);
    assert Canonical(members[IndexOf(members, KEY_B)].value) == Ok(NULL_TEXT);
    assert Canonical(members[IndexOf(members, KEY_A)].value) == Ok(NULL_TEXT);
    var rest := CanonicalMembers(members, [KEY_B]);
    assert rest == Ok([b] + []);
    assert CanonicalMembers(members, [KEY_A, KEY_B]) == Ok([a] + rest.value);
    assert [a] + ([b] + []) == [a, b];
  }
}
