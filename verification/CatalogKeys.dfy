// The texts that the catalog runtime keys its maps by: the exact-revision key
// never confuses two revisions, the colon keys only if an id holds a colon.
module CatalogKeys {
  import opened Wrappers
  import opened JsonText
  import opened CanonicalJson
  import opened CanonicalJsonProofs

  // JSON.stringify of three texts; for an array of texts it is the canonical form.
  function RevisionCacheKey(workspace: Text, asset: Text, revision: Text): Result<Text, Failure> {
    Canonical(Arr([Str(workspace), Str(asset), Str(revision)]))
  }

  lemma RevisionKeysDiffer(w: Text, a: Text, r: Text, w': Text, a': Text, r': Text)
    ensures RevisionCacheKey(w, a, r).Ok? && RevisionCacheKey(w', a', r').Ok?
    ensures RevisionCacheKey(w, a, r) == RevisionCacheKey(w', a', r') <==> w == w' && a == a' && r == r'
  {
    var left, right := Arr([Str(w), Str(a), Str(r)]), Arr([Str(w'), Str(a'), Str(r')]);
    CanonicalIdentifies(left, right);
    hide Canonical;
    assert Denote(left) == JArr([JStr(w), JStr(a), JStr(r)]) by { DenoteThree(w, a, r); }
    assert Denote(right) == JArr([JStr(w'), JStr(a'), JStr(r')]) by { DenoteThree(w', a', r'); }
    assert [JStr(w), JStr(a), JStr(r)] == [JStr(w'), JStr(a'), JStr(r')] ==>
      JStr(w) == JStr(w') && JStr(a) == JStr(a') && JStr(r) == JStr(r') by {
      assert [JStr(w), JStr(a), JStr(r)][0] == JStr(w) && [JStr(w'), JStr(a'), JStr(r')][0] == JStr(w');
      assert [JStr(w), JStr(a), JStr(r)][1] == JStr(a) && [JStr(w'), JStr(a'), JStr(r')][1] == JStr(a');
      assert [JStr(w), JStr(a), JStr(r)][2] == JStr(r) && [JStr(w'), JStr(a'), JStr(r')][2] == JStr(r');
    }
  }

  lemma DenoteThree(w: Text, a: Text, r: Text)
    ensures Denote(Arr([Str(w), Str(a), Str(r)])) == JArr([JStr(w), JStr(a), JStr(r)])
  {
    var items := [Str(w), Str(a), Str(r)];
    assert DenoteItems(items) == [JStr(w), JStr(a), JStr(r)] by {
      assert forall i :: 0 <= i < 3 ==> DenoteItems(items)[i] == Denote(items[i]);
    }
  }

  const COLON: CodeUnit := 0x3A

  // A workspace and an asset, or an asset and a section kind.
  function ColonKey(left: Text, right: Text): Text {
    left + [COLON] + right
  }

  // Without a colon on the left the key tells both texts.
  lemma ColonKeysDiffer(a: Text, b: Text, c: Text, d: Text)
    requires COLON !in a && COLON !in c
    ensures ColonKey(a, b) == ColonKey(c, d) <==> a == c && b == d
  {
    var left, right := ColonKey(a, b), ColonKey(c, d);
    assert left[|a|] == COLON && right[|c|] == COLON;
    assert forall i :: 0 <= i < |a| ==> left[i] == a[i];
    assert forall i :: 0 <= i < |c| ==> right[i] == c[i];
    if left == right {
      assert |a| == |c|;
      assert left[..|a|] == a && right[..|c|] == c;
      assert left[|a| + 1..] == b && right[|c| + 1..] == d;
    }
  }
}
