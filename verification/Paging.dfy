// A fixed chain of server pages and what a reader that appends them holds.
module Paging {
  import opened Wrappers
  import opened CatalogModel

  // ---- Lists without repeated keys ----

  // The items that no earlier item shares a key with.
  function Firsts<T, K(==)>(key: T -> K, items: seq<T>): seq<T> {
    if items == [] then []
    else
      var before, last := items[..|items| - 1], items[|items| - 1];
      Firsts(key, before) + (if exists j :: 0 <= j < |before| && key(before[j]) == key(last) then [] else [last])
  }

  ghost predicate HasKey<T, K>(key: T -> K, items: seq<T>, k: K) {
    exists i :: 0 <= i < |items| && key(items[i]) == k
  }

  ghost predicate KeysOnce<T, K>(key: T -> K, items: seq<T>) {
    forall i, j :: 0 <= i < j < |items| ==> key(items[i]) != key(items[j])
  }

  lemma {:induction false} FirstsHasKeys<T, K>(key: T -> K, items: seq<T>)
    ensures forall k :: HasKey(key, Firsts(key, items), k) <==> HasKey(key, items, k)
    ensures KeysOnce(key, Firsts(key, items))
  {
    if items != [] {
      var before, last := items[..|items| - 1], items[|items| - 1];
      FirstsHasKeys(key, before);
      var firsts, all := Firsts(key, before), Firsts(key, items);
      var seen := exists j :: 0 <= j < |before| && key(before[j]) == key(last);
      assert seen <==> HasKey(key, before, key(last));
      assert all == firsts + (if seen then [] else [last]);
      assert seen ==> all == firsts;
      forall k
        ensures HasKey(key, all, k) <==> HasKey(key, items, k)
      {
        KeyOfLast(key, before, last, k);
        assert before + [last] == items;
        KeyOfLast(key, firsts, last, k);
      }
    }
  }

  lemma KeyOfLast<T, K>(key: T -> K, before: seq<T>, last: T, k: K)
    ensures HasKey(key, before + [last], k) <==> HasKey(key, before, k) || key(last) == k
  {
    var all := before + [last];
    if HasKey(key, before, k) {
      var i :| 0 <= i < |before| && key(before[i]) == k;
      assert all[i] == before[i];
    }
    if key(last) == k { assert all[|before|] == last; }
    if HasKey(key, all, k) {
      var i :| 0 <= i < |all| && key(all[i]) == k;
      assert i < |before| ==> before[i] == all[i];
    }
  }

  function Plain<T>(held: seq<Held<T>>): (r: seq<T>)
    ensures |r| == |held| && forall i :: 0 <= i < |r| ==> r[i] == held[i].item
  {
    seq(|held|, i requires 0 <= i < |held| => held[i].item)
  }

  // Merging a page into a list without repeated keys is reading the whole text of
  // both and dropping what was read before.
  lemma {:induction false} MergeReadsOn<T, K>(key: T -> K, held: seq<Held<T>>, read: seq<T>, items: seq<T>, o: Origin)
    requires Plain(held) == Firsts(key, read)
    ensures Plain(Merge(key, held, items, o)) == Firsts(key, read + items)
    decreases |items|
  {
    if items == [] {
      assert read + items == read;
    } else {
      var more := read + [items[0]];
      assert more[..|more| - 1] == read && read + items == more + items[1..];
      FirstsHasKeys(key, read);
      var known := exists i :: 0 <= i < |held| && key(held[i].item) == key(items[0]);
      assert known <==> HasKey(key, Plain(held), key(items[0])) by {
        assert forall i :: 0 <= i < |held| ==> Plain(held)[i] == held[i].item;
      }
      assert known <==> HasKey(key, read, key(items[0]));
      if known {
        MergeReadsOn(key, held, more, items[1..], o);
      } else {
        var held' := held + [Held(items[0], o)];
        assert Plain(held') == Plain(held) + [items[0]];
        MergeReadsOn(key, held', more, items[1..], o);
      }
    }
  }

  // ---- Chains of pages ----

  // Every page but the last names the next one by its own cursor; the last one has
  // no cursor, an empty one, or repeats the cursor it was read with.
  ghost predicate Chain<T>(pages: seq<Page<T>>) {
    && pages != []
    && (forall i :: 0 <= i < |pages| - 1 ==> HasCursor(pages[i].next))
    && (forall i, j :: 0 <= i < j < |pages| - 1 ==> pages[i].next != pages[j].next)
    && (HasCursor(pages[|pages| - 1].next) ==> |pages| > 1 && pages[|pages| - 1].next == pages[|pages| - 2].next)
  }

  ghost function Concat<T>(pages: seq<Page<T>>): seq<T> {
    if pages == [] then [] else Concat(pages[..|pages| - 1]) + pages[|pages| - 1].items
  }

  ghost function CursorAfter<T>(pages: seq<Page<T>>, k: nat): Option<Cursor>
    requires 1 <= k <= |pages|
  {
    if k == |pages| && HasCursor(pages[k - 1].next) then None else pages[k - 1].next
  }

  // The reader holds the first k pages, each key once, and the cursor after them.
  ghost predicate HoldsPages<T, K>(
    key: T -> K, pages: seq<Page<T>>, k: nat, items: seq<Held<T>>, next: Option<Cursor>)
  {
    1 <= k <= |pages| && Plain(items) == Firsts(key, Concat(pages[..k])) && next == CursorAfter(pages, k)
  }

  // The page that the server returns for a cursor of the chain.
  ghost predicate Follows<T>(pages: seq<Page<T>>, cursor: Cursor, page: Page<T>) {
    exists i :: 0 <= i < |pages| - 1 && pages[i].next == Some(cursor) && page == pages[i + 1]
  }

  // A first page is held as it is, so it must not repeat a key itself; that is
  // needed and enough.
  lemma FirstPage<T, K>(key: T -> K, pages: seq<Page<T>>, o: Origin)
    requires Chain(pages)
    ensures HoldsPages(key, pages, 1, HoldAll(pages[0].items, o), pages[0].next) <==> KeysOnce(key, pages[0].items)
  {
    var first := pages[0].items;
    assert pages[..1] == [pages[0]] && pages[..1][..0] == [];
    assert Concat(pages[..1]) == Concat<T>([]) + first == first;
    assert Plain(HoldAll(first, o)) == first;
    FirstsHasKeys(key, first);
    if KeysOnce(key, first) { FirstsOfOnce(key, first); }
  }

  lemma {:induction false} FirstsOfOnce<T, K>(key: T -> K, items: seq<T>)
    requires KeysOnce(key, items)
    ensures Firsts(key, items) == items
  {
    if items != [] {
      FirstsOfOnce(key, items[..|items| - 1]);
    }
  }

  // The cursor says how many pages are held.
  lemma CursorTellsPosition<T>(pages: seq<Page<T>>, k: nat, i: nat)
    requires Chain(pages) && 1 <= k <= |pages| && i < |pages| - 1
    ensures CursorAfter(pages, k) == pages[i].next <==> k == i + 1
  {
  }

  // Appending the page for the current cursor moves on by exactly one page.
  lemma NextPage<T, K>(
    key: T -> K, pages: seq<Page<T>>, k: nat, items: seq<Held<T>>, next: Option<Cursor>, cursor: Cursor, page: Page<T>,
    o: Origin)
    requires Chain(pages) && HoldsPages(key, pages, k, items, next)
    requires Follows(pages, cursor, page) && next == Some(cursor)
    ensures k < |pages|
    ensures HoldsPages(key, pages, k + 1, Merge(key, items, page.items, o), NextCursor(cursor, page.next))
  {
    var i :| 0 <= i < |pages| - 1 && pages[i].next == Some(cursor) && page == pages[i + 1];
    CursorTellsPosition(pages, k, i);
    assert pages[..k + 1][..k] == pages[..k];
    assert Concat(pages[..k + 1]) == Concat(pages[..k]) + page.items;
    MergeReadsOn(key, items, Concat(pages[..k]), page.items, o);
  }

  // Once all pages are held there is no cursor to load more with: a server that
  // repeats its last cursor does not keep the reader going.
  lemma LastPageStops<T>(pages: seq<Page<T>>, k: nat)
    requires Chain(pages) && 1 <= k <= |pages|
    ensures HasCursor(CursorAfter(pages, k)) <==> k < |pages|
  {
  }
}
