// The order of the inbox: newest first, and what was updated at the same time in the
// order of its first appearance, knowledge before tasks.
module InboxOrder {
  import opened Wrappers
  import opened Ordering
  import opened Inbox
  import opened InboxProofs

  // ---- A stable sort ----

  ghost predicate Ordered<T>(earlier: (T, T) -> bool, s: seq<T>) {
    forall i, j :: 0 <= i < j < |s| ==> earlier(s[i], s[j])
  }

  // Those that compare equal are in order.
  ghost predicate TiesOrdered<T>(leq: (T, T) -> bool, earlier: (T, T) -> bool, s: seq<T>) {
    forall i, j :: 0 <= i < j < |s| && leq(s[j], s[i]) ==> earlier(s[i], s[j])
  }

  lemma {:induction false} InsertStable<T(!new)>(leq: (T, T) -> bool, earlier: (T, T) -> bool, x: T, s: seq<T>)
    requires TotalPreorder(leq) && Sorted(leq, s) && TiesOrdered(leq, earlier, s)
    requires forall y :: y in s ==> earlier(x, y)
    ensures TiesOrdered(leq, earlier, Insert(leq, x, s))
  {
    if s != [] && !leq(x, s[0]) {
      var rest := Insert(leq, x, s[1..]);
      InsertStable(leq, earlier, x, s[1..]);
      InsertPermutes(leq, x, s[1..]);
      forall j | 0 <= j < |rest| && leq(rest[j], s[0])
        ensures earlier(s[0], rest[j])
      {
        assert rest[j] in multiset(rest);
        if rest[j] in s[1..] {
          var k :| 0 <= k < |s[1..]| && s[1..][k] == rest[j];
          assert s[k + 1] == rest[j];
        }
      }
    }
  }

  lemma {:induction false} SortStable<T(!new)>(leq: (T, T) -> bool, earlier: (T, T) -> bool, s: seq<T>)
    requires TotalPreorder(leq) && Ordered(earlier, s)
    ensures TiesOrdered(leq, earlier, Sort(leq, s))
  {
    if s != [] {
      var rest := Sort(leq, s[1..]);
      SortStable(leq, earlier, s[1..]);
      SortSorts(leq, s[1..]);
      SortPermutes(leq, s[1..]);
      forall y | y in rest
        ensures earlier(s[0], y)
      {
        assert y in multiset(rest);
        var k :| 0 <= k < |s[1..]| && s[1..][k] == y;
        assert s[k + 1] == y;
      }
      InsertStable(leq, earlier, s[0], rest);
    }
  }

  // ---- First appearance ----

  // The first id appears before the second one does.
  ghost predicate Appears<T>(id: T -> string, items: seq<T>, a: string, b: string) {
    exists k :: 0 <= k < |items| && id(items[k]) == a && forall l :: 0 <= l <= k ==> id(items[l]) != b
  }

  ghost predicate HasId<T>(id: T -> string, items: seq<T>, a: string) {
    exists k :: 0 <= k < |items| && id(items[k]) == a
  }

  // The ids stay where they are; a new one comes last.
  lemma {:induction false} UpsertIds<T>(id: T -> string, kept: seq<T>, item: T)
    ensures var after := Upsert(id, kept, item);
            && |kept| <= |after| <= |kept| + 1
            && (forall i :: 0 <= i < |kept| ==> id(after[i]) == id(kept[i]))
            && (|after| == |kept| + 1 ==> id(after[|kept|]) == id(item) && !HasId(id, kept, id(item)))
            && (|after| == |kept| ==> HasId(id, kept, id(item)))
  {
    if kept != [] && id(kept[0]) != id(item) {
      UpsertIds(id, kept[1..], item);
      if HasId(id, kept[1..], id(item)) {
        var k :| 0 <= k < |kept[1..]| && id(kept[1..][k]) == id(item);
        assert id(kept[k + 1]) == id(item);
      }
      if HasId(id, kept, id(item)) {
        var k :| 0 <= k < |kept| && id(kept[k]) == id(item);
        assert id(kept[1..][k - 1]) == id(item);
      }
    }
  }

  lemma {:induction false} LatestIds<T>(id: T -> string, items: seq<T>)
    ensures forall a :: HasId(id, Latest(id, items), a) <==> HasId(id, items, a)
  {
    LatestKeepsLast(id, items);
    var latest := Latest(id, items);
    forall a
      ensures HasId(id, latest, a) <==> HasId(id, items, a)
    {
      if HasId(id, latest, a) {
        var k :| 0 <= k < |latest| && id(latest[k]) == a;
        assert latest[k] in latest && IsLast(id, items, latest[k]);
      }
      if HasId(id, items, a) { LastWithId(id, items, a); }
    }
  }

  lemma {:induction false} LastWithId<T>(id: T -> string, items: seq<T>, a: string)
    requires HasId(id, items, a)
    ensures HasId(id, Latest(id, items), a)
  {
    var n := |items| - 1;
    var before := Latest(id, items[..n]);
    UpsertHasId(id, before, items[n]);
    if id(items[n]) != a {
      var k :| 0 <= k < |items| && id(items[k]) == a;
      assert items[..n][k] == items[k];
      LastWithId(id, items[..n], a);
      UpsertIds(id, before, items[n]);
      var j :| 0 <= j < |before| && id(before[j]) == a;
      assert id(Latest(id, items)[j]) == a;
    }
  }

  lemma {:induction false} UpsertHasId<T>(id: T -> string, kept: seq<T>, item: T)
    ensures HasId(id, Upsert(id, kept, item), id(item))
  {
    var after := Upsert(id, kept, item);
    if kept == [] || id(kept[0]) == id(item) {
      assert id(after[0]) == id(item);
    } else {
      UpsertHasId(id, kept[1..], item);
      var k :| 0 <= k < |after[1..]| && id(after[1..][k]) == id(item);
      assert id(after[k + 1]) == id(item);
    }
  }

  // The latest items stand in the order in which their ids first appeared.
  lemma {:induction false} LatestKeepsPlace<T>(id: T -> string, items: seq<T>)
    ensures forall i, j :: 0 <= i < j < |Latest(id, items)| ==>
              Appears(id, items, id(Latest(id, items)[i]), id(Latest(id, items)[j]))
  {
    if items != [] {
      var n := |items| - 1;
      var before, after := Latest(id, items[..n]), Latest(id, items);
      LatestKeepsPlace(id, items[..n]);
      UpsertIds(id, before, items[n]);
      LatestIds(id, items[..n]);
      hide Latest, Upsert;
      forall i, j | 0 <= i < j < |after|
        ensures Appears(id, items, id(after[i]), id(after[j]))
      {
        if j < |before| {
          AppearsLonger(id, items, n, id(after[i]), id(after[j]));
        } else {
          assert HasId(id, before, id(after[i])) by { assert id(before[i]) == id(after[i]); }
          AppearsBeforeNew(id, items, n, id(after[i]), id(after[j]));
        }
      }
    }
  }

  lemma AppearsLonger<T>(id: T -> string, items: seq<T>, n: nat, a: string, b: string)
    requires n <= |items| && Appears(id, items[..n], a, b)
    ensures Appears(id, items, a, b)
  {
    var k :| 0 <= k < n && id(items[..n][k]) == a && forall l :: 0 <= l <= k ==> id(items[..n][l]) != b;
    assert forall l :: 0 <= l <= k ==> items[..n][l] == items[l];
    assert id(items[k]) == a;
  }

  lemma AppearsBeforeNew<T>(id: T -> string, items: seq<T>, n: nat, a: string, b: string)
    requires n < |items| && HasId(id, items[..n], a) && !HasId(id, items[..n], b)
    ensures Appears(id, items, a, b)
  {
    var k :| 0 <= k < n && id(items[..n][k]) == a;
    assert items[k] == items[..n][k];
    forall l | 0 <= l <= k
      ensures id(items[l]) != b
    {
      assert items[..n][l] == items[l];
    }
  }

  // ---- The rows ----

  // Knowledge comes before tasks, and each of a kind in the order of appearance.
  ghost function ComesBefore(operations: seq<Operation>, tasks: seq<Task>): (Row, Row) -> bool {
    (a: Row, b: Row) =>
      match (a.origin, b.origin)
      case (FromOperation(o), FromOperation(p)) => Appears(OperationId, operations, o.id, p.id)
      case (FromOperation(_), FromTask(_)) => true
      case (FromTask(_), FromOperation(_)) => false
      case (FromTask(t), FromTask(u)) => Appears(TaskId, tasks, t.id, u.id)
  }

  function OperationId(o: Operation): string { o.id }

  function TaskId(t: Task): string { t.id }

  ghost predicate InPlace<T>(id: T -> string, all: seq<T>, latest: seq<T>) {
    forall i, j :: 0 <= i < j < |latest| ==> Appears(id, all, id(latest[i]), id(latest[j]))
  }

  lemma {:induction false} OperationRowsOrdered(
    operations: seq<Operation>, tasks: seq<Task>, latest: seq<Operation>, scope: Scope)
    requires InPlace(OperationId, operations, latest)
    ensures Ordered(ComesBefore(operations, tasks), OperationRows(latest, scope))
    ensures forall r :: r in OperationRows(latest, scope) ==>
              r.origin.FromOperation? && r.origin.operation in latest
  {
    hide KnowledgeAction, Appears;
    if latest != [] {
      var n := |latest| - 1;
      OperationRowsOrdered(operations, tasks, latest[..n], scope);
      assert latest == latest[..n] + [latest[n]];
      var before := OperationRows(latest[..n], scope);
      forall i | 0 <= i < |before|
        ensures Appears(OperationId, operations, before[i].origin.operation.id, latest[n].id)
      {
        assert before[i] in before;
        var k :| 0 <= k < n && latest[k] == before[i].origin.operation;
        assert OperationId(latest[k]) == latest[k].id && OperationId(latest[n]) == latest[n].id;
      }
    }
  }

  lemma {:induction false} TaskRowsOrdered(
    operations: seq<Operation>, tasks: seq<Task>, latest: seq<Task>, owned: set<string>, scope: Scope)
    requires InPlace(TaskId, tasks, latest) && TaskRows(latest, owned, scope).Some?
    ensures Ordered(ComesBefore(operations, tasks), TaskRows(latest, owned, scope).value)
    ensures forall r :: r in TaskRows(latest, owned, scope).value ==> r.origin.FromTask? && r.origin.task in latest
  {
    hide Owned, Appears;
    if latest != [] {
      var n := |latest| - 1;
      TaskRowsOrdered(operations, tasks, latest[..n], owned, scope);
      assert latest == latest[..n] + [latest[n]];
      var before := TaskRows(latest[..n], owned, scope).value;
      forall i | 0 <= i < |before|
        ensures Appears(TaskId, tasks, before[i].origin.task.id, latest[n].id)
      {
        assert before[i] in before;
        var k :| 0 <= k < n && latest[k] == before[i].origin.task;
        assert TaskId(latest[k]) == latest[k].id && TaskId(latest[n]) == latest[n].id;
      }
    }
  }

  // Rows of the same date stand in the order of first appearance, knowledge first.
  lemma TiesKeepOrder(operations: seq<Operation>, tasks: seq<Task>, scope: Scope, rank: string -> int)
    requires Rows(operations, tasks, scope, rank).Some?
    ensures var rows := Rows(operations, tasks, scope, rank).value;
            forall i, j :: 0 <= i < j < |rows| && rank(rows[i].updatedAt) == rank(rows[j].updatedAt) ==>
              ComesBefore(operations, tasks)(rows[i], rows[j])
  {
    var os, ts := Latest((o: Operation) => o.id, operations), Latest((t: Task) => t.id, tasks);
    var all := OperationRows(os, scope) + TaskRows(ts, OwnedProposals(operations), scope).value;
    AllOrdered(operations, tasks, scope);
    assert TotalPreorder(Newest(rank));
    hide Latest, OwnedProposals, OperationRows, TaskRows, Sort, Ordered, TotalPreorder, ComesBefore;
    SortStable(Newest(rank), ComesBefore(operations, tasks), all);
  }

  // So are the rows before they are sorted.
  lemma AllOrdered(operations: seq<Operation>, tasks: seq<Task>, scope: Scope)
    requires TaskRows(Latest((t: Task) => t.id, tasks), OwnedProposals(operations), scope).Some?
    ensures Ordered(ComesBefore(operations, tasks),
              OperationRows(Latest((o: Operation) => o.id, operations), scope)
              + TaskRows(Latest((t: Task) => t.id, tasks), OwnedProposals(operations), scope).value)
  {
    var os, ts := Latest((o: Operation) => o.id, operations), Latest((t: Task) => t.id, tasks);
    var owned := OwnedProposals(operations);
    LatestKeepsPlace((o: Operation) => o.id, operations);
    LatestKeepsPlace((t: Task) => t.id, tasks);
    SameAppears(operations, tasks);
    assert InPlace(OperationId, operations, os) && InPlace(TaskId, tasks, ts);
    hide Latest, OwnedProposals, Appears, InPlace, KnowledgeAction;
    OperationRowsOrdered(operations, tasks, os, scope);
    TaskRowsOrdered(operations, tasks, ts, owned, scope);
    hide OperationRows, TaskRows;
    KnowledgeThenTasks(operations, tasks, OperationRows(os, scope), TaskRows(ts, owned, scope).value);
  }

  lemma KnowledgeThenTasks(operations: seq<Operation>, tasks: seq<Task>, before: seq<Row>, after: seq<Row>)
    requires Ordered(ComesBefore(operations, tasks), before) && Ordered(ComesBefore(operations, tasks), after)
    requires (forall r :: r in before ==> r.origin.FromOperation?) && (forall r :: r in after ==> r.origin.FromTask?)
    ensures Ordered(ComesBefore(operations, tasks), before + after)
  {
    hide Appears;
    assert forall i :: 0 <= i < |before| ==> before[i] in before;
    assert forall i :: 0 <= i < |after| ==> after[i] in after;
  }

  lemma SameAppears(operations: seq<Operation>, tasks: seq<Task>)
    ensures forall a, b :: Appears((o: Operation) => o.id, operations, a, b) == Appears(OperationId, operations, a, b)
    ensures forall a, b :: Appears((t: Task) => t.id, tasks, a, b) == Appears(TaskId, tasks, a, b)
  {
    assert forall o: Operation :: OperationId(o) == ((o: Operation) => o.id)(o);
    assert forall t: Task :: TaskId(t) == ((t: Task) => t.id)(t);
  }
}
