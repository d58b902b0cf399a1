// Properties of the inbox rows: the scopes partition them, ids are unique, the
// newest come first, and tasks of owned proposals are left out.
module InboxProofs {
  import opened Wrappers
  import opened Ordering
  import opened Inbox

  // ---- The latest item of each id ----

  ghost predicate IdsOnce<T>(id: T -> string, s: seq<T>) {
    forall i, j :: 0 <= i < j < |s| ==> id(s[i]) != id(s[j])
  }

  lemma {:induction false} UpsertMember<T>(id: T -> string, kept: seq<T>, item: T, x: T)
    requires IdsOnce(id, kept)
    ensures x in Upsert(id, kept, item) <==> x == item || (x in kept && id(x) != id(item))
  {
    if kept != [] {
      assert x in kept <==> x == kept[0] || x in kept[1..];
      if id(kept[0]) != id(item) {
        UpsertMember(id, kept[1..], item, x);
      } else {
        assert x in kept[1..] ==> id(x) != id(kept[0]);
      }
    }
  }

  lemma {:induction false} UpsertIdsOnce<T>(id: T -> string, kept: seq<T>, item: T)
    requires IdsOnce(id, kept)
    ensures IdsOnce(id, Upsert(id, kept, item))
  {
    if kept != [] && id(kept[0]) != id(item) {
      UpsertIdsOnce(id, kept[1..], item);
      var rest := Upsert(id, kept[1..], item);
      forall j | 0 <= j < |rest|
        ensures id(kept[0]) != id(rest[j])
      {
        UpsertMember(id, kept[1..], item, rest[j]);
        assert rest[j] in kept[1..] ==> id(rest[j]) != id(kept[0]);
      }
    }
  }

  // x is the last item of its id.
  ghost predicate IsLast<T>(id: T -> string, items: seq<T>, x: T) {
    exists i :: 0 <= i < |items| && items[i] == x && NotLater(id, items, i)
  }

  ghost predicate NotLater<T>(id: T -> string, items: seq<T>, i: nat)
    requires i < |items|
  {
    forall j :: i < j < |items| ==> id(items[j]) != id(items[i])
  }

  lemma LastOfExtended<T>(id: T -> string, items: seq<T>, x: T)
    requires items != []
    ensures var n := |items| - 1;
            IsLast(id, items, x) <==> x == items[n] || (IsLast(id, items[..n], x) && id(x) != id(items[n]))
  {
    var n := |items| - 1;
    var init := items[..n];
    assert forall i :: 0 <= i < n ==> init[i] == items[i];
    assert NotLater(id, items, n);
    if IsLast(id, items, x) {
      var i :| 0 <= i < |items| && items[i] == x && NotLater(id, items, i);
      if i < n {
        assert init[i] == x && NotLater(id, init, i);
      }
    }
    if IsLast(id, init, x) && id(x) != id(items[n]) {
      var i :| 0 <= i < n && init[i] == x && NotLater(id, init, i);
      forall j | i < j < |items|
        ensures id(items[j]) != id(items[i])
      {
        assert j < n ==> id(init[j]) != id(init[i]);
      }
      assert items[i] == x && NotLater(id, items, i);
    }
  }

  // Latest holds each id once, with the last item of that id.
  lemma {:induction false} LatestKeepsLast<T>(id: T -> string, items: seq<T>)
    ensures IdsOnce(id, Latest(id, items))
    ensures forall x :: x in Latest(id, items) <==> IsLast(id, items, x)
  {
    if items != [] {
      var n := |items| - 1;
      LatestKeepsLast(id, items[..n]);
      UpsertIdsOnce(id, Latest(id, items[..n]), items[n]);
      hide IsLast, IdsOnce, Upsert;
      forall x
        ensures x in Latest(id, items) <==> IsLast(id, items, x)
      {
        UpsertMember(id, Latest(id, items[..n]), items[n], x);
        LastOfExtended(id, items, x);
      }
    }
  }

  // ---- The scopes partition the rows ----

  lemma {:induction false} OperationRowsPartition(operations: seq<Operation>)
    ensures multiset(OperationRows(operations, Initiated))
         == multiset(OperationRows(operations, Pending)) + multiset(OperationRows(operations, DoneScope))
  {
    hide OperationRow, KnowledgeAction;
    if operations != [] {
      OperationRowsPartition(operations[..|operations| - 1]);
    }
  }

  lemma {:induction false} TaskRowsPartition(tasks: seq<Task>, owned: set<string>)
    ensures TaskRows(tasks, owned, Initiated).Some?
       <==> TaskRows(tasks, owned, Pending).Some? && TaskRows(tasks, owned, DoneScope).Some?
    ensures TaskRows(tasks, owned, Initiated).Some? ==>
      multiset(TaskRows(tasks, owned, Initiated).value)
      == multiset(TaskRows(tasks, owned, Pending).value) + multiset(TaskRows(tasks, owned, DoneScope).value)
  {
    hide TaskRow;
    if tasks != [] {
      TaskRowsPartition(tasks[..|tasks| - 1], owned);
    }
  }

  // "initiated" can be built exactly when "pending" and "done" can, and its rows
  // are theirs together.
  lemma ScopesPartitionInbox(operations: seq<Operation>, tasks: seq<Task>, rank: string -> int)
    ensures Rows(operations, tasks, Initiated, rank).Some?
       <==> Rows(operations, tasks, Pending, rank).Some? && Rows(operations, tasks, DoneScope, rank).Some?
    ensures Rows(operations, tasks, Initiated, rank).Some? ==>
      multiset(Rows(operations, tasks, Initiated, rank).value)
      == multiset(Rows(operations, tasks, Pending, rank).value)
         + multiset(Rows(operations, tasks, DoneScope, rank).value)
  {
    RowsTogether(operations, tasks, Initiated, rank);
    RowsTogether(operations, tasks, Pending, rank);
    RowsTogether(operations, tasks, DoneScope, rank);
    hide Rows, OperationRows, TaskRows, Latest;
    OperationRowsPartition(Latest((o: Operation) => o.id, operations));
    TaskRowsPartition(Latest((t: Task) => t.id, tasks), OwnedProposals(operations));
  }

  lemma RowsTogether(operations: seq<Operation>, tasks: seq<Task>, scope: Scope, rank: string -> int)
    ensures var taskRows := TaskRows(Latest((t: Task) => t.id, tasks), OwnedProposals(operations), scope);
            && (Rows(operations, tasks, scope, rank).Some? <==> taskRows.Some?)
            && (taskRows.Some? ==>
                  multiset(Rows(operations, tasks, scope, rank).value)
                  == multiset(OperationRows(Latest((o: Operation) => o.id, operations), scope))
                     + multiset(taskRows.value))
  {
    var taskRows := TaskRows(Latest((t: Task) => t.id, tasks), OwnedProposals(operations), scope);
    if taskRows.Some? {
      var operationRows := OperationRows(Latest((o: Operation) => o.id, operations), scope);
      SortPermutes(Newest(rank), operationRows + taskRows.value);
    }
  }

  // ---- Order ----

  // The rows come most recently updated first.
  lemma NewestFirst(operations: seq<Operation>, tasks: seq<Task>, scope: Scope, rank: string -> int)
    requires Rows(operations, tasks, scope, rank).Some?
    ensures var rows := Rows(operations, tasks, scope, rank).value;
            forall i, j :: 0 <= i < j < |rows| ==> rank(rows[j].updatedAt) <= rank(rows[i].updatedAt)
  {
    var latest := Latest((o: Operation) => o.id, operations);
    var taskRows := TaskRows(Latest((t: Task) => t.id, tasks), OwnedProposals(operations), scope).value;
    assert TotalPreorder(Newest(rank));
    SortSorts(Newest(rank), OperationRows(latest, scope) + taskRows);
  }

  // ---- Which rows there are ----

  lemma {:induction false} OperationRowMembers(operations: seq<Operation>, scope: Scope)
    requires IdsOnce((o: Operation) => o.id, operations)
    ensures IdsOnce((r: Row) => r.id, OperationRows(operations, scope))
    ensures forall r :: r in OperationRows(operations, scope) <==>
      exists i :: 0 <= i < |operations| && Shows(operations[i], scope) && r == OperationRow(operations[i])
  {
    if operations != [] {
      var n := |operations| - 1;
      var init := operations[..n];
      OperationRowMembers(init, scope);
      var rows := OperationRows(init, scope);
      assert forall i :: 0 <= i < n ==> init[i] == operations[i];
      forall k | 0 <= k < |rows|
        ensures rows[k].id != "knowledge:" + operations[n].id
      {
        assert rows[k] in rows;
        var i :| 0 <= i < n && Shows(init[i], scope) && rows[k] == OperationRow(init[i]);
        PrefixInjective("knowledge:", init[i].id, operations[n].id);
      }
    }
  }

  ghost predicate TaskShows(task: Task, owned: set<string>, scope: Scope) {
    InScope(scope, TaskComplete(task)) && !Owned(task, owned)
  }

  lemma {:induction false} TaskRowMembers(tasks: seq<Task>, owned: set<string>, scope: Scope)
    requires IdsOnce((t: Task) => t.id, tasks) && TaskRows(tasks, owned, scope).Some?
    ensures IdsOnce((r: Row) => r.id, TaskRows(tasks, owned, scope).value)
    ensures forall r :: r in TaskRows(tasks, owned, scope).value <==>
      exists i :: 0 <= i < |tasks| && TaskShows(tasks[i], owned, scope) && r == TaskRow(tasks[i])
  {
    if tasks != [] {
      var n := |tasks| - 1;
      var init := tasks[..n];
      TaskRowMembers(init, owned, scope);
      var rows := TaskRows(init, owned, scope).value;
      assert forall i :: 0 <= i < n ==> init[i] == tasks[i];
      forall k | 0 <= k < |rows|
        ensures rows[k].id != "task:" + tasks[n].id
      {
        assert rows[k] in rows;
        var i :| 0 <= i < n && TaskShows(init[i], owned, scope) && rows[k] == TaskRow(init[i]);
        PrefixInjective("task:", init[i].id, tasks[n].id);
      }
    }
  }

  lemma PrefixInjective(prefix: string, a: string, b: string)
    requires a != b
    ensures prefix + a != prefix + b
  {
    assert (prefix + a)[|prefix|..] == a && (prefix + b)[|prefix|..] == b;
  }

  lemma PermutedIdsOnce<T>(id: T -> string, a: seq<T>, b: seq<T>)
    requires IdsOnce(id, a) && multiset(a) == multiset(b)
    ensures IdsOnce(id, b)
  {
    assert Distinct(a);
    DistinctOfMultiset(a, b);
    forall i, j | 0 <= i < j < |b|
      ensures id(b[i]) != id(b[j])
    {
      assert b[i] in multiset(a) && b[j] in multiset(a);
      assert b[i] in a && b[j] in a && b[i] != b[j];
    }
  }

  // Row ids are unique; the rows are those of the latest operations that the scope
  // shows and of the latest tasks in scope whose proposal no operation owns.
  lemma InboxRows(operations: seq<Operation>, tasks: seq<Task>, scope: Scope, rank: string -> int)
    requires Rows(operations, tasks, scope, rank).Some?
    ensures IdsOnce((r: Row) => r.id, Rows(operations, tasks, scope, rank).value)
    ensures forall r :: r in Rows(operations, tasks, scope, rank).value <==>
      (exists o :: o in Latest((o: Operation) => o.id, operations) && Shows(o, scope) && r == OperationRow(o))
      || (exists t :: t in Latest((t: Task) => t.id, tasks)
                      && TaskShows(t, OwnedProposals(operations), scope) && r == TaskRow(t))
  {
    var latest := Latest((o: Operation) => o.id, operations);
    var latestTasks := Latest((t: Task) => t.id, tasks);
    var owned := OwnedProposals(operations);
    LatestKeepsLast((o: Operation) => o.id, operations);
    LatestKeepsLast((t: Task) => t.id, tasks);
    OperationRowMembers(latest, scope);
    TaskRowMembers(latestTasks, owned, scope);
    var a := OperationRows(latest, scope);
    var b := TaskRows(latestTasks, owned, scope).value;
    SortPermutes(Newest(rank), a + b);
    JoinIdsOnce(a, b);
    PermutedIdsOnce((r: Row) => r.id, a + b, Sort(Newest(rank), a + b));
    forall r
      ensures r in Sort(Newest(rank), a + b) <==> r in a || r in b
    {
      assert r in Sort(Newest(rank), a + b) <==> r in multiset(Sort(Newest(rank), a + b));
      assert r in a + b <==> r in multiset(a + b);
    }
  }

  lemma JoinIdsOnce(a: seq<Row>, b: seq<Row>)
    requires IdsOnce((r: Row) => r.id, a) && IdsOnce((r: Row) => r.id, b)
    requires forall r :: r in a ==> exists o :: KnowledgeAction(o).Some? && r == OperationRow(o)
    requires forall r :: r in b ==> exists t :: r == TaskRow(t)
    ensures IdsOnce((r: Row) => r.id, a + b)
  {
    forall i, j | 0 <= i < |a| && 0 <= j < |b|
      ensures a[i].id != b[j].id
    {
      assert a[i] in a && b[j] in b;
      var o :| KnowledgeAction(o).Some? && a[i] == OperationRow(o);
      var t :| b[j] == TaskRow(t);
      assert a[i].id[0] == 'k' && b[j].id[0] == 't';
    }
  }

  // ---- What each scope shows, by where the rows come from ----

  // The proposal that a task's target names: the second segment below /changes, or
  // the parameter of /governance.
  ghost predicate LeadsTo(route: Route, proposal: string) {
    && route.Url? && proposal != ""
    && if route.first == "changes" && route.decoded != "" then proposal == route.decoded
       else route.pathname == "/governance" && route.proposal == Some(proposal)
  }

  // Some operation of the list, the latest of its id or not, owns the task's
  // proposal.
  ghost predicate OwnedBy(operations: seq<Operation>, task: Task) {
    exists o, p :: o in operations && p in o.proposalIds && LeadsTo(task.route, p)
  }

  ghost predicate LatestOperation(operations: seq<Operation>, o: Operation) {
    IsLast((o: Operation) => o.id, operations, o)
  }

  ghost predicate LatestTask(tasks: seq<Task>, t: Task) {
    IsLast((t: Task) => t.id, tasks, t)
  }

  // Someone still has to act on the knowledge.
  ghost predicate KnowledgeOpen(o: Operation) {
    !o.superseded && o.progress in {Draft, NeedsCorrection, Rejected, InReview, ReadyToPublish}
  }

  ghost predicate KnowledgeClosed(o: Operation) {
    o.superseded || o.progress in {Released, NoChange}
  }

  ghost predicate HasRow(rows: seq<Row>, origin: Origin) {
    exists i :: 0 <= i < |rows| && rows[i].origin == origin
  }

  // The rows are, once each, those of the operations and of the tasks meant.
  ghost predicate RowsOf(rows: seq<Row>, knowledge: Operation -> bool, tasks: Task -> bool) {
    && (forall i, j :: 0 <= i < j < |rows| ==> rows[i].origin != rows[j].origin)
    && (forall o :: HasRow(rows, FromOperation(o)) <==> knowledge(o))
    && (forall t :: HasRow(rows, FromTask(t)) <==> tasks(t))
  }

  lemma OwnedIsOwnedBy(operations: seq<Operation>, task: Task)
    ensures Owned(task, OwnedProposals(operations)) <==> OwnedBy(operations, task)
  {
    var owned := OwnedProposals(operations);
    if Owned(task, owned) {
      var p := TaskProposal(task.route);
      var i, j :| 0 <= i < |operations| && 0 <= j < |operations[i].proposalIds| && operations[i].proposalIds[j] == p;
      assert operations[i] in operations && p in operations[i].proposalIds && LeadsTo(task.route, p);
    }
    if OwnedBy(operations, task) {
      var o, p :| o in operations && p in o.proposalIds && LeadsTo(task.route, p);
      assert p in owned;
    }
  }

  lemma RowOrigins(o: Operation, t: Task)
    ensures KnowledgeAction(o).Some? ==> OperationRow(o).origin == FromOperation(o)
    ensures TaskRow(t).origin == FromTask(t)
    ensures KnowledgeAction(o).Some? <==> o.superseded || !o.progress.Unlisted?
  {
  }

  // By origin, the rows are those that the scope lets through.
  lemma RowsByOrigin(operations: seq<Operation>, tasks: seq<Task>, scope: Scope, rank: string -> int)
    requires Rows(operations, tasks, scope, rank).Some?
    ensures RowsOf(Rows(operations, tasks, scope, rank).value,
                   o => LatestOperation(operations, o) && Shows(o, scope),
                   t => LatestTask(tasks, t) && InScope(scope, TaskComplete(t)) && !OwnedBy(operations, t))
  {
    InboxRows(operations, tasks, scope, rank);
    LatestKeepsLast((o: Operation) => o.id, operations);
    LatestKeepsLast((t: Task) => t.id, tasks);
    var rows := Rows(operations, tasks, scope, rank).value;
    var latest, latestTasks := Latest((o: Operation) => o.id, operations), Latest((t: Task) => t.id, tasks);
    var owned := OwnedProposals(operations);
    hide Rows, Latest, OwnedProposals, KnowledgeAction, OperationRow, TaskRow, IsLast, Owned, OwnedBy, InScope;
    forall o
      ensures HasRow(rows, FromOperation(o)) <==> LatestOperation(operations, o) && Shows(o, scope)
    {
      if HasRow(rows, FromOperation(o)) {
        var i :| 0 <= i < |rows| && rows[i].origin == FromOperation(o);
        assert rows[i] in rows;
        OriginOfRow(latest, latestTasks, owned, scope, rows[i]);
      }
      if o in latest && Shows(o, scope) {
        RowOrigins(o, SomeTask());
        assert OperationRow(o) in rows;
      }
    }
    forall t
      ensures HasRow(rows, FromTask(t)) <==>
              LatestTask(tasks, t) && InScope(scope, TaskComplete(t)) && !OwnedBy(operations, t)
    {
      OwnedIsOwnedBy(operations, t);
      if HasRow(rows, FromTask(t)) {
        var i :| 0 <= i < |rows| && rows[i].origin == FromTask(t);
        assert rows[i] in rows;
        OriginOfRow(latest, latestTasks, owned, scope, rows[i]);
      }
      if t in latestTasks && TaskShows(t, owned, scope) {
        RowOrigins(SomeOperation(), t);
        assert TaskRow(t) in rows;
      }
    }
    forall i, j | 0 <= i < j < |rows|
      ensures rows[i].origin != rows[j].origin
    {
      assert rows[i] in rows && rows[j] in rows && rows[i].id != rows[j].id;
      OriginOfRow(latest, latestTasks, owned, scope, rows[i]);
      OriginOfRow(latest, latestTasks, owned, scope, rows[j]);
    }
  }

  function SomeTask(): Task {
    Task("", "", "", Open, Review, Malformed, "")
  }

  function SomeOperation(): Operation {
    Operation("", "", Draft, false, [], "")
  }

  // A row is the row of its origin.
  lemma OriginOfRow(latest: seq<Operation>, tasks: seq<Task>, owned: set<string>, scope: Scope, r: Row)
    requires (exists o :: o in latest && Shows(o, scope) && r == OperationRow(o))
             || (exists t :: t in tasks && TaskShows(t, owned, scope) && r == TaskRow(t))
    ensures match r.origin
            case FromOperation(o) => o in latest && Shows(o, scope) && r == OperationRow(o)
            case FromTask(t) => t in tasks && TaskShows(t, owned, scope) && r == TaskRow(t)
  {
    if o :| o in latest && Shows(o, scope) && r == OperationRow(o) {
      RowOrigins(o, SomeTask());
    } else {
      var t :| t in tasks && TaskShows(t, owned, scope) && r == TaskRow(t);
      RowOrigins(SomeOperation(), t);
    }
  }

  lemma SameRowsOf(
    rows: seq<Row>, knowledge: Operation -> bool, tasks: Task -> bool, knowledge': Operation -> bool,
    tasks': Task -> bool)
    requires RowsOf(rows, knowledge, tasks)
    requires (forall o :: knowledge(o) == knowledge'(o)) && (forall t :: tasks(t) == tasks'(t))
    ensures RowsOf(rows, knowledge', tasks')
  {
  }

  // "pending": the latest operations that someone still has to act on, and the
  // latest open tasks whose proposal no operation owns.
  lemma PendingShowsOpen(operations: seq<Operation>, tasks: seq<Task>, rank: string -> int)
    requires Rows(operations, tasks, Pending, rank).Some?
    ensures RowsOf(Rows(operations, tasks, Pending, rank).value,
                   o => LatestOperation(operations, o) && KnowledgeOpen(o),
                   t => LatestTask(tasks, t) && t.state in {Open, InProgress} && !OwnedBy(operations, t))
  {
    RowsByOrigin(operations, tasks, Pending, rank);
    hide Rows, LatestOperation, LatestTask, OwnedBy, RowsOf;
    SameRowsOf(Rows(operations, tasks, Pending, rank).value,
               o => LatestOperation(operations, o) && Shows(o, Pending),
               t => LatestTask(tasks, t) && InScope(Pending, TaskComplete(t)) && !OwnedBy(operations, t),
               o => LatestOperation(operations, o) && KnowledgeOpen(o),
               t => LatestTask(tasks, t) && t.state in {Open, InProgress} && !OwnedBy(operations, t));
  }

  // "done": the others.
  lemma DoneShowsClosed(operations: seq<Operation>, tasks: seq<Task>, rank: string -> int)
    requires Rows(operations, tasks, DoneScope, rank).Some?
    ensures RowsOf(Rows(operations, tasks, DoneScope, rank).value,
                   o => LatestOperation(operations, o) && KnowledgeClosed(o),
                   t => LatestTask(tasks, t) && t.state in {Resolved, Dismissed} && !OwnedBy(operations, t))
  {
    RowsByOrigin(operations, tasks, DoneScope, rank);
    hide Rows, LatestOperation, LatestTask, OwnedBy, RowsOf;
    SameRowsOf(Rows(operations, tasks, DoneScope, rank).value,
               o => LatestOperation(operations, o) && Shows(o, DoneScope),
               t => LatestTask(tasks, t) && InScope(DoneScope, TaskComplete(t)) && !OwnedBy(operations, t),
               o => LatestOperation(operations, o) && KnowledgeClosed(o),
               t => LatestTask(tasks, t) && t.state in {Resolved, Dismissed} && !OwnedBy(operations, t));
  }

  // "initiated": both.
  lemma InitiatedShowsBoth(operations: seq<Operation>, tasks: seq<Task>, rank: string -> int)
    requires Rows(operations, tasks, Initiated, rank).Some?
    ensures RowsOf(Rows(operations, tasks, Initiated, rank).value,
                   o => LatestOperation(operations, o) && (KnowledgeOpen(o) || KnowledgeClosed(o)),
                   t => LatestTask(tasks, t) && !OwnedBy(operations, t))
  {
    RowsByOrigin(operations, tasks, Initiated, rank);
    hide Rows, LatestOperation, LatestTask, OwnedBy, RowsOf;
    SameRowsOf(Rows(operations, tasks, Initiated, rank).value,
               o => LatestOperation(operations, o) && Shows(o, Initiated),
               t => LatestTask(tasks, t) && InScope(Initiated, TaskComplete(t)) && !OwnedBy(operations, t),
               o => LatestOperation(operations, o) && (KnowledgeOpen(o) || KnowledgeClosed(o)),
               t => LatestTask(tasks, t) && !OwnedBy(operations, t));
  }

  // ---- What a row says ----

  // The row says these three things: what to do, why, and how far it is.
  ghost predicate Says(r: Row, action: string, reason: string, state: string) {
    r.action == action && r.reason == reason && r.state == state
  }

  ghost predicate OperationSays(r: Row, o: Operation) {
    && r.id == "knowledge:" + o.id && r.updatedAt == o.updatedAt && r.group == "知识处理"
    && r.title == (if o.title == "" then "未命名知识" else o.title)
    && if o.superseded then Says(r, "查看记录", "由后继纠正记录继续处理", "已替代")
       else
         && (o.progress.Draft? ==> Says(r, "继续整理", "补充定义、适用范围并核对业务口径", "待补充"))
         && (o.progress.NeedsCorrection? ==> Says(r, "补充与纠正", "检查未通过，需要补充或纠正知识", "待纠正"))
         && (o.progress.Rejected? ==> Says(r, "补充与纠正", "审核未通过，需要根据审核意见纠正", "待纠正"))
         && (o.progress.InReview? ==> Says(r, "独立审核", "核对整组知识、来源依据与检查结果", "待审核"))
         && (o.progress.ReadyToPublish? ==> Says(r, "确认发布", "审核已通过，等待有权限的成员发布", "待发布"))
         && (o.progress.Released? ==> Says(r, "查看知识", "已发布的知识记录", "已发布"))
         && (o.progress.NoChange? ==> Says(r, "查看记录", "与现有知识一致，无需发布", "无变化"))
  }

  ghost predicate TaskSays(r: Row, t: Task) {
    && r.id == "task:" + t.id && r.updatedAt == t.updatedAt && r.title == t.title && r.reason == t.summary
    && (t.state.Open? ==> r.state == "待处理") && (t.state.InProgress? ==> r.state == "处理中")
    && (t.state.Resolved? ==> r.state == "已解决") && (t.state.Dismissed? ==> r.state == "已忽略")
    && (t.kind.Review? || t.kind.Validation? ==> r.group == "知识处理")
    && (t.kind.SourceTask? ==> r.group == "接入异常") && (t.kind.RuntimeTask? ==> r.group == "运行异常")
    && (t.kind.Compatibility? ==> r.group == "问数问题")
    && if t.state in {Resolved, Dismissed} then r.action == "查看记录"
       else
         && (t.kind.Review? ==> r.action == "进入审核")
         && (t.kind.Validation? ==> r.action == "检查与纠正")
         && (t.kind.SourceTask? ==> r.action == "检查来源")
         && (t.kind.RuntimeTask? ==> r.action == "查看诊断")
         && (t.kind.Compatibility? ==> r.action == "检查使用约束")
  }

  // Each row is named after its origin, dated like it, and says what is to be done.
  lemma RowSays(operations: seq<Operation>, tasks: seq<Task>, scope: Scope, rank: string -> int, r: Row)
    requires Rows(operations, tasks, scope, rank).Some? && r in Rows(operations, tasks, scope, rank).value
    ensures match r.origin case FromOperation(o) => OperationSays(r, o) case FromTask(t) => TaskSays(r, t)
  {
    InboxRows(operations, tasks, scope, rank);
    OriginOfRow(Latest((o: Operation) => o.id, operations), Latest((t: Task) => t.id, tasks),
                OwnedProposals(operations), scope, r);
    hide Rows, Latest, OwnedProposals, IdsOnce, KnowledgeAction, OperationRow, TaskRow, OperationSays, TaskSays;
    match r.origin
    case FromOperation(o) => OperationRowSays(o);
    case FromTask(t) => TaskRowSays(t);
  }

  lemma OperationRowSays(o: Operation)
    requires KnowledgeAction(o).Some?
    ensures OperationSays(OperationRow(o), o)
  {
  }

  lemma TaskRowSays(t: Task)
    ensures TaskSays(TaskRow(t), t)
  {
  }

  // ---- When there are no rows ----

  ghost predicate Meant(scope: Scope, t: Task) {
    match scope
    case Pending => t.state in {Open, InProgress}
    case DoneScope => t.state in {Resolved, Dismissed}
    case Initiated => true
  }

  lemma {:induction false} TaskRowsFail(tasks: seq<Task>, owned: set<string>, scope: Scope)
    ensures TaskRows(tasks, owned, scope).None? <==> exists t :: t in tasks && Meant(scope, t) && t.route.Malformed?
  {
    hide TaskRow, Owned;
    if tasks != [] {
      var n := |tasks| - 1;
      TaskRowsFail(tasks[..n], owned, scope);
      assert tasks == tasks[..n] + [tasks[n]];
    }
  }

  // The inbox cannot be built if and only if the scope's latest tasks hold one with
  // a malformed target.
  lemma InboxFails(operations: seq<Operation>, tasks: seq<Task>, scope: Scope, rank: string -> int)
    ensures Rows(operations, tasks, scope, rank).None? <==>
            exists t :: LatestTask(tasks, t) && Meant(scope, t) && t.route.Malformed?
  {
    LatestKeepsLast((t: Task) => t.id, tasks);
    TaskRowsFail(Latest((t: Task) => t.id, tasks), OwnedProposals(operations), scope);
    hide TaskRows, Latest, OwnedProposals, IsLast, OperationRows;
  }
}
