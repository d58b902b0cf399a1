// The unified inbox: reading all pages or failing, and building the rows.
module Inbox {
  import opened Wrappers
  import opened Ordering

  // ---- Reading all pages ----

  datatype Page<T> = Page(items: seq<T>, next: Option<string>)
  datatype Read<T> = Got(page: Page<T>) | Failed

  datatype Outcome<T> =
    | Items(items: seq<T>)
    | Aborted
    | ReadFailed
    | RepeatedCursor
    | TooManyPages

  const PAGE_LIMIT := 100

  // An empty cursor is falsy and ends the pages like an absent one.
  predicate HasMore<T>(page: Page<T>) {
    page.next.Some? && page.next.value != ""
  }

  // The server's answers: the n-th read, with a cursor. The same cursor may be
  // answered differently another time.
  type Reader<!T> = (nat, Option<string>) -> Read<T>

  // The cursor with which page n is read, when pages 0 .. n-1 lead to it.
  ghost function CursorAt<T>(read: Reader<T>, n: nat): Option<Option<string>> {
    if n == 0 then Some(None)
    else
      match CursorAt(read, n - 1)
      case None => None
      case Some(cursor) =>
        match read(n - 1, cursor)
        case Failed => None
        case Got(page) => if HasMore(page) then Some(page.next) else None
  }

  // Page n exists and is the last one.
  ghost predicate EndsAt<T>(read: Reader<T>, n: nat) {
    CursorAt(read, n).Some? && read(n, CursorAt(read, n).value).Got? && !HasMore(read(n, CursorAt(read, n).value).page)
  }

  // The items of pages 0 .. n-1 in order.
  ghost function Concatenation<T>(read: Reader<T>, n: nat): seq<T> {
    if n == 0 then []
    else Concatenation(read, n - 1) +
         (if CursorAt(read, n - 1).Some? && read(n - 1, CursorAt(read, n - 1).value).Got?
          then read(n - 1, CursorAt(read, n - 1).value).page.items else [])
  }

  // The cursor for page n was the cursor of an earlier page.
  ghost predicate RepeatsAt<T>(read: Reader<T>, n: nat) {
    CursorAt(read, n).Some? && exists m: nat :: 0 < m < n && CursorAt(read, m) == CursorAt(read, n)
  }

  // Pages 0 .. n-1 lead to page n, no cursor came twice, and nobody aborted.
  ghost predicate Reaches<T>(read: Reader<T>, aborted: nat -> bool, n: nat) {
    && CursorAt(read, n).Some?
    && (forall i: nat :: i <= n ==> !RepeatsAt(read, i))
    && (forall i: nat :: i < n ==> !aborted(i))
  }

  // How the reading may end with page n: it is the last one; it names a cursor that
  // came before; it is not answered; or nobody wants it any more.
  ghost predicate Complete<T>(read: Reader<T>, aborted: nat -> bool, n: nat) {
    n < PAGE_LIMIT && Reaches(read, aborted, n) && !aborted(n) && EndsAt(read, n)
  }

  ghost predicate Circles<T>(read: Reader<T>, aborted: nat -> bool, n: nat) {
    n < PAGE_LIMIT && Reaches(read, aborted, n) && !aborted(n) && RepeatsAt(read, n + 1)
  }

  ghost predicate Breaks<T>(read: Reader<T>, aborted: nat -> bool, n: nat) {
    n < PAGE_LIMIT && Reaches(read, aborted, n) && !aborted(n) && read(n, CursorAt(read, n).value).Failed?
  }

  ghost predicate Aborts<T>(read: Reader<T>, aborted: nat -> bool, n: nat) {
    n < PAGE_LIMIT && Reaches(read, aborted, n) && aborted(n)
  }

  // Each cursor is answered the same way whenever it is read.
  ghost predicate Steady<T(!new)>(read: Reader<T>) {
    forall m, n, cursor :: read(m, cursor) == read(n, cursor)
  }

  // Returns the whole chain of pages if and only if it ends within the limit with
  // no cursor coming twice; otherwise it fails, for exactly the reason at hand.
  // aborted(i) is the signal before page i.
  method ReadInboxPages<T(!new)>(read: Reader<T>, aborted: nat -> bool) returns (r: Outcome<T>)
    ensures r.Items? <==> exists n: nat :: Complete(read, aborted, n)
    ensures forall n: nat :: r.Items? && Complete(read, aborted, n) ==> r.items == Concatenation(read, n + 1)
    ensures r.RepeatedCursor? <==> exists n: nat :: Circles(read, aborted, n)
    ensures r.RepeatedCursor? && Steady(read) ==> forall n: nat :: !EndsAt(read, n)
    ensures r.ReadFailed? <==> exists n: nat :: Breaks(read, aborted, n)
    ensures r.Aborted? <==> exists n: nat :: Aborts(read, aborted, n)
    ensures r.TooManyPages? <==> Reaches(read, aborted, PAGE_LIMIT)
    ensures r.TooManyPages? ==> forall n: nat :: n < PAGE_LIMIT ==> !EndsAt(read, n)
  {
    var items: seq<T> := [];
    var seen: set<string> := {};
    var cursor: Option<string> := None;
    var page := 0;
    assert Reaches(read, aborted, 0);
    hide Steady, Reaches, Complete, Circles, Breaks, Aborts, RepeatsAt, SeenIs;
    NothingSeen(read);
    while page < PAGE_LIMIT
      invariant 0 <= page <= PAGE_LIMIT
      invariant CursorAt(read, page) == Some(cursor) && Reaches(read, aborted, page)
      invariant items == Concatenation(read, page)
      invariant SeenIs(read, seen, page)
    {
      if aborted(page) {
        OnlyAborts(read, aborted, page);
        return Aborted;
      }
      var result := read(page, cursor);
      if result.Failed? {
        OnlyBreaks(read, aborted, page);
        return ReadFailed;
      }
      items := items + result.page.items;
      if !HasMore(result.page) {
        OnlyCompletes(read, aborted, page);
        return Items(items);
      }
      var next := result.page.next.value;
      SeenRepeats(read, seen, page, next);
      if next in seen {
        OnlyCircles(read, aborted, page);
        if Steady(read) { CircleNeverEnds(read, page + 1); }
        return RepeatedCursor;
      }
      NextReached(read, aborted, page);
      cursor := result.page.next;
      seen := seen + {next};
      page := page + 1;
    }
    LimitReached(read, aborted);
    return TooManyPages;
  }

  // The cursor led to one of the pages 1 .. page.
  ghost predicate Came<T>(read: Reader<T>, c: string, page: nat) {
    exists n: nat :: 0 < n <= page && CursorAt(read, n) == Some(Some(c))
  }

  ghost predicate SeenIs<T>(read: Reader<T>, seen: set<string>, page: nat) {
    forall c :: c in seen <==> Came(read, c, page)
  }

  lemma NothingSeen<T>(read: Reader<T>)
    ensures SeenIs(read, {}, 0)
  {
  }

  lemma CameNext<T>(read: Reader<T>, c: string, page: nat)
    ensures Came(read, c, page + 1) <==> Came(read, c, page) || CursorAt(read, page + 1) == Some(Some(c))
  {
    hide CursorAt;
    if Came(read, c, page) {
      var n: nat :| 0 < n <= page && CursorAt(read, n) == Some(Some(c));
      assert 0 < n <= page + 1;
    }
  }

  lemma SeenRepeats<T>(read: Reader<T>, seen: set<string>, page: nat, next: string)
    requires SeenIs(read, seen, page) && CursorAt(read, page + 1) == Some(Some(next))
    ensures next in seen <==> RepeatsAt(read, page + 1)
    ensures SeenIs(read, seen + {next}, page + 1)
  {
    hide CursorAt;
    assert next in seen <==> Came(read, next, page);
    forall c
      ensures c in seen + {next} <==> Came(read, c, page + 1)
    {
      CameNext(read, c, page);
    }
  }

  lemma NextReached<T>(read: Reader<T>, aborted: nat -> bool, page: nat)
    requires Reaches(read, aborted, page) && !aborted(page)
    requires CursorAt(read, page + 1).Some? && !RepeatsAt(read, page + 1)
    ensures Reaches(read, aborted, page + 1)
  {
  }

  ghost predicate Stops<T>(read: Reader<T>, aborted: nat -> bool, n: nat) {
    aborted(n) || CursorAt(read, n + 1).None? || RepeatsAt(read, n + 1)
  }

  lemma NothingAfterStop<T>(read: Reader<T>, aborted: nat -> bool, m: nat, n: nat)
    requires Stops(read, aborted, m) && m < n
    ensures !Reaches(read, aborted, n)
  {
    if CursorAt(read, m + 1).None? { CursorStops(read, m + 1, n); }
  }

  // The reading stops once.
  lemma StopsOnce<T>(read: Reader<T>, aborted: nat -> bool, page: nat)
    requires page < PAGE_LIMIT && Reaches(read, aborted, page) && Stops(read, aborted, page)
    ensures forall n: nat :: Reaches(read, aborted, n) && Stops(read, aborted, n) ==> n == page
    ensures !Reaches(read, aborted, PAGE_LIMIT)
  {
    NothingAfterStop(read, aborted, page, PAGE_LIMIT);
    forall n: nat | Reaches(read, aborted, n) && Stops(read, aborted, n)
      ensures n == page
    {
      if n < page { NothingAfterStop(read, aborted, n, page); }
      if page < n { NothingAfterStop(read, aborted, page, n); }
    }
  }

  lemma EndingStops<T>(read: Reader<T>, aborted: nat -> bool, n: nat)
    requires Complete(read, aborted, n) || Circles(read, aborted, n) || Breaks(read, aborted, n)
            || Aborts(read, aborted, n)
    ensures Reaches(read, aborted, n) && Stops(read, aborted, n)
  {
    hide Reaches;
  }

  // So it ends in one way: any end at all is at the page where it stops.
  lemma EndsHere<T>(read: Reader<T>, aborted: nat -> bool, page: nat)
    requires page < PAGE_LIMIT && Reaches(read, aborted, page) && Stops(read, aborted, page)
    ensures forall n: nat :: Complete(read, aborted, n) ==> n == page
    ensures forall n: nat :: Circles(read, aborted, n) ==> n == page
    ensures forall n: nat :: Breaks(read, aborted, n) ==> n == page
    ensures forall n: nat :: Aborts(read, aborted, n) ==> n == page
    ensures !Reaches(read, aborted, PAGE_LIMIT)
  {
    StopsOnce(read, aborted, page);
    hide Reaches, Stops, Complete, Circles, Breaks, Aborts;
    forall n: nat | Complete(read, aborted, n) ensures n == page { EndingStops(read, aborted, n); }
    forall n: nat | Circles(read, aborted, n) ensures n == page { EndingStops(read, aborted, n); }
    forall n: nat | Breaks(read, aborted, n) ensures n == page { EndingStops(read, aborted, n); }
    forall n: nat | Aborts(read, aborted, n) ensures n == page { EndingStops(read, aborted, n); }
  }

  lemma OnlyAborts<T>(read: Reader<T>, aborted: nat -> bool, page: nat)
    requires page < PAGE_LIMIT && Reaches(read, aborted, page) && aborted(page)
    ensures Aborts(read, aborted, page) && !Reaches(read, aborted, PAGE_LIMIT)
    ensures forall n: nat :: !Complete(read, aborted, n) && !Circles(read, aborted, n) && !Breaks(read, aborted, n)
  {
    hide Reaches;
    EndsHere(read, aborted, page);
  }

  lemma OnlyBreaks<T>(read: Reader<T>, aborted: nat -> bool, page: nat)
    requires page < PAGE_LIMIT && Reaches(read, aborted, page) && !aborted(page)
    requires CursorAt(read, page).Some? && read(page, CursorAt(read, page).value).Failed?
    ensures Breaks(read, aborted, page) && !Reaches(read, aborted, PAGE_LIMIT)
    ensures forall n: nat :: !Complete(read, aborted, n) && !Circles(read, aborted, n) && !Aborts(read, aborted, n)
  {
    hide Reaches;
    EndsHere(read, aborted, page);
  }

  lemma OnlyCompletes<T>(read: Reader<T>, aborted: nat -> bool, page: nat)
    requires page < PAGE_LIMIT && Reaches(read, aborted, page) && !aborted(page) && EndsAt(read, page)
    ensures Complete(read, aborted, page) && !Reaches(read, aborted, PAGE_LIMIT)
    ensures forall n: nat :: Complete(read, aborted, n) ==> n == page
    ensures forall n: nat :: !Circles(read, aborted, n) && !Breaks(read, aborted, n) && !Aborts(read, aborted, n)
  {
    hide Reaches;
    EndsHere(read, aborted, page);
  }

  lemma OnlyCircles<T>(read: Reader<T>, aborted: nat -> bool, page: nat)
    requires page < PAGE_LIMIT && Reaches(read, aborted, page) && !aborted(page) && RepeatsAt(read, page + 1)
    ensures Circles(read, aborted, page) && !Reaches(read, aborted, PAGE_LIMIT)
    ensures forall n: nat :: !Complete(read, aborted, n) && !Breaks(read, aborted, n) && !Aborts(read, aborted, n)
  {
    hide Reaches;
    EndsHere(read, aborted, page);
  }

  lemma LimitReached<T>(read: Reader<T>, aborted: nat -> bool)
    requires Reaches(read, aborted, PAGE_LIMIT)
    ensures forall n: nat :: !Complete(read, aborted, n) && !Circles(read, aborted, n)
    ensures forall n: nat :: !Breaks(read, aborted, n) && !Aborts(read, aborted, n)
    ensures forall n: nat :: n < PAGE_LIMIT ==> !EndsAt(read, n)
  {
    forall n: nat | n < PAGE_LIMIT
      ensures !Stops(read, aborted, n) && !EndsAt(read, n)
    {
      if Stops(read, aborted, n) { NothingAfterStop(read, aborted, n, PAGE_LIMIT); }
    }
    hide Reaches;
    forall n: nat
      ensures !Complete(read, aborted, n) && !Circles(read, aborted, n)
      ensures !Breaks(read, aborted, n) && !Aborts(read, aborted, n)
    {
      assert n < PAGE_LIMIT ==> !Stops(read, aborted, n);
    }
  }

  lemma CircleNeverEnds<T(!new)>(read: Reader<T>, n: nat)
    requires Steady(read) && RepeatsAt(read, n)
    ensures forall k: nat :: !EndsAt(read, k)
  {
    var m: nat :| 0 < m < n && CursorAt(read, m) == CursorAt(read, n);
    RepeatNeverEnds(read, m, n);
  }

  lemma {:induction false} CursorStops<T>(read: Reader<T>, m: nat, n: nat)
    requires m <= n && CursorAt(read, m).None?
    ensures CursorAt(read, n).None?
    decreases n
  {
    if m < n {
      CursorStops(read, m, n - 1);
    }
  }

  lemma {:induction false} CursorShift<T(!new)>(read: Reader<T>, m: nat, n: nat, k: nat)
    requires Steady(read) && CursorAt(read, m) == CursorAt(read, n)
    ensures CursorAt(read, m + k) == CursorAt(read, n + k)
  {
    if k > 0 {
      CursorShift(read, m, n, k - 1);
    }
  }

  lemma {:induction false} RepeatAlwaysContinues<T(!new)>(read: Reader<T>, m: nat, n: nat, k: nat)
    requires Steady(read) && m < n && CursorAt(read, m) == CursorAt(read, n) && CursorAt(read, n).Some?
    ensures CursorAt(read, k).Some?
    decreases k
  {
    if k <= n {
      if CursorAt(read, k).None? {
        CursorStops(read, k, n);
      }
    } else {
      RepeatAlwaysContinues(read, m, n, k - (n - m));
      CursorShift(read, m, n, k - n);
    }
  }

  // A server that answers each cursor the same way every time is only accused of
  // repeating one if its pages never end.
  lemma RepeatNeverEnds<T(!new)>(read: Reader<T>, m: nat, n: nat)
    requires Steady(read) && m < n && CursorAt(read, m) == CursorAt(read, n) && CursorAt(read, n).Some?
    ensures forall k :: !EndsAt(read, k)
  {
    forall k: nat
      ensures !EndsAt(read, k)
    {
      RepeatAlwaysContinues(read, m, n, k + 1);
    }
  }

  // ---- Building the rows ----

  datatype Scope = Pending | Initiated | DoneScope

  datatype Progress =
    | Draft | NeedsCorrection | Rejected | InReview | ReadyToPublish | Released | NoChange
    | Unlisted

  datatype Operation = Operation(
    id: string, title: string, progress: Progress, superseded: bool, proposalIds: seq<string>, updatedAt: string)

  datatype TaskState = Open | InProgress | Resolved | Dismissed
  datatype TaskKind = Review | Validation | SourceTask | RuntimeTask | Compatibility

  // The parsed target route of a task; Malformed when URL or decodeURIComponent
  // would throw. decoded is the decoded second path segment, proposal the query
  // parameter.
  datatype Route = Malformed | Url(pathname: string, first: string, decoded: string, proposal: Option<string>)

  datatype Task = Task(
    id: string, title: string, summary: string, state: TaskState, kind: TaskKind, route: Route, updatedAt: string)

  datatype Origin = FromOperation(operation: Operation) | FromTask(task: Task)

  datatype Row = Row(
    id: string, title: string, reason: string, action: string, group: string, state: string, updatedAt: string,
    origin: Origin)

  function KnowledgeAction(operation: Operation): Option<(string, string, string)> {
    if operation.superseded then Some(("查看记录", "由后继纠正记录继续处理", "已替代"))
    else
      match operation.progress
      case Draft => Some(("继续整理", "补充定义、适用范围并核对业务口径", "待补充"))
      case NeedsCorrection => Some(("补充与纠正", "检查未通过，需要补充或纠正知识", "待纠正"))
      case Rejected => Some(("补充与纠正", "审核未通过，需要根据审核意见纠正", "待纠正"))
      case InReview => Some(("独立审核", "核对整组知识、来源依据与检查结果", "待审核"))
      case ReadyToPublish => Some(("确认发布", "审核已通过，等待有权限的成员发布", "待发布"))
      case Released => Some(("查看知识", "已发布的知识记录", "已发布"))
      case NoChange => Some(("查看记录", "与现有知识一致，无需发布", "无变化"))
      case Unlisted => None
  }

  function TaskLabel(kind: TaskKind): (string, string) {
    match kind
    case Review => ("知识处理", "进入审核")
    case Validation => ("知识处理", "检查与纠正")
    case SourceTask => ("接入异常", "检查来源")
    case RuntimeTask => ("运行异常", "查看诊断")
    case Compatibility => ("问数问题", "检查使用约束")
  }

  function TaskStateLabel(state: TaskState): string {
    match state
    case Open => "待处理"
    case InProgress => "处理中"
    case Resolved => "已解决"
    case Dismissed => "已忽略"
  }

  predicate OperationComplete(operation: Operation) {
    operation.superseded || operation.progress.Released? || operation.progress.NoChange?
  }

  predicate TaskComplete(task: Task) {
    task.state.Resolved? || task.state.Dismissed?
  }

  predicate InScope(scope: Scope, complete: bool) {
    match scope
    case DoneScope => complete
    case Pending => !complete
    case Initiated => true
  }

  // new Map(items.map((item) => [item.id, item])).values(): the last item of each
  // id, at the place of the first.
  function Upsert<T>(id: T -> string, kept: seq<T>, item: T): seq<T> {
    if kept == [] then [item]
    else if id(kept[0]) == id(item) then [item] + kept[1..]
    else [kept[0]] + Upsert(id, kept[1..], item)
  }

  function Latest<T>(id: T -> string, items: seq<T>): seq<T> {
    if items == [] then []
    else Upsert(id, Latest(id, items[..|items| - 1]), items[|items| - 1])
  }

  function OperationRow(operation: Operation): Row
    requires KnowledgeAction(operation).Some?
  {
    var info := KnowledgeAction(operation).value;
    Row("knowledge:" + operation.id, if operation.title == "" then "未命名知识" else operation.title, info.1, info.0,
        "知识处理", info.2, operation.updatedAt, FromOperation(operation))
  }

  function TaskRow(task: Task): Row {
    var names := TaskLabel(task.kind);
    Row("task:" + task.id, task.title, task.summary, if TaskComplete(task) then "查看记录" else names.1, names.0,
        TaskStateLabel(task.state), task.updatedAt, FromTask(task))
  }

  // The proposal a task leads to, or "".
  function TaskProposal(route: Route): string
    requires route.Url?
  {
    if route.first == "changes" && route.decoded != "" then route.decoded
    else if route.pathname == "/governance" && route.proposal.Some? then route.proposal.value
    else ""
  }

  predicate Shows(operation: Operation, scope: Scope) {
    InScope(scope, OperationComplete(operation)) && KnowledgeAction(operation).Some?
  }

  predicate Owned(task: Task, owned: set<string>) {
    task.route.Url? && TaskProposal(task.route) != "" && TaskProposal(task.route) in owned
  }

  function OperationRows(operations: seq<Operation>, scope: Scope): seq<Row> {
    if operations == [] then []
    else
      OperationRows(operations[..|operations| - 1], scope) +
      if Shows(operations[|operations| - 1], scope) then [OperationRow(operations[|operations| - 1])] else []
  }

  // None when a task in scope has a malformed route.
  function TaskRows(tasks: seq<Task>, owned: set<string>, scope: Scope): Option<seq<Row>> {
    if tasks == [] then Some([])
    else
      var task := tasks[|tasks| - 1];
      match TaskRows(tasks[..|tasks| - 1], owned, scope)
      case None => None
      case Some(rows) =>
        if !InScope(scope, TaskComplete(task)) then Some(rows)
        else if task.route.Malformed? then None
        else if Owned(task, owned) then Some(rows)
        else Some(rows + [TaskRow(task)])
  }

  function OwnedProposals(operations: seq<Operation>): set<string> {
    set i, j | 0 <= i < |operations| && 0 <= j < |operations[i].proposalIds| :: operations[i].proposalIds[j]
  }

  // Most recently updated first; rank stands for the collation of localeCompare.
  function Newest(rank: string -> int): (Row, Row) -> bool {
    (a: Row, b: Row) => rank(b.updatedAt) <= rank(a.updatedAt)
  }

  function Rows(operations: seq<Operation>, tasks: seq<Task>, scope: Scope, rank: string -> int): Option<seq<Row>> {
    match TaskRows(Latest((t: Task) => t.id, tasks), OwnedProposals(operations), scope)
    case None => None
    case Some(taskRows) =>
      Some(Sort(Newest(rank), OperationRows(Latest((o: Operation) => o.id, operations), scope) + taskRows))
  }

  method BuildInbox(operations: seq<Operation>, tasks: seq<Task>, scope: Scope, rank: string -> int)
    returns (r: Option<seq<Row>>)
    ensures r == Rows(operations, tasks, scope, rank)
  {
    hide OperationRow, TaskRow, Latest, OwnedProposals, Sort, KnowledgeAction, TaskProposal, OperationRows, TaskRows;
    var proposalIds := OwnedProposals(operations);
    var latest := Latest((o: Operation) => o.id, operations);
    var rows := PushOperations(latest, scope);
    var latestTasks := Latest((t: Task) => t.id, tasks);
    var all := PushTasks(rows, latestTasks, proposalIds, scope);
    if all.None? { return None; }
    return Some(Sort(Newest(rank), all.value));
  }

  method PushOperations(latest: seq<Operation>, scope: Scope) returns (rows: seq<Row>)
    ensures rows == OperationRows(latest, scope)
  {
    hide OperationRow, KnowledgeAction;
    rows := [];
    for i := 0 to |latest|
      invariant rows == OperationRows(latest[..i], scope)
    {
      assert latest[..i + 1][..i] == latest[..i];
      var operation := latest[i];
      if InScope(scope, OperationComplete(operation)) {
        var info := KnowledgeAction(operation);
        if info.Some? {
          rows := rows + [OperationRow(operation)];
        }
      }
    }
    assert latest[..|latest|] == latest;
  }

  method PushTasks(operationRows: seq<Row>, latest: seq<Task>, proposalIds: set<string>, scope: Scope)
      returns (r: Option<seq<Row>>)
    ensures r.Some? <==> TaskRows(latest, proposalIds, scope).Some?
    ensures r.Some? ==> r.value == operationRows + TaskRows(latest, proposalIds, scope).value
  {
    hide TaskRow, TaskProposal;
    var rows := operationRows;
    for i := 0 to |latest|
      invariant TaskRows(latest[..i], proposalIds, scope).Some?
      invariant rows == operationRows + TaskRows(latest[..i], proposalIds, scope).value
    {
      assert latest[..i + 1][..i] == latest[..i];
      var task := latest[i];
      if !InScope(scope, TaskComplete(task)) {
        continue;
      }
      if task.route.Malformed? {
        MalformedStays(latest, i + 1, proposalIds, scope);
        return None;
      }
      var proposalId := TaskProposal(task.route);
      if proposalId != "" && proposalId in proposalIds {
        continue;
      }
      rows := rows + [TaskRow(task)];
    }
    assert latest[..|latest|] == latest;
    return Some(rows);
  }

  lemma {:induction false} MalformedStays(tasks: seq<Task>, n: nat, owned: set<string>, scope: Scope)
    requires n <= |tasks| && TaskRows(tasks[..n], owned, scope).None?
    ensures TaskRows(tasks, owned, scope).None?
    decreases |tasks| - n
  {
    if n < |tasks| {
      assert tasks[..n + 1][..n] == tasks[..n];
      MalformedStays(tasks, n + 1, owned, scope);
    } else {
      assert tasks[..n] == tasks;
    }
  }
}
