// The draft of a production operation and its server: a compare-and-set store,
// lost answers, retries of the same request, and refreshes at any time.
module DraftPanel {
  import opened Wrappers

  type Id = nat
  type Content = string

  // One version of one operation; the panel writes it as id:version.
  datatype Pin = Pin(id: Id, version: nat)

  datatype Op = Op(version: nat, frozen: bool)

  datatype Body = Create | Supersede(old_: Id) | Replace(id: Id, expected: nat)

  // base is the version that the draft was loaded from.
  datatype Request = Request(key: nat, body: Body, content: Content, base: Option<Pin>)

  datatype Reply = Accepted(pin: Pin) | Rejected

  // An accepted replace: the version that it replaced, and the version that its
  // draft was made from.
  datatype Overwrite = Overwrite(replaced: Pin, base: Option<Pin>)

  datatype Server = Server(
    ops: map<Id, Op>, history: map<Pin, Content>, answers: map<nat, Reply>, nextId: Id, log: seq<Overwrite>)

  datatype Detail = Detail(pin: Pin, content: Content, frozen: bool, released: bool)

  // A read of the selected operation that is on its way; the answer is no older
  // than lower.
  datatype Reading = Reading(id: Id, lower: nat)

  // request is being written, pending has no certain answer yet, settling is the
  // read that follows an accepted write.
  datatype Runtime = Runtime(
    selected: Option<Id>,
    detail: Option<Detail>,
    reading: Option<Reading>,
    request: Option<Request>,
    pending: Option<Request>,
    settling: bool,
    detailFailed: bool,
    listFailed: bool,
    sent: map<nat, Request>,
    nextKey: nat)

  datatype Panel = Panel(draft: Option<Content>, draftKey: Option<Pin>, dirty: bool, acceptedSave: Option<Pin>)

  // located: the panel was opened for one operation.
  datatype State = State(located: bool, server: Server, runtime: Runtime, panel: Panel)

  datatype Step =
    | Start(content: Content)
    | OpenRecord(id: Id)
    | Edit(content: Content)
    | Save(ready: bool)
    | Retry
    | Discard
    | Back
    | Refresh
    | ReadArrives(version: nat, frozen: bool, released: bool)
    | ReadFails
    | ListArrives
    | ListFails(denied: bool)
    | AnswerArrives
    | AnswerLost
    | ServerApplies(key: nat)
    | ServerRefuses(key: nat)
    | OthersReplace(id: Id, content: Content)
    | OthersFreeze(id: Id)
    | OthersCreate(content: Content)

  const EMPTY_SERVER := Server(map[], map[], map[], 0, [])

  function Initial(located: bool, server: Server): State {
    State(located, server, Runtime(None, None, None, None, None, false, false, false, map[], 0),
      Panel(None, None, false, None))
  }

  // ---- The panel ----

  // The reload effect.
  function Reload(panel: Panel, detail: Option<Detail>): Panel {
    if detail.None? || panel.draftKey == Some(detail.value.pin) then panel
    else if panel.dirty && panel.draftKey.Some? && panel.acceptedSave != Some(detail.value.pin) then panel
    else Panel(Some(detail.value.content), Some(detail.value.pin), false, panel.acceptedSave)
  }

  predicate Busy(r: Runtime) {
    r.request.Some? || r.settling
  }

  predicate Locked(s: State) {
    var r := s.runtime;
    || Busy(r) || r.pending.Some? || r.detailFailed || r.listFailed
    || (r.detail.Some? && r.detail.value.released) || (s.located && r.detail.None?)
  }

  predicate CanSave(s: State) {
    !Locked(s) && s.panel.draft.Some? && (s.panel.dirty || s.runtime.detail.None?)
  }

  // A frozen operation is superseded; another one is replaced at the version that
  // the draft key names; without one a new operation is created.
  function SaveBody(s: State): Body {
    match s.runtime.detail
    case None => Create
    case Some(d) =>
      if d.frozen then Supersede(d.pin.id)
      else Replace(d.pin.id, if s.panel.draftKey.Some? then s.panel.draftKey.value.version else 0)
  }

  function SaveRequest(s: State): Request
    requires s.panel.draft.Some?
  {
    Request(s.runtime.nextKey, SaveBody(s), s.panel.draft.value, s.panel.draftKey)
  }

  // ---- The runtime ----

  function VersionOf(server: Server, id: Id): nat {
    if id in server.ops then server.ops[id].version else 0
  }

  // open: an earlier read is outdated from here on.
  function Open(r: Runtime, server: Server, id: Id): Runtime {
    r.(selected := Some(id),
       reading := Some(Reading(id, VersionOf(server, id))),
       detail := if r.detail.Some? && r.detail.value.pin.id == id then r.detail else None)
  }

  // ---- The server ----

  function Write(server: Server, pin: Pin, frozen: bool, content: Content): Server {
    server.(ops := server.ops[pin.id := Op(pin.version, frozen)], history := server.history[pin := content])
  }

  predicate Accepts(server: Server, body: Body) {
    match body
    case Create => true
    case Supersede(old_) => old_ in server.ops
    case Replace(id, expected) => id in server.ops && !server.ops[id].frozen && server.ops[id].version == expected
  }

  // Each key is answered once; an accepted request writes one version.
  function Apply(server: Server, r: Request): Server {
    if !Accepts(server, r.body) then server.(answers := server.answers[r.key := Rejected])
    else
      var pin := if r.body.Replace? then Pin(r.body.id, r.body.expected + 1) else Pin(server.nextId, 1);
      var written := Write(server, pin, false, r.content);
      written.(answers := server.answers[r.key := Accepted(pin)],
               nextId := if r.body.Replace? then server.nextId else server.nextId + 1,
               log := if r.body.Replace? then server.log + [Overwrite(Pin(r.body.id, r.body.expected), r.base)]
                 else server.log)
  }

  // ---- Steps ----

  predicate Enabled(s: State, step: Step) {
    var r, p := s.runtime, s.panel;
    match step
    case Start(_) => r.detail.None? && p.draft.None? && !Busy(r) && r.pending.None? && r.selected.None?
    case OpenRecord(_) => r.detail.None? && p.draft.None? && !Busy(r)
    case Edit(_) => p.draft.Some? && !Locked(s)
    case Save(ready) => ready && CanSave(s)
    case Retry => r.pending.Some? && !Busy(r)
    case Discard => p.dirty && p.draftKey.Some? && r.detail.Some? && p.draftKey != Some(r.detail.value.pin)
    case Refresh => !Busy(r) && r.selected.Some?
    case ReadArrives(version, _, _) =>
      && r.reading.Some? && r.reading.value.lower <= version
      && Pin(r.reading.value.id, version) in s.server.history
    case ReadFails => r.reading.Some?
    case AnswerArrives => r.request.Some? && r.request.value.key in s.server.answers
    case AnswerLost => r.request.Some?
    case ServerApplies(key) => key in r.sent && key !in s.server.answers
    case ServerRefuses(key) => key in r.sent && key !in s.server.answers
    case OthersReplace(id, _) => id in s.server.ops && !s.server.ops[id].frozen
    case OthersFreeze(id) => id in s.server.ops
    case _ => true
  }

  function Answered(s: State): State
    requires Enabled(s, AnswerArrives)
  {
    var r := s.runtime;
    match s.server.answers[r.request.value.key]
    case Rejected => s.(runtime := r.(request := None, pending := None))
    case Accepted(pin) =>
      s.(runtime := Open(r.(request := None, pending := None, settling := true), s.server, pin.id),
         panel := s.panel.(acceptedSave := Some(pin)))
  }

  function Arrived(s: State, version: nat, frozen: bool, released: bool): State
    requires Enabled(s, ReadArrives(version, frozen, released))
  {
    var r := s.runtime;
    var pin := Pin(r.reading.value.id, version);
    var detail := Some(Detail(pin, s.server.history[pin], frozen, released));
    s.(runtime := r.(detail := detail, reading := None, settling := false, detailFailed := false),
       panel := Reload(s.panel, detail))
  }

  function Next(s: State, step: Step): State
    requires Enabled(s, step)
  {
    var r, p := s.runtime, s.panel;
    match step
    case Start(content) => s.(panel := p.(draft := Some(content), dirty := true))
    case OpenRecord(id) => s.(runtime := Open(r, s.server, id))
    case Edit(content) => s.(panel := Reload(p.(draft := Some(content), dirty := true), r.detail))
    case Save(_) =>
      var request := SaveRequest(s);
      s.(runtime := r.(request := Some(request), sent := r.sent[r.nextKey := request], nextKey := r.nextKey + 1))
    case Retry => s.(runtime := r.(request := r.pending))
    case Discard => s.(panel := Reload(p.(dirty := false, draftKey := None), r.detail))
    case Back =>
      s.(runtime := r.(selected := None, detail := None, reading := None, settling := false, detailFailed := false),
         panel := p.(draft := None, draftKey := None, dirty := false))
    case Refresh => s.(runtime := Open(r, s.server, r.selected.value))
    case ReadArrives(version, frozen, released) => Arrived(s, version, frozen, released)
    case ReadFails => s.(runtime := r.(detail := None, reading := None, settling := false, detailFailed := true))
    case ListArrives => s.(runtime := r.(listFailed := false))
    case ListFails(denied) => s.(runtime := r.(listFailed := true, detail := if denied then None else r.detail))
    case AnswerArrives => Answered(s)
    case AnswerLost => s.(runtime := r.(request := None, pending := r.request))
    case ServerApplies(key) => s.(server := Apply(s.server, r.sent[key]))
    case ServerRefuses(key) => s.(server := s.server.(answers := s.server.answers[key := Rejected]))
    case OthersReplace(id, content) =>
      s.(server := Write(s.server, Pin(id, s.server.ops[id].version + 1), false, content))
    case OthersFreeze(id) => s.(server := s.server.(ops := s.server.ops[id := s.server.ops[id].(frozen := true)]))
    case OthersCreate(content) =>
      s.(server := Write(s.server, Pin(s.server.nextId, 1), false, content).(nextId := s.server.nextId + 1))
  }

  ghost function Run(s: State, steps: seq<Step>): Option<State>
    decreases |steps|
  {
    if steps == [] then Some(s)
    else if Enabled(s, steps[0]) then Run(Next(s, steps[0]), steps[1..])
    else None
  }

  // ---- The component ----

  class ProductionPanel {
    const located: bool
    var runtime: Runtime
    var draft: Option<Content>
    var draftKey: Option<Pin>
    var dirty: bool
    var acceptedSave: Option<Pin>

    constructor (located: bool)
      ensures this.located == located && View(EMPTY_SERVER) == Initial(located, EMPTY_SERVER)
    {
      this.located := located;
      runtime := Runtime(None, None, None, None, None, false, false, false, map[], 0);
      draft, draftKey, dirty, acceptedSave := None, None, false, None;
    }

    ghost function PanelView(): Panel
      reads `draft, `draftKey, `dirty, `acceptedSave
    {
      Panel(draft, draftKey, dirty, acceptedSave)
    }

    ghost function View(server: Server): State
      reads this
    {
      State(located, server, runtime, PanelView())
    }

    method ReloadEffect()
      modifies `draft, `draftKey, `dirty
      ensures PanelView() == Reload(old(PanelView()), runtime.detail)
    {
      if runtime.detail.None? { return; }
      var detail := runtime.detail.value;
      var loadedKey := Some(detail.pin);
      if loadedKey == draftKey { return; }
      if dirty && draftKey.Some? && loadedKey != acceptedSave { return; }
      draft := Some(detail.content);
      draftKey := loadedKey;
      dirty := false;
    }

    method UpdateDraft(content: Content, ghost server: Server)
      requires Enabled(View(server), Edit(content))
      modifies `draft, `draftKey, `dirty
      ensures View(server) == Next(old(View(server)), Edit(content))
    {
      draft := Some(content);
      dirty := true;
      ReloadEffect();
    }

    // save: the request carries the draft and the version number of its key.
    method SaveDraft(ready: bool, ghost server: Server) returns (request: Option<Request>)
      modifies `runtime
      ensures request.Some? <==> Enabled(old(View(server)), Save(ready))
      ensures request.Some? ==> request.value == SaveRequest(old(View(server)))
      ensures View(server) == if request.Some? then Next(old(View(server)), Save(ready)) else old(View(server))
    {
      var busy := runtime.request.Some? || runtime.settling;
      var locked := busy || runtime.pending.Some? || runtime.detailFailed || runtime.listFailed
        || (runtime.detail.Some? && runtime.detail.value.released) || (located && runtime.detail.None?);
      var canSave := !locked && draft.Some? && ready && (dirty || runtime.detail.None?);
      if !canSave { return None; }
      var body: Body;
      if runtime.detail.None? {
        body := Create;
      } else if runtime.detail.value.frozen {
        body := Supersede(runtime.detail.value.pin.id);
      } else {
        body := Replace(runtime.detail.value.pin.id, if draftKey.Some? then draftKey.value.version else 0);
      }
      var r := Request(runtime.nextKey, body, draft.value, draftKey);
      runtime := runtime.(request := Some(r), sent := runtime.sent[r.key := r], nextKey := r.key + 1);
      return Some(r);
    }

    // The server's answer to the write; an accepted save is remembered and read.
    method AnswerReceived(server: Server)
      requires Enabled(View(server), AnswerArrives)
      modifies `runtime, `acceptedSave
      ensures View(server) == Next(old(View(server)), AnswerArrives)
    {
      var reply := server.answers[runtime.request.value.key];
      runtime := runtime.(request := None, pending := None);
      if reply.Accepted? {
        acceptedSave := Some(reply.pin);
        runtime := Open(runtime.(settling := true), server, reply.pin.id);
      }
    }

    method DetailArrived(server: Server, version: nat, frozen: bool, released: bool)
      requires Enabled(View(server), ReadArrives(version, frozen, released))
      modifies this
      ensures View(server) == Next(old(View(server)), ReadArrives(version, frozen, released))
    {
      var pin := Pin(runtime.reading.value.id, version);
      var detail := Detail(pin, server.history[pin], frozen, released);
      runtime := runtime.(detail := Some(detail), reading := None, settling := false, detailFailed := false);
      ReloadEffect();
    }

    method DiscardDraft(ghost server: Server)
      requires Enabled(View(server), Discard)
      modifies `draft, `draftKey, `dirty
      ensures View(server) == Next(old(View(server)), Discard)
    {
      dirty := false;
      draftKey := None;
      ReloadEffect();
    }

    method BackToRecords(ghost server: Server)
      modifies this
      ensures View(server) == Next(old(View(server)), Back)
    {
      runtime := runtime.(selected := None, detail := None, reading := None, settling := false, detailFailed := false);
      draft := None;
      draftKey := None;
      dirty := false;
    }
  }
}
