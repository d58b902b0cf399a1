// What the draft protocol keeps: a dirty draft is never lost, every replace names
// the version its draft was loaded from, and when that protects the other
// authors' versions.
module DraftPanelProofs {
  import opened Wrappers
  import opened DraftPanel

  // ---- The invariant ----

  ghost predicate ServerOk(server: Server) {
    && (forall id :: id in server.ops ==> id < server.nextId && Pin(id, server.ops[id].version) in server.history)
    && (forall p :: p in server.history ==> p.id in server.ops && 1 <= p.version <= server.ops[p.id].version)
  }

  // A replace names the version of its base, and the base was loaded from the server.
  ghost predicate RequestOk(server: Server, r: Request) {
    && (r.base.Some? ==> r.base.value in server.history)
    && (r.body.Replace? ==> r.base.Some? && r.body.expected == r.base.value.version)
  }

  ghost predicate SentOk(server: Server, r: Runtime) {
    && (forall k :: k in r.sent ==> k < r.nextKey && r.sent[k].key == k && RequestOk(server, r.sent[k]))
    && (forall k :: k in server.answers ==> k in r.sent)
    && (forall k :: k in server.answers && server.answers[k].Accepted? ==>
          && server.answers[k].pin in server.history
          && server.history[server.answers[k].pin] == r.sent[k].content)
    && (r.request.Some? ==> r.request.value.key in r.sent && r.sent[r.request.value.key] == r.request.value)
    && (r.pending.Some? ==> r.pending.value.key in r.sent && r.sent[r.pending.value.key] == r.pending.value)
    && (r.request.Some? && r.pending.Some? ==> r.request == r.pending)
  }

  ghost predicate RuntimeOk(server: Server, r: Runtime) {
    && (r.detail.Some? ==> r.detail.value.pin in server.history
                           && r.detail.value.content == server.history[r.detail.value.pin]
                           && r.selected == Some(r.detail.value.pin.id))
    && (r.reading.Some? ==>
      r.selected == Some(r.reading.value.id)
      && r.reading.value.lower <= VersionOf(server, r.reading.value.id))
    && (r.settling ==> r.reading.Some? && r.request.None? && r.pending.None?)
  }

  ghost predicate PanelOk(server: Server, r: Runtime, p: Panel) {
    && (p.draft.None? ==> p.draftKey.None? && !p.dirty)
    && (r.detail.Some? ==> p.draft.Some? && p.draftKey.Some?)
    && (p.draftKey.Some? ==> p.draftKey.value in server.history
                             && (!p.dirty ==> p.draft == Some(server.history[p.draftKey.value])))
    && (r.detail.Some? && !p.dirty ==>
      p.draftKey == Some(r.detail.value.pin)
      && p.draft == Some(r.detail.value.content))
    && (p.acceptedSave.Some? ==> p.acceptedSave.value in server.history)
  }

  // Reads bring nothing older than what is shown or edited.
  ghost predicate OrderOk(r: Runtime, p: Panel) {
    && (r.reading.Some? && r.detail.Some? ==> r.reading.value.lower >= r.detail.value.pin.version)
    && (r.reading.Some? && p.draftKey.Some? && r.reading.value.id == p.draftKey.value.id ==>
          r.reading.value.lower >= p.draftKey.value.version)
    && (r.detail.Some? && p.draftKey.Some? && r.detail.value.pin.id == p.draftKey.value.id ==>
          r.detail.value.pin.version >= p.draftKey.value.version)
  }

  // No read brings anything older than the last accepted save.
  ghost predicate ReadsSave(r: Runtime, p: Panel) {
    r.reading.Some? && p.acceptedSave.Some? && r.reading.value.id == p.acceptedSave.value.id ==>
      r.reading.value.lower >= p.acceptedSave.value.version
  }

  // What is being written is what the dirty draft holds.
  ghost predicate WritesDraft(r: Runtime, p: Panel) {
    && (p.dirty && r.request.Some? ==> p.draft == Some(r.request.value.content))
    && (p.dirty && r.pending.Some? ==> p.draft == Some(r.pending.value.content))
  }

  // No read can bring the version any more.
  ghost predicate Passed(server: Server, r: Runtime, pin: Pin) {
    || r.selected != Some(pin.id)
    || (VersionOf(server, pin.id) > pin.version && (r.reading.Some? ==> r.reading.value.lower > pin.version))
  }

  // An accepted save that a read may still bring is what the draft holds, and the
  // draft cannot be edited until then.
  ghost predicate SaveOk(server: Server, r: Runtime, p: Panel) {
    p.acceptedSave.Some? && p.draft.Some? && p.draftKey != p.acceptedSave && !Passed(server, r, p.acceptedSave.value)
    ==>
      && (r.settling || r.detailFailed)
      && (p.dirty ==> p.acceptedSave.value in server.history && p.draft == Some(server.history[p.acceptedSave.value]))
  }

  // The own save is only shown with an older draft while it is being read.
  ghost predicate ShownOk(r: Runtime, p: Panel) {
    r.detail.Some? && p.acceptedSave == Some(r.detail.value.pin) && p.draftKey != p.acceptedSave ==> r.settling
  }

  ghost predicate Inv(s: State) {
    && ServerOk(s.server)
    && SentOk(s.server, s.runtime)
    && RuntimeOk(s.server, s.runtime)
    && PanelOk(s.server, s.runtime, s.panel)
    && OrderOk(s.runtime, s.panel)
    && ReadsSave(s.runtime, s.panel)
    && WritesDraft(s.runtime, s.panel)
    && SaveOk(s.server, s.runtime, s.panel)
    && ShownOk(s.runtime, s.panel)
  }

  // Versions only grow, and what was written stays.
  ghost predicate ServerGrows(a: Server, b: Server) {
    && (forall p :: p in a.history ==> p in b.history && b.history[p] == a.history[p])
    && (forall id :: id in a.ops ==> id in b.ops && b.ops[id].version >= a.ops[id].version)
  }

  lemma WriteGrows(server: Server, pin: Pin, content: Content)
    requires ServerOk(server)
    requires pin.version == VersionOf(server, pin.id) + 1 && pin.id <= server.nextId
    requires pin.id in server.ops || pin.id == server.nextId
    ensures var after := Write(server, pin, false, content).(
                           nextId := if pin.id == server.nextId then server.nextId + 1 else server.nextId);
            ServerOk(after) && ServerGrows(server, after) && after.history[pin] == content
  {
  }

  lemma GrowthKeeps(a: Server, b: Server, r: Runtime, p: Panel)
    requires ServerGrows(a, b) && ServerOk(a) && RuntimeOk(a, r) && PanelOk(a, r, p) && SaveOk(a, r, p)
    ensures RuntimeOk(b, r) && PanelOk(b, r, p) && SaveOk(b, r, p)
  {
  }

  // ---- Steps of the server ----

  lemma SentGrows(a: Server, b: Server, r: Runtime)
    requires SentOk(a, r) && ServerGrows(a, b)
    requires forall k :: k in b.answers ==> k in r.sent
    requires forall k :: k in b.answers && b.answers[k].Accepted? ==>
               (k in a.answers && b.answers[k] == a.answers[k])
               || (b.answers[k].pin in b.history && b.history[b.answers[k].pin] == r.sent[k].content)
    ensures SentOk(b, r)
  {
    forall k | k in r.sent ensures RequestOk(b, r.sent[k]) { assert RequestOk(a, r.sent[k]); }
  }

  lemma ServerStep(s: State, server: Server)
    requires Inv(s) && ServerOk(server) && ServerGrows(s.server, server) && SentOk(server, s.runtime)
    ensures Inv(s.(server := server))
  {
    hide ServerOk, SentOk, WritesDraft, ShownOk;
    GrowthKeeps(s.server, server, s.runtime, s.panel);
  }

  lemma ApplyGrows(server: Server, r: Request)
    requires ServerOk(server)
    ensures ServerOk(Apply(server, r)) && ServerGrows(server, Apply(server, r))
    ensures Apply(server, r).answers.Keys == server.answers.Keys + {r.key}
    ensures forall k :: k in server.answers && k != r.key ==> Apply(server, r).answers[k] == server.answers[k]
    ensures Apply(server, r).answers[r.key].Accepted? ==>
              && Apply(server, r).answers[r.key].pin in Apply(server, r).history
              && Apply(server, r).history[Apply(server, r).answers[r.key].pin] == r.content
  {
    if Accepts(server, r.body) {
      var pin := if r.body.Replace? then Pin(r.body.id, r.body.expected + 1) else Pin(server.nextId, 1);
      WriteGrows(server, pin, r.content);
    }
  }

  lemma AppliedKeepsInv(s: State, key: nat)
    requires Inv(s) && Enabled(s, ServerApplies(key))
    ensures Inv(Next(s, ServerApplies(key)))
  {
    hide ServerOk, ServerGrows, Apply, RuntimeOk, PanelOk, WritesDraft, SaveOk, ShownOk;
    var r := s.runtime.sent[key];
    ApplyGrows(s.server, r);
    SentGrows(s.server, Apply(s.server, r), s.runtime);
    ServerStep(s, Apply(s.server, r));
  }

  lemma WrittenKeepsInv(s: State, pin: Pin, content: Content)
    requires Inv(s) && pin.version == VersionOf(s.server, pin.id) + 1
    requires pin.id in s.server.ops || pin.id == s.server.nextId
    ensures Inv(s.(server := Write(s.server, pin, false, content).(
                     nextId := if pin.id == s.server.nextId then s.server.nextId + 1 else s.server.nextId)))
  {
    var after := Write(s.server, pin, false, content).(
      nextId := if pin.id == s.server.nextId then s.server.nextId + 1 else s.server.nextId);
    assert pin.id in s.server.ops ==> pin.id < s.server.nextId;
    WriteGrows(s.server, pin, content);
    assert after.answers == s.server.answers;
    hide ServerOk, ServerGrows, RuntimeOk, PanelOk, WritesDraft, SaveOk, ShownOk, OrderOk, Write;
    SentGrows(s.server, after, s.runtime);
    ServerStep(s, after);
  }

  lemma RefusedKeepsInv(s: State, key: nat)
    requires Inv(s) && Enabled(s, ServerRefuses(key))
    ensures Inv(Next(s, ServerRefuses(key)))
  {
    var after := s.server.(answers := s.server.answers[key := Rejected]);
    assert ServerOk(after) && ServerGrows(s.server, after);
    hide ServerOk, ServerGrows, RuntimeOk, PanelOk, WritesDraft, SaveOk, ShownOk, OrderOk;
    SentGrows(s.server, after, s.runtime);
    ServerStep(s, after);
  }

  lemma FreezeGrows(server: Server, id: Id)
    requires ServerOk(server) && id in server.ops
    ensures var after := server.(ops := server.ops[id := server.ops[id].(frozen := true)]);
            ServerOk(after) && ServerGrows(server, after)
  {
  }

  lemma FrozenKeepsInv(s: State, id: Id)
    requires Inv(s) && Enabled(s, OthersFreeze(id))
    ensures Inv(Next(s, OthersFreeze(id)))
  {
    var after := s.server.(ops := s.server.ops[id := s.server.ops[id].(frozen := true)]);
    assert Next(s, OthersFreeze(id)) == s.(server := after) && id in s.server.ops;
    hide ServerOk, ServerGrows, RuntimeOk, PanelOk, WritesDraft, SaveOk, ShownOk, OrderOk, Next, Enabled;
    FreezeGrows(s.server, id);
    SentGrows(s.server, after, s.runtime);
    ServerStep(s, after);
  }

  // ---- Steps of the panel and the runtime ----

  lemma ReloadKeepsPanel(server: Server, r: Runtime, p: Panel)
    requires RuntimeOk(server, r)
    requires p.draft.None? ==> p.draftKey.None? && !p.dirty
    requires p.draftKey.Some? ==> p.draftKey.value in server.history
                                  && (!p.dirty ==> p.draft == Some(server.history[p.draftKey.value]))
    requires p.acceptedSave.Some? ==> p.acceptedSave.value in server.history
    ensures PanelOk(server, r, Reload(p, r.detail))
  {
  }

  // A read brings a version that is not passed; a draft that it replaces was not
  // dirty, had no version, or is what the read brings.
  lemma ArrivedKeepsInv(s: State, version: nat, frozen: bool, released: bool)
    requires Inv(s) && Enabled(s, ReadArrives(version, frozen, released))
    ensures Inv(Arrived(s, version, frozen, released))
    ensures var p, q := s.panel, Arrived(s, version, frozen, released).panel;
            p.dirty && p.draftKey.Some? && q != p ==>
              p.acceptedSave == Some(Pin(s.runtime.reading.value.id, version)) && q.draft == p.draft && !q.dirty
  {
    var t := Arrived(s, version, frozen, released);
    hide ServerOk, RequestOk;
    assert RuntimeOk(t.server, t.runtime);
    assert SentOk(t.server, t.runtime);
    var pin := Pin(s.runtime.reading.value.id, version);
    assert PanelOk(t.server, t.runtime, t.panel) by { ReloadKeepsPanel(t.server, t.runtime, s.panel); }
    assert ServerOk(s.server) && pin.version <= VersionOf(s.server, pin.id) by { VersionsKnown(s.server, pin); }
  }

  lemma VersionsKnown(server: Server, pin: Pin)
    requires ServerOk(server) && pin in server.history
    ensures pin.version <= VersionOf(server, pin.id)
  {
  }

  lemma RejectedKeepsInv(s: State)
    requires Inv(s)
    ensures Inv(s.(runtime := s.runtime.(request := None, pending := None)))
  {
    hide ServerOk, RequestOk;
  }

  lemma AcceptedKeepsInv(s: State, pin: Pin)
    requires Inv(s) && s.runtime.request.Some? && s.runtime.request.value.key in s.server.answers
    requires s.server.answers[s.runtime.request.value.key] == Accepted(pin)
    ensures Inv(s.(runtime := Open(s.runtime.(request := None, pending := None, settling := true), s.server, pin.id),
                   panel := s.panel.(acceptedSave := Some(pin))))
  {
    var r := Open(s.runtime.(request := None, pending := None, settling := true), s.server, pin.id);
    var p := s.panel.(acceptedSave := Some(pin));
    assert pin in s.server.history && s.server.history[pin] == s.runtime.request.value.content;
    VersionsKnown(s.server, pin);
    if p.draftKey.Some? { VersionsKnown(s.server, p.draftKey.value); }
    if s.runtime.detail.Some? { VersionsKnown(s.server, s.runtime.detail.value.pin); }
    hide ServerOk;
    assert SentOk(s.server, r) by { hide RequestOk, RuntimeOk, PanelOk, OrderOk, SaveOk, ShownOk, WritesDraft; }
    hide SentOk;
    assert RuntimeOk(s.server, r) by { hide PanelOk, SaveOk, ShownOk, WritesDraft; }
    assert OrderOk(r, p) by { hide SaveOk, ShownOk, WritesDraft; }
    hide RuntimeOk, OrderOk;
  }

  lemma AnsweredKeepsInv(s: State)
    requires Inv(s) && Enabled(s, AnswerArrives)
    ensures Inv(Answered(s))
  {
    hide Inv, Open;
    match s.server.answers[s.runtime.request.value.key]
    case Rejected => RejectedKeepsInv(s);
    case Accepted(pin) => AcceptedKeepsInv(s, pin);
  }

  lemma SaveKeepsInv(s: State, ready: bool)
    requires Inv(s) && Enabled(s, Save(ready))
    ensures Inv(Next(s, Save(ready)))
    ensures RequestOk(s.server, SaveRequest(s))
  {
    hide ServerOk;
  }

  lemma StartKeepsInv(s: State, content: Content)
    requires Inv(s) && Enabled(s, Start(content))
    ensures Inv(Next(s, Start(content)))
  {
    hide ServerOk, SentOk;
  }

  // An edit is not undone by the reload that follows it.
  lemma EditKeepsInv(s: State, content: Content)
    requires Inv(s) && Enabled(s, Edit(content))
    ensures Inv(Next(s, Edit(content)))
    ensures Next(s, Edit(content)).panel == s.panel.(draft := Some(content), dirty := true)
  {
    hide ServerOk, SentOk;
  }

  lemma DiscardKeepsInv(s: State)
    requires Inv(s) && Enabled(s, Discard)
    ensures Inv(Next(s, Discard))
  {
    VersionsKnown(s.server, s.runtime.detail.value.pin);
    hide ServerOk, SentOk;
  }

  lemma BackKeepsInv(s: State)
    requires Inv(s)
    ensures Inv(Next(s, Back))
  {
    hide ServerOk, RequestOk;
  }

  lemma OpenKeepsInv(s: State, id: Id)
    requires Inv(s) && !Busy(s.runtime)
    requires s.panel.draft.None? || s.runtime.selected == Some(id)
    ensures Inv(s.(runtime := Open(s.runtime, s.server, id)))
  {
    if s.panel.draftKey.Some? { VersionsKnown(s.server, s.panel.draftKey.value); }
    if s.panel.acceptedSave.Some? { VersionsKnown(s.server, s.panel.acceptedSave.value); }
    if s.runtime.detail.Some? { VersionsKnown(s.server, s.runtime.detail.value.pin); }
    hide ServerOk, RequestOk;
  }

  lemma FailKeepsInv(s: State, step: Step)
    requires Inv(s) && Enabled(s, step) && (step.ReadFails? || step.ListArrives? || step.ListFails?)
    ensures Inv(Next(s, step))
  {
    hide ServerOk, RequestOk;
  }

  lemma WriteStepKeepsInv(s: State, step: Step)
    requires Inv(s) && Enabled(s, step) && (step.Retry? || step.AnswerLost?)
    ensures Inv(Next(s, step))
  {
    hide ServerOk, RequestOk;
  }

  lemma OpenRecordKeepsInv(s: State, id: Id)
    requires Inv(s) && Enabled(s, OpenRecord(id))
    ensures Inv(Next(s, OpenRecord(id)))
  {
    hide Inv, Open;
    OpenKeepsInv(s, id);
  }

  lemma RefreshKeepsInv(s: State)
    requires Inv(s) && Enabled(s, Refresh)
    ensures Inv(Next(s, Refresh))
  {
    hide Inv, Open;
    OpenKeepsInv(s, s.runtime.selected.value);
  }

  lemma ReadKeepsInv(s: State, version: nat, frozen: bool, released: bool)
    requires Inv(s) && Enabled(s, ReadArrives(version, frozen, released))
    ensures Inv(Next(s, ReadArrives(version, frozen, released)))
  {
    hide Inv, Arrived;
    ArrivedKeepsInv(s, version, frozen, released);
  }

  lemma AnswerKeepsInv(s: State)
    requires Inv(s) && Enabled(s, AnswerArrives)
    ensures Inv(Next(s, AnswerArrives))
  {
    hide Inv, Answered;
    AnsweredKeepsInv(s);
  }

  lemma StepKeepsInv(s: State, step: Step)
    requires Inv(s) && Enabled(s, step)
    ensures Inv(Next(s, step))
  {
    hide Inv, Next, Enabled;
    match step
    case Start(content) => StartKeepsInv(s, content);
    case OpenRecord(id) => OpenRecordKeepsInv(s, id);
    case Edit(content) => EditKeepsInv(s, content);
    case Save(ready) => SaveKeepsInv(s, ready);
    case Retry => WriteStepKeepsInv(s, step);
    case Discard => DiscardKeepsInv(s);
    case Back => BackKeepsInv(s);
    case Refresh => RefreshKeepsInv(s);
    case ReadArrives(version, frozen, released) => ReadKeepsInv(s, version, frozen, released);
    case ReadFails => FailKeepsInv(s, step);
    case ListArrives => FailKeepsInv(s, step);
    case ListFails(_) => FailKeepsInv(s, step);
    case AnswerArrives => AnswerKeepsInv(s);
    case AnswerLost => WriteStepKeepsInv(s, step);
    case ServerApplies(key) => AppliedKeepsInv(s, key);
    case ServerRefuses(key) => RefusedKeepsInv(s, key);
    case OthersReplace(id, content) => ReplacedKeepsInv(s, id, content);
    case OthersFreeze(id) => FrozenKeepsInv(s, id);
    case OthersCreate(content) => CreatedKeepsInv(s, content);
  }

  lemma InvServer(s: State)
    requires Inv(s)
    ensures ServerOk(s.server)
  {
    hide SentOk, RuntimeOk, PanelOk, OrderOk, ReadsSave, WritesDraft, SaveOk, ShownOk;
  }

  lemma OpKnown(server: Server, id: Id)
    requires ServerOk(server)
    ensures id in server.ops ==> id < server.nextId && VersionOf(server, id) == server.ops[id].version
    ensures server.nextId !in server.ops && VersionOf(server, server.nextId) == 0
  {
  }

  lemma ReplacedKeepsInv(s: State, id: Id, content: Content)
    requires Inv(s) && Enabled(s, OthersReplace(id, content))
    ensures Inv(Next(s, OthersReplace(id, content)))
  {
    InvServer(s);
    var pin := Pin(id, s.server.ops[id].version + 1);
    var after := Write(s.server, pin, false, content);
    assert after.nextId == s.server.nextId && after == after.(nextId := s.server.nextId);
    assert Next(s, OthersReplace(id, content)) == s.(server := after);
    OpKnown(s.server, id);
    hide Inv, ServerOk, VersionOf, Next, Enabled, Write;
    WrittenKeepsInv(s, pin, content);
  }

  lemma CreatedKeepsInv(s: State, content: Content)
    requires Inv(s)
    ensures Inv(Next(s, OthersCreate(content)))
  {
    InvServer(s);
    hide Inv, Write;
    OpKnown(s.server, s.server.nextId);
    hide ServerOk, VersionOf;
    WrittenKeepsInv(s, Pin(s.server.nextId, 1), content);
  }

  lemma InitialInv(located: bool)
    ensures Inv(Initial(located, EMPTY_SERVER))
  {
  }

  lemma {:induction false} RunKeepsInv(s: State, steps: seq<Step>)
    requires Inv(s) && Run(s, steps).Some?
    ensures Inv(Run(s, steps).value)
    decreases |steps|
  {
    hide Inv, Next;
    if steps != [] {
      StepKeepsInv(s, steps[0]);
      RunKeepsInv(Next(s, steps[0]), steps[1..]);
    }
  }

  // ---- The draft ----

  // The step is one by which the author gives the draft up or changes it, or the
  // read of the author's own accepted save.
  ghost predicate MayReplace(s: State, step: Step)
    requires Enabled(s, step)
  {
    match step
    case Edit(_) => true
    case Discard => true
    case Back => true
    case ReadArrives(version, _, _) => s.panel.acceptedSave == Some(Pin(s.runtime.reading.value.id, version))
    case _ => false
  }

  // In every reachable state a dirty draft loaded from a version survives every
  // other step; and the read of the own accepted save brings what the draft holds,
  // so nothing typed is lost.
  lemma DirtyDraftSurvives(s: State, step: Step)
    requires Inv(s) && Enabled(s, step) && s.panel.dirty && s.panel.draftKey.Some?
    ensures var p, q := s.panel, Next(s, step).panel;
            && (!MayReplace(s, step) ==> q == p.(acceptedSave := q.acceptedSave))
            && (step.ReadArrives? && q != p ==> q.draft == p.draft)
            && (step.Edit? ==> q == p.(draft := Some(step.content)))
  {
    hide Open, Write;
    match step
    case Edit(content) => EditKeepsInv(s, content); hide Inv, Reload;
    case ReadArrives(version, frozen, released) => ArrivedKeepsInv(s, version, frozen, released); hide Inv;
    case _ => hide Inv, Reload;
  }

  // Over every run from the start.
  lemma RunNeverLosesDraft(steps: seq<Step>, step: Step, located: bool)
    requires Run(Initial(located, EMPTY_SERVER), steps).Some?
    requires Enabled(Run(Initial(located, EMPTY_SERVER), steps).value, step)
    ensures var s := Run(Initial(located, EMPTY_SERVER), steps).value;
            var p, q := s.panel, Next(s, step).panel;
            p.dirty && p.draftKey.Some? && !step.Edit? && !step.Discard? && !step.Back? ==> q.draft == p.draft
  {
    InitialInv(located);
    RunKeepsInv(Initial(located, EMPTY_SERVER), steps);
    var s := Run(Initial(located, EMPTY_SERVER), steps).value;
    hide Inv, Next;
    if s.panel.dirty && s.panel.draftKey.Some? { DirtyDraftSurvives(s, step); }
  }

  // ---- What is sent ----

  // In every reachable state every replace names the version of the draft it
  // sends, that version was loaded from the server, and no key is answered twice.
  lemma SentReplacesNameTheirBase(steps: seq<Step>, located: bool, key: nat)
    requires Run(Initial(located, EMPTY_SERVER), steps).Some?
    requires var s := Run(Initial(located, EMPTY_SERVER), steps).value;
             key in s.runtime.sent && s.runtime.sent[key].body.Replace?
    ensures var s := Run(Initial(located, EMPTY_SERVER), steps).value;
            var r := s.runtime.sent[key];
            && r.base.Some? && r.base.value in s.server.history && r.body.expected == r.base.value.version
            && (key in s.server.answers ==> !Enabled(s, ServerApplies(key)) && !Enabled(s, ServerRefuses(key)))
  {
    InitialInv(located);
    RunKeepsInv(Initial(located, EMPTY_SERVER), steps);
    assert RequestOk(Run(Initial(located, EMPTY_SERVER), steps).value.server,
                     Run(Initial(located, EMPTY_SERVER), steps).value.runtime.sent[key]);
  }

  // ---- When it protects the others ----

  // Wherever the server accepts the request, it replaces the version that the
  // draft was loaded from.
  ghost predicate NeverOverwritesUnseen(r: Request) {
    forall server :: Accepts(server, r.body) && r.body.Replace? ==>
      r.base == Some(Pin(r.body.id, VersionOf(server, r.body.id)))
  }

  // The draft belongs to the operation that is open.
  predicate OneOperation(s: State) {
    s.runtime.detail.Some? && s.panel.draftKey.Some? ==> s.panel.draftKey.value.id == s.runtime.detail.value.pin.id
  }

  // Saving to an operation that is not frozen never overwrites a version that the
  // author has not loaded if and only if the draft was loaded from that operation:
  // only the version number of the draft key is sent.
  lemma SaveIsSafe(s: State)
    requires Inv(s) && CanSave(s) && s.runtime.detail.Some? && !s.runtime.detail.value.frozen
    ensures NeverOverwritesUnseen(SaveRequest(s)) <==> OneOperation(s)
  {
    var r := SaveRequest(s);
    assert r.body.Replace? && r.base.Some? && r.body.expected == r.base.value.version;
    hide Inv;
    var server' := EMPTY_SERVER.(ops := map[r.body.id := Op(r.body.expected, false)]);
    assert Accepts(server', r.body) && VersionOf(server', r.body.id) == r.body.expected;
  }

  // A frozen operation is never replaced: saving supersedes it.
  lemma FrozenIsSuperseded(s: State, server: Server)
    requires CanSave(s) && s.runtime.detail.Some? && s.runtime.detail.value.frozen && ServerOk(server)
    ensures var after := Apply(server, SaveRequest(s));
            && after.log == server.log
            && (forall p :: p in server.history ==> p in after.history && after.history[p] == server.history[p])
            && (forall id :: id in server.ops ==> id in after.ops && after.ops[id] == server.ops[id])
  {
    ApplyGrows(server, SaveRequest(s));
  }

  ghost predicate SafeSent(r: Runtime) {
    forall k :: k in r.sent && r.sent[k].body.Replace? ==>
      r.sent[k].base == Some(Pin(r.sent[k].body.id, r.sent[k].body.expected))
  }

  ghost predicate LogSafe(log: seq<Overwrite>) {
    forall i :: 0 <= i < |log| ==> log[i].base == Some(log[i].replaced)
  }

  ghost predicate OneOperationRun(s: State, steps: seq<Step>)
    decreases |steps|
  {
    steps == [] ||
    ((steps[0].Save? ==> OneOperation(s)) && (Enabled(s, steps[0]) ==> OneOperationRun(Next(s, steps[0]), steps[1..])))
  }

  lemma SaveKeepsSafe(s: State, ready: bool)
    requires Inv(s) && Enabled(s, Save(ready)) && SafeSent(s.runtime) && OneOperation(s)
    ensures SafeSent(Next(s, Save(ready)).runtime)
  {
    SaveKeepsInv(s, ready);
    hide Inv;
  }

  lemma AppliedKeepsSafe(server: Server, r: Request)
    requires LogSafe(server.log) && (r.body.Replace? ==> r.base == Some(Pin(r.body.id, r.body.expected)))
    ensures LogSafe(Apply(server, r).log)
  {
    hide Write;
  }

  lemma OtherStepKeepsSafe(s: State, step: Step)
    requires Enabled(s, step) && !step.Save? && !step.ServerApplies?
    ensures Next(s, step).runtime.sent == s.runtime.sent && Next(s, step).server.log == s.server.log
  {
    hide Reload, Locked, CanSave;
  }

  lemma StepKeepsSafe(s: State, step: Step)
    requires Inv(s) && Enabled(s, step) && SafeSent(s.runtime) && LogSafe(s.server.log)
    requires step.Save? ==> OneOperation(s)
    ensures SafeSent(Next(s, step).runtime) && LogSafe(Next(s, step).server.log)
  {
    hide Inv, LogSafe, Apply, Reload, Open, Write;
    match step
    case Save(ready) => SaveKeepsSafe(s, ready); hide SafeSent;
    case ServerApplies(key) => AppliedKeepsSafe(s.server, s.runtime.sent[key]);
    case _ => OtherStepKeepsSafe(s, step); hide Next;
  }

  // While each save is for the operation its draft was loaded from, no accepted
  // replace ever overwrites a version that its author had not loaded, whatever
  // others write, whatever answers are lost and requests retried.
  lemma {:induction false} RunNeverOverwritesUnseen(s: State, steps: seq<Step>)
    requires Inv(s) && SafeSent(s.runtime) && LogSafe(s.server.log)
    requires OneOperationRun(s, steps) && Run(s, steps).Some?
    ensures LogSafe(Run(s, steps).value.server.log)
    decreases |steps|
  {
    hide Inv, Next, SafeSent, LogSafe;
    if steps != [] {
      StepKeepsInv(s, steps[0]);
      StepKeepsSafe(s, steps[0]);
      RunNeverOverwritesUnseen(Next(s, steps[0]), steps[1..]);
    }
  }

  // ---- When it does not ----

  lemma TwoSteps(s: State, a: Step, b: Step, steps: seq<Step>)
    requires Enabled(s, a) && Enabled(Next(s, a), b)
    ensures Run(s, [a, b] + steps) == Run(Next(Next(s, a), b), steps)
  {
    hide Enabled, Next;
    assert ([a, b] + steps)[1..] == [b] + steps && ([b] + steps)[1..] == steps;
  }

  lemma OneStep(s: State, a: Step, steps: seq<Step>)
    requires Enabled(s, a)
    ensures Run(s, [a] + steps) == Run(Next(s, a), steps)
  {
    hide Enabled, Next;
    assert ([a] + steps)[1..] == steps;
  }

  const BASE := Pin(0, 2)
  const FIRST := Request(0, Supersede(0), "c", Some(BASE))
  const SECOND := Request(1, Replace(1, 2), "c", Some(BASE))
  const SERVER1 := Server(map[0 := Op(2, false)], map[Pin(0, 1) := "a", BASE := "b"], map[], 1, [])
  const SERVER2 := Server(map[0 := Op(2, true)], map[Pin(0, 1) := "a", BASE := "b"], map[], 1, [])
  const SERVER8 := Server(
    map[0 := Op(2, true), 1 := Op(2, false)], map[Pin(0, 1) := "a", BASE := "b", Pin(1, 1) := "c", Pin(1, 2) := "d"],
    map[0 := Accepted(Pin(1, 1))], 2, [])
  const SERVER12 := Server(
    map[0 := Op(2, true), 1 := Op(3, false)],
    map[Pin(0, 1) := "a", BASE := "b", Pin(1, 1) := "c", Pin(1, 2) := "d", Pin(1, 3) := "c"],
    map[0 := Accepted(Pin(1, 1)), 1 := Accepted(Pin(1, 3))], 2, [Overwrite(Pin(1, 2), Some(BASE))])

  const NO_RUNTIME := Runtime(None, None, None, None, None, false, false, false, map[], 0)
  const READ4 := NO_RUNTIME.(selected := Some(0), detail := Some(Detail(BASE, "b", true, false)))
  const SENT6 := READ4.(request := Some(FIRST), sent := map[0 := FIRST], nextKey := 1)
  const READ10 := SENT6.(selected := Some(1), detail := Some(Detail(Pin(1, 2), "d", false, false)), request := None)
  const SENT12 := READ10.(request := Some(SECOND), sent := map[0 := FIRST, 1 := SECOND], nextKey := 2)

  const DRAFT4 := Panel(Some("b"), Some(BASE), false, None)
  const DRAFT6 := Panel(Some("c"), Some(BASE), true, None)
  const DRAFT10 := Panel(Some("c"), Some(BASE), true, Some(Pin(1, 1)))

  const NO_PANEL := Panel(None, None, false, None)

  // Someone else makes an operation and freezes it; it is opened.
  lemma OpenedRun(steps: seq<Step>)
    ensures Run(Initial(false, EMPTY_SERVER), [OthersCreate("a"), OthersReplace(0, "b")] + steps)
         == Run(State(false, SERVER1, NO_RUNTIME, NO_PANEL), steps)
    ensures Run(State(false, SERVER1, NO_RUNTIME, NO_PANEL), [OthersFreeze(0)] + steps)
         == Run(State(false, SERVER2, NO_RUNTIME, NO_PANEL), steps)
    ensures Run(State(false, SERVER2, NO_RUNTIME, NO_PANEL), [OpenRecord(0), ReadArrives(2, true, false)] + steps)
         == Run(State(false, SERVER2, READ4, DRAFT4), steps)
  {
    hide Run;
    var s0, s1 := Initial(false, EMPTY_SERVER), State(false, SERVER1, NO_RUNTIME, NO_PANEL);
    TwoSteps(s0, OthersCreate("a"), OthersReplace(0, "b"), steps);
    assert Next(Next(s0, OthersCreate("a")), OthersReplace(0, "b")) == s1;
    OneStep(s1, OthersFreeze(0), steps);
    assert Next(s1, OthersFreeze(0)) == State(false, SERVER2, NO_RUNTIME, NO_PANEL) by {
      assert SERVER1.ops[0 := Op(2, true)] == SERVER2.ops;
    }
    TwoSteps(State(false, SERVER2, NO_RUNTIME, NO_PANEL), OpenRecord(0), ReadArrives(2, true, false), steps);
  }

  // It is edited and saved as a successor; someone else replaces the successor.
  lemma SavedRun(steps: seq<Step>)
    ensures Run(State(false, SERVER2, READ4, DRAFT4), [Edit("c"), Save(true)] + steps)
         == Run(State(false, SERVER2, SENT6, DRAFT6), steps)
  {
    hide Run;
    var s4 := State(false, SERVER2, READ4, DRAFT4);
    TwoSteps(s4, Edit("c"), Save(true), steps);
  }

  lemma AppliedRun(steps: seq<Step>)
    ensures Run(State(false, SERVER2, SENT6, DRAFT6), [ServerApplies(0), OthersReplace(1, "d")] + steps)
         == Run(State(false, SERVER8, SENT6, DRAFT6), steps)
  {
    hide Run;
    var s6 := State(false, SERVER2, SENT6, DRAFT6);
    TwoSteps(s6, ServerApplies(0), OthersReplace(1, "d"), steps);
    assert Next(Next(s6, ServerApplies(0)), OthersReplace(1, "d")).server == SERVER8;
  }

  // The other's version is read, the draft is kept, and saved again.
  lemma SavedAgainRun(steps: seq<Step>)
    ensures Run(State(false, SERVER8, SENT6, DRAFT6), [AnswerArrives, ReadArrives(2, false, false)] + steps)
         == Run(State(false, SERVER8, READ10, DRAFT10), steps)
    ensures Run(State(false, SERVER8, READ10, DRAFT10), [Save(true), ServerApplies(1)] + steps)
         == Run(State(false, SERVER12, SENT12, DRAFT10), steps)
  {
    hide Run;
    var s8, s10 := State(false, SERVER8, SENT6, DRAFT6), State(false, SERVER8, READ10, DRAFT10);
    TwoSteps(s8, AnswerArrives, ReadArrives(2, false, false), steps);
    assert Next(Next(s8, AnswerArrives), ReadArrives(2, false, false)) == s10;
    TwoSteps(s10, Save(true), ServerApplies(1), steps);
    assert Next(s10, Save(true)).runtime == SENT12;
    assert Next(Next(s10, Save(true)), ServerApplies(1)).server == SERVER12;
  }

  // The draft of a frozen operation is saved as a successor, which someone else
  // replaces before it is read: the draft is kept, and the next save sends the old
  // operation's version number to the successor.
  function SupersededRun(): seq<Step> {
    [OthersCreate("a"), OthersReplace(0, "b")]
    + ([OthersFreeze(0)]
       + ([OpenRecord(0), ReadArrives(2, true, false)]
          + ([Edit("c"), Save(true)]
             + ([ServerApplies(0), OthersReplace(1, "d")]
                + ([AnswerArrives, ReadArrives(2, false, false)]
                   + ([Save(true), ServerApplies(1)] + []))))))
  }

  // From an empty server: version 2 of the successor is overwritten by a draft that
  // was loaded from version 2 of the first operation, and is not in it.
  lemma UnseenVersionOverwritten()
    ensures Run(Initial(false, EMPTY_SERVER), SupersededRun()) == Some(State(false, SERVER12, SENT12, DRAFT10))
    ensures SERVER12.log == [Overwrite(Pin(1, 2), Some(Pin(0, 2)))] && SERVER12.history[Pin(1, 2)] == "d"
    ensures SERVER12.ops[1].version == 3 && SERVER12.history[Pin(1, 3)] == "c"
  {
    hide Run;
    var e := [Save(true), ServerApplies(1)] + [];
    var d := [AnswerArrives, ReadArrives(2, false, false)] + e;
    var c := [ServerApplies(0), OthersReplace(1, "d")] + d;
    var b := [Edit("c"), Save(true)] + c;
    var a := [OpenRecord(0), ReadArrives(2, true, false)] + b;
    OpenedRun([OthersFreeze(0)] + a);
    OpenedRun(a);
    OpenedRun(b);
    SavedRun(c);
    AppliedRun(d);
    SavedAgainRun(e);
    SavedAgainRun([]);
    EmptyRun(State(false, SERVER12, SENT12, DRAFT10));
  }

  lemma EmptyRun(s: State)
    ensures Run(s, []) == Some(s)
  {
  }
}
