// That saving saves: when nothing fails, a draft becomes a version of its
// operation and the panel shows it clean; a lost answer costs a retry and nothing
// else; a version that came in between keeps the draft.
module DraftPanelProgress {
  import opened Wrappers
  import opened DraftPanel
  import opened DraftPanelProofs

  // Nothing is on its way and nothing has failed.
  ghost predicate Calm(r: Runtime) {
    r.request.None? && r.pending.None? && !r.settling && !r.detailFailed && !r.listFailed
  }

  // The draft is the version, in the panel as on the server, and no other version
  // was written.
  ghost predicate Stored(s: State, t: State, pin: Pin, content: Content) {
    && pin !in s.server.history
    && t.server.history == s.server.history[pin := content]
    && t.runtime.detail == Some(Detail(pin, content, false, false)) && Calm(t.runtime)
    && t.panel.draft == Some(content) && t.panel.draftKey == Some(pin) && !t.panel.dirty
  }

  // The server takes the request, its answer arrives, and the version is read.
  function Answers(key: nat, pin: Pin): seq<Step> {
    [ServerApplies(key), AnswerArrives, ReadArrives(pin.version, false, false)]
  }

  // The same with the answer lost: the panel asks again, under the same key.
  function LostAnswers(key: nat, pin: Pin): seq<Step> {
    [ServerApplies(key), AnswerLost, Retry, AnswerArrives, ReadArrives(pin.version, false, false)]
  }

  lemma RunOn(s: State, step: Step, steps: seq<Step>)
    requires Enabled(s, step)
    ensures Run(s, [step] + steps) == Run(Next(s, step), steps)
  {
    assert ([step] + steps)[1..] == steps;
  }

  // ---- A request under way ----

  // The request is sent and no answer is there yet; the draft is what it carries.
  ghost predicate Sent(s: State, r: Request) {
    && s.runtime.request == Some(r) && s.runtime.pending.None?
    && !s.runtime.settling && !s.runtime.detailFailed && !s.runtime.listFailed
    && r.key in s.runtime.sent && s.runtime.sent[r.key] == r && r.key !in s.server.answers
    && s.panel.draft == Some(r.content) && s.panel.dirty
  }

  // The version that an accepted request writes.
  function Writes(server: Server, body: Body): Pin {
    if body.Replace? then Pin(body.id, body.expected + 1) else Pin(server.nextId, 1)
  }

  lemma WritesNew(server: Server, r: Request)
    requires ServerOk(server) && Accepts(server, r.body)
    ensures Writes(server, r.body) !in server.history
    ensures Apply(server, r).history == server.history[Writes(server, r.body) := r.content]
    ensures VersionOf(Apply(server, r), Writes(server, r.body).id) == Writes(server, r.body).version
    ensures Apply(server, r).answers == server.answers[r.key := Accepted(Writes(server, r.body))]
  {
  }

  // Reading the saved version shows it, whatever was shown before.
  lemma ReadShows(s: State, pin: Pin, content: Content)
    requires s.runtime.reading == Some(Reading(pin.id, pin.version)) && s.panel.acceptedSave == Some(pin)
    requires pin in s.server.history && s.server.history[pin] == content
    requires s.runtime.request.None? && s.runtime.pending.None? && !s.runtime.listFailed
    requires s.panel.draftKey != Some(pin)
    ensures Enabled(s, ReadArrives(pin.version, false, false))
    ensures var t := Next(s, ReadArrives(pin.version, false, false));
            && t.server == s.server && Calm(t.runtime)
            && t.runtime.detail == Some(Detail(pin, content, false, false))
            && t.panel.draft == Some(content) && t.panel.draftKey == Some(pin) && !t.panel.dirty
  {
  }

  // After the answer the version is there to be read, and reading it shows it.
  lemma AnswerThenRead(s: State, r: Request)
    requires Inv(s) && Sent(s, r) && Accepts(s.server, r.body)
    ensures var pin, s1 := Writes(s.server, r.body), Next(s, ServerApplies(r.key));
            && Enabled(s, ServerApplies(r.key)) && Enabled(s1, AnswerArrives)
            && var s2 := Next(s1, AnswerArrives);
               && Enabled(s2, ReadArrives(pin.version, false, false))
               && Stored(s, Next(s2, ReadArrives(pin.version, false, false)), pin, r.content)
  {
    var pin := Writes(s.server, r.body);
    WritesNew(s.server, r);
    var s2 := Next(Next(s, ServerApplies(r.key)), AnswerArrives);
    hide Inv, Apply, Reload;
    NewIsNotTheKey(s, pin);
    ReadShows(s2, pin, r.content);
  }

  lemma AnsweredIsStored(s: State, r: Request)
    requires Inv(s) && Sent(s, r) && Accepts(s.server, r.body)
    ensures var pin := Writes(s.server, r.body);
            && Run(s, Answers(r.key, pin)).Some?
            && Stored(s, Run(s, Answers(r.key, pin)).value, pin, r.content)
  {
    AnswerThenRead(s, r);
    hide Inv, Sent, Accepts, Enabled, Next;
    RunThree(s, ServerApplies(r.key), AnswerArrives, ReadArrives(Writes(s.server, r.body).version, false, false));
  }

  lemma NewIsNotTheKey(s: State, pin: Pin)
    requires Inv(s) && pin !in s.server.history
    ensures s.panel.draftKey != Some(pin)
  {
  }

  lemma RunThree(s: State, a: Step, b: Step, c: Step)
    requires Enabled(s, a) && Enabled(Next(s, a), b) && Enabled(Next(Next(s, a), b), c)
    ensures Run(s, [a, b, c]) == Some(Next(Next(Next(s, a), b), c))
  {
    hide Enabled, Next;
    assert [a, b, c] == [a] + ([b] + ([c] + []));
    RunOn(s, a, [b] + ([c] + []));
    RunOn(Next(s, a), b, [c] + []);
    RunOn(Next(Next(s, a), b), c, []);
    EmptyRun(Next(Next(Next(s, a), b), c));
  }

  // Asking again under the same key gets the same answer.
  lemma RetryIsAnswered(s: State, r: Request)
    requires s.runtime.request == Some(r) && s.runtime.pending.None? && !s.runtime.settling
    requires r.key in s.server.answers
    ensures Enabled(s, AnswerLost) && Enabled(Next(s, AnswerLost), Retry)
    ensures var again := Next(Next(s, AnswerLost), Retry);
            && Enabled(again, AnswerArrives)
            && Next(again, AnswerArrives) == Next(s, AnswerArrives)
  {
  }

  // A lost answer changes nothing but the number of steps: one version is written.
  lemma LostAnswerIsStored(s: State, r: Request)
    requires Inv(s) && Sent(s, r) && Accepts(s.server, r.body)
    ensures var pin := Writes(s.server, r.body);
            && Run(s, LostAnswers(r.key, pin)).Some?
            && Stored(s, Run(s, LostAnswers(r.key, pin)).value, pin, r.content)
  {
    var pin := Writes(s.server, r.body);
    AnswerThenRead(s, r);
    WritesNew(s.server, r);
    var s1 := Next(s, ServerApplies(r.key));
    RetryIsAnswered(s1, r);
    hide Inv, Sent, Accepts, Enabled, Next, Apply;
    var s2 := Next(s1, AnswerLost);
    var rest := [Retry, AnswerArrives, ReadArrives(pin.version, false, false)];
    assert LostAnswers(r.key, pin) == [ServerApplies(r.key)] + ([AnswerLost] + rest);
    RunOn(s, ServerApplies(r.key), [AnswerLost] + rest);
    RunOn(s1, AnswerLost, rest);
    RunThree(s2, Retry, AnswerArrives, ReadArrives(pin.version, false, false));
  }

  // ---- Drafts ----

  // Saving is possible, and sends the draft under a new key.
  lemma SaveSends(s: State)
    requires Inv(s) && Calm(s.runtime) && s.panel.draft.Some? && s.panel.dirty
    requires s.runtime.detail.Some? ==> !s.runtime.detail.value.released
    requires s.located ==> s.runtime.detail.Some?
    ensures Enabled(s, Save(true)) && Sent(Next(s, Save(true)), SaveRequest(s)) && Inv(Next(s, Save(true)))
    ensures Next(s, Save(true)).server == s.server && SaveRequest(s).content == s.panel.draft.value
    ensures SaveRequest(s).key == s.runtime.nextKey
  {
    assert Enabled(s, Save(true));
    StepKeepsInv(s, Save(true));
  }

  // A started draft is saved as a new operation's first version, whether or not the
  // first answer is lost.
  lemma NewDraftIsSaved(s: State, content: Content, lost: bool)
    requires Inv(s) && Calm(s.runtime) && !s.located && s.runtime.selected.None? && s.panel.draft.None?
    ensures var key, pin := s.runtime.nextKey, Pin(s.server.nextId, 1);
            var steps := [Start(content), Save(true)] + (if lost then LostAnswers(key, pin) else Answers(key, pin));
            Run(s, steps).Some? && Stored(s, Run(s, steps).value, pin, content)
  {
    var s1 := Next(s, Start(content));
    StepKeepsInv(s, Start(content));
    DraftIsSaved(s, s1, Start(content), content, Pin(s.server.nextId, 1), lost);
  }

  // An edit of the version that the server has is saved as the next version, or as a
  // new operation's first one if the operation is frozen.
  lemma EditIsSaved(s: State, content: Content, lost: bool)
    requires Inv(s) && Calm(s.runtime) && s.runtime.detail.Some? && !s.runtime.detail.value.released
    requires var d := s.runtime.detail.value;
             s.panel.draftKey == Some(d.pin) && s.server.ops[d.pin.id] == Op(d.pin.version, d.frozen)
    ensures var key, d := s.runtime.nextKey, s.runtime.detail.value;
            var pin := if d.frozen then Pin(s.server.nextId, 1) else Pin(d.pin.id, d.pin.version + 1);
            var steps := [Edit(content), Save(true)] + (if lost then LostAnswers(key, pin) else Answers(key, pin));
            Run(s, steps).Some? && Stored(s, Run(s, steps).value, pin, content)
  {
    hide Inv, Next, Enabled, Run, Stored, Answers, LostAnswers, SaveBody, Accepts, Writes;
    var d := s.runtime.detail.value;
    var pin := if d.frozen then Pin(s.server.nextId, 1) else Pin(d.pin.id, d.pin.version + 1);
    EditMakesDraft(s, content);
    EditIsAccepted(s, content, pin);
    DraftIsSaved(s, Next(s, Edit(content)), Edit(content), content, pin, lost);
  }

  lemma EditIsAccepted(s: State, content: Content, pin: Pin)
    requires Inv(s) && Calm(s.runtime) && s.runtime.detail.Some? && !s.runtime.detail.value.released
    requires var d := s.runtime.detail.value;
             s.panel.draftKey == Some(d.pin) && s.server.ops[d.pin.id] == Op(d.pin.version, d.frozen)
             && pin == if d.frozen then Pin(s.server.nextId, 1) else Pin(d.pin.id, d.pin.version + 1)
    ensures Enabled(s, Edit(content))
    ensures var t := Next(s, Edit(content));
            Accepts(t.server, SaveBody(t)) && Writes(t.server, SaveBody(t)) == pin
  {
    EditMakesDraft(s, content);
    hide Inv, Next, Enabled;
  }

  lemma EditMakesDraft(s: State, content: Content)
    requires Inv(s) && Calm(s.runtime) && s.runtime.detail.Some? && !s.runtime.detail.value.released
    requires s.panel.draftKey == Some(s.runtime.detail.value.pin)
    ensures Enabled(s, Edit(content))
    ensures var t, d := Next(s, Edit(content)), s.runtime.detail.value;
            && Inv(t) && t.server == s.server && t.runtime == s.runtime && t.located == s.located
            && t.panel == s.panel.(draft := Some(content), dirty := true)
            && d.pin.id in t.server.ops
            && SaveBody(t) == if d.frozen then Supersede(d.pin.id) else Replace(d.pin.id, d.pin.version)
  {
    StepKeepsInv(s, Edit(content));
  }

  lemma DraftIsSaved(s: State, s1: State, first: Step, content: Content, pin: Pin, lost: bool)
    requires Enabled(s, first) && s1 == Next(s, first) && Inv(s1) && Calm(s1.runtime)
    requires s1.server == s.server && s1.runtime.nextKey == s.runtime.nextKey
    requires s1.panel.draft == Some(content) && s1.panel.dirty
    requires s1.runtime.detail.Some? ==> !s1.runtime.detail.value.released
    requires s1.located ==> s1.runtime.detail.Some?
    requires Accepts(s1.server, SaveBody(s1)) && Writes(s1.server, SaveBody(s1)) == pin
    ensures var key := s.runtime.nextKey;
            var steps := [first, Save(true)] + (if lost then LostAnswers(key, pin) else Answers(key, pin));
            Run(s, steps).Some? && Stored(s, Run(s, steps).value, pin, content)
  {
    hide Enabled, Next, Inv, Accepts, Writes, Answers, LostAnswers, Run;
    var key := s.runtime.nextKey;
    var rest := if lost then LostAnswers(key, pin) else Answers(key, pin);
    SavingIsStored(s1, pin, lost);
    assert [first, Save(true)] + rest == [first] + ([Save(true)] + rest);
    RunOn(s, first, [Save(true)] + rest);
  }

  lemma SavingIsStored(s: State, pin: Pin, lost: bool)
    requires Inv(s) && Calm(s.runtime) && s.panel.draft.Some? && s.panel.dirty
    requires s.runtime.detail.Some? ==> !s.runtime.detail.value.released
    requires s.located ==> s.runtime.detail.Some?
    requires Accepts(s.server, SaveBody(s)) && Writes(s.server, SaveBody(s)) == pin
    ensures var key := s.runtime.nextKey;
            var steps := [Save(true)] + (if lost then LostAnswers(key, pin) else Answers(key, pin));
            Run(s, steps).Some? && Stored(s, Run(s, steps).value, pin, s.panel.draft.value)
  {
    SaveSends(s);
    hide Enabled, Next, Inv, Accepts, Writes, Sent, SaveBody, Run;
    var sent, r := Next(s, Save(true)), SaveRequest(s);
    if lost { LostAnswerIsStored(sent, r); } else { AnsweredIsStored(sent, r); }
    hide Answers, LostAnswers;
    RunOn(s, Save(true), if lost then LostAnswers(r.key, pin) else Answers(r.key, pin));
  }

  // When another version came in between, the save is rejected: nothing is written,
  // and the draft is as it was.
  lemma OutdatedEditIsKept(s: State, content: Content)
    requires Inv(s) && Calm(s.runtime) && s.runtime.detail.Some? && !s.runtime.detail.value.released
    requires var d := s.runtime.detail.value;
             s.panel.draftKey == Some(d.pin) && !d.frozen
             && (s.server.ops[d.pin.id].frozen || s.server.ops[d.pin.id].version != d.pin.version)
    ensures var steps := [Edit(content), Save(true)] + [ServerApplies(s.runtime.nextKey), AnswerArrives];
            && Run(s, steps).Some?
            && var t := Run(s, steps).value;
               && t.server.history == s.server.history && t.server.ops == s.server.ops
               && t.panel.draft == Some(content) && t.panel.draftKey == s.panel.draftKey && t.panel.dirty
               && t.runtime.detail == s.runtime.detail && Calm(t.runtime)
  {
    EditMakesDraft(s, content);
    var s1 := Next(s, Edit(content));
    SaveSends(s1);
    var s2, r := Next(s1, Save(true)), SaveRequest(s1);
    SaveKeepsRest(s1);
    RefusedKeepsDraft(s2, r);
    var s3 := Next(s2, ServerApplies(r.key));
    hide Inv, Next, Enabled, Sent, Accepts;
    var rest := [ServerApplies(r.key), AnswerArrives];
    assert [Edit(content), Save(true)] + rest == [Edit(content)] + ([Save(true)] + rest);
    RunOn(s, Edit(content), [Save(true)] + rest);
    RunOn(s1, Save(true), rest);
    assert rest == [ServerApplies(r.key)] + ([AnswerArrives] + []);
    RunOn(s2, ServerApplies(r.key), [AnswerArrives] + []);
    RunOn(s3, AnswerArrives, []);
    EmptyRun(Next(s3, AnswerArrives));
  }

  lemma SaveKeepsRest(s: State)
    requires Enabled(s, Save(true))
    ensures Next(s, Save(true)).panel == s.panel && Next(s, Save(true)).runtime.detail == s.runtime.detail
  {
  }

  lemma RefusedKeepsDraft(s: State, r: Request)
    requires Sent(s, r) && !Accepts(s.server, r.body)
    ensures var s1 := Next(s, ServerApplies(r.key));
            && Enabled(s, ServerApplies(r.key)) && Enabled(s1, AnswerArrives)
            && var t := Next(s1, AnswerArrives);
               && t.server.history == s.server.history && t.server.ops == s.server.ops
               && t.panel == s.panel && t.runtime.detail == s.runtime.detail && Calm(t.runtime)
  {
  }

  // ---- Reading ----

  // The server's version of an operation.
  ghost predicate Serves(server: Server, id: Id, version: nat, content: Content) {
    && id in server.ops && server.ops[id].version == version
    && Pin(id, version) in server.history && server.history[Pin(id, version)] == content
  }

  // A record that is opened is shown as the server has it, in a clean draft.
  lemma RecordOpens(s: State, id: Id, version: nat, content: Content, frozen: bool, released: bool)
    requires Inv(s) && Calm(s.runtime) && s.runtime.detail.None? && s.panel.draft.None?
    requires Serves(s.server, id, version, content)
    ensures var steps := [OpenRecord(id), ReadArrives(version, frozen, released)];
            && Run(s, steps).Some?
            && var t, pin := Run(s, steps).value, Pin(id, version);
               && t.runtime.detail == Some(Detail(pin, content, frozen, released)) && Calm(t.runtime)
               && t.runtime.selected == Some(id) && t.server == s.server
               && t.panel.draft == Some(content) && t.panel.draftKey == Some(pin) && !t.panel.dirty
  {
    var entered := Next(s, OpenRecord(id));
    var read := ReadArrives(version, frozen, released);
    assert [OpenRecord(id), read] == [OpenRecord(id)] + ([read] + []);
    RunOn(s, OpenRecord(id), [read] + []);
    RunOn(entered, read, []);
    EmptyRun(Next(entered, read));
  }

  // A refresh keeps what is shown and edited until its answer is there, and a read that
  // answers it unlocks the panel after failures, the list's included.
  lemma RefreshUnlocks(s: State, id: Id, version: nat, content: Content, frozen: bool)
    requires Inv(s) && s.runtime.request.None? && s.runtime.pending.None? && !s.runtime.settling
    requires s.runtime.selected == Some(id) && Serves(s.server, id, version, content)
    ensures Enabled(s, Refresh)
    ensures Next(s, Refresh).panel == s.panel && Next(s, Refresh).runtime.detail == s.runtime.detail
    ensures var steps := [Refresh, ReadArrives(version, frozen, false), ListArrives];
            && Run(s, steps).Some?
            && var t, pin := Run(s, steps).value, Pin(id, version);
               && t.runtime.detail == Some(Detail(pin, content, frozen, false)) && Calm(t.runtime)
               && t.server == s.server && !Locked(t)
               && (s.panel.dirty && s.panel.draftKey.Some? && s.panel.acceptedSave != Some(pin) ==> t.panel == s.panel)
               && (!s.panel.dirty ==> t.panel.draft == Some(content) && t.panel.draftKey == Some(pin))
  {
    var refreshed := Next(s, Refresh);
    var read := ReadArrives(version, frozen, false);
    RunThree(s, Refresh, read, ListArrives);
  }

  // ---- When a draft can be changed and saved ----

  // Saving is possible exactly while nothing is on its way or has failed, with a draft
  // that is new or changed and not of a released operation.
  lemma SaveIff(s: State)
    ensures Enabled(s, Save(true)) <==>
              && Calm(s.runtime) && s.panel.draft.Some?
              && (s.runtime.detail.Some? ==> !s.runtime.detail.value.released && s.panel.dirty)
              && (s.runtime.detail.None? ==> !s.located)
    ensures !Enabled(s, Save(false))
  {
  }

  // Editing is possible under the same conditions, changed or not.
  lemma EditIff(s: State, content: Content)
    ensures Enabled(s, Edit(content)) <==>
              && Calm(s.runtime) && s.panel.draft.Some?
              && (s.runtime.detail.Some? ==> !s.runtime.detail.value.released)
              && (s.runtime.detail.None? ==> !s.located)
  {
  }

  // Discarding shows the loaded version, clean; leaving forgets the draft.
  lemma DiscardedAndLeft(s: State)
    ensures Enabled(s, Discard) ==>
              var t := Next(s, Discard);
              && t.panel.draft == Some(s.runtime.detail.value.content)
              && t.panel.draftKey == Some(s.runtime.detail.value.pin) && !t.panel.dirty
              && t.runtime == s.runtime && t.server == s.server
    ensures var t := Next(s, Back);
            && t.panel.draft.None? && t.panel.draftKey.None? && !t.panel.dirty && t.server == s.server
            && t.runtime.detail.None? && t.runtime.selected.None? && t.runtime.reading.None?
            && t.runtime.request == s.runtime.request && t.runtime.pending == s.runtime.pending
  {
  }
}
