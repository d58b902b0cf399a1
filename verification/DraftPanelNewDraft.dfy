// A draft that was started and never loaded has no version to be compared with: it
// can only be replaced by reading the operation that its own save created, whose
// first version is what it holds.
module DraftPanelNewDraft {
  import opened Wrappers
  import opened DraftPanel
  import opened DraftPanelProofs

  // ---- The invariant ----

  // The answer to a request of the panel's own that created the operation with
  // this content.
  ghost predicate OwnCreation(server: Server, r: Runtime, key: nat, pin: Pin, content: Content) {
    && key in r.sent && r.sent[key].body.Create? && r.sent[key].content == content
    && key in server.answers && server.answers[key] == Accepted(pin)
  }

  ghost predicate OwnCreated(server: Server, r: Runtime, pin: Pin, content: Content) {
    exists key :: OwnCreation(server, r, key, pin, content)
  }

  // The draft was started and has no version yet.
  ghost predicate New(p: Panel) {
    p.draft.Some? && p.draftKey.None?
  }

  // Creations are answered with a first version.
  ghost predicate CreationsFirst(server: Server, r: Runtime) {
    forall k :: k in server.answers && k in r.sent && r.sent[k].body.Create? && server.answers[k].Accepted? ==>
      server.answers[k].pin.version == 1
  }

  // A new draft is dirty and what is sent of it creates an operation; no operation
  // is selected until that is accepted, and the draft is then not edited any more.
  ghost predicate NewOk(server: Server, r: Runtime, p: Panel) {
    New(p) ==>
      && p.dirty
      && r.detail.None?
      && (r.request.Some? ==> r.request.value.body.Create?)
      && (r.pending.Some? ==> r.pending.value.body.Create?)
      && (r.selected.Some? ==>
            && p.acceptedSave.Some? && r.selected == Some(p.acceptedSave.value.id)
            && OwnCreated(server, r, p.acceptedSave.value, p.draft.value)
            && r.request.None? && r.pending.None?
            && (r.settling || r.detailFailed))
  }

  ghost predicate NewInv(s: State) {
    CreationsFirst(s.server, s.runtime) && NewOk(s.server, s.runtime, s.panel)
  }

  // ---- Steps ----

  lemma AnswersStay(a: Server, b: Server, r: Runtime, p: Panel)
    requires NewOk(a, r, p)
    requires forall k :: k in a.answers ==> k in b.answers && b.answers[k] == a.answers[k]
    ensures NewOk(b, r, p)
  {
    if New(p) && r.selected.Some? {
      var key :| OwnCreation(a, r, key, p.acceptedSave.value, p.draft.value);
      assert OwnCreation(b, r, key, p.acceptedSave.value, p.draft.value);
    }
  }

  lemma AppliedAnswers(server: Server, r: Request)
    requires r.key !in server.answers
    ensures var after := Apply(server, r);
            && after.answers.Keys == server.answers.Keys + {r.key}
            && (forall k :: k in server.answers ==> after.answers[k] == server.answers[k])
            && (r.body.Create? ==> after.answers[r.key].Accepted? && after.answers[r.key].pin.version == 1)
  {
  }

  lemma SentKey(s: State, key: nat)
    requires Inv(s) && key in s.runtime.sent
    ensures s.runtime.sent[key].key == key
  {
    hide ServerOk, RuntimeOk, PanelOk, OrderOk, ReadsSave, WritesDraft, SaveOk, ShownOk;
  }

  lemma ServerKeepsNew(s: State, step: Step)
    requires Inv(s) && NewInv(s) && Enabled(s, step)
    requires step.ServerApplies? || step.ServerRefuses? || step.OthersReplace? || step.OthersFreeze?
            || step.OthersCreate?
    ensures NewInv(Next(s, step))
  {
    if step.ServerApplies? {
      SentKey(s, step.key);
      AppliedAnswers(s.server, s.runtime.sent[step.key]);
    }
    hide Inv, NewOk, Apply;
    AnswersStay(s.server, Next(s, step).server, s.runtime, s.panel);
  }

  lemma SaveKeepsNew(s: State, ready: bool)
    requires Inv(s) && NewInv(s) && Enabled(s, Save(ready))
    ensures NewInv(Next(s, Save(ready)))
  {
    hide ServerOk, RequestOk, OwnCreated;
  }

  lemma AnswerKeepsNew(s: State)
    requires Inv(s) && NewInv(s) && Enabled(s, AnswerArrives)
    ensures NewInv(Next(s, AnswerArrives))
  {
    hide ServerOk, RequestOk, PanelOk, OrderOk, SaveOk, ShownOk;
    var r, p := s.runtime, s.panel;
    var key := r.request.value.key;
    if New(p) && s.server.answers[key].Accepted? {
      assert OwnCreation(s.server, Answered(s).runtime, key, s.server.answers[key].pin, p.draft.value);
    }
  }

  lemma RuntimeKeepsNew(s: State, step: Step)
    requires Inv(s) && NewInv(s) && Enabled(s, step)
    requires step.OpenRecord? || step.Retry? || step.Refresh? || step.ReadFails? || step.ListArrives? || step.ListFails?
             || step.AnswerLost?
    ensures NewInv(Next(s, step))
  {
    hide ServerOk, SentOk, OrderOk, SaveOk, ShownOk;
    var r, p, t := s.runtime, s.panel, Next(s, step);
    if New(p) && r.selected.Some? {
      var key :| OwnCreation(s.server, r, key, p.acceptedSave.value, p.draft.value);
      assert OwnCreation(t.server, t.runtime, key, p.acceptedSave.value, p.draft.value);
    }
  }

  lemma PanelKeepsNew(s: State, step: Step)
    requires Inv(s) && NewInv(s) && Enabled(s, step)
    requires step.Start? || step.Edit? || step.Discard? || step.Back? || step.ReadArrives?
    ensures NewInv(Next(s, step))
  {
    hide ServerOk, SentOk, OrderOk, SaveOk, ShownOk, OwnCreated;
  }

  lemma StepKeepsNew(s: State, step: Step)
    requires Inv(s) && NewInv(s) && Enabled(s, step)
    ensures NewInv(Next(s, step))
  {
    hide Inv, NewInv, Next, Enabled;
    match step
    case Save(ready) => SaveKeepsNew(s, ready);
    case AnswerArrives => AnswerKeepsNew(s);
    case ServerApplies(_) => ServerKeepsNew(s, step);
    case ServerRefuses(_) => ServerKeepsNew(s, step);
    case OthersReplace(_, _) => ServerKeepsNew(s, step);
    case OthersFreeze(_) => ServerKeepsNew(s, step);
    case OthersCreate(_) => ServerKeepsNew(s, step);
    case Start(_) => PanelKeepsNew(s, step);
    case Edit(_) => PanelKeepsNew(s, step);
    case Discard => PanelKeepsNew(s, step);
    case Back => PanelKeepsNew(s, step);
    case ReadArrives(_, _, _) => PanelKeepsNew(s, step);
    case _ => RuntimeKeepsNew(s, step);
  }

  lemma {:induction false} RunKeepsNew(s: State, steps: seq<Step>)
    requires Inv(s) && NewInv(s) && Run(s, steps).Some?
    ensures Inv(Run(s, steps).value) && NewInv(Run(s, steps).value)
    decreases |steps|
  {
    hide Inv, NewInv, Next;
    if steps != [] {
      StepKeepsInv(s, steps[0]);
      StepKeepsNew(s, steps[0]);
      RunKeepsNew(Next(s, steps[0]), steps[1..]);
    }
  }

  // ---- The draft ----

  // What a read may replace a new draft with: a version of the operation that the
  // draft's own creation made, whose first version is what the draft holds.
  ghost predicate ReadsOwnCreation(s: State, step: Step) {
    && step.ReadArrives? && s.runtime.reading.Some? && s.panel.draft.Some?
    && var first := Pin(s.runtime.reading.value.id, 1);
       && s.panel.acceptedSave == Some(first)
       && OwnCreated(s.server, s.runtime, first, s.panel.draft.value)
       && first in s.server.history && s.server.history[first] == s.panel.draft.value
  }

  lemma NewDraftSurvives(s: State, step: Step)
    requires Inv(s) && NewInv(s) && Enabled(s, step) && New(s.panel)
    ensures var p, q := s.panel, Next(s, step).panel;
            && (step.Edit? ==> q == p.(draft := Some(step.content)))
            && (!step.Edit? && !step.Back? && !ReadsOwnCreation(s, step) ==> q == p.(acceptedSave := q.acceptedSave))
  {
    hide ServerOk, OrderOk, SaveOk, ShownOk, RequestOk;
    if step.ReadArrives? {
      var p := s.panel;
      var key :| OwnCreation(s.server, s.runtime, key, p.acceptedSave.value, p.draft.value);
      assert p.acceptedSave.value.version == 1;
    }
    hide OwnCreated, Write, Open, SentOk;
  }

  // Over every run from the start: a draft that was started and never loaded is
  // only given up by its author, or comes back from the server, where it is kept.
  lemma RunNeverLosesNewDraft(steps: seq<Step>, step: Step, located: bool)
    requires Run(Initial(located, EMPTY_SERVER), steps).Some?
    requires Enabled(Run(Initial(located, EMPTY_SERVER), steps).value, step)
    ensures var s := Run(Initial(located, EMPTY_SERVER), steps).value;
            var p, q := s.panel, Next(s, step).panel;
            New(p) && !step.Edit? && !step.Back? ==> q.draft == p.draft || ReadsOwnCreation(s, step)
  {
    InitialInv(located);
    assert NewInv(Initial(located, EMPTY_SERVER));
    RunKeepsNew(Initial(located, EMPTY_SERVER), steps);
    var s := Run(Initial(located, EMPTY_SERVER), steps).value;
    hide Inv, NewInv, Next, ReadsOwnCreation;
    if New(s.panel) { NewDraftSurvives(s, step); }
  }
}
