// The per-key lock on candidate recovery, without navigator.locks: a chain of
// promises per key, whose tail is kept in a map.
module RecoveryLock {
  import opened Wrappers

  type Key = string

  // Waiting for the previous promise; running the action; the action's promise
  // settled; and the caller's finally block done. ok is false for a rejection.
  datatype Phase = Waiting | Running | Settled(ok: bool) | Finished(ok: bool)

  // A caller is named by its arrival number; so is the promise it creates.
  datatype Caller = Caller(key: Key, previous: Option<nat>, phase: Phase)

  datatype State = State(locks: map<Key, nat>, callers: seq<Caller>)

  datatype Step = Call(key: Key) | Start(caller: nat) | Settle(caller: nat, ok: bool) | Leave(caller: nat)

  const INITIAL := State(map[], [])

  predicate Done(c: Caller) {
    c.phase.Settled? || c.phase.Finished?
  }

  predicate Enabled(s: State, step: Step) {
    match step
    case Call(_) => true
    case Start(c) =>
      && c < |s.callers| && s.callers[c].phase.Waiting?
      && (s.callers[c].previous.Some? ==>
            s.callers[c].previous.value < |s.callers| && Done(s.callers[s.callers[c].previous.value]))
    case Settle(c, _) => c < |s.callers| && s.callers[c].phase.Running?
    case Leave(c) => c < |s.callers| && s.callers[c].phase.Settled?
  }

  function Lookup(locks: map<Key, nat>, key: Key): Option<nat> {
    if key in locks then Some(locks[key]) else None
  }

  function WithPhase(s: State, c: nat, phase: Phase): State
    requires c < |s.callers|
  {
    s.(callers := s.callers[c := s.callers[c].(phase := phase)])
  }

  function Next(s: State, step: Step): State
    requires Enabled(s, step)
  {
    match step
    case Call(key) =>
      State(s.locks[key := |s.callers|], s.callers + [Caller(key, Lookup(s.locks, key), Waiting)])
    case Start(c) => WithPhase(s, c, Running)
    case Settle(c, ok) => WithPhase(s, c, Settled(ok))
    case Leave(c) =>
      var key := s.callers[c].key;
      var left := WithPhase(s, c, Finished(s.callers[c].phase.ok));
      if Lookup(s.locks, key) == Some(c) then left.(locks := s.locks - {key}) else left
  }

  // The module-level map and the promises made so far. Enter is the part of
  // withCandidateRecoveryLock before its await, Exit its finally block; Begin and
  // Finish are the promise jobs in between.
  class RecoveryLocks {
    var locks: map<Key, nat>
    var callers: seq<Caller>

    ghost function View(): State
      reads this
    {
      State(locks, callers)
    }

    constructor ()
      ensures View() == INITIAL
    {
      locks := map[];
      callers := [];
    }

    method Enter(key: Key) returns (current: nat)
      modifies this
      ensures View() == Next(old(View()), Call(key)) && current == |old(callers)|
    {
      var previous := if key in locks then Some(locks[key]) else None;
      current := |callers|;
      callers := callers + [Caller(key, previous, Waiting)];
      locks := locks[key := current];
    }

    method Begin(current: nat)
      requires Enabled(View(), Start(current))
      modifies this
      ensures View() == Next(old(View()), Start(current))
    {
      callers := callers[current := callers[current].(phase := Running)];
    }

    method Finish(current: nat, ok: bool)
      requires Enabled(View(), Settle(current, ok))
      modifies this
      ensures View() == Next(old(View()), Settle(current, ok))
    {
      callers := callers[current := callers[current].(phase := Settled(ok))];
    }

    method Exit(current: nat) returns (ok: bool)
      requires Enabled(View(), Leave(current))
      modifies this
      ensures View() == Next(old(View()), Leave(current))
      ensures old(callers)[current].phase == Settled(ok)
    {
      var key := callers[current].key;
      ok := callers[current].phase.ok;
      callers := callers[current := callers[current].(phase := Finished(ok))];
      if key in locks && locks[key] == current {
        locks := locks - {key};
      }
    }
  }

  // ---- Runs ----

  ghost function Run(s: State, steps: seq<Step>): Option<State>
    decreases |steps|
  {
    if steps == [] then Some(s)
    else if Enabled(s, steps[0]) then Run(Next(s, steps[0]), steps[1..])
    else None
  }

  ghost predicate Reachable(s: State) {
    exists steps :: Run(INITIAL, steps) == Some(s)
  }

  // ---- The invariant ----

  // Callers on one key, i before j.
  ghost predicate Before(s: State, i: nat, j: nat)
  {
    i < j < |s.callers| && s.callers[i].key == s.callers[j].key
  }

  // A caller waits for its immediate predecessor, or has none that is not done.
  ghost predicate Linked(s: State, j: nat)
    requires j < |s.callers|
  {
    match s.callers[j].previous
    case Some(p) => Before(s, p, j) && forall i: nat :: Before(s, i, j) ==> i <= p
    case None => forall i: nat :: Before(s, i, j) ==> Done(s.callers[i])
  }

  // Once a caller's action has started, all earlier actions on its key are over.
  ghost predicate Ordered(s: State, j: nat)
    requires j < |s.callers|
  {
    !s.callers[j].phase.Waiting? ==> forall i: nat :: Before(s, i, j) ==> Done(s.callers[i])
  }

  ghost predicate Last(s: State, c: nat) {
    c < |s.callers| && forall j :: c < j < |s.callers| ==> s.callers[j].key != s.callers[c].key
  }

  // The map holds the last caller on a key, until that caller has finished; the
  // actions on an absent key are all over.
  ghost predicate TailOf(s: State, key: Key) {
    match Lookup(s.locks, key)
    case Some(c) =>
      Last(s, c) && s.callers[c].key == key && !s.callers[c].phase.Finished?
    case None =>
      && (forall i :: 0 <= i < |s.callers| && s.callers[i].key == key ==> Done(s.callers[i]))
      && (forall i: nat :: Last(s, i) && s.callers[i].key == key ==> s.callers[i].phase.Finished?)
  }

  ghost predicate Inv(s: State) {
    && (forall j: nat :: j < |s.callers| ==> Linked(s, j) && Ordered(s, j))
    && (forall key :: TailOf(s, key))
  }

  lemma CallKeepsInv(s: State, key: Key)
    requires Inv(s)
    ensures Inv(Next(s, Call(key)))
  {
    var t := Next(s, Call(key));
    var n := |s.callers|;
    forall j: nat | j < |t.callers|
      ensures Linked(t, j) && Ordered(t, j)
    {
      if j < n {
        assert Linked(s, j) && Ordered(s, j);
        assert forall i: nat :: Before(t, i, j) <==> Before(s, i, j);
      } else {
        assert TailOf(s, key);
      }
    }
    assert forall i: nat :: i < n && Last(t, i) ==> Last(s, i) && s.callers[i].key != key by {
      assert t.callers[n].key == key;
      assert forall j :: 0 <= j < n ==> t.callers[j] == s.callers[j];
    }
    forall k
      ensures TailOf(t, k)
    {
      assert TailOf(s, k);
    }
  }

  lemma PhaseKeepsLinks(s: State, c: nat, phase: Phase)
    requires Inv(s) && c < |s.callers|
    requires Done(s.callers[c]) ==> phase.Settled? || phase.Finished?
    requires !phase.Waiting? ==> forall i: nat :: Before(s, i, c) ==> Done(s.callers[i])
    ensures forall j: nat :: j < |s.callers| ==> Linked(WithPhase(s, c, phase), j) && Ordered(WithPhase(s, c, phase), j)
  {
    var t := WithPhase(s, c, phase);
    forall j: nat | j < |s.callers|
      ensures Linked(t, j) && Ordered(t, j)
    {
      assert Linked(s, j) && Ordered(s, j);
      assert forall i: nat :: Before(t, i, j) <==> Before(s, i, j);
      assert forall i: nat :: i < |s.callers| && Done(s.callers[i]) ==> Done(t.callers[i]);
    }
  }

  lemma StartIsOrdered(s: State, c: nat)
    requires Inv(s) && Enabled(s, Start(c))
    ensures forall i: nat :: Before(s, i, c) ==> Done(s.callers[i])
  {
    assert Linked(s, c);
    match s.callers[c].previous
    case None =>
    case Some(p) =>
      assert Ordered(s, p);
      forall i: nat | Before(s, i, c)
        ensures Done(s.callers[i])
      {
        assert i < p ==> Before(s, i, p);
      }
  }

  lemma StepKeepsInv(s: State, step: Step)
    requires Inv(s) && Enabled(s, step)
    ensures Inv(Next(s, step))
  {
    match step
    case Call(key) => CallKeepsInv(s, key);
    case Start(c) =>
      StartIsOrdered(s, c);
      PhaseKeepsLinks(s, c, Running);
      PhaseKeepsTails(s, c, Running);
    case Settle(c, ok) =>
      assert Ordered(s, c);
      PhaseKeepsLinks(s, c, Settled(ok));
      PhaseKeepsTails(s, c, Settled(ok));
    case Leave(c) =>
      assert Ordered(s, c);
      PhaseKeepsLinks(s, c, Finished(s.callers[c].phase.ok));
      LeaveKeepsInv(s, c);
  }

  lemma PhaseKeepsLast(s: State, t: State)
    requires |s.callers| == |t.callers|
    requires forall i :: 0 <= i < |s.callers| ==> s.callers[i].key == t.callers[i].key
    ensures forall i: nat :: Last(t, i) <==> Last(s, i)
  {
    forall i: nat
      ensures Last(t, i) <==> Last(s, i)
    {
      if i < |s.callers| {
        assert s.callers[i].key == t.callers[i].key;
      }
    }
  }

  lemma PhaseKeepsTails(s: State, c: nat, phase: Phase)
    requires Inv(s) && c < |s.callers|
    requires !s.callers[c].phase.Finished? && !phase.Finished?
    requires !Done(s.callers[c])
    ensures forall key :: TailOf(WithPhase(s, c, phase), key)
  {
    PhaseKeepsLast(s, WithPhase(s, c, phase));
    forall key
      ensures TailOf(WithPhase(s, c, phase), key)
    {
      assert TailOf(s, key);
    }
  }

  lemma LeaveKeepsInv(s: State, c: nat)
    requires Inv(s) && Enabled(s, Leave(c))
    requires var left := WithPhase(s, c, Finished(s.callers[c].phase.ok));
             forall j: nat :: j < |s.callers| ==> Linked(left, j) && Ordered(left, j)
    ensures Inv(Next(s, Leave(c)))
  {
    var left := WithPhase(s, c, Finished(s.callers[c].phase.ok));
    var t := Next(s, Leave(c));
    forall j: nat | j < |t.callers|
      ensures Linked(t, j) && Ordered(t, j)
    {
      assert Linked(left, j) && Ordered(left, j);
      assert forall i: nat :: Before(t, i, j) <==> Before(left, i, j);
    }
    PhaseKeepsLast(s, t);
    forall k
      ensures TailOf(t, k)
    {
      assert TailOf(s, k);
      if k == s.callers[c].key && Lookup(s.locks, k) == Some(c) {
        LastLeaves(s, c);
      }
    }
  }

  // When the last caller on a key is done, all actions on the key are over.
  lemma LastLeaves(s: State, c: nat)
    requires Inv(s) && Enabled(s, Leave(c)) && Lookup(s.locks, s.callers[c].key) == Some(c)
    ensures forall i: nat :: i < |s.callers| && s.callers[i].key == s.callers[c].key ==> Done(s.callers[i])
  {
    assert Ordered(s, c);
    assert TailOf(s, s.callers[c].key);
    forall i: nat | i < |s.callers| && s.callers[i].key == s.callers[c].key
      ensures Done(s.callers[i])
    {
      assert i < c ==> Before(s, i, c);
    }
  }

  lemma {:induction false} RunKeepsInv(s: State, steps: seq<Step>)
    requires Inv(s) && Run(s, steps).Some?
    ensures Inv(Run(s, steps).value)
    decreases |steps|
  {
    if steps != [] {
      StepKeepsInv(s, steps[0]);
      RunKeepsInv(Next(s, steps[0]), steps[1..]);
    }
  }

  lemma ReachableInv(s: State)
    requires Reachable(s)
    ensures Inv(s)
  {
    var steps :| Run(INITIAL, steps) == Some(s);
    RunKeepsInv(INITIAL, steps);
  }

  // ---- What holds in every reachable state ----

  // At most one action runs on a key.
  lemma MutualExclusion(s: State, i: nat, j: nat)
    requires Reachable(s) && i < |s.callers| && j < |s.callers|
    requires s.callers[i].key == s.callers[j].key
    requires s.callers[i].phase.Running? && s.callers[j].phase.Running?
    ensures i == j
  {
    ReachableInv(s);
    assert Ordered(s, i) && Ordered(s, j);
    assert i < j ==> Before(s, i, j);
    assert j < i ==> Before(s, j, i);
  }

  // An action starts only after every earlier arrival on its key is over, whether
  // that one succeeded or was rejected.
  lemma ArrivalOrder(s: State, i: nat, j: nat)
    requires Reachable(s) && Before(s, i, j)
    requires !s.callers[j].phase.Waiting?
    ensures Done(s.callers[i])
  {
    ReachableInv(s);
    assert Ordered(s, j);
  }

  // A key's entry is its last caller's, and is there until that caller finishes.
  lemma EntryIsLastCaller(s: State, c: nat)
    requires Reachable(s) && Last(s, c)
    ensures Lookup(s.locks, s.callers[c].key) == if s.callers[c].phase.Finished? then None else Some(c)
  {
    ReachableInv(s);
    assert TailOf(s, s.callers[c].key);
  }

  // Once all callers on a key have finished, nothing of it is left in the map.
  lemma NoEntryLeft(s: State, key: Key)
    requires Reachable(s)
    requires forall i :: 0 <= i < |s.callers| && s.callers[i].key == key ==> s.callers[i].phase.Finished?
    ensures key !in s.locks
  {
    ReachableInv(s);
    assert TailOf(s, key);
  }

  // A finishing caller never removes the entry of a later caller.
  lemma LeaveSparesSuccessor(s: State, c: nat, d: nat)
    requires Reachable(s) && Enabled(s, Leave(c)) && Before(s, c, d) && Last(s, d)
    ensures Next(s, Leave(c)).locks == s.locks
  {
    EntryIsLastCaller(s, d);
  }

  // A step on one key touches neither the entry nor the callers of another.
  function KeyOf(s: State, step: Step): Key
    requires Enabled(s, step)
  {
    match step
    case Call(key) => key
    case Start(c) => s.callers[c].key
    case Settle(c, _) => s.callers[c].key
    case Leave(c) => s.callers[c].key
  }

  lemma OtherKeysUntouched(s: State, step: Step, key: Key)
    requires Enabled(s, step) && key != KeyOf(s, step)
    ensures Lookup(Next(s, step).locks, key) == Lookup(s.locks, key)
    ensures forall i :: 0 <= i < |s.callers| && s.callers[i].key == key ==> Next(s, step).callers[i] == s.callers[i]
    ensures forall i :: |s.callers| <= i < |Next(s, step).callers| ==> Next(s, step).callers[i].key != key
  {
  }

  // ---- What a caller gets ----

  // What the caller's own action came to.
  function Outcome(s: State, c: nat): Option<bool> {
    if c < |s.callers| && Done(s.callers[c]) then Some(s.callers[c].phase.ok) else None
  }

  // An outcome is never changed, and there is one exactly after the action settled
  // with it.
  lemma {:induction false} RunSettles(s: State, steps: seq<Step>, c: nat)
    requires Run(s, steps).Some?
    ensures var t := Run(s, steps).value;
            && (Outcome(s, c).Some? ==>
                  Outcome(t, c) == Outcome(s, c) && Settle(c, true) !in steps && Settle(c, false) !in steps)
            && (Outcome(s, c).None? ==> forall ok :: Outcome(t, c) == Some(ok) <==> Settle(c, ok) in steps)
    decreases |steps|
  {
    if steps != [] {
      RunSettles(Next(s, steps[0]), steps[1..], c);
      assert forall ok :: Settle(c, ok) in steps <==> steps[0] == Settle(c, ok) || Settle(c, ok) in steps[1..];
    }
  }

  // A caller leaves with the outcome of its own action and with no other's.
  lemma LeavesWithItsOwn(steps: seq<Step>, c: nat, ok: bool)
    requires Run(INITIAL, steps).Some?
    ensures Outcome(Run(INITIAL, steps).value, c) == Some(ok) <==> Settle(c, ok) in steps
    ensures !(Settle(c, true) in steps && Settle(c, false) in steps)
  {
    RunSettles(INITIAL, steps, c);
  }

  // ---- No caller is stuck ----

  function Remaining(phase: Phase): nat {
    match phase
    case Waiting => 3
    case Running => 2
    case Settled(_) => 1
    case Finished(_) => 0
  }

  function Work(callers: seq<Caller>): nat {
    if callers == [] then 0 else Remaining(callers[0].phase) + Work(callers[1..])
  }

  lemma {:induction false} WorkUpdate(callers: seq<Caller>, c: nat, phase: Phase)
    requires c < |callers|
    ensures Work(callers[c := callers[c].(phase := phase)]) + Remaining(callers[c].phase)
         == Work(callers) + Remaining(phase)
  {
    var updated := callers[c := callers[c].(phase := phase)];
    if c == 0 {
      assert updated[1..] == callers[1..];
    } else {
      WorkUpdate(callers[1..], c - 1, phase);
      assert updated[1..] == callers[1..][c - 1 := callers[1..][c - 1].(phase := phase)];
    }
  }

  // Every step that is not a call brings the callers nearer to the end.
  lemma StepDoesWork(s: State, step: Step)
    requires Enabled(s, step) && !step.Call?
    ensures Work(Next(s, step).callers) + 1 == Work(s.callers)
  {
    var c := step.caller;
    WorkUpdate(s.callers, c, Next(s, step).callers[c].phase);
  }

  // The first unfinished caller on a key can always take a step.
  lemma {:induction false} SomeStepEnabled(s: State, c: nat)
    requires Inv(s) && c < |s.callers| && !s.callers[c].phase.Finished?
    ensures exists step: Step :: !step.Call? && Enabled(s, step)
  {
    match s.callers[c].phase
    case Running =>
      assert Enabled(s, Settle(c, true));
    case Settled(_) =>
      assert Enabled(s, Leave(c));
    case Waiting =>
      assert Linked(s, c);
      if s.callers[c].previous.Some? && !Done(s.callers[s.callers[c].previous.value]) {
        SomeStepEnabled(s, s.callers[c].previous.value);
      } else {
        assert Enabled(s, Start(c));
      }
  }

  lemma {:induction false} FinishedMeansNoWork(callers: seq<Caller>)
    ensures Work(callers) == 0 <==> forall i :: 0 <= i < |callers| ==> callers[i].phase.Finished?
  {
    if callers != [] {
      FinishedMeansNoWork(callers[1..]);
    }
  }

  ghost predicate Unfinished(s: State) {
    exists c :: 0 <= c < |s.callers| && !s.callers[c].phase.Finished?
  }

  ghost predicate CallsNoMore(steps: seq<Step>) {
    forall i :: 0 <= i < |steps| ==> !steps[i].Call?
  }

  lemma EmptyWhenFinished(s: State)
    requires Inv(s) && !Unfinished(s)
    ensures s.locks == map[]
  {
    forall key
      ensures key !in s.locks
    {
      assert TailOf(s, key);
    }
  }

  lemma {:induction false} FinishAll(s: State) returns (steps: seq<Step>)
    requires Inv(s)
    ensures CallsNoMore(steps) && Run(s, steps).Some? && !Unfinished(Run(s, steps).value)
    decreases Work(s.callers)
  {
    steps := [];
    if Unfinished(s) {
      var c: nat :| c < |s.callers| && !s.callers[c].phase.Finished?;
      SomeStepEnabled(s, c);
      var step: Step :| !step.Call? && Enabled(s, step);
      StepDoesWork(s, step);
      StepKeepsInv(s, step);
      var rest := FinishAll(Next(s, step));
      steps := [step] + rest;
      assert steps[1..] == rest;
    }
  }

  // From every reachable state all callers can finish without anyone calling again,
  // which leaves the map empty.
  lemma Drains(s: State)
    requires Reachable(s)
    ensures exists steps :: CallsNoMore(steps) && Run(s, steps).Some?
                         && !Unfinished(Run(s, steps).value) && Run(s, steps).value.locks == map[]
  {
    ReachableInv(s);
    var steps := FinishAll(s);
    RunKeepsInv(s, steps);
    EmptyWhenFinished(Run(s, steps).value);
  }

  // And however they go on, if no one calls again they finish: such a run is no
  // longer than the work that is left, and has done all of it exactly when every
  // caller has finished, with nothing left in the map.
  lemma {:induction false} EveryRunDrains(s: State, steps: seq<Step>)
    requires Inv(s) && CallsNoMore(steps) && Run(s, steps).Some?
    ensures var t := Run(s, steps).value;
            && |steps| + Work(t.callers) == Work(s.callers)
            && (|steps| == Work(s.callers) <==> !Unfinished(t))
            && (!Unfinished(t) ==> t.locks == map[])
    decreases |steps|
  {
    if steps != [] {
      StepDoesWork(s, steps[0]);
      StepKeepsInv(s, steps[0]);
      EveryRunDrains(Next(s, steps[0]), steps[1..]);
    } else {
      FinishedMeansNoWork(s.callers);
      if !Unfinished(s) { EmptyWhenFinished(s); }
    }
  }
}
