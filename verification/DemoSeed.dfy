// The resumable demo import: progress is saved after each step, any run may stop
// at any outside call, before or after the call took effect, and later runs go on
// from the saved file.
module DemoSeed {
  import opened Wrappers

  type Id = nat

  // What is created and published once each. In the file a key is a text: the
  // asset's address, binding-i or join-i.
  datatype Key = AssetKey(address: string) | BindingKey(i: nat) | JoinKey(i: nat)

  datatype AssetPlan = AssetPlan(address: string, assetId: string, revisionId: string, analysisModel: bool)

  // Bindings name the asset they bind; joins have an id of their own.
  datatype Plan = Plan(assets: seq<AssetPlan>, bindings: seq<string>, joins: seq<string>)

  datatype Progress = Progress(
    replacements: map<string, Id>,
    targets: map<Key, Id>,
    proposals: map<Key, Id>,
    done: set<Key>,
    complete: bool)

  // The stages of a proposal, in their order; the last two are final.
  datatype ProposalState = Draft | Proposed | Validating | InReview | Released | Rejected

  function Stage(s: ProposalState): nat {
    match s
    case Draft => 0
    case Proposed => 1
    case Validating => 2
    case InReview => 3
    case Released => 4
    case Rejected => 4
  }

  // Proposals move on and never back; any stage that is not final may end in rejection.
  predicate MovesTo(s: ProposalState, t: ProposalState) {
    s == t || Stage(s) < Stage(t)
  }

  // One entry of a release: the asset, its revision and the release.
  datatype Entry = Entry(asset: Id, revision: Id, release: Id)

  // Everything outside the process: the saved file, its temporary twin (None if
  // it was cut short), and the server. created and proposed count what was ever
  // created for a key; seen are the release entries the server ever reported.
  datatype World = World(
    disk: Progress,
    tmp: Option<Progress>,
    created: map<Key, nat>,
    proposed: map<Key, nat>,
    states: map<Id, ProposalState>,
    reviews: map<Id, nat>,
    seen: set<Entry>,
    nextId: Id)

  // An outside call, with what it was answered where that matters.
  datatype Call =
    | Prepare | Relate | Prove
    | WriteFile | RenameFile
    | CreateObject(key: Key) | ReadObject(id: Id)
    | Propose(key: Key) | Look(proposal: Id, state: ProposalState) | Submission(proposal: Id) | Wait(proposal: Id)
    | CountReviews(proposal: Id) | Approve(proposal: Id) | Release(proposal: Id)
    | ReadRelease(id: Id, listed: bool)

  datatype Event = Event(call: Call, ok: bool)

  // What becomes of a call: whether it takes effect and whether its answer arrives.
  // Before a look the proposal may have moved; a release read may lack the asset.
  datatype Outcome = Outcome(
    took: bool,
    answered: bool,
    moved: ProposalState,
    listed: bool,
    revision: Id,
    release: Id)

  predicate Went(o: Outcome) {
    o.took && o.answered
  }

  // Why a run stops.
  datatype Stop =
    | CallFailed(call: Call)
    | WasRejected(proposal: Id)
    | TimedOut(proposal: Id)
    | Unlisted(id: Id)
    | Unbound(binding: nat)

  // The looks that found the proposal in validation.
  function Waits(log: seq<Event>, p: Id): nat {
    if log == [] then 0
    else
      Waits(log[..|log| - 1], p)
      + (if log[|log| - 1].call == Look(p, Validating) then 1 else 0)
  }

  lemma WaitsOn(log: seq<Event>, e: Event, p: Id)
    ensures Waits(log + [e], p) == Waits(log, p) + (if e.call == Look(p, Validating) then 1 else 0)
  {
    assert (log + [e])[..|log|] == log;
  }

  // No call failed, no proposal was rejected, every release listed what it should,
  // and every submitted proposal reached review within the looks there are.
  ghost predicate Smooth(log: seq<Event>) {
    && (forall e :: e in log ==> e.ok && !(e.call.Look? && e.call.state == Rejected))
    && (forall e :: e in log && e.call.ReadRelease? ==> e.call.listed)
    && (forall p :: Waits(log, p) < 179)
  }

  const EMPTY := Progress(map[], map[], map[], {}, false)
  const START := World(EMPTY, None, map[], map[], map[], map[], {}, 0)

  function Count<K>(m: map<K, nat>, k: K): nat {
    if k in m then m[k] else 0
  }

  function Saved<V>(m: map<Key, V>, k: Key): nat {
    if k in m then 1 else 0
  }

  // ---- The plan ----

  // The fixture references that an asset's publication replaces.
  ghost predicate IsRef(a: AssetPlan, r: string) {
    r == a.assetId || r == a.revisionId || r == "release:" + a.assetId
  }

  // Fixture texts do not clash.
  ghost predicate PlanOk(plan: Plan) {
    && (forall i, j :: 0 <= i < j < |plan.assets| ==> plan.assets[i].address != plan.assets[j].address)
    && (forall i, j, r :: 0 <= i < |plan.assets| && 0 <= j < |plan.assets| && i != j ==>
          !(IsRef(plan.assets[i], r) && IsRef(plan.assets[j], r)))
    && (forall i :: 0 <= i < |plan.assets| ==> ThreeRefs(plan.assets[i]))
    && (forall i, j :: 0 <= i < j < |plan.joins| ==> plan.joins[i] != plan.joins[j])
    && (forall i, j :: 0 <= i < |plan.assets| && 0 <= j < |plan.joins| ==> !IsRef(plan.assets[i], plan.joins[j]))
  }

  // What a binding binds is published before the first analysis model.
  ghost predicate BindingsBound(plan: Plan) {
    forall n, i :: 0 <= n < |plan.assets| && plan.assets[n].analysisModel && 0 <= i < |plan.bindings| ==>
      exists j :: 0 <= j < n && plan.assets[j].assetId == plan.bindings[i]
  }

  ghost predicate ThreeRefs(a: AssetPlan) {
    a.assetId != a.revisionId && a.assetId != "release:" + a.assetId && a.revisionId != "release:" + a.assetId
  }

  // ---- What is promised of the saved file ----

  ghost predicate IsReleased(w: World, p: Id) {
    p in w.states && w.states[p] == Released
  }

  // A key that is done has its target, and its proposal is released.
  ghost predicate KeyDone(w: World, p: Progress, k: Key) {
    k in p.targets && k in p.proposals && IsReleased(w, p.proposals[k])
  }

  // An asset that is done is rewritten to its target, with the revision and the
  // release of one release entry of that target.
  ghost predicate AssetDone(w: World, p: Progress, a: AssetPlan) {
    var k := AssetKey(a.address);
    && k in p.targets
    && a.assetId in p.replacements && a.revisionId in p.replacements && "release:" + a.assetId in p.replacements
    && p.replacements[a.assetId] == p.targets[k]
    && Entry(p.targets[k], p.replacements[a.revisionId], p.replacements["release:" + a.assetId]) in w.seen
  }

  ghost predicate JoinDone(p: Progress, plan: Plan, i: nat)
    requires i < |plan.joins|
  {
    JoinKey(i) in p.targets && plan.joins[i] in p.replacements && p.replacements[plan.joins[i]] == p.targets[JoinKey(i)]
  }

  ghost predicate AssetsDone(plan: Plan, p: Progress, n: nat) {
    forall i :: 0 <= i < n && i < |plan.assets| ==> AssetKey(plan.assets[i].address) in p.done
  }

  ghost predicate PhysicalDone(plan: Plan, p: Progress) {
    && (forall i :: 0 <= i < |plan.bindings| ==> BindingKey(i) in p.done)
    && (forall i :: 0 <= i < |plan.joins| ==> JoinKey(i) in p.done)
  }

  ghost predicate AllDone(plan: Plan, p: Progress, n: nat) {
    && AssetsDone(plan, p, n)
    && ((exists i :: 0 <= i < n && i < |plan.assets| && plan.assets[i].analysisModel) ==> PhysicalDone(plan, p))
  }

  // Replacements are recorded only for keys that are done.
  ghost predicate RefDone(plan: Plan, p: Progress, r: string) {
    || (exists i :: 0 <= i < |plan.assets| && IsRef(plan.assets[i], r) && AssetKey(plan.assets[i].address) in p.done)
    || (exists i :: 0 <= i < |plan.joins| && r == plan.joins[i] && JoinKey(i) in p.done)
  }

  ghost predicate KeysGood(w: World, p: Progress) {
    forall k :: k in p.done ==> KeyDone(w, p, k)
  }

  ghost predicate AssetsGood(plan: Plan, w: World, p: Progress) {
    forall i :: 0 <= i < |plan.assets| && AssetKey(plan.assets[i].address) in p.done ==> AssetDone(w, p, plan.assets[i])
  }

  ghost predicate JoinsGood(plan: Plan, p: Progress) {
    forall i :: 0 <= i < |plan.joins| && JoinKey(i) in p.done ==> JoinDone(p, plan, i)
  }

  ghost predicate RefsGood(plan: Plan, p: Progress) {
    forall r :: r in p.replacements ==> RefDone(plan, p, r)
  }

  ghost predicate CompleteGood(plan: Plan, p: Progress) {
    p.complete ==> AllDone(plan, p, |plan.assets|)
  }

  ghost predicate Good(plan: Plan, w: World, p: Progress) {
    KeysGood(w, p) && AssetsGood(plan, w, p) && JoinsGood(plan, p) && RefsGood(plan, p) && CompleteGood(plan, p)
  }

  // Ids are fresh, nobody reviews a proposal twice, and what is released was reviewed.
  ghost predicate ServerOk(w: World) {
    && (forall p :: p in w.states ==> p < w.nextId)
    && (forall p :: p in w.reviews ==> w.reviews[p] <= 1)
    && (forall p :: IsReleased(w, p) ==> Count(w.reviews, p) == 1)
  }

  // The server knows the proposals of the saved file.
  ghost predicate Known(w: World) {
    forall k :: k in w.disk.proposals ==> w.disk.proposals[k] in w.states
  }

  ghost predicate WorldOk(plan: Plan, w: World) {
    Good(plan, w, w.disk) && ServerOk(w) && Known(w)
  }

  // ---- What a run may do ----

  datatype Orphan = NoOrphan | OrphanTarget(key: Key) | OrphanProposal(key: Key)

  ghost predicate SubMap<K, V>(a: map<K, V>, b: map<K, V>) {
    forall k :: k in a ==> k in b && b[k] == a[k]
  }

  // Saved progress only grows.
  ghost predicate Grows(p: Progress, q: Progress) {
    && SubMap(p.replacements, q.replacements)
    && SubMap(p.targets, q.targets)
    && SubMap(p.proposals, q.proposals)
    && p.done <= q.done
    && (p.complete ==> q.complete)
  }

  // Every creation is saved, but for the orphan; nothing is created for a saved key.
  ghost predicate Counts(w: World, x: World, orphan: Orphan) {
    && (forall k :: Count(x.created, k) + Saved(w.disk.targets, k)
                 == Count(w.created, k) + Saved(x.disk.targets, k) + (if orphan == OrphanTarget(k) then 1 else 0))
    && (forall k :: Count(x.proposed, k) + Saved(w.disk.proposals, k)
                 == Count(w.proposed, k) + Saved(x.disk.proposals, k) + (if orphan == OrphanProposal(k) then 1 else 0))
    && (forall k :: k in w.disk.targets ==> Count(x.created, k) == Count(w.created, k))
    && (forall k :: k in w.disk.proposals ==> Count(x.proposed, k) == Count(w.proposed, k))
  }

  ghost predicate ServerGrows(w: World, x: World) {
    && (forall p :: p in w.states ==> p in x.states && MovesTo(w.states[p], x.states[p]))
    && w.seen <= x.seen
  }

  ghost predicate Step(w: World, x: World, orphan: Orphan) {
    Grows(w.disk, x.disk) && Counts(w, x, orphan) && ServerGrows(w, x)
  }

  lemma StepRefl(w: World)
    ensures Step(w, w, NoOrphan)
  {
  }

  lemma StepTrans(w: World, x: World, y: World, orphan: Orphan)
    requires Step(w, x, NoOrphan) && Step(x, y, orphan)
    ensures Step(w, y, orphan)
  {
    forall k
      ensures Count(y.created, k) + Saved(w.disk.targets, k)
           == Count(w.created, k) + Saved(y.disk.targets, k) + (if orphan == OrphanTarget(k) then 1 else 0)
      ensures Count(y.proposed, k) + Saved(w.disk.proposals, k)
           == Count(w.proposed, k) + Saved(y.disk.proposals, k) + (if orphan == OrphanProposal(k) then 1 else 0)
      ensures k in w.disk.targets ==> Count(y.created, k) == Count(w.created, k)
      ensures k in w.disk.proposals ==> Count(y.proposed, k) == Count(w.proposed, k)
    {
      assert Count(x.created, k) + Saved(w.disk.targets, k) == Count(w.created, k) + Saved(x.disk.targets, k);
      assert Count(x.proposed, k) + Saved(w.disk.proposals, k) == Count(w.proposed, k) + Saved(x.disk.proposals, k);
    }
  }

  // ---- Runs ----

  // One run: the world it left, its outside calls, why it stopped if it did.
  datatype Ran = Ran(after: World, log: seq<Event>, stop: Option<Stop>, orphan: Orphan)

  ghost predicate RunEffect(plan: Plan, w: World, r: Ran) {
    && Step(w, r.after, r.orphan)
    && (WorldOk(plan, w) ==> WorldOk(plan, r.after))
    && (r.stop.None? ==> r.orphan == NoOrphan && r.after.disk.complete)
    && (Smooth(r.log) && BindingsBound(plan) ==> r.stop.None?)
  }

  ghost function Last(w: World, runs: seq<Ran>): World {
    if runs == [] then w else runs[|runs| - 1].after
  }

  // Each run starts from the world that the one before it left.
  ghost predicate Runs(plan: Plan, w: World, runs: seq<Ran>)
    decreases |runs|
  {
    runs != [] ==>
      var before, last := runs[..|runs| - 1], runs[|runs| - 1];
      Runs(plan, w, before) && RunEffect(plan, Last(w, before), last)
  }

  // How many runs stopped between this creation and its being saved.
  ghost function OrphansOf(runs: seq<Ran>, o: Orphan): nat {
    if runs == [] then 0
    else OrphansOf(runs[..|runs| - 1], o) + (if runs[|runs| - 1].orphan == o then 1 else 0)
  }

  // Over any sequence of crashes and restarts: saved progress only grows, released
  // stays released, nothing is created for a saved key, and a key's creations are
  // the saved one and those that a run stopped before saving, exactly.
  lemma {:induction false} RunsGrow(plan: Plan, w: World, runs: seq<Ran>, k: Key)
    requires Runs(plan, w, runs)
    ensures var x := Last(w, runs);
            && Grows(w.disk, x.disk)
            && ServerGrows(w, x)
            && Count(x.created, k) + Saved(w.disk.targets, k)
               == Count(w.created, k) + Saved(x.disk.targets, k) + OrphansOf(runs, OrphanTarget(k))
            && Count(x.proposed, k) + Saved(w.disk.proposals, k)
               == Count(w.proposed, k) + Saved(x.disk.proposals, k) + OrphansOf(runs, OrphanProposal(k))
            && (k in w.disk.targets ==> Count(x.created, k) == Count(w.created, k))
            && (k in w.disk.proposals ==> Count(x.proposed, k) == Count(w.proposed, k))
    decreases |runs|
  {
    if runs != [] {
      var before, r := runs[..|runs| - 1], runs[|runs| - 1];
      RunsGrow(plan, w, before, k);
      var x := Last(w, before);
      assert Count(r.after.created, k) + Saved(x.disk.targets, k)
          == Count(x.created, k) + Saved(r.after.disk.targets, k) + (if r.orphan == OrphanTarget(k) then 1 else 0);
      assert Count(r.after.proposed, k) + Saved(x.disk.proposals, k)
          == Count(x.proposed, k) + Saved(r.after.disk.proposals, k) + (if r.orphan == OrphanProposal(k) then 1 else 0);
    }
  }

  // A run that ended well left no orphan.
  lemma {:induction false} OrphansAreStops(plan: Plan, w: World, runs: seq<Ran>, o: Orphan)
    requires Runs(plan, w, runs) && o != NoOrphan
    ensures OrphansOf(runs, o) + Ended(runs) <= |runs|
    decreases |runs|
  {
    if runs != [] { OrphansAreStops(plan, w, runs[..|runs| - 1], o); }
  }

  ghost function Ended(runs: seq<Ran>): nat {
    if runs == [] then 0 else Ended(runs[..|runs| - 1]) + (if runs[|runs| - 1].stop.None? then 1 else 0)
  }

  lemma {:induction false} RunsKeepWorldOk(plan: Plan, w: World, runs: seq<Ran>)
    requires WorldOk(plan, w) && Runs(plan, w, runs)
    ensures WorldOk(plan, Last(w, runs))
    decreases |runs|
  {
    hide WorldOk, Step;
    if runs != [] { RunsKeepWorldOk(plan, w, runs[..|runs| - 1]); }
  }

  // What the saved file and the server say of the plan's keys.
  ghost predicate Safe(plan: Plan, x: World) {
    && (forall k :: k in x.disk.done ==> KeyDone(x, x.disk, k))
    && (forall i :: 0 <= i < |plan.assets| && AssetKey(plan.assets[i].address) in x.disk.done ==>
          AssetDone(x, x.disk, plan.assets[i]))
    && (x.disk.complete ==> AllDone(plan, x.disk, |plan.assets|))
    && (forall p :: p in x.reviews ==> x.reviews[p] <= 1)
    && (forall k :: k in x.disk.done ==> Count(x.reviews, x.disk.proposals[k]) == 1)
  }

  // From an empty start, whatever the crashes: at most one target and one proposal
  // per key beyond the runs that stopped between creating and saving it, every
  // done key has target and released proposal, assets have their three
  // replacements, and a complete import has every key done.
  lemma ImportIsSafe(plan: Plan, runs: seq<Ran>, k: Key)
    requires Runs(plan, START, runs)
    ensures var x := Last(START, runs);
            && Count(x.created, k) <= 1 + OrphansOf(runs, OrphanTarget(k))
            && Count(x.proposed, k) <= 1 + OrphansOf(runs, OrphanProposal(k))
            && Safe(plan, x)
  {
    RunsGrow(plan, START, runs, k);
    RunsKeepWorldOk(plan, START, runs);
  }

  // One run to which nothing bad happens completes the import, whatever happened
  // before it and happens after it.
  lemma SmoothRunCompletes(plan: Plan, runs: seq<Ran>, n: nat)
    requires Runs(plan, START, runs) && BindingsBound(plan)
    requires n < |runs| && Smooth(runs[n].log)
    ensures var x := Last(START, runs);
            x.disk.complete && AllDone(plan, x.disk, |plan.assets|) && Safe(plan, x)
  {
    RunsKeepWorldOk(plan, START, runs);
    EndedStaysComplete(plan, START, runs, n);
  }

  lemma {:induction false} EndedStaysComplete(plan: Plan, w: World, runs: seq<Ran>, n: nat)
    requires Runs(plan, w, runs) && BindingsBound(plan) && n < |runs| && Smooth(runs[n].log)
    ensures Last(w, runs).disk.complete
    decreases |runs|
  {
    if n < |runs| - 1 { EndedStaysComplete(plan, w, runs[..|runs| - 1], n); }
  }

  // ---- The program ----

  // Memory: what the process would save next. The n-th outside call has the n-th
  // outcome; the log is what was called.
  class Seed {
    const plan: Plan
    const outcome: nat -> Outcome
    var state: Progress
    var world: World
    var log: seq<Event>

    // A new process reads the saved file.
    constructor (plan: Plan, outcome: nat -> Outcome, world: World)
      ensures this.plan == plan && this.outcome == outcome && this.world == world && state == world.disk && log == []
    {
      this.plan := plan;
      this.outcome := outcome;
      this.world := world;
      state := world.disk;
      log := [];
    }

    // The process runs on only while every call has gone well.
    ghost predicate Clean()
      reads this
    {
      forall e :: e in log ==> e.ok
    }

    ghost predicate Fine()
      reads this
    {
      state == world.disk && WorldOk(plan, world) && Clean()
    }

    // What a step promises when it stops anywhere.
    twostate predicate Moved(orphan: Orphan)
      reads this
    {
      Step(old(world), world, orphan) && WorldOk(plan, world)
    }

    // A stop is to blame on the last call or on too long a validation; a binding may
    // also find what it binds not published.
    ghost predicate Blamed(stop: Stop)
      reads this
    {
      match stop
      case CallFailed(c) => log != [] && log[|log| - 1] == Event(c, false) && !Went(outcome(|log| - 1))
      case WasRejected(p) => log != [] && log[|log| - 1] == Event(Look(p, Rejected), true)
      case TimedOut(p) => Waits(log, p) >= 179
      case Unlisted(id) => log != [] && log[|log| - 1] == Event(ReadRelease(id, false), true)
      case Unbound(_) => false
    }

    ghost predicate Unpublished(stop: Stop)
      reads this
    {
      && stop.Unbound?
      && stop.binding < |plan.bindings|
      && plan.bindings[stop.binding] !in world.disk.replacements
    }

    method Outside(c: Call) returns (o: Outcome, error: Option<Stop>)
      modifies `log
      ensures o == outcome(|old(log)|) && log == old(log) + [Event(c, Went(o))]
      ensures error == if Went(o) then None else Some(CallFailed(c))
    {
      o := outcome(|log|);
      log := log + [Event(c, Went(o))];
      error := if Went(o) then None else Some(CallFailed(c));
    }

    // The file is written under another name and renamed; it is never cut short.
    method Save() returns (error: Option<Stop>)
      requires Clean()
      modifies `world, `log
      ensures world.(tmp := None) == old(world).(disk := state, tmp := None)
           || (error.Some? && world.(tmp := None) == old(world).(tmp := None))
      ensures error.None? ==> world.disk == state && Clean()
      ensures error.Some? ==> Blamed(error.value)
    {
      var write, rename;
      write, error := Outside(WriteFile);
      world := world.(tmp := if write.took then Some(state) else None);
      if error.Some? { return; }
      rename, error := Outside(RenameFile);
      if rename.took { world := world.(disk := state, tmp := None); }
    }

    // Creates a target; the process may stop after the server has created it.
    method CreateTarget(k: Key) returns (id: Id, error: Option<Stop>)
      requires Clean()
      modifies `world, `log
      ensures world == old(world)
           || world == old(world).(created := old(world).created[k := Count(old(world).created, k) + 1],
                                   nextId := old(world).nextId + 1)
      ensures error.None? ==> world != old(world) && id == old(world).nextId && Clean()
      ensures error.Some? ==> Blamed(error.value)
    {
      var o;
      o, error := Outside(CreateObject(k));
      id := world.nextId;
      if o.took {
        world := world.(created := world.created[k := Count(world.created, k) + 1], nextId := id + 1);
      }
    }

    method CreateProposal(k: Key) returns (p: Id, error: Option<Stop>)
      requires Clean()
      modifies `world, `log
      ensures world == old(world)
           || world == old(world).(proposed := old(world).proposed[k := Count(old(world).proposed, k) + 1],
                                   states := old(world).states[old(world).nextId := Draft],
                                   nextId := old(world).nextId + 1)
      ensures error.None? ==> world != old(world) && p == old(world).nextId && Clean()
      ensures error.Some? ==> Blamed(error.value)
    {
      var o;
      o, error := Outside(Propose(k));
      p := world.nextId;
      if o.took {
        world := world.(proposed := world.proposed[k := Count(world.proposed, k) + 1],
                        states := world.states[p := Draft],
                        nextId := p + 1);
      }
    }

    // What only the server does.
    twostate predicate Served()
      reads this
    {
      && Fine() && Moved(NoOrphan)
      && world == old(world).(states := world.states, reviews := world.reviews, seen := world.seen)
    }

    // Others may move a proposal on, but release only what is reviewed.
    method ProposalMoves(p: Id, next: ProposalState)
      requires Fine()
      modifies `world
      ensures Served() && world.reviews == old(world).reviews
      ensures p in old(world).states ==> p in world.states && MovesTo(old(world).states[p], world.states[p])
      ensures p in old(world).states && MovesTo(old(world).states[p], next) && next != Released ==>
                world.states[p] == next
    {
      if p in world.states && MovesTo(world.states[p], next) && (next == Released ==> Count(world.reviews, p) == 1) {
        world := world.(states := world.states[p := next]);
      }
      ServerOnly(plan, old(world), world);
    }

    // The proposal as the server has it now.
    method LookAt(p: Id) returns (s: ProposalState, error: Option<Stop>)
      requires Fine() && p in world.states
      modifies `world, `log
      ensures Moved(NoOrphan) && state == world.disk && world.reviews == old(world).reviews
      ensures p in world.states && s == world.states[p] && MovesTo(old(world).states[p], s)
      ensures error.None? ==> Served() && log == old(log) + [Event(Look(p, s), true)]
      ensures error.Some? ==> Blamed(error.value)
    {
      ProposalMoves(p, outcome(|log|).moved);
      s := world.states[p];
      var o;
      o, error := Outside(Look(p, s));
    }

    // A draft is proposed and validation begins; a submission that fails may have
    // got as far as proposing.
    method Submit(p: Id) returns (error: Option<Stop>)
      requires Fine() && p in world.states && Stage(world.states[p]) <= Stage(Validating)
      modifies `world, `log
      ensures Moved(NoOrphan) && state == world.disk && p in world.states
      ensures error.None? ==> Served() && world.states[p] == Validating
      ensures error.None? ==> log == old(log) + [Event(Submission(p), true)]
      ensures error.Some? ==> Blamed(error.value)
    {
      var begun := outcome(|log|).took;
      var proposed := outcome(|log|).moved == Proposed;
      ProposalMoves(p, if begun then Validating else if proposed then Proposed else world.states[p]);
      var o;
      o, error := Outside(Submission(p));
    }

    // One look at the proposal, and what it asks for.
    method Poll(p: Id) returns (released: bool, error: Option<Stop>)
      requires Fine() && p in world.states
      modifies `world, `log
      ensures Moved(NoOrphan) && state == world.disk && p in world.states
      ensures error.None? ==> Served()
      ensures error.None? && released ==> IsReleased(world, p)
      ensures error.None? && !released ==>
                && Stage(world.states[p]) >= Stage(Validating)
                && Waits(log, p) >= Waits(old(log), p)
                && (Waits(log, p) == Waits(old(log), p) ==> Stage(old(world).states[p]) < Stage(Validating))
      ensures error.Some? ==> Blamed(error.value)
    {
      StepRefl(world);
      hide Step, WorldOk;
      released := false;
      var s;
      s, error := LookAt(p);
      if error.Some? { return; }
      WaitsOn(old(log), Event(Look(p, s), true), p);
      ghost var seen, looked := log, world;
      match s {
        case Released => released := true;
        case Draft =>
          error := Submit(p);
          WaitsOn(seen, Event(Submission(p), true), p);
          StepTrans(old(world), looked, world, NoOrphan);
        case Proposed =>
          error := Submit(p);
          WaitsOn(seen, Event(Submission(p), true), p);
          StepTrans(old(world), looked, world, NoOrphan);
        case Validating =>
          var o;
          o, error := Outside(Wait(p));
          WaitsOn(seen, Event(Wait(p), true), p);
        case InReview =>
          error := ReviewAndPublish(p);
          StepTrans(old(world), looked, world, NoOrphan);
          released := error.None?;
        case Rejected => error := Some(WasRejected(p));
      }
    }

    // A proposal without a review is approved, and released then.
    method ReviewAndPublish(p: Id) returns (error: Option<Stop>)
      requires Fine() && p in world.states && world.states[p] == InReview
      modifies `world, `log
      ensures Moved(NoOrphan) && state == world.disk && p in world.states
      ensures error.None? ==> Served() && IsReleased(world, p)
      ensures error.Some? ==> Blamed(error.value)
    {
      hide Step, WorldOk;
      error := ReviewOnce(p);
      if error.Some? { return; }
      ghost var w := world;
      error := ReleaseReviewed(p);
      StepTrans(old(world), w, world, NoOrphan);
    }

    method ReviewOnce(p: Id) returns (error: Option<Stop>)
      requires Fine() && p in world.states && world.states[p] == InReview
      modifies `world, `log
      ensures Moved(NoOrphan) && world == old(world).(reviews := world.reviews)
      ensures error.None? ==> Fine() && Count(world.reviews, p) == 1
      ensures error.Some? ==> Blamed(error.value)
    {
      StepRefl(world);
      var o;
      o, error := Outside(CountReviews(p));
      if error.Some? || Count(world.reviews, p) > 0 { return; }
      hide Step, Good;
      o, error := Outside(Approve(p));
      if o.took { world := world.(reviews := world.reviews[p := Count(world.reviews, p) + 1]); }
      Reviewed(plan, old(world), world, p);
    }

    // The server releases what is in review and was approved.
    method ReleaseReviewed(p: Id) returns (error: Option<Stop>)
      requires Fine() && p in world.states && world.states[p] == InReview && Count(world.reviews, p) == 1
      modifies `world, `log
      ensures Moved(NoOrphan) && world == old(world).(states := world.states) && p in world.states
      ensures error.None? ==> Fine() && IsReleased(world, p)
      ensures error.Some? ==> Blamed(error.value)
    {
      hide Step, Good;
      var o;
      o, error := Outside(Release(p));
      if o.took && Count(world.reviews, p) > 0 { world := world.(states := world.states[p := Released]); }
      ServerOnly(plan, old(world), world);
    }

    // The entry that the current release has for the asset.
    method ReleaseEntry(id: Id) returns (entry: Entry, error: Option<Stop>)
      requires Fine()
      modifies `world, `log
      ensures Moved(NoOrphan) && world == old(world).(seen := world.seen)
      ensures error.None? ==> Fine() && entry.asset == id && entry in world.seen
      ensures error.Some? ==> Blamed(error.value)
    {
      var o;
      o, error := Outside(ReadRelease(id, outcome(|log|).listed));
      entry := Entry(id, o.revision, o.release);
      if error.Some? { return; }
      if !o.listed { return entry, Some(Unlisted(id)); }
      world := world.(seen := world.seen + {entry});
      ServerOnly(plan, old(world), world);
    }

    // A target is created and saved, unless it is saved already.
    method Target(k: Key) returns (id: Id, error: Option<Stop>, ghost orphan: Orphan)
      requires Fine()
      modifies `state, `world, `log
      ensures Moved(orphan)
      ensures error.None? ==> Fine() && orphan == NoOrphan && state == old(state).(targets := state.targets)
      ensures error.None? ==> k in state.targets && id == state.targets[k]
      ensures error.Some? ==> Blamed(error.value)
    {
      orphan := NoOrphan;
      if k in state.targets { return state.targets[k], None, NoOrphan; }
      ghost var w := world;
      id, error := CreateTarget(k);
      ghost var x := world;
      TargetCreated(plan, w, x, k);
      if error.Some? {
        orphan := if world == w then NoOrphan else OrphanTarget(k);
        return;
      }
      state := state.(targets := state.targets[k := id]);
      error := Save();
      TargetSaved(plan, w, x, world, k, id);
      orphan := if world.disk == x.disk then OrphanTarget(k) else NoOrphan;
    }

    method Proposal(k: Key) returns (p: Id, error: Option<Stop>, ghost orphan: Orphan)
      requires Fine()
      modifies `state, `world, `log
      ensures Moved(orphan)
      ensures error.None? ==> Fine() && orphan == NoOrphan && state == old(state).(proposals := state.proposals)
      ensures error.None? ==> k in state.proposals && p == state.proposals[k]
      ensures error.Some? ==> Blamed(error.value)
    {
      orphan := NoOrphan;
      if k in state.proposals { return state.proposals[k], None, NoOrphan; }
      ghost var w := world;
      p, error := CreateProposal(k);
      ghost var x := world;
      ProposalCreated(plan, w, x, k);
      if error.Some? {
        orphan := if world == w then NoOrphan else OrphanProposal(k);
        return;
      }
      state := state.(proposals := state.proposals[k := p]);
      error := Save();
      ProposalSaved(plan, w, x, world, k, p);
      orphan := if world.disk == x.disk then OrphanProposal(k) else NoOrphan;
    }

    // publish: the proposal is created once, then followed until it is released.
    method Publish(k: Key) returns (error: Option<Stop>, ghost orphan: Orphan)
      requires Fine()
      modifies `state, `world, `log
      ensures Moved(orphan)
      ensures error.None? ==> Fine() && orphan == NoOrphan && state == old(state).(proposals := state.proposals)
      ensures error.None? ==>
                && k in state.proposals
                && IsReleased(world, state.proposals[k])
                && Count(world.reviews, state.proposals[k]) == 1
      ensures error.Some? ==> Blamed(error.value)
    {
      var p;
      p, error, orphan := Proposal(k);
      if error.Some? { return; }
      ghost var saved := state;
      for i := 0 to 180
        invariant Fine() && Moved(NoOrphan) && state == saved && p in world.states
        invariant i > 0 ==> Stage(world.states[p]) >= Stage(Validating)
        invariant i <= Waits(log, p) + 1
      {
        ghost var w := world;
        var released;
        released, error := Poll(p);
        StepTrans(old(world), w, world, NoOrphan);
        if error.Some? || released { return error, NoOrphan; }
      }
      error := Some(TimedOut(p));
    }

    // The target is created, read and published.
    method PublishTarget(k: Key) returns (id: Id, error: Option<Stop>, ghost orphan: Orphan)
      requires Fine()
      modifies `state, `world, `log
      ensures Moved(orphan)
      ensures error.None? ==>
                && Fine() && orphan == NoOrphan && state.done == old(state).done
                && KeyDone(world, state, k) && id == state.targets[k]
      ensures error.Some? ==> Blamed(error.value)
    {
      hide Step, WorldOk;
      id, error, orphan := Target(k);
      if error.Some? { return; }
      var o;
      o, error := Outside(ReadObject(id));
      if error.Some? { return; }
      ghost var w := world;
      error, orphan := Publish(k);
      StepTrans(old(world), w, world, orphan);
    }

    // asset: its replacements are recorded together with its being done.
    method Asset(i: nat) returns (error: Option<Stop>, ghost orphan: Orphan)
      requires PlanOk(plan) && Fine() && i < |plan.assets|
      modifies `state, `world, `log
      ensures Moved(orphan)
      ensures error.None? ==> Fine() && orphan == NoOrphan && AssetKey(plan.assets[i].address) in state.done
      ensures error.Some? ==> Blamed(error.value)
    {
      var k := AssetKey(plan.assets[i].address);
      StepRefl(world);
      hide Step, WorldOk, PlanOk, Waits;
      if k in state.done { return None, NoOrphan; }
      var id, entry;
      id, error, orphan := PublishTarget(k);
      if error.Some? { return; }
      ghost var x := world;
      entry, error := ReleaseEntry(id);
      StepTrans(old(world), x, world, NoOrphan);
      if error.Some? { return; }
      ghost var y := world;
      error := RecordAsset(i, entry);
      StepTrans(old(world), y, world, NoOrphan);
    }

    method RecordAsset(i: nat, e: Entry) returns (error: Option<Stop>)
      requires PlanOk(plan) && Fine() && i < |plan.assets| && e in world.seen
      requires KeyDone(world, state, AssetKey(plan.assets[i].address))
      requires e.asset == state.targets[AssetKey(plan.assets[i].address)]
      requires AssetKey(plan.assets[i].address) !in state.done
      modifies `state, `world, `log
      ensures Moved(NoOrphan)
      ensures error.None? ==> Fine() && AssetKey(plan.assets[i].address) in state.done
      ensures error.Some? ==> Blamed(error.value)
    {
      var a := plan.assets[i];
      state := state.(
        replacements := state.replacements[a.assetId := e.asset][a.revisionId := e.revision][
          "release:" + a.assetId := e.release],
        done := state.done + {AssetKey(a.address)});
      assert state == WithAsset(old(state), a, e);
      hide WithAsset, WorldOk, Step, KeyDone, PlanOk;
      error := Save();
      AssetRecorded(plan, old(world), world, i, e);
    }

    method RecordBinding(i: nat) returns (error: Option<Stop>)
      requires PlanOk(plan) && Fine() && KeyDone(world, state, BindingKey(i))
      modifies `state, `world, `log
      ensures Moved(NoOrphan)
      ensures error.None? ==> Fine() && BindingKey(i) in state.done
      ensures error.Some? ==> Blamed(error.value)
    {
      state := state.(done := state.done + {BindingKey(i)});
      hide WorldOk, Step, KeyDone, PlanOk;
      error := Save();
      BindingRecorded(plan, old(world), world, i);
    }

    method Binding(i: nat) returns (error: Option<Stop>, ghost orphan: Orphan)
      requires PlanOk(plan) && Fine() && i < |plan.bindings|
      modifies `state, `world, `log
      ensures Moved(orphan)
      ensures error.None? ==> Fine() && orphan == NoOrphan && BindingKey(i) in state.done
      ensures error.Some? ==> Blamed(error.value) || Unpublished(error.value)
    {
      var k := BindingKey(i);
      if k in state.done { return None, NoOrphan; }
      if k !in state.targets && plan.bindings[i] !in state.replacements { return Some(Unbound(i)), NoOrphan; }
      var id;
      id, error, orphan := Target(k);
      if error.Some? { return; }
      ghost var w := world;
      error, orphan := Publish(k);
      StepTrans(old(world), w, world, orphan);
      if error.Some? { return; }
      ghost var x := world;
      error := RecordBinding(i);
      StepTrans(old(world), x, world, NoOrphan);
    }

    method RecordJoin(i: nat) returns (error: Option<Stop>)
      requires PlanOk(plan) && Fine() && i < |plan.joins| && KeyDone(world, state, JoinKey(i))
              && JoinKey(i) !in state.done
      modifies `state, `world, `log
      ensures Moved(NoOrphan)
      ensures error.None? ==> Fine() && JoinKey(i) in state.done
      ensures error.Some? ==> Blamed(error.value)
    {
      var id := state.targets[JoinKey(i)];
      state := state.(replacements := state.replacements[plan.joins[i] := id], done := state.done + {JoinKey(i)});
      assert state == WithJoin(old(state), plan, i, id);
      hide WithJoin, WorldOk, Step, KeyDone, PlanOk;
      error := Save();
      JoinRecorded(plan, old(world), world, i);
    }

    method Join(i: nat) returns (error: Option<Stop>, ghost orphan: Orphan)
      requires PlanOk(plan) && Fine() && i < |plan.joins|
      modifies `state, `world, `log
      ensures Moved(orphan)
      ensures error.None? ==> Fine() && orphan == NoOrphan && JoinKey(i) in state.done
      ensures error.Some? ==> Blamed(error.value)
    {
      var k := JoinKey(i);
      if k in state.done { return None, NoOrphan; }
      var id;
      id, error, orphan := Target(k);
      if error.Some? { return; }
      ghost var w := world;
      error, orphan := Publish(k);
      StepTrans(old(world), w, world, orphan);
      if error.Some? { return; }
      ghost var x := world;
      error := RecordJoin(i);
      StepTrans(old(world), x, world, NoOrphan);
    }

    method Physical() returns (error: Option<Stop>, ghost orphan: Orphan)
      requires PlanOk(plan) && Fine()
      modifies `state, `world, `log
      ensures Moved(orphan)
      ensures error.None? ==> Fine() && orphan == NoOrphan && PhysicalDone(plan, state)
      ensures error.Some? ==> Blamed(error.value) || Unpublished(error.value)
    {
      StepRefl(world);
      hide Step, WorldOk;
      for i := 0 to |plan.bindings|
        invariant Fine() && Moved(NoOrphan)
        invariant forall j :: 0 <= j < i ==> BindingKey(j) in state.done
      {
        ghost var w := world;
        error, orphan := Binding(i);
        StepTrans(old(world), w, world, orphan);
        StepKeepsDone(w, world, orphan);
        if error.Some? { return; }
      }
      for i := 0 to |plan.joins|
        invariant Fine() && Moved(NoOrphan)
        invariant forall j :: 0 <= j < |plan.bindings| ==> BindingKey(j) in state.done
        invariant forall j :: 0 <= j < i ==> JoinKey(j) in state.done
      {
        ghost var w := world;
        error, orphan := Join(i);
        StepTrans(old(world), w, world, orphan);
        StepKeepsDone(w, world, orphan);
        if error.Some? { return; }
      }
      return None, NoOrphan;
    }

    // An asset after another, the physical objects before the first analysis model.
    method Assets() returns (error: Option<Stop>, ghost orphan: Orphan)
      requires PlanOk(plan) && Fine()
      modifies `state, `world, `log
      ensures Moved(orphan)
      ensures error.None? ==> Fine() && orphan == NoOrphan && AllDone(plan, state, |plan.assets|)
      ensures error.Some? ==> Blamed(error.value) || (Unpublished(error.value) && !BindingsBound(plan))
    {
      StepRefl(world);
      hide Step, WorldOk, Good, PlanOk, BindingsBound;
      for i := 0 to |plan.assets|
        invariant Fine() && Moved(NoOrphan) && AllDone(plan, state, i)
      {
        if plan.assets[i].analysisModel {
          ghost var w := world;
          error, orphan := Physical();
          StepTrans(old(world), w, world, orphan);
          StepKeepsDone(w, world, orphan);
          if error.Some? {
            if Unpublished(error.value) { PublishedIsBound(plan, world, i, error.value.binding); }
            return;
          }
        }
        ghost var x := world;
        error, orphan := Asset(i);
        StepTrans(old(world), x, world, orphan);
        StepKeepsDone(x, world, orphan);
        if error.Some? { return; }
      }
      return None, NoOrphan;
    }

    // The relations, the proof by a query, and the mark that all is done.
    method Finish() returns (error: Option<Stop>)
      requires Fine() && AllDone(plan, state, |plan.assets|)
      modifies `state, `world, `log
      ensures Moved(NoOrphan)
      ensures error.None? ==> Fine() && state.complete
      ensures error.Some? ==> Blamed(error.value)
    {
      StepRefl(world);
      hide Step, WorldOk, AllDone;
      var o;
      o, error := Outside(Relate);
      if error.Some? { return; }
      o, error := Outside(Prove);
      if error.Some? { return; }
      state := state.(complete := true);
      error := Save();
      CompleteRecorded(plan, old(world), world);
    }

    method Run() returns (error: Option<Stop>, ghost orphan: Orphan)
      requires PlanOk(plan) && Fine()
      modifies `state, `world, `log
      ensures RunEffect(plan, old(world), Ran(world, log, error, orphan))
      ensures error.Some? ==> Blamed(error.value) || Unpublished(error.value)
      ensures error.None? ==> AllDone(plan, world.disk, |plan.assets|) && Safe(plan, world)
    {
      StepRefl(world);
      hide Step, WorldOk, Safe, Smooth, BindingsBound, PlanOk, AllDone;
      orphan := NoOrphan;
      var o;
      o, error := Outside(Prepare);
      if error.None? { error, orphan := Assets(); }
      if error.None? {
        ghost var w := world;
        error := Finish();
        StepTrans(old(world), w, world, NoOrphan);
      }
      if error.Some? {
        if Blamed(error.value) { NotSmooth(error.value); }
      } else {
        OkIsSafe(plan, world);
      }
    }

    // A stop names the call that failed or the wait that was too long.
    lemma NotSmooth(stop: Stop)
      requires Blamed(stop)
      ensures !Smooth(log)
    {
    }
  }

  // The import started any number of times, each time as a new process that reads
  // the file the last one left.
  method Import(plan: Plan, times: nat, outcome: (nat, nat) -> Outcome) returns (world: World, ghost runs: seq<Ran>)
    requires PlanOk(plan)
    ensures |runs| == times && Runs(plan, START, runs) && world == Last(START, runs)
    ensures Safe(plan, world)
    ensures forall k ::
              && Count(world.created, k) <= 1 + OrphansOf(runs, OrphanTarget(k))
              && Count(world.proposed, k) <= 1 + OrphansOf(runs, OrphanProposal(k))
    ensures forall n :: 0 <= n < times && Smooth(runs[n].log) && BindingsBound(plan) ==>
              world.disk.complete && AllDone(plan, world.disk, |plan.assets|)
  {
    world, runs := START, [];
    assert WorldOk(plan, world);
    hide WorldOk, RunEffect, PlanOk, Safe, Smooth, BindingsBound, AllDone;
    for n := 0 to times
      invariant |runs| == n && Runs(plan, START, runs) && world == Last(START, runs) && WorldOk(plan, world)
    {
      var seed := new Seed(plan, (i: nat) => outcome(n, i), world);
      var error; ghost var orphan;
      error, orphan := seed.Run();
      ghost var ran := Ran(seed.world, seed.log, error, orphan);
      RunLeavesOk(plan, world, ran);
      ghost var before := runs;
      runs := runs + [ran];
      assert runs[..n] == before;
      world := seed.world;
    }
    forall k
      ensures Count(world.created, k) <= 1 + OrphansOf(runs, OrphanTarget(k))
      ensures Count(world.proposed, k) <= 1 + OrphansOf(runs, OrphanProposal(k))
    {
      ImportIsSafe(plan, runs, k);
    }
    ImportIsSafe(plan, runs, BindingKey(0));
    forall n | 0 <= n < times && Smooth(runs[n].log) && BindingsBound(plan)
      ensures world.disk.complete && AllDone(plan, world.disk, |plan.assets|)
    {
      SmoothRunCompletes(plan, runs, n);
    }
  }

  lemma OkIsSafe(plan: Plan, w: World)
    requires WorldOk(plan, w)
    ensures Safe(plan, w)
  {
  }

  lemma PublishedIsBound(plan: Plan, w: World, n: nat, i: nat)
    requires WorldOk(plan, w) && n < |plan.assets| && plan.assets[n].analysisModel && AssetsDone(plan, w.disk, n)
    requires i < |plan.bindings| && plan.bindings[i] !in w.disk.replacements
    ensures !BindingsBound(plan)
  {
    hide KeysGood, JoinsGood, RefsGood, CompleteGood, ServerOk, Known;
    assert forall j :: 0 <= j < n ==> AssetDone(w, w.disk, plan.assets[j]);
  }

  lemma RunLeavesOk(plan: Plan, w: World, r: Ran)
    requires WorldOk(plan, w) && RunEffect(plan, w, r)
    ensures WorldOk(plan, r.after)
  {
  }

  lemma StepKeepsDone(w: World, x: World, orphan: Orphan)
    requires Step(w, x, orphan)
    ensures w.disk.done <= x.disk.done
  {
  }

  // The file after it was saved, or as it was.
  ghost predicate MaybeSaved(w: World, x: World, p: Progress) {
    x.(tmp := None) == w.(tmp := None) || x.(tmp := None) == w.(disk := p, tmp := None)
  }

  function WithAsset(p: Progress, a: AssetPlan, e: Entry): Progress {
    p.(replacements := p.replacements[a.assetId := e.asset][a.revisionId := e.revision][
         "release:" + a.assetId := e.release],
       done := p.done + {AssetKey(a.address)})
  }

  // More keys done: the promises about the others stay.
  lemma DoneRefs(plan: Plan, p: Progress, q: Progress)
    requires RefsGood(plan, p) && p.done <= q.done
    requires forall r :: r in q.replacements ==> r in p.replacements || RefDone(plan, q, r)
    ensures RefsGood(plan, q)
  {
    forall r | r in q.replacements
      ensures RefDone(plan, q, r)
    {
      if r in p.replacements { RefStaysDone(plan, p, q, r); }
    }
  }

  lemma RefStaysDone(plan: Plan, p: Progress, q: Progress, r: string)
    requires RefsGood(plan, p) && p.done <= q.done && r in p.replacements
    ensures RefDone(plan, q, r)
  {
    hide IsRef;
    assert RefDone(plan, p, r);
  }

  lemma DoneComplete(plan: Plan, p: Progress, q: Progress)
    requires CompleteGood(plan, p) && p.done <= q.done && q.complete == p.complete
    ensures CompleteGood(plan, q)
  {
  }

  lemma KeyMore(w: World, p: Progress, q: Progress, k: Key)
    requires KeysGood(w, p) && KeyDone(w, p, k)
    requires q.done == p.done + {k} && q.targets == p.targets && q.proposals == p.proposals
    ensures KeysGood(w, q)
  {
    forall l | l in q.done ensures KeyDone(w, q, l) { assert KeyDone(w, p, l); }
  }

  lemma WithAssetAssets(plan: Plan, w: World, p: Progress, i: nat, e: Entry)
    requires PlanOk(plan) && AssetsGood(plan, w, p) && i < |plan.assets| && e in w.seen
    requires AssetKey(plan.assets[i].address) in p.targets && e.asset == p.targets[AssetKey(plan.assets[i].address)]
    ensures AssetsGood(plan, w, WithAsset(p, plan.assets[i], e))
  {
    var a, q := plan.assets[i], WithAsset(p, plan.assets[i], e);
    forall j | 0 <= j < |plan.assets| && AssetKey(plan.assets[j].address) in q.done
      ensures AssetDone(w, q, plan.assets[j])
    {
      if j == i {
        assert ThreeRefs(a);
      } else {
        OtherRefs(plan, p, i, j, e);
        hide WithAsset, IsRef, PlanOk;
        assert AssetDone(w, p, plan.assets[j]);
      }
    }
  }

  lemma OtherRefs(plan: Plan, p: Progress, i: nat, j: nat, e: Entry)
    requires PlanOk(plan) && i < |plan.assets| && j < |plan.assets| && j != i
    ensures var a, q := plan.assets[j], WithAsset(p, plan.assets[i], e);
            && (AssetKey(a.address) in q.done <==> AssetKey(a.address) in p.done)
            && q.targets == p.targets
            && SameRef(p, q, a.assetId) && SameRef(p, q, a.revisionId) && SameRef(p, q, "release:" + a.assetId)
  {
    var a := plan.assets[j];
    assert IsRef(a, a.assetId) && IsRef(a, a.revisionId) && IsRef(a, "release:" + a.assetId);
    assert plan.assets[i].address != a.address;
  }

  ghost predicate SameRef(p: Progress, q: Progress, r: string) {
    (r in p.replacements <==> r in q.replacements) && (r in p.replacements ==> q.replacements[r] == p.replacements[r])
  }

  lemma WithAssetJoins(plan: Plan, p: Progress, i: nat, e: Entry)
    requires PlanOk(plan) && JoinsGood(plan, p) && i < |plan.assets|
    ensures JoinsGood(plan, WithAsset(p, plan.assets[i], e))
  {
    var q := WithAsset(p, plan.assets[i], e);
    forall j | 0 <= j < |plan.joins| && JoinKey(j) in q.done
      ensures JoinDone(q, plan, j)
    {
      assert JoinDone(p, plan, j) && !IsRef(plan.assets[i], plan.joins[j]);
    }
  }

  lemma WithAssetRefs(plan: Plan, p: Progress, i: nat, e: Entry)
    requires RefsGood(plan, p) && i < |plan.assets|
    ensures RefsGood(plan, WithAsset(p, plan.assets[i], e))
  {
    var q := WithAsset(p, plan.assets[i], e);
    forall r | r in q.replacements && r !in p.replacements
      ensures RefDone(plan, q, r)
    {
      assert IsRef(plan.assets[i], r);
    }
    DoneRefs(plan, p, q);
  }

  // No replacement is recorded for an asset that is not done.
  lemma WithAssetGrows(plan: Plan, p: Progress, i: nat, e: Entry)
    requires PlanOk(plan) && RefsGood(plan, p) && i < |plan.assets| && AssetKey(plan.assets[i].address) !in p.done
    ensures Grows(p, WithAsset(p, plan.assets[i], e))
  {
    var a := plan.assets[i];
    RefIsNew(plan, p, i, a.assetId);
    RefIsNew(plan, p, i, a.revisionId);
    RefIsNew(plan, p, i, "release:" + a.assetId);
  }

  lemma RefIsNew(plan: Plan, p: Progress, i: nat, r: string)
    requires PlanOk(plan) && RefsGood(plan, p) && i < |plan.assets| && AssetKey(plan.assets[i].address) !in p.done
    requires IsRef(plan.assets[i], r)
    ensures r !in p.replacements
  {
    assert r in p.replacements ==> RefDone(plan, p, r);
    hide IsRef;
  }

  lemma AssetRecorded(plan: Plan, w: World, x: World, i: nat, e: Entry)
    requires PlanOk(plan) && WorldOk(plan, w) && i < |plan.assets| && e in w.seen
    requires KeyDone(w, w.disk, AssetKey(plan.assets[i].address))
    requires e.asset == w.disk.targets[AssetKey(plan.assets[i].address)]
    requires AssetKey(plan.assets[i].address) !in w.disk.done
    requires MaybeSaved(w, x, WithAsset(w.disk, plan.assets[i], e))
    ensures WorldOk(plan, x) && Step(w, x, NoOrphan)
  {
    hide PlanOk, KeysGood, AssetsGood, JoinsGood, RefsGood, CompleteGood, MaybeSaved, Grows;
    var a, p, q := plan.assets[i], w.disk, WithAsset(w.disk, plan.assets[i], e);
    WithAssetGrows(plan, p, i, e);
    KeyMore(w, p, q, AssetKey(a.address));
    WithAssetAssets(plan, w, p, i, e);
    WithAssetJoins(plan, p, i, e);
    WithAssetRefs(plan, p, i, e);
    DoneComplete(plan, p, q);
    GoodAnyTmp(plan, w, x, q);
  }

  lemma GoodAnyTmp(plan: Plan, w: World, x: World, p: Progress)
    requires Good(plan, w, w.disk) && Good(plan, w, p) && ServerOk(w) && Known(w) && MaybeSaved(w, x, p)
    requires Grows(w.disk, p) && p.targets == w.disk.targets && p.proposals == w.disk.proposals
    ensures WorldOk(plan, x) && Step(w, x, NoOrphan)
  {
    SavedStep(w, x, p);
    hide Step, Counts, Grows, MovesTo;
    GoodElsewhere(plan, w, x, w.disk);
    GoodElsewhere(plan, w, x, p);
    hide Good;
  }

  lemma SavedStep(w: World, x: World, p: Progress)
    requires MaybeSaved(w, x, p) && Grows(w.disk, p)
    requires p.targets == w.disk.targets && p.proposals == w.disk.proposals
    ensures Step(w, x, NoOrphan) && ServerGrows(w, x)
  {
  }

  lemma GoodElsewhere(plan: Plan, w: World, x: World, p: Progress)
    requires Good(plan, w, p) && ServerGrows(w, x)
    ensures Good(plan, x, p)
  {
    hide RefsGood, CompleteGood, JoinsGood;
    forall k | k in p.done ensures KeyDone(x, p, k) { assert KeyDone(w, p, k); }
  }

  lemma BindingRecorded(plan: Plan, w: World, x: World, i: nat)
    requires PlanOk(plan) && WorldOk(plan, w) && KeyDone(w, w.disk, BindingKey(i))
    requires MaybeSaved(w, x, w.disk.(done := w.disk.done + {BindingKey(i)}))
    ensures WorldOk(plan, x) && Step(w, x, NoOrphan)
  {
    hide PlanOk, KeysGood, RefsGood, CompleteGood, MaybeSaved;
    var p, q := w.disk, w.disk.(done := w.disk.done + {BindingKey(i)});
    KeyMore(w, p, q, BindingKey(i));
    DoneRefs(plan, p, q);
    DoneComplete(plan, p, q);
    OtherKindOfKey(plan, w, p, q, BindingKey(i));
    hide AssetsGood, JoinsGood;
    GoodAnyTmp(plan, w, x, q);
  }

  lemma OtherKindOfKey(plan: Plan, w: World, p: Progress, q: Progress, k: Key)
    requires AssetsGood(plan, w, p) && JoinsGood(plan, p) && k.BindingKey?
    requires q == p.(done := p.done + {k})
    ensures AssetsGood(plan, w, q) && JoinsGood(plan, q)
  {
    forall i | 0 <= i < |plan.assets| && AssetKey(plan.assets[i].address) in q.done
      ensures AssetDone(w, q, plan.assets[i])
    {
      assert AssetDone(w, p, plan.assets[i]);
    }
    forall i | 0 <= i < |plan.joins| && JoinKey(i) in q.done
      ensures JoinDone(q, plan, i)
    {
      assert JoinDone(p, plan, i);
    }
  }

  function WithJoin(p: Progress, plan: Plan, i: nat, id: Id): Progress
    requires i < |plan.joins|
  {
    p.(replacements := p.replacements[plan.joins[i] := id], done := p.done + {JoinKey(i)})
  }

  lemma WithJoinGood(plan: Plan, w: World, p: Progress, i: nat)
    requires PlanOk(plan) && AssetsGood(plan, w, p) && JoinsGood(plan, p) && RefsGood(plan, p) && i < |plan.joins|
    requires JoinKey(i) in p.targets && JoinKey(i) !in p.done
    ensures var q := WithJoin(p, plan, i, p.targets[JoinKey(i)]);
            AssetsGood(plan, w, q) && JoinsGood(plan, q) && RefsGood(plan, q) && Grows(p, q)
  {
    var q := WithJoin(p, plan, i, p.targets[JoinKey(i)]);
    forall j | 0 <= j < |plan.assets| && AssetKey(plan.assets[j].address) in q.done
      ensures AssetDone(w, q, plan.assets[j])
    {
      assert AssetDone(w, p, plan.assets[j]) && !IsRef(plan.assets[j], plan.joins[i]);
    }
    forall j | 0 <= j < |plan.joins| && JoinKey(j) in q.done
      ensures JoinDone(q, plan, j)
    {
      if j != i { assert JoinDone(p, plan, j) && plan.joins[j] != plan.joins[i]; }
    }
    assert JoinKey(i) in q.done;
    assert RefDone(plan, q, plan.joins[i]);
    DoneRefs(plan, p, q);
    assert plan.joins[i] in p.replacements ==> RefDone(plan, p, plan.joins[i]);
  }

  lemma JoinRecorded(plan: Plan, w: World, x: World, i: nat)
    requires PlanOk(plan) && WorldOk(plan, w) && i < |plan.joins| && KeyDone(w, w.disk, JoinKey(i))
    requires JoinKey(i) !in w.disk.done
    requires MaybeSaved(w, x, WithJoin(w.disk, plan, i, w.disk.targets[JoinKey(i)]))
    ensures WorldOk(plan, x) && Step(w, x, NoOrphan)
  {
    hide PlanOk, KeysGood, AssetsGood, JoinsGood, RefsGood, CompleteGood, MaybeSaved, Grows;
    var p, q := w.disk, WithJoin(w.disk, plan, i, w.disk.targets[JoinKey(i)]);
    KeyMore(w, p, q, JoinKey(i));
    WithJoinGood(plan, w, p, i);
    DoneComplete(plan, p, q);
    GoodAnyTmp(plan, w, x, q);
  }

  lemma CompleteRecorded(plan: Plan, w: World, x: World)
    requires WorldOk(plan, w) && AllDone(plan, w.disk, |plan.assets|)
    requires MaybeSaved(w, x, w.disk.(complete := true))
    ensures WorldOk(plan, x) && Step(w, x, NoOrphan)
  {
    hide MaybeSaved, AllDone;
    var p, q := w.disk, w.disk.(complete := true);
    assert AllDone(plan, q, |plan.assets|) by { SameDone(plan, p, q); }
    forall k | k in q.done ensures KeyDone(w, q, k) { assert KeyDone(w, p, k); }
    DoneRefs(plan, p, q);
    assert AssetsGood(plan, w, q) && JoinsGood(plan, q) by { SameGood(plan, w, p, q); }
    hide Good, RefsGood, AssetsGood, JoinsGood, KeysGood;
    CompleteIsGood(plan, w, q);
    GoodAnyTmp(plan, w, x, q);
  }

  lemma SameDone(plan: Plan, p: Progress, q: Progress)
    requires AllDone(plan, p, |plan.assets|) && p.done == q.done
    ensures AllDone(plan, q, |plan.assets|)
  {
  }

  lemma SameGood(plan: Plan, w: World, p: Progress, q: Progress)
    requires AssetsGood(plan, w, p) && JoinsGood(plan, p) && q == p.(complete := true)
    ensures AssetsGood(plan, w, q) && JoinsGood(plan, q)
  {
    forall i | 0 <= i < |plan.assets| && AssetKey(plan.assets[i].address) in q.done
      ensures AssetDone(w, q, plan.assets[i])
    {
      assert AssetDone(w, p, plan.assets[i]);
    }
    forall i | 0 <= i < |plan.joins| && JoinKey(i) in q.done
      ensures JoinDone(q, plan, i)
    {
      assert JoinDone(p, plan, i);
    }
  }

  lemma CompleteIsGood(plan: Plan, w: World, q: Progress)
    requires KeysGood(w, q) && AssetsGood(plan, w, q) && JoinsGood(plan, q) && RefsGood(plan, q)
    requires AllDone(plan, q, |plan.assets|)
    ensures Good(plan, w, q)
  {
  }

  // One review of what is in review.
  lemma Reviewed(plan: Plan, w: World, x: World, p: Id)
    requires WorldOk(plan, w) && p in w.states && w.states[p] == InReview && Count(w.reviews, p) == 0
    requires x == w || x == w.(reviews := w.reviews[p := 1])
    ensures WorldOk(plan, x) && Step(w, x, NoOrphan)
  {
    assert forall q :: IsReleased(x, q) ==> IsReleased(w, q);
    ServerOnly(plan, w, x);
  }

  // What only the server does leaves the saved file and the counts alone.
  lemma ServerOnly(plan: Plan, w: World, x: World)
    requires WorldOk(plan, w) && ServerGrows(w, x) && ServerOk(x)
    requires x.disk == w.disk && x.created == w.created && x.proposed == w.proposed
    ensures WorldOk(plan, x) && Step(w, x, NoOrphan)
  {
  }

  lemma ProposalCreated(plan: Plan, w: World, x: World, k: Key)
    requires WorldOk(plan, w) && k !in w.disk.proposals
    requires x == w || x == w.(proposed := w.proposed[k := Count(w.proposed, k) + 1],
                               states := w.states[w.nextId := Draft], nextId := w.nextId + 1)
    ensures WorldOk(plan, x) && Step(w, x, if x == w then NoOrphan else OrphanProposal(k))
  {
    assert w.nextId !in w.states;
  }

  lemma ProposalCounts(w: World, x: World, y: World, k: Key, p: Id)
    requires k !in w.disk.proposals
    requires x.created == w.created && x.disk == w.disk && x.proposed == w.proposed[k := Count(w.proposed, k) + 1]
    requires y.created == x.created && y.proposed == x.proposed
    requires y.disk == x.disk || y.disk == x.disk.(proposals := x.disk.proposals[k := p])
    ensures Counts(w, y, if y.disk == x.disk then OrphanProposal(k) else NoOrphan)
  {
  }

  // A grown file is still good: what is done is not touched.
  lemma StillGood(plan: Plan, w: World, x: World, p: Progress, q: Progress)
    requires Good(plan, w, p) && ServerGrows(w, x)
    requires q == p.(targets := q.targets, proposals := q.proposals)
    requires SubMap(p.targets, q.targets) && SubMap(p.proposals, q.proposals)
    ensures Good(plan, x, q)
  {
    forall k | k in q.done
      ensures KeyDone(x, q, k)
    {
      assert KeyDone(w, p, k);
    }
    forall r | r in q.replacements
      ensures RefDone(plan, q, r)
    {
      assert RefDone(plan, p, r);
    }
  }

  lemma ProposalSaved(plan: Plan, w: World, x: World, y: World, k: Key, p: Id)
    requires WorldOk(plan, w) && k !in w.disk.proposals && p == w.nextId
    requires x == w.(proposed := w.proposed[k := Count(w.proposed, k) + 1],
                     states := w.states[w.nextId := Draft], nextId := w.nextId + 1)
    requires y.(tmp := None) == x.(tmp := None)
             || y.(tmp := None) == x.(disk := x.disk.(proposals := x.disk.proposals[k := p]), tmp := None)
    ensures WorldOk(plan, y) && Step(w, y, if y.disk == x.disk then OrphanProposal(k) else NoOrphan)
  {
    hide Good, Counts;
    assert w.nextId !in w.states;
    ProposalCounts(w, x, y, k, p);
    StillGood(plan, w, y, w.disk, y.disk);
  }

  lemma TargetCreated(plan: Plan, w: World, x: World, k: Key)
    requires WorldOk(plan, w) && k !in w.disk.targets
    requires x == w || x == w.(created := w.created[k := Count(w.created, k) + 1], nextId := w.nextId + 1)
    ensures WorldOk(plan, x) && Step(w, x, if x == w then NoOrphan else OrphanTarget(k))
  {
  }

  lemma TargetCounts(w: World, x: World, y: World, k: Key, id: Id)
    requires k !in w.disk.targets
    requires x.proposed == w.proposed && x.disk == w.disk && x.created == w.created[k := Count(w.created, k) + 1]
    requires y.created == x.created && y.proposed == x.proposed
    requires y.disk == x.disk || y.disk == x.disk.(targets := x.disk.targets[k := id])
    ensures Counts(w, y, if y.disk == x.disk then OrphanTarget(k) else NoOrphan)
  {
  }

  lemma TargetSaved(plan: Plan, w: World, x: World, y: World, k: Key, id: Id)
    requires WorldOk(plan, w) && k !in w.disk.targets
    requires x == w.(created := w.created[k := Count(w.created, k) + 1], nextId := w.nextId + 1)
    requires y.(tmp := None) == x.(tmp := None)
             || y.(tmp := None) == x.(disk := x.disk.(targets := x.disk.targets[k := id]), tmp := None)
    ensures WorldOk(plan, y) && Step(w, y, if y.disk == x.disk then OrphanTarget(k) else NoOrphan)
  {
    hide Good, Counts;
    TargetCounts(w, x, y, k, id);
    StillGood(plan, w, y, w.disk, y.disk);
  }
}
