/**
 * Reference-counted structure generations, the leases that turns hold on them across approval suspensions,
 * and what is mounted in them. Reconcile is one step; calls of the agent loop begin and finish in any
 * interleaving, overlapping calls on one turn included.
 */
module Generations {
  import opened Options
  import opened PluginOrder
  import opened Reconcile

  datatype GenerationState = Active | Draining

  /**
   * A generation the kernel still keeps; a disposed or failed one is dropped from the table. `plugins` is the
   * graph it was given last, `mounted` what its fibers run, in the order they were mounted.
   */
  datatype Generation = Generation(
    state: GenerationState, references: nat, plugins: seq<Plugin>, version: string, mounted: seq<Plugin>)

  datatype Lease = Lease(generation: nat, released: bool)

  datatype KernelState = KernelState(
    generations: map<nat, Generation>, active: Option<nat>, leases: seq<Lease>, created: nat)

  /** The graph to reconcile to, its version, and the services the host provides. */
  datatype Desired = Desired(graph: seq<Plugin>, version: string, bootstrap: set<string>)

  datatype ReconcileResult =
    | Activated | AlreadyActive | Updated | RestartNeeded | VersionCollision | GraphRejected | GenerationFailed

  /** Whether a candidate prepares, what the fibers do in an update, and the order found for the graph. */
  datatype Luck = Luck(prepared: bool, weather: Weather, order: seq<Plugin>)

  /* ---------- the kernel, as functions on its state ---------- */

  function Acquire(k: KernelState, g: nat): KernelState
    requires g in k.generations
  {
    var generation := k.generations[g];
    k.(generations := k.generations[g := generation.(references := generation.references + 1)],
       leases := k.leases + [Lease(g, false)])
  }

  /** Dropping one reference; the last one disposes a draining generation. */
  function Dereference(k: KernelState, g: nat): KernelState {
    if g !in k.generations || k.generations[g].references == 0 then k
    else
      var generation := k.generations[g].(references := k.generations[g].references - 1);
      if generation.references == 0 && generation.state == Draining then k.(generations := k.generations - {g})
      else k.(generations := k.generations[g := generation])
  }

  function Release(k: KernelState, lease: nat): KernelState
    requires lease < |k.leases|
  {
    if k.leases[lease].released then k
    else Dereference(k.(leases := Returned(k.leases, lease)), k.leases[lease].generation)
  }

  function Returned(leases: seq<Lease>, lease: nat): seq<Lease>
    requires lease < |leases|
  {
    leases[lease := leases[lease].(released := true)]
  }

  ghost function KindOf(current: seq<Plugin>, incoming: seq<Plugin>): PlanKind {
    if ById(current) == ById(incoming) then Unchanged
    else if exists id :: Changed(current, incoming, id) && NeedsRestart(current, incoming, id) then RestartRequired
    else if forall id :: Changed(current, incoming, id) ==> LiveChange(current, incoming, id) then LiveUpdate
    else GenerationSwap
  }

  ghost predicate Orderable(graph: seq<Plugin>, bootstrap: set<string>) {
    WellFormed(graph, bootstrap) && Acyclic(graph)
  }

  /** What is promised of the order in which a graph is mounted, when it has one. */
  ghost predicate Orders(desired: Desired, order: seq<Plugin>) {
    Orderable(desired.graph, desired.bootstrap) ==>
      UniqueIds(order) && multiset(order) == multiset(desired.graph) && ProvidersFirst(desired.graph, order)
      && InSearchOrder(desired.graph, order)
  }

  /** The old generation stops taking turns, and is disposed at once if none holds it. */
  function Drain(generations: map<nat, Generation>, g: nat): map<nat, Generation>
    requires g in generations
  {
    if generations[g].references == 0 then generations - {g} else generations[g := generations[g].(state := Draining)]
  }

  /** The old generation, if any, drains. */
  function Retire(k: KernelState): KernelState
    requires k.active.Some? ==> k.active.value in k.generations
  {
    if k.active.None? then k else k.(generations := Drain(k.generations, k.active.value), active := None)
  }

  function Install(k: KernelState, desired: Desired, order: seq<Plugin>): KernelState {
    k.(generations := k.generations[k.created := Generation(Active, 0, desired.graph, desired.version, order)],
       active := Some(k.created), created := k.created + 1)
  }

  /** The update in place of the active generation, which may fail half way. */
  function UpdateActive(k: KernelState, desired: Desired, luck: Luck): KernelState
    requires k.active.Some? && k.active.value in k.generations
  {
    var g := k.active.value;
    var before, incoming := k.generations[g], ById(luck.order);
    var now := before.(mounted := UpdatedMounts(before.mounted, incoming, luck.weather));
    if AllWell(before.mounted, incoming, luck.weather) then
      k.(generations := k.generations[g := now.(plugins := desired.graph, version := desired.version)])
    else
      k.(generations := k.generations[g := now])
  }

  ghost predicate TakesUpdate(k: KernelState, desired: Desired)
    requires k.active.Some? ==> k.active.value in k.generations
  {
    && k.active.Some? && k.generations[k.active.value].version != desired.version
    && KindOf(k.generations[k.active.value].plugins, desired.graph) == LiveUpdate
    && k.generations[k.active.value].references == 0
    && Orderable(desired.graph, desired.bootstrap)
  }

  ghost function DoReconcile(k: KernelState, desired: Desired, luck: Luck): (KernelState, ReconcileResult)
    requires k.active.Some? ==> k.active.value in k.generations
  {
    if k.active.Some? && k.generations[k.active.value].version == desired.version then
      (k, if k.generations[k.active.value].plugins == desired.graph then AlreadyActive else VersionCollision)
    else if k.active.Some? && KindOf(k.generations[k.active.value].plugins, desired.graph) == RestartRequired then
      (k, RestartNeeded)
    else if !Orderable(desired.graph, desired.bootstrap) then (k, GraphRejected)
    else if TakesUpdate(k, desired) then
      (UpdateActive(k, desired, luck),
       if AllWell(k.generations[k.active.value].mounted, ById(luck.order), luck.weather) then Updated
       else GenerationFailed)
    else if !luck.prepared then (k.(created := k.created + 1), GenerationFailed)
    else (Install(Retire(k), desired, luck.order), Activated)
  }

  /* ---------- the pinned agent loop, as functions on its state ---------- */

  datatype Kind = Run | Recover | Resume

  /** A call in flight; `held` says that it goes on with the lease of a suspended turn. */
  datatype Call = Call(kind: Kind, turn: Option<string>, lease: nat, held: bool)

  datatype State = State(kernel: KernelState, suspended: map<string, nat>, calls: map<nat, Call>)

  datatype Result = Suspends(turn: string) | Ends(turn: string) | Throws

  function BeginRun(s: State, c: nat): State
    requires s.kernel.active.Some? && s.kernel.active.value in s.kernel.generations
  {
    s.(kernel := Acquire(s.kernel, s.kernel.active.value),
       calls := s.calls[c := Call(Run, None, |s.kernel.leases|, false)])
  }

  /** A recovery or a resumption goes on with the lease of the suspended turn, if there is one. */
  function BeginOn(s: State, c: nat, kind: Kind, turn: string): State
    requires turn in s.suspended || (s.kernel.active.Some? && s.kernel.active.value in s.kernel.generations)
  {
    if turn in s.suspended then
      s.(calls := s.calls[c := Call(kind, Some(turn), s.suspended[turn], true)])
    else
      s.(kernel := Acquire(s.kernel, s.kernel.active.value),
         calls := s.calls[c := Call(kind, Some(turn), |s.kernel.leases|, false)])
  }

  predicate LeasesExist(s: State) {
    && (forall c :: c in s.calls ==> s.calls[c].lease < |s.kernel.leases|)
    && (forall t :: t in s.suspended ==> s.suspended[t] < |s.kernel.leases|)
  }

  function Settle(s: State, lease: nat, turn: string, suspends: bool): State
    requires LeasesExist(s) && lease < |s.kernel.leases|
  {
    if suspends then
      var kernel := if turn in s.suspended && s.suspended[turn] != lease then Release(s.kernel, s.suspended[turn])
                    else s.kernel;
      s.(kernel := kernel, suspended := s.suspended[turn := lease])
    else s.(kernel := Release(s.kernel, lease), suspended := s.suspended - {turn})
  }

  function Finish(s: State, c: nat, result: Result): State
    requires LeasesExist(s) && c in s.calls
  {
    var call := s.calls[c];
    var rest := s.(calls := s.calls - {c});
    match result
    case Suspends(turn) => Settle(rest, call.lease, turn, true)
    case Ends(turn) => Settle(rest, call.lease, turn, false)
    case Throws =>
      if KeepsLease(call, s.suspended) then rest else rest.(kernel := Release(s.kernel, call.lease))
  }

  /** After an error, a first run lets its lease go, and a call that goes on from a suspension keeps it. */
  predicate KeepsLease(call: Call, suspended: map<string, nat>) {
    match call.kind
    case Run => false
    case Recover => call.turn.Some? && call.turn.value in suspended
    case Resume => call.held
  }

  /* ---------- references are unreleased leases ---------- */

  function OpenOn(leases: seq<Lease>, g: nat): set<nat> {
    set l: nat | l < |leases| && !leases[l].released && leases[l].generation == g
  }

  function References(k: KernelState, g: nat): nat {
    if g in k.generations then k.generations[g].references else 0
  }

  predicate StatesOk(k: KernelState) {
    && (k.active.Some? ==> k.active.value in k.generations)
    && (forall g :: g in k.generations ==>
          g < k.created && (k.generations[g].state == Active <==> k.active == Some(g)))
    && (forall g :: g in k.generations && k.generations[g].state == Draining ==> k.generations[g].references > 0)
  }

  ghost predicate LeasesCounted(k: KernelState) {
    forall g: nat :: References(k, g) == |OpenOn(k.leases, g)|
  }

  ghost predicate KernelOk(k: KernelState) {
    StatesOk(k) && LeasesCounted(k)
  }

  /** A first run is on no turn yet, and only a call on a turn goes on with a lease. */
  predicate CallsShaped(calls: map<nat, Call>) {
    forall c :: c in calls ==>
      (calls[c].kind == Run <==> calls[c].turn.None?) && (calls[c].held ==> calls[c].turn.Some?)
  }

  ghost predicate StateOk(s: State) {
    KernelOk(s.kernel) && LeasesExist(s) && CallsShaped(s.calls)
  }

  /** A generation with an unreleased lease is kept. */
  lemma OpenIsKept(k: KernelState, lease: nat)
    requires LeasesCounted(k) && lease < |k.leases| && !k.leases[lease].released
    ensures k.leases[lease].generation in k.generations
    ensures k.generations[k.leases[lease].generation].references > 0
  {
    var g := k.leases[lease].generation;
    assert lease in OpenOn(k.leases, g);
    assert References(k, g) > 0;
  }

  lemma OpenAfterAcquire(leases: seq<Lease>, on: nat, g: nat)
    ensures |OpenOn(leases + [Lease(on, false)], g)| == |OpenOn(leases, g)| + (if g == on then 1 else 0)
  {
    var more := leases + [Lease(on, false)];
    assert |leases| !in OpenOn(leases, g);
    assert OpenOn(more, g) == OpenOn(leases, g) + (if g == on then {|leases|} else {});
  }

  lemma OpenAfterRelease(leases: seq<Lease>, lease: nat, g: nat)
    requires lease < |leases| && !leases[lease].released
    ensures |OpenOn(Returned(leases, lease), g)| ==
            |OpenOn(leases, g)| - (if g == leases[lease].generation then 1 else 0)
  {
    assert g == leases[lease].generation ==> lease in OpenOn(leases, g);
    assert OpenOn(Returned(leases, lease), g) == OpenOn(leases, g) - {lease};
  }

  lemma AcquireKeeps(k: KernelState, g: nat)
    requires KernelOk(k) && g in k.generations
    ensures KernelOk(Acquire(k, g))
  {
    hide OpenOn;
    forall h: nat ensures References(Acquire(k, g), h) == |OpenOn(Acquire(k, g).leases, h)| {
      assert References(k, h) == |OpenOn(k.leases, h)|;
      OpenAfterAcquire(k.leases, g, h);
    }
  }

  lemma ReleaseMeans(k: KernelState, lease: nat)
    requires LeasesCounted(k) && lease < |k.leases| && !k.leases[lease].released
    ensures k.leases[lease].generation in k.generations
    ensures var g := k.leases[lease].generation; var was := k.generations[g];
      && was.references > 0
      && Release(k, lease) == k.(
        leases := Returned(k.leases, lease),
        generations :=
          if was.references == 1 && was.state == Draining then k.generations - {g}
          else k.generations[g := was.(references := was.references - 1)])
  {
    OpenIsKept(k, lease);
    hide LeasesCounted, Returned;
  }

  lemma ReleaseKeeps(k: KernelState, lease: nat)
    requires KernelOk(k) && lease < |k.leases|
    ensures KernelOk(Release(k, lease))
  {
    if !k.leases[lease].released {
      ReleaseMeans(k, lease);
      hide OpenOn, Release, Returned;
      forall h: nat ensures References(Release(k, lease), h) == |OpenOn(Release(k, lease).leases, h)| {
        assert References(k, h) == |OpenOn(k.leases, h)|;
        OpenAfterRelease(k.leases, lease, h);
      }
    }
  }

  lemma RetireKeeps(k: KernelState)
    requires KernelOk(k)
    ensures KernelOk(Retire(k)) && Retire(k).active.None?
  {
    hide OpenOn;
    forall h: nat ensures References(Retire(k), h) == |OpenOn(Retire(k).leases, h)| {
      assert References(k, h) == |OpenOn(k.leases, h)|;
    }
  }

  lemma InstallKeeps(k: KernelState, desired: Desired, order: seq<Plugin>)
    requires KernelOk(k) && k.active.None?
    ensures KernelOk(Install(k, desired, order))
  {
    hide OpenOn;
    forall h: nat ensures References(Install(k, desired, order), h) == |OpenOn(Install(k, desired, order).leases, h)| {
      assert References(k, h) == |OpenOn(k.leases, h)|;
    }
  }

  lemma UpdateKeeps(k: KernelState, desired: Desired, luck: Luck)
    requires KernelOk(k) && k.active.Some?
    ensures KernelOk(UpdateActive(k, desired, luck))
  {
    hide OpenOn, UpdatedMounts, AllWell, ById;
    forall h: nat
      ensures References(UpdateActive(k, desired, luck), h) == |OpenOn(UpdateActive(k, desired, luck).leases, h)|
    {
      assert References(k, h) == |OpenOn(k.leases, h)|;
    }
  }

  lemma ReconcileKeeps(k: KernelState, desired: Desired, luck: Luck)
    requires KernelOk(k)
    ensures KernelOk(DoReconcile(k, desired, luck).0) && DoReconcile(k, desired, luck).0.leases == k.leases
  {
    hide OpenOn, KindOf, Orderable, AllWell, ById, UpdatedMounts;
    var after := DoReconcile(k, desired, luck).0;
    if DoReconcile(k, desired, luck).1 == Activated {
      RetireKeeps(k);
      InstallKeeps(Retire(k), desired, luck.order);
    } else if TakesUpdate(k, desired) {
      UpdateKeeps(k, desired, luck);
    } else {
      forall h: nat ensures References(after, h) == |OpenOn(after.leases, h)| {
        assert References(k, h) == |OpenOn(k.leases, h)|;
      }
    }
  }

  /* ---------- steps and runs ---------- */

  const NOTHING := State(KernelState(map[], None, [], 0), map[], map[])

  datatype Op =
    | OpRun(call: nat)
    | OpOn(call: nat, kind: Kind, turn: string)
    | OpFinish(call: nat, result: Result)
    | OpReconcile(desired: Desired, luck: Luck)

  /** A recovery and a resumption end on the turn they were given; a first run ends on any. */
  predicate OwnTurn(call: Call, result: Result) {
    !result.Throws? && call.turn.Some? ==> result.turn == call.turn.value
  }

  /**
   * When a step can be taken: a call needs an active generation or a suspended turn to begin. Calls on one
   * turn may overlap. What the invariant gives anyway is listed last.
   */
  ghost predicate Enabled(s: State, op: Op) {
    && (match op
        case OpRun(c) => s.kernel.active.Some? && c !in s.calls
        case OpOn(c, kind, turn) => c !in s.calls && kind != Run && (turn in s.suspended || s.kernel.active.Some?)
        case OpFinish(c, result) => c in s.calls && OwnTurn(s.calls[c], result)
        case OpReconcile(desired, luck) => Orders(desired, luck.order))
    && LeasesExist(s) && (s.kernel.active.Some? ==> s.kernel.active.value in s.kernel.generations)
  }

  ghost function Do(s: State, op: Op): State {
    if !Enabled(s, op) then s
    else
      match op
      case OpRun(c) => BeginRun(s, c)
      case OpOn(c, kind, turn) => BeginOn(s, c, kind, turn)
      case OpFinish(c, result) => Finish(s, c, result)
      case OpReconcile(desired, luck) => s.(kernel := DoReconcile(s.kernel, desired, luck).0)
  }

  /** The state a run of steps leads to. */
  ghost function After(s: State, ops: seq<Op>): State {
    if ops == [] then s else Do(After(s, ops[..|ops| - 1]), ops[|ops| - 1])
  }

  ghost function RunOf(ops: seq<Op>): State {
    After(NOTHING, ops)
  }

  lemma FinishKeepsState(s: State, c: nat, result: Result)
    requires StateOk(s) && c in s.calls
    ensures StateOk(Finish(s, c, result))
  {
    hide KernelOk;
    var call := s.calls[c];
    ReleaseKeeps(s.kernel, call.lease);
    if result.Suspends? && result.turn in s.suspended {
      ReleaseKeeps(s.kernel, s.suspended[result.turn]);
    }
  }

  lemma BeginKeepsState(s: State, op: Op)
    requires StateOk(s) && Enabled(s, op) && (op.OpRun? || op.OpOn?)
    ensures StateOk(Do(s, op))
  {
    if op.OpRun? || op.turn !in s.suspended {
      AcquireKeeps(s.kernel, s.kernel.active.value);
    }
    hide KernelOk;
  }

  lemma StepKeepsState(s: State, op: Op)
    requires StateOk(s)
    ensures StateOk(Do(s, op))
  {
    hide StateOk, LeasesExist, BeginRun, BeginOn, Finish, DoReconcile, Orders, OwnTurn;
    if Enabled(s, op) {
      match op
      case OpRun(c) => BeginKeepsState(s, op);
      case OpOn(c, kind, turn) => BeginKeepsState(s, op);
      case OpFinish(c, result) => FinishKeepsState(s, c, result);
      case OpReconcile(desired, luck) => ReconcileKeepsState(s, desired, luck);
    }
  }

  lemma ReconcileKeepsState(s: State, desired: Desired, luck: Luck)
    requires StateOk(s)
    ensures StateOk(s.(kernel := DoReconcile(s.kernel, desired, luck).0))
  {
    ReconcileKeeps(s.kernel, desired, luck);
    hide KernelOk, DoReconcile;
  }

  lemma {:induction false} AfterKeepsState(s: State, ops: seq<Op>)
    requires StateOk(s)
    ensures StateOk(After(s, ops))
  {
    hide StateOk, Do;
    if ops != [] {
      AfterKeepsState(s, ops[..|ops| - 1]);
      StepKeepsState(After(s, ops[..|ops| - 1]), ops[|ops| - 1]);
    }
  }

  lemma NothingIsOk()
    ensures StateOk(NOTHING)
  {
    forall g: nat ensures References(NOTHING.kernel, g) == |OpenOn(NOTHING.kernel.leases, g)| {
      assert OpenOn(NOTHING.kernel.leases, g) == {};
    }
  }

  /**
   * In every run, overlapping calls included, the references of each generation are the unreleased leases on
   * it, a generation with such a lease is kept, a draining one has some, and at most one generation is active.
   */
  lemma LeasesAreCounted(ops: seq<Op>)
    ensures var k := RunOf(ops).kernel;
      && (forall g :: g in k.generations ==> k.generations[g].references == |OpenOn(k.leases, g)|)
      && (forall l :: 0 <= l < |k.leases| && !k.leases[l].released ==> k.leases[l].generation in k.generations)
      && (forall g :: g in k.generations && k.generations[g].state == Draining ==> k.generations[g].references > 0)
      && (forall g, h :: g in k.generations && h in k.generations ==>
            (k.generations[g].state == k.generations[h].state == Active ==> g == h))
  {
    NothingIsOk();
    AfterKeepsState(NOTHING, ops);
    var k := RunOf(ops).kernel;
    hide RunOf, OpenOn;
    forall g | g in k.generations ensures k.generations[g].references == |OpenOn(k.leases, g)| {
      assert References(k, g) == |OpenOn(k.leases, g)|;
    }
    forall l | 0 <= l < |k.leases| && !k.leases[l].released ensures k.leases[l].generation in k.generations {
      OpenIsKept(k, l);
    }
  }

  /* ---------- what a reconcile leaves alone ---------- */

  /** A generation that is referenced is neither disposed nor updated in place by a reconcile. */
  lemma ReferencedIsUntouched(k: KernelState, g: nat, desired: Desired, luck: Luck)
    requires StatesOk(k) && g in k.generations && k.generations[g].references > 0
    ensures var after := DoReconcile(k, desired, luck).0;
      && g in after.generations
      && after.generations[g].(state := Active) == k.generations[g].(state := Active)
  {
    hide KindOf, Orderable, AllWell, ById, UpdatedMounts;
  }

  /**
   * What a failed update in place needs to leave no trace: when it fails, every fiber that had moved by
   * then accepts its rollback.
   */
  ghost predicate Undone(k: KernelState, desired: Desired, luck: Luck)
    requires k.active.Some? ==> k.active.value in k.generations
  {
    TakesUpdate(k, desired) ==>
      var mounted := k.generations[k.active.value].mounted;
      AllWell(mounted, ById(luck.order), luck.weather) || RollsBack(mounted, ById(luck.order), luck.weather)
  }

  /**
   * A reconcile that neither activates nor updates keeps the active generation and all leases, and leaves
   * every generation as it was exactly when no plugin of a failed update is stuck where it moved to.
   */
  lemma FailureChangesNothing(k: KernelState, desired: Desired, luck: Luck)
    requires k.active.Some? ==> k.active.value in k.generations
    ensures var (after, result) := DoReconcile(k, desired, luck);
      result != Activated && result != Updated ==>
        && after.active == k.active && after.leases == k.leases
        && (after.generations == k.generations <==> Undone(k, desired, luck))
  {
    hide KindOf, Orderable, AllWell, ById, UpdatedMounts, RollsBack;
    var after := DoReconcile(k, desired, luck).0;
    if TakesUpdate(k, desired) {
      var g := k.active.value;
      var before := k.generations[g];
      if !AllWell(before.mounted, ById(luck.order), luck.weather) {
        FailedUpdateIsUndone(before.mounted, ById(luck.order), luck.weather);
        assert after.generations[g].mounted == UpdatedMounts(before.mounted, ById(luck.order), luck.weather);
        assert after.generations == k.generations[g := after.generations[g]];
      }
    }
  }

  /* ---------- what a reconcile answers ---------- */

  ghost predicate SameVersion(k: KernelState, desired: Desired)
    requires k.active.Some? ==> k.active.value in k.generations
  {
    k.active.Some? && k.generations[k.active.value].version == desired.version
  }

  /** A plugin that may only change across a restart changes. */
  ghost predicate WantsRestart(k: KernelState, desired: Desired)
    requires k.active.Some? ==> k.active.value in k.generations
  {
    k.active.Some? &&
    exists id ::
      var current := k.generations[k.active.value].plugins;
      Changed(current, desired.graph, id) && NeedsRestart(current, desired.graph, id)
  }

  /** Nobody is on the active generation, something changes, and all of it may change live. */
  ghost predicate MayUpdate(k: KernelState, desired: Desired)
    requires k.active.Some? ==> k.active.value in k.generations
  {
    k.active.Some? && k.generations[k.active.value].references == 0
    && ById(k.generations[k.active.value].plugins) != ById(desired.graph)
    && forall id ::
         var current := k.generations[k.active.value].plugins;
         Changed(current, desired.graph, id) ==> LiveChange(current, desired.graph, id)
  }

  /** Every answer of a reconcile, exactly when it is given. */
  lemma ReconcileAnswers(k: KernelState, desired: Desired, luck: Luck)
    requires k.active.Some? ==> k.active.value in k.generations
    ensures var (after, r) := DoReconcile(k, desired, luck);
      var same, restart, live := SameVersion(k, desired), WantsRestart(k, desired), MayUpdate(k, desired);
      var fine := Orderable(desired.graph, desired.bootstrap);
      && (r == AlreadyActive <==> same && k.generations[k.active.value].plugins == desired.graph)
      && (r == VersionCollision <==> same && k.generations[k.active.value].plugins != desired.graph)
      && (r == RestartNeeded <==> !same && restart)
      && (r == GraphRejected <==> !same && !restart && !fine)
      && (r == Activated <==> !same && !restart && fine && !live && luck.prepared)
      && (r == Updated <==>
            && !same && !restart && fine && live
            && AllWell(k.generations[k.active.value].mounted, ById(luck.order), luck.weather))
  {
    hide Orderable, AllWell, UpdatedMounts, ById, NeedsRestart, LiveChange;
    if k.active.Some? {
      KindMeans(k.generations[k.active.value].plugins, desired.graph);
    }
  }

  lemma KindMeans(current: seq<Plugin>, incoming: seq<Plugin>)
    ensures KindOf(current, incoming) == RestartRequired <==>
      exists id :: Changed(current, incoming, id) && NeedsRestart(current, incoming, id)
    ensures KindOf(current, incoming) == LiveUpdate <==>
      && ById(current) != ById(incoming)
      && forall id :: Changed(current, incoming, id) ==> LiveChange(current, incoming, id)
  {
    hide ById;
    forall id | Changed(current, incoming, id) && LiveChange(current, incoming, id)
      ensures !NeedsRestart(current, incoming, id)
    {
    }
  }

  /** A generation newly active, that nobody holds, with the graph it was asked for. */
  predicate Runs(k: KernelState, g: nat, desired: Desired) {
    && k.active == Some(g) && g in k.generations && k.generations[g].plugins == desired.graph
    && k.generations[g].version == desired.version && k.generations[g].state == Active
    && k.generations[g].references == 0
  }

  /**
   * An activation makes a new generation the active one; the one before is kept, draining, exactly when someone
   * holds it. An update keeps the generation, under the new version. Nothing else changes.
   */
  lemma ReconcileChanges(k: KernelState, desired: Desired, luck: Luck)
    requires StatesOk(k)
    ensures var (after, r) := DoReconcile(k, desired, luck);
      && after.leases == k.leases
      && (r == Activated ==>
            && Runs(after, k.created, desired) && after.generations[k.created].mounted == luck.order
            && after.created == k.created + 1
            && (forall g :: g in k.generations && Some(g) != k.active ==>
                  g in after.generations && after.generations[g] == k.generations[g])
            && (k.active.Some? ==>
                  var g := k.active.value;
                  && (g in after.generations <==> k.generations[g].references > 0)
                  && (g in after.generations ==>
                        after.generations[g] == k.generations[g].(state := Draining)))
            && (forall g :: g in after.generations ==> g in k.generations || g == k.created))
      && (r == Updated ==>
            && Runs(after, k.active.value, desired) && after.active == k.active && after.created == k.created
            && after.generations.Keys == k.generations.Keys
            && forall g :: g in k.generations && Some(g) != k.active ==> after.generations[g] == k.generations[g])
      && (r == GenerationFailed ==> k.created <= after.created <= k.created + 1)
      && (r in {AlreadyActive, VersionCollision, RestartNeeded, GraphRejected} ==> after == k)
  {
    hide KindOf, Orderable, AllWell, UpdatedMounts, ById;
  }

  /** Reconciling to what is active already changes nothing, whatever it took to get there. */
  lemma ReconcileTwice(k: KernelState, desired: Desired, luck: Luck, again: Luck)
    requires StatesOk(k)
    ensures var (after, r) := DoReconcile(k, desired, luck);
      r == Activated || r == Updated ==>
        && (after.active.Some? ==> after.active.value in after.generations)
        && DoReconcile(after, desired, again) == (after, AlreadyActive)
  {
    hide KindOf, Orderable, AllWell, UpdatedMounts, ById;
  }

  /* ---------- what is mounted is what was asked for ---------- */

  /** The generation runs the graph it was given last. */
  predicate RunsItsGraph(g: Generation) {
    UniqueIds(g.mounted) && ById(g.mounted) == ById(g.plugins)
  }

  predicate AllRunTheirGraph(k: KernelState) {
    forall g :: g in k.generations ==> RunsItsGraph(k.generations[g])
  }

  lemma {:induction false} FoundById(plugins: seq<Plugin>, i: nat)
    requires UniqueIds(plugins) && i < |plugins|
    ensures plugins[i].id in ById(plugins) && ById(plugins)[plugins[i].id] == plugins[i]
  {
    if i < |plugins| - 1 {
      FoundById(plugins[..|plugins| - 1], i);
    }
  }

  lemma KnownById(plugins: seq<Plugin>, id: string) returns (i: nat)
    requires id in ById(plugins)
    ensures i < |plugins| && plugins[i].id == id
  {
    assert id in Elements(Ids(plugins));
    i :| 0 <= i < |plugins| && Ids(plugins)[i] == id;
  }

  /** Lists with unique ids that hold the same plugins have the same table. */
  lemma SameTable(a: seq<Plugin>, b: seq<Plugin>)
    requires UniqueIds(a) && UniqueIds(b) && multiset(a) == multiset(b)
    ensures ById(a) == ById(b)
  {
    hide ById, UniqueIds;
    assert forall p :: p in a <==> p in multiset(a);
    assert forall p :: p in b <==> p in multiset(b);
    var m, n := ById(a), ById(b);
    forall id ensures (id in m <==> id in n) && (id in m ==> m[id] == n[id]) {
      SameEntry(a, b, id);
      SameEntry(b, a, id);
    }
    assert m.Keys == n.Keys;
  }

  lemma SameEntry(a: seq<Plugin>, b: seq<Plugin>, id: string)
    requires UniqueIds(a) && UniqueIds(b) && forall p :: p in a ==> p in b
    ensures id in ById(a) ==> id in ById(b) && ById(b)[id] == ById(a)[id]
  {
    if id in ById(a) {
      var i := KnownById(a, id);
      FoundById(a, i);
      assert a[i] in b;
      var j :| 0 <= j < |b| && b[j] == a[i];
      FoundById(b, j);
    }
  }

  /** An update that differs only in ids both sides know, and goes well, mounts the incoming graph. */
  lemma WellUpdated(before: seq<Plugin>, incoming: map<string, Plugin>, w: Weather)
    requires UniqueIds(before) && ById(before).Keys == incoming.Keys && AllWell(before, incoming, w)
    requires forall id :: id in incoming ==> incoming[id].id == id
    ensures UniqueIds(UpdatedMounts(before, incoming, w)) && ById(UpdatedMounts(before, incoming, w)) == incoming
  {
    hide AllWell, UpdatedMounts, ById, UniqueIds;
    var after := UpdatedMounts(before, incoming, w);
    AllReachTheirTarget(before, incoming, w);
    SameIds(before, incoming, w);
    forall id | id in incoming ensures id in ById(after) && ById(after)[id] == incoming[id] {
      var i := KnownById(before, id);
      FoundById(after, i);
    }
    forall id | id in ById(after) ensures id in incoming {
      var i := KnownById(after, id);
      FoundById(before, i);
    }
    assert ById(after).Keys == incoming.Keys;
  }

  lemma SameIds(before: seq<Plugin>, incoming: map<string, Plugin>, w: Weather)
    requires UniqueIds(before) && forall id :: id in incoming ==> incoming[id].id == id
    ensures UniqueIds(UpdatedMounts(before, incoming, w))
    ensures forall i :: 0 <= i < |before| ==> UpdatedMounts(before, incoming, w)[i].id == before[i].id
  {
    hide Moved, AllWell;
  }

  /** A failed update whose plugins are not all back where they were runs another graph. */
  lemma StuckRunsAnother(before: seq<Plugin>, incoming: map<string, Plugin>, w: Weather)
    requires UniqueIds(before) && forall id :: id in incoming ==> incoming[id].id == id
    requires UpdatedMounts(before, incoming, w) != before
    ensures ById(UpdatedMounts(before, incoming, w)) != ById(before)
  {
    var after := UpdatedMounts(before, incoming, w);
    SameIds(before, incoming, w);
    var i: nat :| i < |before| && after[i] != before[i];
    FoundById(before, i);
    FoundById(after, i);
  }

  /** Whether an update in place keeps the active generation at the graph it was given last. */
  lemma UpdateRunsGraph(k: KernelState, desired: Desired, luck: Luck)
    requires (k.active.Some? ==> k.active.value in k.generations) && TakesUpdate(k, desired)
    requires RunsItsGraph(k.generations[k.active.value]) && Orders(desired, luck.order)
    ensures RunsItsGraph(UpdateActive(k, desired, luck).generations[k.active.value]) <==> Undone(k, desired, luck)
  {
    var before, incoming := k.generations[k.active.value], ById(luck.order);
    SameTable(desired.graph, luck.order);
    LiveUpdateKeepsIds(before.plugins, desired.graph);
    hide KindOf, Orderable, ById, Orders, TakesUpdate;
    var after := UpdateActive(k, desired, luck).generations[k.active.value];
    assert Undone(k, desired, luck) <==>
      AllWell(before.mounted, incoming, luck.weather) || RollsBack(before.mounted, incoming, luck.weather)
    by {
      hide AllWell, RollsBack;
    }
    hide Undone, RollsBack;
    if AllWell(before.mounted, incoming, luck.weather) {
      WellUpdated(before.mounted, incoming, luck.weather);
    } else {
      hide AllWell, UpdatedMounts;
      FailedUpdateIsUndone(before.mounted, incoming, luck.weather);
      if after.mounted != before.mounted {
        StuckRunsAnother(before.mounted, incoming, luck.weather);
      }
    }
  }

  lemma LiveUpdateKeepsIds(current: seq<Plugin>, incoming: seq<Plugin>)
    requires KindOf(current, incoming) == LiveUpdate
    ensures ById(current).Keys == ById(incoming).Keys
  {
    forall id ensures id in ById(current) <==> id in ById(incoming) {
      if Changed(current, incoming, id) {
        assert LiveChange(current, incoming, id);
      }
    }
  }

  /**
   * A reconcile keeps every generation at the graph it was given last, the new and the updated one
   * included, exactly when no plugin of a failed update is stuck where it moved to.
   */
  lemma ReconcileRunsGraphs(k: KernelState, desired: Desired, luck: Luck)
    requires KernelOk(k) && AllRunTheirGraph(k) && Orders(desired, luck.order)
    ensures AllRunTheirGraph(DoReconcile(k, desired, luck).0) <==> Undone(k, desired, luck)
  {
    hide RunsItsGraph, KindOf, Orderable, Orders, AllWell, UpdatedMounts, ById, RollsBack, LeasesCounted;
    if TakesUpdate(k, desired) {
      UpdateRunsGraph(k, desired, luck);
      OnlyActiveUpdates(k, desired, luck);
      hide TakesUpdate, Undone, UpdateActive;
    } else if DoReconcile(k, desired, luck).1 == Activated {
      InstalledRunsGraph(k, desired, luck.order);
      hide Retire, Install;
    }
  }

  lemma OnlyActiveUpdates(k: KernelState, desired: Desired, luck: Luck)
    requires k.active.Some? && k.active.value in k.generations && TakesUpdate(k, desired)
    ensures DoReconcile(k, desired, luck).0 == UpdateActive(k, desired, luck)
    ensures UpdateActive(k, desired, luck).generations.Keys == k.generations.Keys
    ensures forall g :: g in k.generations && g != k.active.value ==>
      UpdateActive(k, desired, luck).generations[g] == k.generations[g]
  {
    hide KindOf, Orderable, AllWell, UpdatedMounts, ById;
  }

  lemma InstalledRunsGraph(k: KernelState, desired: Desired, order: seq<Plugin>)
    requires StatesOk(k) && AllRunTheirGraph(k) && Orders(desired, order)
    requires Orderable(desired.graph, desired.bootstrap)
    ensures AllRunTheirGraph(Install(Retire(k), desired, order))
  {
    OrderedRunsGraph(desired, order);
    hide RunsItsGraph, Orders, Orderable;
    var after := Install(Retire(k), desired, order);
    forall g | g in after.generations ensures RunsItsGraph(after.generations[g]) {
      if g != k.created {
        StateIsNoMatter(k.generations[g], Draining);
      }
    }
  }

  lemma OrderedRunsGraph(desired: Desired, order: seq<Plugin>)
    requires Orders(desired, order) && Orderable(desired.graph, desired.bootstrap)
    ensures RunsItsGraph(Generation(Active, 0, desired.graph, desired.version, order))
  {
    SameTable(desired.graph, order);
  }

  lemma StateIsNoMatter(g: Generation, state: GenerationState)
    ensures RunsItsGraph(g.(state := state)) <==> RunsItsGraph(g)
  {
  }

  lemma AcquireRunsGraphs(k: KernelState, g: nat)
    requires g in k.generations && AllRunTheirGraph(k)
    ensures AllRunTheirGraph(Acquire(k, g))
  {
    hide ById, UniqueIds;
  }

  lemma ReleaseRunsGraphs(k: KernelState, lease: nat)
    requires lease < |k.leases| && AllRunTheirGraph(k)
    ensures AllRunTheirGraph(Release(k, lease))
  {
    hide ById, UniqueIds;
  }

  ghost predicate LeavesNoTrace(s: State, op: Op) {
    op.OpReconcile? && Enabled(s, op) ==> Undone(s.kernel, op.desired, op.luck)
  }

  lemma StepRunsGraphs(s: State, op: Op)
    requires StateOk(s) && AllRunTheirGraph(s.kernel)
    ensures AllRunTheirGraph(Do(s, op).kernel) <==> LeavesNoTrace(s, op)
  {
    hide AllRunTheirGraph, LeasesCounted, StatesOk, Undone, DoReconcile, Acquire, Release, Orders;
    if Enabled(s, op) {
      match op
      case OpRun(_) => AcquireRunsGraphs(s.kernel, s.kernel.active.value);
      case OpOn(_, _, turn) =>
        if turn !in s.suspended {
          AcquireRunsGraphs(s.kernel, s.kernel.active.value);
        }
      case OpFinish(c, result) =>
        ReleaseRunsGraphs(s.kernel, s.calls[c].lease);
        if result.Suspends? && result.turn in s.suspended {
          ReleaseRunsGraphs(s.kernel, s.suspended[result.turn]);
        }
      case OpReconcile(desired, luck) => ReconcileRunsGraphs(s.kernel, desired, luck);
    }
  }

  ghost predicate GraphsRunThroughout(ops: seq<Op>) {
    forall n :: 0 <= n <= |ops| ==> AllRunTheirGraph(RunOf(ops[..n]).kernel)
  }

  ghost predicate NoTraceThroughout(ops: seq<Op>) {
    forall n :: 0 <= n < |ops| ==> LeavesNoTrace(RunOf(ops[..n]), ops[n])
  }

  lemma OneStepMore(ops: seq<Op>, last: Op)
    ensures GraphsRunThroughout(ops + [last]) <==>
      GraphsRunThroughout(ops) && AllRunTheirGraph(RunOf(ops + [last]).kernel)
    ensures NoTraceThroughout(ops + [last]) <==> NoTraceThroughout(ops) && LeavesNoTrace(RunOf(ops), last)
  {
    hide AllRunTheirGraph, LeavesNoTrace, RunOf;
    var more := ops + [last];
    assert forall n :: 0 <= n <= |ops| ==> more[..n] == ops[..n];
    assert more[..|more|] == more && ops[..|ops|] == ops && more[..|ops|] == ops;
  }

  /**
   * Every generation runs the graph it was given last, at every point of a run, exactly when no failed
   * update of the run leaves a plugin stuck where it moved to.
   */
  lemma {:induction false} GenerationsRunTheirGraphs(ops: seq<Op>)
    ensures GraphsRunThroughout(ops) <==> NoTraceThroughout(ops)
  {
    if ops == [] {
      NothingMounted();
    } else {
      hide GraphsRunThroughout, NoTraceThroughout, AllRunTheirGraph, LeavesNoTrace, StateOk;
      var front, last := ops[..|ops| - 1], ops[|ops| - 1];
      assert ops == front + [last];
      GenerationsRunTheirGraphs(front);
      OneStepMore(front, last);
      LastGraphsRun(front);
      NothingIsOk();
      AfterKeepsState(NOTHING, front);
      if AllRunTheirGraph(RunOf(front).kernel) {
        StepRunsGraphs(RunOf(front), last);
      }
      hide Do;
    }
  }

  lemma LastGraphsRun(ops: seq<Op>)
    ensures GraphsRunThroughout(ops) ==> AllRunTheirGraph(RunOf(ops).kernel)
  {
    assert ops[..|ops|] == ops;
    hide AllRunTheirGraph, RunOf;
  }

  lemma NothingMounted()
    ensures AllRunTheirGraph(NOTHING.kernel)
  {
  }
}
