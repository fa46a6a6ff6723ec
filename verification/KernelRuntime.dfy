/**
 * The kernel and the pinned agent loop as the objects they are: their fields change in place, and every
 * method moves the abstract state as the functions of `Generations` say.
 */
module KernelRuntime {
  import opened Options
  import opened PluginOrder
  import opened Reconcile
  import opened Generations
  import opened LeaseHolders

  class Kernel {
    var generations: map<nat, Generation>
    var active: Option<nat>
    var leases: seq<Lease>
    var created: nat

    constructor ()
      ensures Abs() == NOTHING.kernel
    {
      generations, active, leases, created := map[], None, [], 0;
    }

    ghost function Abs(): KernelState
      reads this
    {
      KernelState(generations, active, leases, created)
    }

    ghost predicate Valid()
      reads this
    {
      active.Some? ==> active.value in generations
    }

    /** Pins the active generation for a turn; without one there is nothing to run. */
    method BeginTurn() returns (lease: Option<nat>)
      requires Valid()
      modifies this
      ensures lease == if old(active).Some? then Some(|old(leases)|) else None
      ensures Abs() == if old(active).Some? then Acquire(old(Abs()), old(active).value) else old(Abs())
    {
      if active.None? {
        return None;
      }
      var generation := generations[active.value];
      lease := Some(|leases|);
      generations := generations[active.value := generation.(references := generation.references + 1)];
      leases := leases + [Lease(active.value, false)];
    }

    method ReleaseLease(lease: nat)
      requires lease < |leases|
      modifies this
      ensures Abs() == Release(old(Abs()), lease)
    {
      if leases[lease].released {
        return;
      }
      var g := leases[lease].generation;
      leases := leases[lease := leases[lease].(released := true)];
      if g !in generations || generations[g].references == 0 {
        return;
      }
      var generation := generations[g].(references := generations[g].references - 1);
      generations := generations[g := generation];
      if generation.references == 0 && generation.state == Draining {
        assert generations - {g} == old(generations) - {g};
        generations := generations - {g};
      }
    }

    /**
     * What happens outside decides whether a candidate prepares and what the fibers do in an update. The
     * order is the one in which the graph is mounted.
     */
    method ReconcileGraph(desired: Desired, prepared: bool, weather: Weather)
      returns (result: ReconcileResult, ghost order: seq<Plugin>)
      requires Valid()
      modifies this
      ensures (Abs(), result) == DoReconcile(old(Abs()), desired, Luck(prepared, weather, order))
      ensures result in {Activated, Updated, GenerationFailed, GraphRejected} ==> Orders(desired, order)
    {
      hide Acyclic, WellFormed, ProvidersFirst, InSearchOrder, Changed, NeedsRestart, LiveChange, UpdatedMounts,
        AllWell;
      order := [];
      var graph := desired.graph;
      if active.Some? {
        var running := generations[active.value];
        if running.version == desired.version {
          result := if running.plugins == graph then AlreadyActive else VersionCollision;
          return;
        }
        var plan := CreateReconcilePlan(running.plugins, graph);
        PlanKindIs(running.plugins, graph, plan.kind);
        if plan.kind == RestartRequired {
          result := RestartNeeded;
          return;
        }
        if plan.kind == LiveUpdate && running.references == 0 {
          result, order := UpdateRunning(desired, weather);
          return;
        }
      }
      var checked := ValidateAndOrder(graph, desired.bootstrap);
      if checked.Rejected? {
        result := GraphRejected;
        return;
      }
      order := checked.plugins;
      var candidate := created;
      created := created + 1;
      if !prepared {
        result := GenerationFailed;
        return;
      }
      if active.Some? {
        var previous := generations[active.value];
        if previous.references == 0 {
          generations := generations - {active.value};
        } else {
          generations := generations[active.value := previous.(state := Draining)];
        }
      }
      generations := generations[candidate := Generation(Active, 0, graph, desired.version, checked.plugins)];
      active := Some(candidate);
      result := Activated;
    }

    /** Moves the fibers of the active generation to the graph, in place, or back. */
    method UpdateRunning(desired: Desired, weather: Weather)
      returns (result: ReconcileResult, ghost order: seq<Plugin>)
      requires Valid() && active.Some?
      modifies this
      ensures Orders(desired, order)
      ensures if !Orderable(desired.graph, desired.bootstrap) then result == GraphRejected && Abs() == old(Abs())
              else
                && Abs() == UpdateActive(old(Abs()), desired, Luck(true, weather, order))
                && result == if AllWell(old(generations[active.value].mounted), ById(order), weather) then Updated
                             else GenerationFailed
    {
      hide Acyclic, WellFormed, ProvidersFirst, InSearchOrder, UpdatedMounts, AllWell, ById;
      order := [];
      var checked := ValidateAndOrder(desired.graph, desired.bootstrap);
      if checked.Rejected? {
        result := GraphRejected;
        return;
      }
      order := checked.plugins;
      var running := generations[active.value];
      var mounted := new Plugin[|running.mounted|](i requires 0 <= i < |running.mounted| => running.mounted[i]);
      assert mounted[..] == running.mounted;
      var ok, _ := UpdateInPlace(mounted, ById(checked.plugins), weather);
      running := running.(mounted := mounted[..]);
      if ok {
        running := running.(plugins := desired.graph, version := desired.version);
      }
      generations := generations[active.value := running];
      result := if ok then Updated else GenerationFailed;
    }
  }

  lemma PlanKindIs(current: seq<Plugin>, incoming: seq<Plugin>, kind: PlanKind)
    requires PlanMeans(current, incoming, kind)
    ensures kind == KindOf(current, incoming)
  {
    if ById(current) == ById(incoming) {
      assert forall id :: !Changed(current, incoming, id);
    }
    hide Changed, NeedsRestart, LiveChange;
  }

  class PinnedAgentLoop {
    const kernel: Kernel
    var suspended: map<string, nat>
    var calls: map<nat, Call>

    constructor (kernel: Kernel)
      requires kernel.Abs() == NOTHING.kernel
      ensures this.kernel == kernel && Abs() == NOTHING && StateOk(Abs()) && HeldOnce(Abs())
    {
      this.kernel := kernel;
      suspended, calls := map[], map[];
      NothingIsOk();
      NothingHeld();
    }

    ghost function Abs(): State
      reads this, kernel
    {
      State(kernel.Abs(), suspended, calls)
    }

    /** The first half of `runTurn`: pin the active generation, then call the loop that runs on it. */
    method BeginRunTurn(c: nat) returns (began: bool)
      requires StateOk(Abs()) && c !in calls
      modifies this, kernel
      ensures StateOk(Abs()) && began == old(kernel.active.Some?)
      ensures Abs() == if began then BeginRun(old(Abs()), c) else old(Abs())
      ensures old(HeldOnce(Abs())) ==> HeldOnce(Abs())
    {
      ghost var before := Abs();
      assert kernel.Valid();
      var lease := kernel.BeginTurn();
      if lease.None? {
        return false;
      }
      calls := calls[c := Call(Run, None, lease.value, false)];
      StepMeans(before, OpRun(c), Abs());
      return true;
    }

    /** The first half of `recoverTurn` and `resumeTurn`: the lease of the suspended turn, or a new one. */
    method BeginOnTurn(c: nat, kind: Kind, turn: string) returns (began: bool)
      requires StateOk(Abs()) && c !in calls && kind != Run
      modifies this, kernel
      ensures StateOk(Abs()) && began == (turn in old(suspended) || old(kernel.active.Some?))
      ensures Abs() == if began then BeginOn(old(Abs()), c, kind, turn) else old(Abs())
      ensures old(HeldOnce(Abs())) ==> (Counted(Abs()) <==> old(BeginFits(Abs(), turn)))
      ensures old(HeldOnce(Abs()) && BeginFits(Abs(), turn)) ==> HeldOnce(Abs())
    {
      ghost var before := Abs();
      assert kernel.Valid();
      if turn in suspended {
        calls := calls[c := Call(kind, Some(turn), suspended[turn], true)];
      } else {
        var lease := kernel.BeginTurn();
        if lease.None? {
          NotBegun(before, turn);
          return false;
        }
        calls := calls[c := Call(kind, Some(turn), lease.value, false)];
      }
      StepMeans(before, OpOn(c, kind, turn), Abs());
      return true;
    }

    /** The second half of each: settle the lease by the result, or clean up after an error. */
    method FinishCall(c: nat, result: Result)
      requires StateOk(Abs()) && c in calls && OwnTurn(calls[c], result)
      modifies this, kernel
      ensures StateOk(Abs()) && Abs() == Finish(old(Abs()), c, result)
      ensures old(HeldOnce(Abs())) ==> (Counted(Abs()) <==> old(FinishFits(Abs(), c, result)))
      ensures old(HeldOnce(Abs()) && FinishFits(Abs(), c, result)) ==> HeldOnce(Abs())
    {
      ghost var before := Abs();
      StepMeans(before, OpFinish(c, result), Finish(before, c, result));
      hide KernelOk, HeldOnce, Counted, FinishFits, Release;
      var call := calls[c];
      calls := calls - {c};
      match result
      case Suspends(turn) =>
        if turn in suspended && suspended[turn] != call.lease {
          kernel.ReleaseLease(suspended[turn]);
        }
        suspended := suspended[turn := call.lease];
      case Ends(turn) =>
        suspended := suspended - {turn};
        kernel.ReleaseLease(call.lease);
      case Throws =>
        if !KeepsLease(call, suspended) {
          kernel.ReleaseLease(call.lease);
        }
    }
  }

  lemma StepMeans(before: State, op: Op, after: State)
    requires StateOk(before) && Enabled(before, op) && after == Do(before, op)
    ensures StateOk(after)
    ensures HeldOnce(before) ==> (Counted(after) <==> Fits(before, op)) && (Fits(before, op) ==> HeldOnce(after))
  {
    hide *;
    StepKeepsState(before, op);
    if HeldOnce(before) {
      StepCounts(before, op);
    }
  }

  /** A call that finds no generation to run on changes nothing. */
  lemma NotBegun(s: State, turn: string)
    requires turn !in s.suspended
    ensures BeginFits(s, turn) && (HeldOnce(s) ==> Counted(s))
  {
    hide HeldOnce, Counted;
    if HeldOnce(s) {
      HeldOnceCounts(s);
    }
  }
}
