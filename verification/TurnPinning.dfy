/** A turn stays on the generation it started on, across suspensions, resumptions and reconciles. */
module TurnPinning {
  import opened Options
  import opened Generations
  import opened LeaseHolders

  predicate CallsPinned(s: State, turn: string, g: nat) {
    forall c :: c in s.calls && s.calls[c].turn == Some(turn) ==> On(s.kernel.leases, s.calls[c].lease, g)
  }

  /** The turn is suspended on a generation, and every call that goes on with it is on that generation too. */
  predicate PinnedAt(s: State, turn: string, g: nat) {
    turn in s.suspended && On(s.kernel.leases, s.suspended[turn], g) && CallsPinned(s, turn, g)
  }

  /** The step does not end the turn, and a call that suspends it was on it. */
  predicate Continues(s: State, op: Op, turn: string) {
    op.OpFinish? && op.call in s.calls && !op.result.Throws? && op.result.turn == turn ==>
      op.result.Suspends? && s.calls[op.call].turn == Some(turn)
  }

  /** No step changes which generation a lease is on. */
  lemma LeasesStayPut(s: State, op: Op, lease: nat, g: nat)
    requires StateOk(s) && On(s.kernel.leases, lease, g)
    ensures On(Do(s, op).kernel.leases, lease, g)
  {
    if op.OpReconcile? {
      ReconcileKeeps(s.kernel, op.desired, op.luck);
    }
    hide KernelOk, CallsShaped, DoReconcile, Orders;
  }

  /**
   * No step moves a suspended turn to another generation, unless it ends the turn or a first run takes its
   * name; and while its lease has its one holder, the generation is kept.
   */
  lemma SuspendedTurnStaysPinned(s: State, op: Op, turn: string, g: nat)
    requires StateOk(s) && PinnedAt(s, turn, g) && Continues(s, op, turn)
    ensures PinnedAt(Do(s, op), turn, g)
    ensures HeldOnce(s) && Fits(s, op) ==> g in Do(s, op).kernel.generations
  {
    hide KernelOk, DoReconcile, Orders, Release, HeldOnce, Fits, On;
    forall lease | On(s.kernel.leases, lease, g) ensures On(Do(s, op).kernel.leases, lease, g) {
      LeasesStayPut(s, op, lease, g);
    }
    if Enabled(s, op) && op.OpFinish? {
      FinishedTables(s, op.call, op.result);
      hide Finish;
    }
    assert PinnedAt(Do(s, op), turn, g);
    if HeldOnce(s) && Fits(s, op) {
      StepCounts(s, op);
      PinnedIsKept(Do(s, op), turn, g);
    }
  }

  /** The generation of a suspended turn is kept as long as its lease is held. */
  lemma PinnedIsKept(s: State, turn: string, g: nat)
    requires HeldOnce(s) && PinnedAt(s, turn, g)
    ensures g in s.kernel.generations && s.kernel.generations[g].references > 0
  {
    SuspendedTurnHolds(s.suspended, turn);
    OpenIsKept(s.kernel, s.suspended[turn]);
  }

  ghost predicate ContinuesThroughout(s: State, ops: seq<Op>, turn: string) {
    forall n :: 0 <= n < |ops| ==> Continues(After(s, ops[..n]), ops[n], turn)
  }

  lemma {:induction false} StaysPinned(s: State, ops: seq<Op>, turn: string, g: nat)
    requires StateOk(s) && PinnedAt(s, turn, g) && ContinuesThroughout(s, ops, turn)
    ensures PinnedAt(After(s, ops), turn, g)
  {
    hide StateOk, PinnedAt, Continues, Do;
    if ops != [] {
      var front := ops[..|ops| - 1];
      assert forall n :: 0 <= n <= |front| ==> front[..n] == ops[..n];
      StaysPinned(s, front, turn, g);
      AfterKeepsState(s, front);
      SuspendedTurnStaysPinned(After(s, front), ops[|ops| - 1], turn, g);
    }
  }

  /** A call that is not finished stays as it began. */
  lemma {:induction false} CallStays(s: State, ops: seq<Op>, c: nat)
    requires c in s.calls && forall n :: 0 <= n < |ops| ==> !(ops[n].OpFinish? && ops[n].call == c)
    ensures c in After(s, ops).calls && After(s, ops).calls[c] == s.calls[c]
  {
    if ops != [] {
      CallStays(s, ops[..|ops| - 1], c);
      OneStepStays(After(s, ops[..|ops| - 1]), ops[|ops| - 1], c);
      hide Do;
    }
  }

  lemma OneStepStays(s: State, op: Op, c: nat)
    requires c in s.calls && !(op.OpFinish? && op.call == c)
    ensures c in Do(s, op).calls && Do(s, op).calls[c] == s.calls[c]
  {
    hide DoReconcile, Orders, Release;
  }

  lemma {:induction false} LeaseStays(s: State, ops: seq<Op>, lease: nat, g: nat)
    requires StateOk(s) && On(s.kernel.leases, lease, g)
    ensures On(After(s, ops).kernel.leases, lease, g)
  {
    hide StateOk, On, Do;
    if ops != [] {
      LeaseStays(s, ops[..|ops| - 1], lease, g);
      AfterKeepsState(s, ops[..|ops| - 1]);
      LeasesStayPut(After(s, ops[..|ops| - 1]), ops[|ops| - 1], lease, g);
    }
  }

  /**
   * A turn begun while a generation was active, which ends suspended, is on that generation whatever happens
   * then, reconciles and overlapping calls included, until it ends; every call that goes on with it as well.
   */
  lemma ResumesWhereItStarted(s: State, c: nat, during: seq<Op>, turn: string, later: seq<Op>)
    requires StateOk(s) && Enabled(s, OpRun(c))
    requires forall n :: 0 <= n < |during| ==> !(during[n].OpFinish? && during[n].call == c)
    requires !InFlight(After(Do(s, OpRun(c)), during).calls, turn)
    requires var waiting := Do(After(Do(s, OpRun(c)), during), OpFinish(c, Suspends(turn)));
      ContinuesThroughout(waiting, later, turn)
    ensures var waiting := Do(After(Do(s, OpRun(c)), during), OpFinish(c, Suspends(turn)));
      PinnedAt(After(waiting, later), turn, s.kernel.active.value)
  {
    var g, begun := s.kernel.active.value, Do(s, OpRun(c));
    assert c in begun.calls && begun.calls[c].turn.None? && On(begun.kernel.leases, begun.calls[c].lease, g);
    StepKeepsState(s, OpRun(c));
    hide StateOk, Do, Enabled, On;
    var ended := After(begun, during);
    AfterKeepsState(begun, during);
    CallStays(begun, during, c);
    LeaseStays(begun, during, begun.calls[c].lease, g);
    StartsPinned(ended, c, turn, g);
    StepKeepsState(ended, OpFinish(c, Suspends(turn)));
    StaysPinned(Do(ended, OpFinish(c, Suspends(turn))), later, turn, g);
  }

  lemma StartsPinned(s: State, c: nat, turn: string, g: nat)
    requires StateOk(s) && c in s.calls && s.calls[c].turn.None? && On(s.kernel.leases, s.calls[c].lease, g)
    requires !InFlight(s.calls, turn)
    ensures PinnedAt(Do(s, OpFinish(c, Suspends(turn))), turn, g)
  {
    LeasesStayPut(s, OpFinish(c, Suspends(turn)), s.calls[c].lease, g);
    hide LeasesCounted, Release, On;
    assert Enabled(s, OpFinish(c, Suspends(turn)));
    FinishedTables(s, c, Suspends(turn));
    hide Finish;
  }
}
