/**
 * Who holds the unreleased leases: the calls in flight and the suspended turns. Each is held, and by one
 * holder, exactly as long as no step of a few kinds is taken, all of which need calls on one turn to overlap.
 */
module LeaseHolders {
  import opened Options
  import opened Generations

  function CallLeases(calls: map<nat, Call>): set<nat> {
    set c | c in calls :: calls[c].lease
  }

  function TurnLeases(suspended: map<string, nat>): set<nat> {
    set t | t in suspended :: suspended[t]
  }

  function OpenLeases(leases: seq<Lease>): set<nat> {
    set l: nat | l < |leases| && !leases[l].released
  }

  predicate On(leases: seq<Lease>, lease: nat, g: nat) {
    lease < |leases| && leases[lease].generation == g
  }

  function CallsOn(leases: seq<Lease>, calls: map<nat, Call>, g: nat): set<nat> {
    set c | c in calls && On(leases, calls[c].lease, g)
  }

  /** The suspended turns on a generation that wait, that is, no call goes on with their lease. */
  function WaitingOn(leases: seq<Lease>, calls: map<nat, Call>, suspended: map<string, nat>, g: nat): set<string> {
    set t | t in suspended && suspended[t] !in CallLeases(calls) && On(leases, suspended[t], g)
  }

  function Holders(s: State, g: nat): nat {
    |CallsOn(s.kernel.leases, s.calls, g)| + |WaitingOn(s.kernel.leases, s.calls, s.suspended, g)|
  }

  /** The references of every generation are the calls in flight and the waiting turns on it. */
  ghost predicate Counted(s: State) {
    forall g: nat :: References(s.kernel, g) == Holders(s, g)
  }

  /* ---------- one holder a lease ---------- */

  /** Calls hold different leases, turns too, and only a call that goes on with a turn shares its lease. */
  predicate Distinct(calls: map<nat, Call>, suspended: map<string, nat>) {
    && (forall c, d :: c in calls && d in calls && c != d ==> calls[c].lease != calls[d].lease)
    && (forall t, u :: t in suspended && u in suspended && t != u ==> suspended[t] != suspended[u])
    && (forall c, t :: c in calls && t in suspended && calls[c].lease == suspended[t] ==>
          calls[c].turn == Some(t) && calls[c].held)
  }

  function Held(s: State): set<nat> {
    CallLeases(s.calls) + TurnLeases(s.suspended)
  }

  /** The unreleased leases are the ones held, and each has one holder. */
  ghost predicate HeldOnce(s: State) {
    StateOk(s) && Distinct(s.calls, s.suspended) && OpenLeases(s.kernel.leases) == Held(s)
  }

  function LeasesOn(leases: seq<Lease>, some: set<nat>, g: nat): set<nat> {
    set l | l in some && On(leases, l, g)
  }

  function Values<K>(m: map<K, nat>, keys: set<K>): set<nat>
    requires keys <= m.Keys
  {
    set k | k in keys :: m[k]
  }

  /** Different keys with different values: as many values as keys. */
  lemma {:induction false} AsManyValues<K>(m: map<K, nat>, keys: set<K>)
    requires keys <= m.Keys && forall a, b :: a in keys && b in keys && a != b ==> m[a] != m[b]
    ensures |Values(m, keys)| == |keys|
  {
    if keys == {} {
      assert Values(m, keys) == {};
    } else {
      var x :| x in keys;
      AsManyValues(m, keys - {x});
      assert Values(m, keys) == Values(m, keys - {x}) + {m[x]};
    }
  }

  lemma CallsAreLeases(leases: seq<Lease>, calls: map<nat, Call>, g: nat)
    requires forall c, d :: c in calls && d in calls && c != d ==> calls[c].lease != calls[d].lease
    ensures |CallsOn(leases, calls, g)| == |LeasesOn(leases, CallLeases(calls), g)|
  {
    var lease := map c | c in calls :: calls[c].lease;
    var keys := CallsOn(leases, calls, g);
    AsManyValues(lease, keys);
    forall l ensures l in LeasesOn(leases, CallLeases(calls), g) <==> l in Values(lease, keys) {
      if l in LeasesOn(leases, CallLeases(calls), g) {
        var c :| c in calls && calls[c].lease == l;
        assert c in keys && lease[c] == l;
      }
    }
    assert LeasesOn(leases, CallLeases(calls), g) == Values(lease, keys);
  }

  lemma TurnsAreLeases(leases: seq<Lease>, calls: map<nat, Call>, suspended: map<string, nat>, g: nat)
    requires forall t, u :: t in suspended && u in suspended && t != u ==> suspended[t] != suspended[u]
    ensures |WaitingOn(leases, calls, suspended, g)| ==
            |LeasesOn(leases, TurnLeases(suspended) - CallLeases(calls), g)|
  {
    hide CallLeases;
    var keys := WaitingOn(leases, calls, suspended, g);
    AsManyValues(suspended, keys);
    var waited := TurnLeases(suspended) - CallLeases(calls);
    forall l ensures l in LeasesOn(leases, waited, g) <==> l in Values(suspended, keys) {
      if l in LeasesOn(leases, waited, g) {
        var t :| t in suspended && suspended[t] == l;
        assert t in keys && suspended[t] == l;
      }
    }
    assert LeasesOn(leases, waited, g) == Values(suspended, keys);
  }

  /** With one holder a lease, the holders on a generation are as many as the held leases on it. */
  lemma HoldersAreHeld(s: State, g: nat)
    requires Distinct(s.calls, s.suspended)
    ensures Holders(s, g) == |LeasesOn(s.kernel.leases, Held(s), g)|
  {
    var leases, calls, turns := s.kernel.leases, CallLeases(s.calls), TurnLeases(s.suspended);
    CallsAreLeases(leases, s.calls, g);
    TurnsAreLeases(leases, s.calls, s.suspended, g);
    hide CallLeases, TurnLeases, Distinct, CallsOn, WaitingOn;
    OnBoth(leases, calls, turns, g);
  }

  lemma OnBoth(leases: seq<Lease>, calls: set<nat>, turns: set<nat>, g: nat)
    ensures |LeasesOn(leases, calls + turns, g)| == |LeasesOn(leases, calls, g)| + |LeasesOn(leases, turns - calls, g)|
  {
    hide On;
    var a, b := LeasesOn(leases, calls, g), LeasesOn(leases, turns - calls, g);
    assert LeasesOn(leases, calls + turns, g) == a + b && a !! b;
  }

  lemma OpenOnIs(leases: seq<Lease>, g: nat)
    ensures OpenOn(leases, g) == LeasesOn(leases, OpenLeases(leases), g)
  {
  }

  lemma HeldOnceCounts(s: State)
    requires HeldOnce(s)
    ensures Counted(s)
  {
    hide Distinct, Held, OpenOn, OpenLeases, LeasesOn, Holders, LeasesExist, CallsShaped, StatesOk;
    forall g: nat ensures References(s.kernel, g) == Holders(s, g) {
      HoldersAreHeld(s, g);
      OpenOnIs(s.kernel.leases, g);
      assert References(s.kernel, g) == |OpenOn(s.kernel.leases, g)|;
    }
  }

  /** If a lease is open that nobody holds, or held although it is not open, the count is off. */
  lemma OneApart(s: State, lease: nat)
    requires StateOk(s) && Distinct(s.calls, s.suspended) && lease < |s.kernel.leases|
    requires
      || (Held(s) <= OpenLeases(s.kernel.leases) && lease in OpenLeases(s.kernel.leases) - Held(s))
      || (OpenLeases(s.kernel.leases) <= Held(s) && lease in Held(s) - OpenLeases(s.kernel.leases))
    ensures !Counted(s)
  {
    hide Distinct, Held, OpenOn, OpenLeases, Holders, LeasesExist, CallsShaped, StatesOk;
    var leases := s.kernel.leases;
    var g := leases[lease].generation;
    HoldersAreHeld(s, g);
    OpenOnIs(leases, g);
    assert References(s.kernel, g) == |OpenOn(leases, g)|;
    var open, held := LeasesOn(leases, OpenLeases(leases), g), LeasesOn(leases, Held(s), g);
    if lease in Held(s) {
      assert lease in held - open && open <= held;
      Smaller(open, held, lease);
    } else {
      assert lease in open - held && held <= open;
      Smaller(held, open, lease);
    }
  }

  lemma Smaller(a: set<nat>, b: set<nat>, x: nat)
    requires a <= b && x in b - a
    ensures |a| < |b|
  {
    assert |b - a| == |b| - |a|;
    assert b - a != {};
  }

  /* ---------- when a step keeps the count ---------- */

  /** No call goes on with the suspended turn already. */
  predicate BeginFits(s: State, turn: string) {
    turn in s.suspended ==> s.suspended[turn] !in CallLeases(s.calls)
  }

  /**
   * A lease that a suspension takes the place of must be in nobody's hands, one that an ending turn gives up
   * must be in another call's, and a call that keeps its lease after an error must leave it to its turn.
   */
  predicate FinishFits(s: State, c: nat, result: Result)
    requires c in s.calls
  {
    var lease := s.calls[c].lease;
    match result
    case Suspends(turn) => Replaces(s, turn, lease) ==> s.suspended[turn] !in CallLeases(s.calls - {c})
    case Ends(turn) => Replaces(s, turn, lease) ==> s.suspended[turn] in CallLeases(s.calls - {c})
    case Throws =>
      KeepsLease(s.calls[c], s.suspended) ==>
        && s.calls[c].turn.Some? && s.calls[c].turn.value in s.suspended
        && s.suspended[s.calls[c].turn.value] == lease
  }

  /** The turn is suspended on another lease. */
  predicate Replaces(s: State, turn: string, lease: nat) {
    turn in s.suspended && s.suspended[turn] != lease
  }

  ghost predicate Fits(s: State, op: Op) {
    Enabled(s, op) ==>
      match op
      case OpRun(_) => true
      case OpOn(_, _, turn) => BeginFits(s, turn)
      case OpFinish(c, result) => FinishFits(s, c, result)
      case OpReconcile(_, _) => true
  }

  /* ---------- beginning a call ---------- */

  /** A call with a new lease. */
  lemma TakeLease(s: State, on: nat, c: nat, call: Call)
    requires HeldOnce(s) && on in s.kernel.generations && c !in s.calls && call.lease == |s.kernel.leases|
    requires (call.kind == Run <==> call.turn.None?) && !call.held
    ensures HeldOnce(s.(kernel := Acquire(s.kernel, on), calls := s.calls[c := call]))
  {
    var after := s.(kernel := Acquire(s.kernel, on), calls := s.calls[c := call]);
    AcquireKeeps(s.kernel, on);
    NewLease(s.kernel.leases, on);
    CallsPlus(s.calls, c, call);
    NewCallDistinct(s, c, call);
    hide KernelOk, OpenLeases, CallLeases, TurnLeases, Distinct;
    assert OpenLeases(s.kernel.leases) + {|s.kernel.leases|} == Held(after);
  }

  lemma NewCallDistinct(s: State, c: nat, call: Call)
    requires LeasesExist(s) && Distinct(s.calls, s.suspended) && c !in s.calls && call.lease == |s.kernel.leases|
    ensures Distinct(s.calls[c := call], s.suspended)
  {
  }

  lemma NewLease(leases: seq<Lease>, on: nat)
    ensures OpenLeases(leases + [Lease(on, false)]) == OpenLeases(leases) + {|leases|}
  {
  }

  lemma CallsPlus(calls: map<nat, Call>, c: nat, call: Call)
    requires c !in calls
    ensures CallLeases(calls[c := call]) == CallLeases(calls) + {call.lease}
  {
    assert forall d :: d in calls ==> calls[c := call][d] == calls[d];
    assert calls[c := call][c] == call;
  }

  /** A call that goes on with the lease of a suspended turn. */
  lemma TakeOver(s: State, c: nat, call: Call, turn: string)
    requires HeldOnce(s) && c !in s.calls && turn in s.suspended
    requires call.turn == Some(turn) && call.lease == s.suspended[turn] && call.held && call.kind != Run
    ensures StateOk(s.(calls := s.calls[c := call]))
    ensures if BeginFits(s, turn) then HeldOnce(s.(calls := s.calls[c := call]))
            else !Counted(s.(calls := s.calls[c := call]))
  {
    CallsPlus(s.calls, c, call);
    if BeginFits(s, turn) {
      TakeOverDistinct(s.calls, s.suspended, c, call, turn);
      hide KernelOk, Distinct, CallLeases, OpenLeases;
    } else {
      SecondHolder(s, c, call, turn);
    }
  }

  lemma TakeOverDistinct(calls: map<nat, Call>, suspended: map<string, nat>, c: nat, call: Call, turn: string)
    requires Distinct(calls, suspended) && c !in calls && turn in suspended
    requires call.turn == Some(turn) && call.lease == suspended[turn] && call.held
    requires suspended[turn] !in CallLeases(calls)
    ensures Distinct(calls[c := call], suspended)
  {
    forall d | d in calls ensures calls[d].lease != call.lease {
      assert calls[d].lease in CallLeases(calls);
    }
    hide CallLeases;
  }

  /** A second call on a lease is counted twice. */
  lemma SecondHolder(s: State, c: nat, call: Call, turn: string)
    requires HeldOnce(s) && c !in s.calls && turn in s.suspended && call.lease == s.suspended[turn]
    requires s.suspended[turn] in CallLeases(s.calls)
    ensures !Counted(s.(calls := s.calls[c := call]))
  {
    HeldOnceCounts(s);
    var after, leases := s.(calls := s.calls[c := call]), s.kernel.leases;
    assert call.lease < |leases|;
    var g := leases[call.lease].generation;
    CallsPlus(s.calls, c, call);
    assert CallLeases(after.calls) == CallLeases(s.calls);
    hide HeldOnce, CallLeases;
    assert CallsOn(leases, after.calls, g) == CallsOn(leases, s.calls, g) + {c};
    assert WaitingOn(leases, after.calls, s.suspended, g) == WaitingOn(leases, s.calls, s.suspended, g);
    hide CallsOn, WaitingOn;
    assert References(s.kernel, g) == Holders(s, g);
    assert Holders(after, g) == Holders(s, g) + 1;
  }

  /* ---------- finishing a call ---------- */

  /** What the parts of a state are after a call is gone: nothing shared but what was. */
  lemma CallGone(calls: map<nat, Call>, suspended: map<string, nat>, c: nat)
    requires Distinct(calls, suspended) && c in calls
    ensures Distinct(calls - {c}, suspended)
    ensures CallLeases(calls - {c}) == CallLeases(calls) - {calls[c].lease}
    ensures forall t :: t in suspended && suspended[t] == calls[c].lease ==> calls[c].turn == Some(t) && calls[c].held
  {
    var fewer := calls - {c};
    forall l ensures l in CallLeases(fewer) <==> l in CallLeases(calls) && l != calls[c].lease {
      if l in CallLeases(calls) && l != calls[c].lease {
        var d :| d in calls && calls[d].lease == l;
        assert d in fewer && fewer[d].lease == l;
      }
    }
  }

  lemma TurnGone(suspended: map<string, nat>, turn: string)
    requires forall t, u :: t in suspended && u in suspended && t != u ==> suspended[t] != suspended[u]
    ensures TurnLeases(suspended - {turn}) ==
            TurnLeases(suspended) - (if turn in suspended then {suspended[turn]} else {})
  {
    var fewer := suspended - {turn};
    forall l
      ensures l in TurnLeases(fewer) <==> l in TurnLeases(suspended) && (turn in suspended ==> l != suspended[turn])
    {
      if l in TurnLeases(suspended) && (turn in suspended ==> l != suspended[turn]) {
        var t :| t in suspended && suspended[t] == l;
        assert t in fewer && fewer[t] == l;
      }
    }
  }

  lemma TurnMoved(suspended: map<string, nat>, turn: string, lease: nat)
    requires forall t, u :: t in suspended && u in suspended && t != u ==> suspended[t] != suspended[u]
    ensures TurnLeases(suspended[turn := lease]) ==
            TurnLeases(suspended) - (if turn in suspended then {suspended[turn]} else {}) + {lease}
  {
    TurnGone(suspended, turn);
    var moved := suspended[turn := lease];
    forall l ensures l in TurnLeases(moved) <==> l in TurnLeases(suspended - {turn}) || l == lease {
      if l in TurnLeases(suspended - {turn}) {
        var t :| t in suspended - {turn} && (suspended - {turn})[t] == l;
        assert t in moved && moved[t] == l;
      }
      assert moved[turn] == lease;
    }
  }

  lemma Closed(k: KernelState, lease: nat)
    requires KernelOk(k) && lease in OpenLeases(k.leases)
    ensures OpenLeases(Release(k, lease).leases) == OpenLeases(k.leases) - {lease}
    ensures Release(k, lease).leases == Returned(k.leases, lease)
  {
    ReleaseMeans(k, lease);
    hide Release, KernelOk;
  }

  lemma SuspendedTurnHolds(suspended: map<string, nat>, turn: string)
    requires turn in suspended
    ensures suspended[turn] in TurnLeases(suspended)
  {
  }

  /** A call that ends suspended leaves its lease to the turn. */
  lemma Suspending(s: State, c: nat, turn: string)
    requires HeldOnce(s) && c in s.calls && OwnTurn(s.calls[c], Suspends(turn))
    ensures if FinishFits(s, c, Suspends(turn)) then HeldOnce(Finish(s, c, Suspends(turn)))
            else !Counted(Finish(s, c, Suspends(turn)))
  {
    var lease, after := s.calls[c].lease, Finish(s, c, Suspends(turn));
    FinishKeepsState(s, c, Suspends(turn));
    CallGone(s.calls, s.suspended, c);
    TurnMoved(s.suspended, turn, lease);
    SuspendDistinct(s.calls, s.suspended, c, turn);
    assert lease in CallLeases(s.calls);
    if turn in s.suspended {
      SuspendedTurnHolds(s.suspended, turn);
      Closed(s.kernel, s.suspended[turn]);
    }
    hide KernelOk, Distinct, CallLeases, TurnLeases, OpenLeases, Release, LeasesExist, CallsShaped, Counted;
    if FinishFits(s, c, Suspends(turn)) {
      assert OpenLeases(after.kernel.leases) == Held(after);
    } else {
      OneApart(after, s.suspended[turn]);
    }
  }

  lemma SuspendDistinct(calls: map<nat, Call>, suspended: map<string, nat>, c: nat, turn: string)
    requires Distinct(calls, suspended) && c in calls && OwnTurn(calls[c], Suspends(turn))
    ensures Distinct(calls - {c}, suspended[turn := calls[c].lease])
  {
  }

  /** A call whose turn ends releases its lease. */
  lemma Ending(s: State, c: nat, turn: string)
    requires HeldOnce(s) && c in s.calls && OwnTurn(s.calls[c], Ends(turn))
    ensures if FinishFits(s, c, Ends(turn)) then HeldOnce(Finish(s, c, Ends(turn)))
            else !Counted(Finish(s, c, Ends(turn)))
  {
    var lease, after := s.calls[c].lease, Finish(s, c, Ends(turn));
    FinishKeepsState(s, c, Ends(turn));
    CallGone(s.calls, s.suspended, c);
    TurnGone(s.suspended, turn);
    EndDistinct(s.calls - {c}, s.suspended, turn);
    NotWaiting(s, c, turn);
    assert lease in CallLeases(s.calls);
    Closed(s.kernel, lease);
    if turn in s.suspended {
      SuspendedTurnHolds(s.suspended, turn);
    }
    hide KernelOk, Distinct, CallLeases, TurnLeases, OpenLeases, Release, LeasesExist, CallsShaped, Counted;
    if FinishFits(s, c, Ends(turn)) {
      assert OpenLeases(after.kernel.leases) == Held(after);
    } else {
      OneApart(after, s.suspended[turn]);
    }
  }

  lemma EndDistinct(calls: map<nat, Call>, suspended: map<string, nat>, turn: string)
    requires Distinct(calls, suspended)
    ensures Distinct(calls, suspended - {turn})
  {
  }

  /** Once its own turn is out of the way, no turn is suspended on the lease of a call. */
  lemma NotWaiting(s: State, c: nat, turn: string)
    requires Distinct(s.calls, s.suspended) && c in s.calls && OwnTurn(s.calls[c], Ends(turn)) && CallsShaped(s.calls)
    ensures s.calls[c].lease !in TurnLeases(s.suspended - {turn})
  {
  }

  /** A call that throws keeps its lease or releases it. */
  lemma Throwing(s: State, c: nat)
    requires HeldOnce(s) && c in s.calls
    ensures if FinishFits(s, c, Throws) then HeldOnce(Finish(s, c, Throws)) else !Counted(Finish(s, c, Throws))
  {
    var lease, after := s.calls[c].lease, Finish(s, c, Throws);
    FinishKeepsState(s, c, Throws);
    CallGone(s.calls, s.suspended, c);
    assert lease in CallLeases(s.calls);
    Closed(s.kernel, lease);
    ThrownLease(s, c);
    hide KernelOk, Distinct, CallLeases, TurnLeases, OpenLeases, Release, LeasesExist, CallsShaped, Counted;
    if FinishFits(s, c, Throws) {
      assert OpenLeases(after.kernel.leases) == Held(after);
    } else {
      OneApart(after, lease);
    }
  }

  /** A call that throws leaves its lease to a suspended turn exactly when it keeps it and its turn is on it. */
  lemma ThrownLease(s: State, c: nat)
    requires HeldOnce(s) && c in s.calls
    ensures s.calls[c].lease in TurnLeases(s.suspended) <==>
      && KeepsLease(s.calls[c], s.suspended)
      && s.calls[c].turn.Some? && s.calls[c].turn.value in s.suspended
      && s.suspended[s.calls[c].turn.value] == s.calls[c].lease
  {
    var call := s.calls[c];
    if call.lease in TurnLeases(s.suspended) {
      var t :| t in s.suspended && s.suspended[t] == call.lease;
      assert call.turn == Some(t) && call.held;
    }
  }

  /* ---------- steps and runs ---------- */

  lemma Reconciling(s: State, desired: Desired, luck: Luck)
    requires HeldOnce(s)
    ensures HeldOnce(s.(kernel := DoReconcile(s.kernel, desired, luck).0))
  {
    ReconcileKeeps(s.kernel, desired, luck);
    hide KernelOk, DoReconcile, Distinct;
  }

  lemma Running(s: State, c: nat)
    requires HeldOnce(s) && Enabled(s, OpRun(c))
    ensures HeldOnce(Do(s, OpRun(c)))
  {
    hide HeldOnce;
    TakeLease(s, s.kernel.active.value, c, Call(Run, None, |s.kernel.leases|, false));
  }

  lemma GoingOn(s: State, c: nat, kind: Kind, turn: string)
    requires HeldOnce(s) && Enabled(s, OpOn(c, kind, turn))
    ensures if BeginFits(s, turn) then HeldOnce(Do(s, OpOn(c, kind, turn))) else !Counted(Do(s, OpOn(c, kind, turn)))
  {
    hide HeldOnce, Counted;
    if turn in s.suspended {
      TakeOver(s, c, Call(kind, Some(turn), s.suspended[turn], true), turn);
    } else {
      TakeLease(s, s.kernel.active.value, c, Call(kind, Some(turn), |s.kernel.leases|, false));
    }
  }

  lemma Finishing(s: State, c: nat, result: Result)
    requires HeldOnce(s) && c in s.calls && OwnTurn(s.calls[c], result)
    ensures if FinishFits(s, c, result) then HeldOnce(Finish(s, c, result)) else !Counted(Finish(s, c, result))
  {
    hide HeldOnce, Counted, Finish, FinishFits, OwnTurn;
    match result
    case Suspends(turn) => Suspending(s, c, turn);
    case Ends(turn) => Ending(s, c, turn);
    case Throws => Throwing(s, c);
  }

  /** From a state in which every open lease has its one holder, a step keeps the count exactly when it fits. */
  lemma StepCounts(s: State, op: Op)
    requires HeldOnce(s)
    ensures Counted(Do(s, op)) <==> Fits(s, op)
    ensures Fits(s, op) ==> HeldOnce(Do(s, op))
  {
    if Enabled(s, op) {
      match op {
        case OpRun(c) => Running(s, c);
        case OpOn(c, kind, turn) => GoingOn(s, c, kind, turn);
        case OpFinish(c, result) => Finishing(s, c, result);
        case OpReconcile(desired, luck) => Reconciling(s, desired, luck);
      }
    }
    hide HeldOnce, Counted, BeginRun, BeginOn, Finish, DoReconcile, BeginFits, FinishFits;
    if HeldOnce(Do(s, op)) {
      HeldOnceCounts(Do(s, op));
    }
  }

  ghost predicate CountedThroughout(ops: seq<Op>) {
    forall n :: 0 <= n <= |ops| ==> Counted(RunOf(ops[..n]))
  }

  ghost predicate AllFit(ops: seq<Op>) {
    forall n :: 0 <= n < |ops| ==> Fits(RunOf(ops[..n]), ops[n])
  }

  lemma NothingHeld()
    ensures HeldOnce(NOTHING)
  {
    NothingIsOk();
    hide StateOk;
  }

  lemma {:induction false} FittingRun(ops: seq<Op>)
    requires AllFit(ops)
    ensures HeldOnce(RunOf(ops))
  {
    hide HeldOnce, Fits, Do;
    if ops == [] {
      NothingHeld();
    } else {
      var front := ops[..|ops| - 1];
      assert forall n :: 0 <= n <= |front| ==> front[..n] == ops[..n];
      FittingRun(front);
      assert front[..|front|] == front;
      StepCounts(RunOf(front), ops[|ops| - 1]);
    }
  }

  lemma {:induction false} CountedRun(ops: seq<Op>)
    requires CountedThroughout(ops)
    ensures AllFit(ops)
  {
    hide HeldOnce, Fits, Do, Counted;
    if ops != [] {
      var front := ops[..|ops| - 1];
      assert forall n :: 0 <= n <= |front| ==> front[..n] == ops[..n];
      CountedRun(front);
      FittingRun(front);
      assert ops[..|ops|] == ops;
      StepCounts(RunOf(front), ops[|ops| - 1]);
    }
  }

  /**
   * The references of every generation are its calls in flight plus its waiting suspended turns, at every
   * point of a run, exactly when every step of the run fits.
   */
  lemma ReferencesAreCounted(ops: seq<Op>)
    ensures CountedThroughout(ops) <==> AllFit(ops)
  {
    hide Counted, Fits;
    if CountedThroughout(ops) {
      CountedRun(ops);
    }
    if AllFit(ops) {
      forall n | 0 <= n <= |ops| ensures Counted(RunOf(ops[..n])) {
        assert forall m :: 0 <= m < n ==> ops[..n][..m] == ops[..m];
        FittingRun(ops[..n]);
        HeldOnceCounts(RunOf(ops[..n]));
      }
    }
  }

  /* ---------- calls on one turn that do not overlap ---------- */

  /** A call on the turn is in flight. */
  predicate InFlight(calls: map<nat, Call>, turn: string) {
    exists c :: c in calls && calls[c].turn == Some(turn)
  }

  /** The step begins no second call on a turn, and a first run ends on a turn nobody knows. */
  predicate NoOverlap(s: State, op: Op) {
    match op
    case OpRun(_) => true
    case OpOn(_, _, turn) => !InFlight(s.calls, turn)
    case OpFinish(c, result) =>
      c in s.calls && s.calls[c].turn.None? && !result.Throws? ==>
        result.turn !in s.suspended && !InFlight(s.calls, result.turn)
    case OpReconcile(_, _) => true
  }

  /** Calls are on different turns, and those on a suspended turn go on with its lease. */
  predicate OneCallPerTurn(calls: map<nat, Call>, suspended: map<string, nat>) {
    && (forall c, d :: c in calls && d in calls && c != d && calls[c].turn.Some? ==> calls[c].turn != calls[d].turn)
    && (forall c :: c in calls ==>
          && (calls[c].held <==> calls[c].turn.Some? && calls[c].turn.value in suspended)
          && (calls[c].held ==> calls[c].lease == suspended[calls[c].turn.value]))
  }

  lemma AloneFits(s: State, op: Op)
    requires HeldOnce(s) && OneCallPerTurn(s.calls, s.suspended) && NoOverlap(s, op)
    ensures Fits(s, op)
  {
    hide KernelOk, Held, OpenLeases, LeasesExist, Orders;
  }

  lemma AloneStays(s: State, op: Op)
    requires LeasesExist(s) && CallsShaped(s.calls) && OneCallPerTurn(s.calls, s.suspended) && NoOverlap(s, op)
    ensures OneCallPerTurn(Do(s, op).calls, Do(s, op).suspended)
  {
    hide Orders, DoReconcile, Release, Acquire, LeasesExist;
    if Enabled(s, op) && op.OpFinish? {
      FinishedTables(s, op.call, op.result);
      hide Finish;
    }
  }

  /** What finishing a call does to the calls and the suspended turns. */
  lemma FinishedTables(s: State, c: nat, result: Result)
    requires LeasesExist(s) && c in s.calls
    ensures Finish(s, c, result).calls == s.calls - {c}
    ensures Finish(s, c, result).suspended ==
      match result
      case Suspends(turn) => s.suspended[turn := s.calls[c].lease]
      case Ends(turn) => s.suspended - {turn}
      case Throws => s.suspended
  {
  }

  ghost predicate NeverOverlaps(ops: seq<Op>) {
    forall n :: 0 <= n < |ops| ==> NoOverlap(RunOf(ops[..n]), ops[n])
  }

  /** When calls on one turn never overlap, every step fits. */
  lemma {:induction false} AloneCounts(ops: seq<Op>)
    requires NeverOverlaps(ops)
    ensures AllFit(ops) && OneCallPerTurn(RunOf(ops).calls, RunOf(ops).suspended)
  {
    hide NoOverlap, OneCallPerTurn, Do, HeldOnce, Fits;
    if ops == [] {
      NobodyThere();
    } else {
      var front := ops[..|ops| - 1];
      assert forall n :: 0 <= n <= |front| ==> front[..n] == ops[..n];
      AloneCounts(front);
      FittingRun(front);
      AloneFits(RunOf(front), ops[|ops| - 1]);
      RangeOf(RunOf(front));
      AloneStays(RunOf(front), ops[|ops| - 1]);
    }
  }

  lemma NobodyThere()
    ensures OneCallPerTurn(NOTHING.calls, NOTHING.suspended)
  {
  }

  lemma RangeOf(s: State)
    requires HeldOnce(s)
    ensures LeasesExist(s) && CallsShaped(s.calls)
  {
  }

  /* ---------- what goes wrong when they do overlap ---------- */

  const ONE_GENERATION :=
    State(KernelState(map[0 := Generation(Active, 0, [], "v1", [])], Some(0), [], 1), map[], map[])

  /**
   * Two recoveries of one turn at once: the first ends suspended, the second throws, and its lease is
   * never released, so the generation keeps a reference that nobody holds.
   */
  lemma OverlapLeaksALease()
    ensures var begun := BeginOn(BeginOn(ONE_GENERATION, 0, Recover, "t"), 1, Recover, "t");
      var after := Finish(Finish(begun, 0, Suspends("t")), 1, Throws);
      && after.calls == map[] && after.suspended == map["t" := 0]
      && after.kernel.generations[0].references == 2 && Holders(after, 0) == 1
  {
    var begun := BeginOn(BeginOn(ONE_GENERATION, 0, Recover, "t"), 1, Recover, "t");
    var after := Finish(Finish(begun, 0, Suspends("t")), 1, Throws);
    assert WaitingOn(after.kernel.leases, after.calls, after.suspended, 0) == {"t"};
    assert CallsOn(after.kernel.leases, after.calls, 0) == {};
  }

  /**
   * Two resumptions of one suspended turn at once: the first completes and releases the lease, the second
   * suspends again and pins the turn to a lease that counts no more.
   */
  lemma OverlapRevivesALease()
    ensures var waiting := Finish(BeginRun(ONE_GENERATION, 0), 0, Suspends("t"));
      var begun := BeginOn(BeginOn(waiting, 1, Resume, "t"), 2, Resume, "t");
      var after := Finish(Finish(begun, 1, Ends("t")), 2, Suspends("t"));
      && after.suspended == map["t" := 0] && after.kernel.leases[0].released
      && after.kernel.generations[0].references == 0
  {
  }
}
