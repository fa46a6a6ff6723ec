/**
 * The dispatcher over one Kanban store: claims with leases, heartbeats, reclaims and releases. Each operation
 * is one step; a claim is made only by claiming the next ready task.
 */
module DispatchSteps {
  import opened Options
  import opened KanbanTask

  datatype Policy = Policy(leaseDuration: int, maxConcurrent: int)

  /** The tasks of the store, and the lease ids handed out so far. */
  datatype System = System(tasks: map<string, Task>, issued: set<nat>)

  datatype Op =
    | ClaimNext(worker: string, id: string, lease: nat, now: int)
    | Heartbeat(id: string, lease: nat, now: int)
    | Reclaim(id: string, now: int)
    | Finish(id: string, lease: nat, to: Status, now: int)
    | Cancel(id: string, now: int)
    | Create(init: Init, at: int)
    | Edit(id: string, command: Command, newId: nat, at: int)

  /* ---------- what is ready ---------- */

  predicate DateAtMost(a: Option<int>, b: Option<int>) { b.None? || (a.Some? && a.value <= b.value) }

  /** The order of the queue: priority, deadline, schedule, creation; no date comes last. */
  predicate AtMost(a: Task, b: Task) {
    if a.details.priority != b.details.priority then a.details.priority < b.details.priority
    else if a.details.deadline != b.details.deadline then DateAtMost(a.details.deadline, b.details.deadline)
    else if a.details.scheduledAt != b.details.scheduledAt then DateAtMost(a.details.scheduledAt, b.details.scheduledAt)
    else a.createdAt <= b.createdAt
  }

  predicate Satisfied(tasks: map<string, Task>, dependency: Dependency) {
    dependency.blocks ==>
      dependency.taskId in tasks && tasks[dependency.taskId].status == Or(dependency.satisfiedWhen, Done)
  }

  predicate DependenciesSatisfied(tasks: map<string, Task>, task: Task) {
    forall k :: 0 <= k < |task.dependencies| ==> Satisfied(tasks, task.dependencies[k])
  }

  predicate Due(task: Task, now: int) { task.details.scheduledAt.None? || task.details.scheduledAt.value <= now }

  predicate Runnable(tasks: map<string, Task>, id: string, now: int) {
    id in tasks && tasks[id].status == Ready && Due(tasks[id], now) && DependenciesSatisfied(tasks, tasks[id])
  }

  /** A runnable task that no other runnable task comes before. */
  ghost predicate IsNext(tasks: map<string, Task>, id: string, now: int) {
    Runnable(tasks, id, now) && forall other :: Runnable(tasks, other, now) ==> AtMost(tasks[id], tasks[other])
  }

  predicate HeldBy(task: Task, worker: string) {
    task.status == Running && task.claim.Some? && task.claim.value.claimant == worker
  }

  function RunningOf(tasks: map<string, Task>, worker: string): set<string> {
    set id | id in tasks && HeldBy(tasks[id], worker)
  }

  predicate HasCapacity(tasks: map<string, Task>, worker: string, max: int) {
    max <= 0 || |RunningOf(tasks, worker)| < max
  }

  /* ---------- the steps ---------- */

  /** A store write from the shown card; a rejected one changes nothing. */
  function Written(tasks: map<string, Task>, id: string, command: Command, newId: nat, at: int): map<string, Task> {
    if id !in tasks then tasks
    else
      match Prepare(tasks[id], command, newId, at)
      case Rejected(_) => tasks
      case Prepared(w) => tasks[id := w.next]
  }

  function Moved(tasks: map<string, Task>, id: string, to: Status, claim: Option<Claim>, at: int): map<string, Task> {
    if id !in tasks then tasks else Written(tasks, id, Transition(to, tasks[id].version, claim), 0, at)
  }

  function NewClaim(worker: string, lease: nat, now: int, policy: Policy): Claim {
    Claim(worker, lease, now, now + policy.leaseDuration)
  }

  ghost function Do(s: System, policy: Policy, op: Op): System {
    match op
    case ClaimNext(worker, id, lease, now) =>
      if lease in s.issued || !HasCapacity(s.tasks, worker, policy.maxConcurrent) || !IsNext(s.tasks, id, now) then s
      else System(Moved(s.tasks, id, Running, Some(NewClaim(worker, lease, now, policy)), now), s.issued + {lease})
    case Heartbeat(id, lease, now) =>
      s.(tasks := Written(s.tasks, id, RenewLease(lease, now + policy.leaseDuration), 0, now))
    case Reclaim(id, now) => if Expired(s.tasks, id, now) then s.(tasks := Moved(s.tasks, id, Ready, None, now)) else s
    case Finish(id, lease, to, now) =>
      if id in s.tasks && HoldsLease(s.tasks[id], lease) && to in {Done, Failed, Blocked}
      then s.(tasks := Moved(s.tasks, id, to, None, now)) else s
    case Cancel(id, now) => s.(tasks := Moved(s.tasks, id, Cancelled, None, now))
    case Create(init, at) => if init.id in s.tasks then s else s.(tasks := s.tasks[init.id := NewTask(init, at)])
    case Edit(id, command, newId, at) =>
      if (command.Transition? && command.claim.Some?) || command.RenewLease? then s
      else s.(tasks := Written(s.tasks, id, command, newId, at))
  }

  predicate Expired(tasks: map<string, Task>, id: string, now: int) {
    id in tasks && tasks[id].status == Running && tasks[id].claim.Some? && tasks[id].claim.value.expiresAt <= now
  }

  ghost function Run(policy: Policy, ops: seq<Op>): System {
    if ops == [] then System(map[], {}) else Do(Run(policy, ops[..|ops| - 1]), policy, ops[|ops| - 1])
  }

  /* ---------- the invariant ---------- */

  predicate ClaimOk(task: Task, issued: set<nat>) {
    task.claim.Some? ==> task.status == Running && task.claim.value.leaseId in issued
  }

  predicate ClaimsOk(tasks: map<string, Task>, issued: set<nat>) {
    forall id :: id in tasks ==> ClaimOk(tasks[id], issued)
  }

  /** No two tasks hold one lease. */
  predicate LeasesDiffer(tasks: map<string, Task>) {
    forall a, b :: a in tasks && b in tasks && a != b && tasks[a].claim.Some? && tasks[b].claim.Some? ==>
      tasks[a].claim.value.leaseId != tasks[b].claim.value.leaseId
  }

  ghost predicate WithinLimit(tasks: map<string, Task>, max: int) {
    max > 0 ==> forall worker: string :: |RunningOf(tasks, worker)| <= max
  }

  ghost predicate Inv(s: System, policy: Policy) {
    ClaimsOk(s.tasks, s.issued) && LeasesDiffer(s.tasks) && WithinLimit(s.tasks, policy.maxConcurrent)
  }

  /** How one task may change without a new claim: the claim stays, but for its expiry, or goes. */
  predicate Lapses(before: Task, after: Task) {
    || after.claim.None?
    || (before.claim.Some? && after.status == before.status
        && after.claim.value.leaseId == before.claim.value.leaseId
        && after.claim.value.claimant == before.claim.value.claimant)
  }

  /** Every write without a claim of its own only keeps or drops what was held. */
  lemma WriteLapses(task: Task, command: Command, newId: nat, at: int)
    requires task.claim.Some? ==> task.status == Running
    requires command.Transition? ==> command.claim.None?
    ensures var p := Prepare(task, command, newId, at);
      p.Prepared? ==> Lapses(task, p.write.next) && (p.write.next.claim.Some? ==> p.write.next.status == Running)
  {
    assert forall to :: CanTransition(Running, to) ==> to != Running;
  }

  /** Tasks change one at a time, each keeping or dropping what it held. */
  ghost predicate Quiet(before: map<string, Task>, after: map<string, Task>) {
    forall id :: id in after ==>
      (id in before && (after[id] == before[id]
         || (Lapses(before[id], after[id]) && (after[id].claim.Some? ==> after[id].status == Running))))
      || (id !in before && after[id].claim.None?)
  }

  lemma QuietKeepsInv(before: map<string, Task>, after: map<string, Task>, issued: set<nat>, policy: Policy)
    requires Inv(System(before, issued), policy) && Quiet(before, after)
    ensures Inv(System(after, issued), policy)
  {
    forall worker: string ensures RunningOf(after, worker) <= RunningOf(before, worker) {
    }
    forall worker: string | policy.maxConcurrent > 0 ensures |RunningOf(after, worker)| <= policy.maxConcurrent {
      SubsetSize(RunningOf(after, worker), RunningOf(before, worker));
    }
  }

  lemma {:induction false} SubsetSize<T>(a: set<T>, b: set<T>)
    requires a <= b
    ensures |a| <= |b|
    decreases a
  {
    if a != {} {
      var x :| x in a;
      SubsetSize(a - {x}, b - {x});
    }
  }

  lemma WrittenQuiet(tasks: map<string, Task>, issued: set<nat>, id: string, command: Command, newId: nat, at: int)
    requires ClaimsOk(tasks, issued) && (command.Transition? ==> command.claim.None?)
    ensures Quiet(tasks, Written(tasks, id, command, newId, at))
  {
    if id in tasks {
      assert ClaimOk(tasks[id], issued);
      WriteLapses(tasks[id], command, newId, at);
      hide Prepare;
    }
  }

  /** A claim turns a ready task into a running one, with nothing else changed. */
  lemma ClaimMeans(s: System, policy: Policy, worker: string, id: string, lease: nat, now: int)
    requires lease !in s.issued && HasCapacity(s.tasks, worker, policy.maxConcurrent) && IsNext(s.tasks, id, now)
    ensures var after := Do(s, policy, ClaimNext(worker, id, lease, now));
      && after.issued == s.issued + {lease} && after.tasks.Keys == s.tasks.Keys
      && after.tasks[id].status == Running && after.tasks[id].claim == Some(NewClaim(worker, lease, now, policy))
      && (forall other :: other in s.tasks && other != id ==> after.tasks[other] == s.tasks[other])
      && s.tasks[id].status == Ready && DependenciesSatisfied(s.tasks, s.tasks[id]) && Due(s.tasks[id], now)
  {
    assert CanTransition(Ready, Running);
  }

  lemma ClaimKeepsInv(s: System, policy: Policy, worker: string, id: string, lease: nat, now: int)
    requires Inv(s, policy)
    ensures Inv(Do(s, policy, ClaimNext(worker, id, lease, now)), policy)
  {
    if lease !in s.issued && HasCapacity(s.tasks, worker, policy.maxConcurrent) && IsNext(s.tasks, id, now) {
      hide IsNext, Moved, DependenciesSatisfied, Do, ClaimsOk, LeasesDiffer, WithinLimit, HasCapacity, Due;
      ClaimMeans(s, policy, worker, id, lease, now);
      var after := Do(s, policy, ClaimNext(worker, id, lease, now));
      ClaimKeepsLeases(s, after, id, lease);
      ClaimKeepsLimit(s.tasks, after.tasks, policy.maxConcurrent, worker, id);
    }
  }

  /** The task that was claimed holds the new lease, and all others are as they were. */
  lemma ClaimKeepsLeases(s: System, after: System, id: string, lease: nat)
    requires ClaimsOk(s.tasks, s.issued) && LeasesDiffer(s.tasks) && lease !in s.issued
    requires after.issued == s.issued + {lease} && after.tasks.Keys == s.tasks.Keys && id in s.tasks
    requires after.tasks[id].status == Running && after.tasks[id].claim.Some?
    requires after.tasks[id].claim.value.leaseId == lease
    requires forall other :: other in s.tasks && other != id ==> after.tasks[other] == s.tasks[other]
    ensures ClaimsOk(after.tasks, after.issued) && LeasesDiffer(after.tasks)
  {
    forall other | other in s.tasks && other != id ensures ClaimOk(after.tasks[other], s.issued) {
      assert ClaimOk(s.tasks[other], s.issued);
    }
  }

  lemma ClaimKeepsLimit(
    tasks: map<string, Task>, after: map<string, Task>, max: int, worker: string, id: string)
    requires WithinLimit(tasks, max) && HasCapacity(tasks, worker, max) && id in tasks && tasks[id].status == Ready
    requires after.Keys == tasks.Keys && HeldBy(after[id], worker)
    requires forall other :: other in tasks && other != id ==> after[other] == tasks[other]
    ensures WithinLimit(after, max)
  {
    assert RunningOf(after, worker) == RunningOf(tasks, worker) + {id};
    forall other: string | max > 0 ensures |RunningOf(after, other)| <= max {
      assert |RunningOf(tasks, other)| <= max;
      if other != worker {
        assert RunningOf(after, other) <= RunningOf(tasks, other);
        SubsetSize(RunningOf(after, other), RunningOf(tasks, other));
      }
    }
  }

  /** Every step keeps the claims in order and each worker within its limit. */
  lemma StepKeepsInv(s: System, policy: Policy, op: Op)
    requires Inv(s, policy)
    ensures Inv(Do(s, policy, op), policy)
  {
    if op.ClaimNext? {
      ClaimKeepsInv(s, policy, op.worker, op.id, op.lease, op.now);
    } else {
      OthersAreQuiet(s, policy, op);
      QuietKeepsInv(s.tasks, Do(s, policy, op).tasks, s.issued, policy);
    }
  }

  lemma OthersAreQuiet(s: System, policy: Policy, op: Op)
    requires ClaimsOk(s.tasks, s.issued) && !op.ClaimNext?
    ensures Quiet(s.tasks, Do(s, policy, op).tasks) && Do(s, policy, op).issued == s.issued
  {
    hide Written, ClaimsOk, HoldsLease;
    match op
    case Heartbeat(id, lease, now) =>
      WrittenQuiet(s.tasks, s.issued, id, RenewLease(lease, now + policy.leaseDuration), 0, now);
    case Reclaim(id, now) => MovedQuiet(s, id, Ready, now);
    case Finish(id, lease, to, now) => MovedQuiet(s, id, to, now);
    case Cancel(id, now) => MovedQuiet(s, id, Cancelled, now);
    case Create(init, at) =>
    case Edit(id, command, newId, at) =>
      if !(command.Transition? && command.claim.Some?) { WrittenQuiet(s.tasks, s.issued, id, command, newId, at); }
    case ClaimNext(_, _, _, _) =>
  }

  lemma MovedQuiet(s: System, id: string, to: Status, now: int)
    requires ClaimsOk(s.tasks, s.issued)
    ensures Quiet(s.tasks, Moved(s.tasks, id, to, None, now))
  {
    hide Written, ClaimsOk;
    if id in s.tasks {
      WrittenQuiet(s.tasks, s.issued, id, Transition(to, s.tasks[id].version, None), 0, now);
    }
  }

  lemma {:induction false} RunKeepsInv(policy: Policy, ops: seq<Op>)
    ensures Inv(Run(policy, ops), policy)
  {
    if ops != [] {
      RunKeepsInv(policy, ops[..|ops| - 1]);
      StepKeepsInv(Run(policy, ops[..|ops| - 1]), policy, ops[|ops| - 1]);
    }
  }

  /* ---------- what the invariant gives ---------- */

  /** Over every run: a claim only on a running task, and no worker claims more than its limit. */
  lemma NeverOverLimit(policy: Policy, ops: seq<Op>, worker: string)
    ensures var tasks := Run(policy, ops).tasks;
      && (forall id :: id in tasks && tasks[id].claim.Some? ==> tasks[id].status == Running)
      && (policy.maxConcurrent > 0 ==>
            |set id | id in tasks && tasks[id].claim.Some? && tasks[id].claim.value.claimant == worker|
            <= policy.maxConcurrent)
  {
    RunKeepsInv(policy, ops);
    var s := Run(policy, ops);
    hide Run;
    forall id | id in s.tasks && s.tasks[id].claim.Some? ensures s.tasks[id].status == Running {
      assert ClaimOk(s.tasks[id], s.issued);
    }
    var claimed := set id | id in s.tasks && s.tasks[id].claim.Some? && s.tasks[id].claim.value.claimant == worker;
    assert claimed == RunningOf(s.tasks, worker);
  }

  ghost predicate Held(s: System, lease: nat) {
    exists id :: id in s.tasks && s.tasks[id].claim.Some? && s.tasks[id].claim.value.leaseId == lease
  }

  lemma StepKeepsEnded(s: System, policy: Policy, op: Op, lease: nat)
    requires Inv(s, policy) && lease in s.issued && !Held(s, lease)
    ensures lease in Do(s, policy, op).issued && !Held(Do(s, policy, op), lease)
  {
    if op.ClaimNext? {
      if op.lease !in s.issued && HasCapacity(s.tasks, op.worker, policy.maxConcurrent)
        && IsNext(s.tasks, op.id, op.now) {
        ClaimMeans(s, policy, op.worker, op.id, op.lease, op.now);
        hide Do, IsNext;
      }
    } else {
      OthersAreQuiet(s, policy, op);
      hide Do;
    }
  }

  /** A lease that once ended, by release, reclaim or cancellation, is never held again. */
  lemma {:induction false} EndedLeaseStaysEnded(policy: Policy, ops: seq<Op>, more: seq<Op>, lease: nat)
    requires lease in Run(policy, ops).issued && !Held(Run(policy, ops), lease)
    ensures lease in Run(policy, ops + more).issued && !Held(Run(policy, ops + more), lease)
  {
    hide Do, Inv, Held;
    if more == [] {
      assert ops + more == ops;
    } else {
      var front := more[..|more| - 1];
      EndedLeaseStaysEnded(policy, ops, front, lease);
      assert (ops + more)[..|ops + more| - 1] == ops + front;
      RunKeepsInv(policy, ops + front);
      StepKeepsEnded(Run(policy, ops + front), policy, more[|more| - 1], lease);
    }
  }

  /** Once a lease has ended, no heartbeat, completion, failure or block with its id does anything. */
  lemma EndedLeaseIsFenced(policy: Policy, ops: seq<Op>, more: seq<Op>, lease: nat, op: Op)
    requires lease in Run(policy, ops).issued && !Held(Run(policy, ops), lease)
    requires (op.Heartbeat? || op.Finish?) && op.lease == lease
    ensures Run(policy, ops + more + [op]) == Run(policy, ops + more)
  {
    EndedLeaseStaysEnded(policy, ops, more, lease);
    assert (ops + more + [op])[..|ops + more|] == ops + more;
    var s := Run(policy, ops + more);
    NotHeldDoesNothing(s, policy, lease, op);
  }

  lemma NotHeldDoesNothing(s: System, policy: Policy, lease: nat, op: Op)
    requires !Held(s, lease) && (op.Heartbeat? || op.Finish?) && op.lease == lease
    ensures Do(s, policy, op) == s
  {
    if op.id in s.tasks {
      assert !HoldsLease(s.tasks[op.id], lease);
    }
  }

  /** Finishing, reclaiming or cancelling the task that holds a lease ends the lease. */
  lemma ReleaseEndsLease(s: System, policy: Policy, op: Op, id: string, lease: nat)
    requires Inv(s, policy) && id in s.tasks && HoldsLease(s.tasks[id], lease)
    requires match op
      case Finish(task, l, to, _) => task == id && l == lease && to in {Done, Failed, Blocked}
      case Reclaim(task, now) => task == id && Expired(s.tasks, id, now)
      case Cancel(task, _) => task == id
      case _ => false
    ensures !Held(Do(s, policy, op), lease)
    ensures Do(s, policy, op).tasks.Keys == s.tasks.Keys && Do(s, policy, op).tasks[id].claim.None?
  {
    hide Prepare, Inv;
    var to := if op.Finish? then op.to else if op.Reclaim? then Ready else Cancelled;
    var now := match op case Finish(_, _, _, at) => at case Reclaim(_, at) => at case Cancel(_, at) => at case _ => 0;
    HolderRuns(s, policy, id);
    assert CanTransition(Running, to);
    assert Do(s, policy, op).tasks == Moved(s.tasks, id, to, None, now);
    MoveDropsClaim(s.tasks, id, to, now);
    LeaseIsGone(s, policy, id, lease, Do(s, policy, op));
  }

  lemma HolderRuns(s: System, policy: Policy, id: string)
    requires Inv(s, policy) && id in s.tasks && s.tasks[id].claim.Some?
    ensures s.tasks[id].status == Running
  {
    assert ClaimOk(s.tasks[id], s.issued);
    hide RunningOf;
  }

  lemma MoveDropsClaim(tasks: map<string, Task>, id: string, to: Status, at: int)
    requires id in tasks && CanTransition(tasks[id].status, to) && to != Running
    ensures var after := Moved(tasks, id, to, None, at);
      after.Keys == tasks.Keys && after[id].claim.None?
      && forall other :: other in tasks && other != id ==> after[other] == tasks[other]
  {
  }

  lemma LeaseIsGone(s: System, policy: Policy, id: string, lease: nat, after: System)
    requires Inv(s, policy) && id in s.tasks && HoldsLease(s.tasks[id], lease)
    requires after.tasks.Keys == s.tasks.Keys && after.tasks[id].claim.None?
    requires forall other :: other in s.tasks && other != id ==> after.tasks[other] == s.tasks[other]
    ensures !Held(after, lease)
  {
    hide RunningOf;
  }

  /* ---------- the queue ---------- */

  /** Earlier, or the only one with a date. */
  predicate Sooner(a: Option<int>, b: Option<int>) { a.Some? && (b.None? || a.value < b.value) }

  /** The queue goes by priority, then deadline, then schedule, then creation, and only equals are a tie. */
  lemma QueueMeans(a: Task, b: Task)
    ensures a.details.priority < b.details.priority ==> AtMost(a, b) && !AtMost(b, a)
    ensures a.details.priority == b.details.priority && Sooner(a.details.deadline, b.details.deadline) ==>
      AtMost(a, b) && !AtMost(b, a)
    ensures a.details.priority == b.details.priority && a.details.deadline == b.details.deadline ==>
      (Sooner(a.details.scheduledAt, b.details.scheduledAt) ==> AtMost(a, b) && !AtMost(b, a))
      && (a.details.scheduledAt == b.details.scheduledAt && a.createdAt < b.createdAt ==>
            AtMost(a, b) && !AtMost(b, a))
    ensures AtMost(a, b) && AtMost(b, a) <==>
      && a.details.priority == b.details.priority && a.details.deadline == b.details.deadline
      && a.details.scheduledAt == b.details.scheduledAt && a.createdAt == b.createdAt
  {
  }

  /**
   * A claim takes a ready task whose schedule has come, and whose every blocking dependency is on the board in the
   * status it waits for, done unless it says otherwise; and no such task is sooner in the queue.
   */
  lemma ClaimsTheNext(s: System, policy: Policy, worker: string, id: string, lease: nat, now: int)
    requires Do(s, policy, ClaimNext(worker, id, lease, now)) != s
    ensures FitsToRun(s.tasks, id, now)
    ensures forall other :: FitsToRun(s.tasks, other, now) ==> AtMost(s.tasks[id], s.tasks[other])
  {
    hide AtMost, Moved;
    forall other ensures FitsToRun(s.tasks, other, now) <==> Runnable(s.tasks, other, now) {
      RunnableMeans(s.tasks, other, now);
    }
    hide FitsToRun, Runnable;
  }

  predicate FitsToRun(tasks: map<string, Task>, id: string, now: int) {
    && id in tasks && tasks[id].status == Ready
    && (tasks[id].details.scheduledAt.Some? ==> tasks[id].details.scheduledAt.value <= now)
    && forall d :: d in tasks[id].dependencies && d.blocks ==>
         && d.taskId in tasks
         && (d.satisfiedWhen.None? ==> tasks[d.taskId].status == Done)
         && (d.satisfiedWhen.Some? ==> tasks[d.taskId].status == d.satisfiedWhen.value)
  }

  lemma RunnableMeans(tasks: map<string, Task>, id: string, now: int)
    ensures FitsToRun(tasks, id, now) <==> Runnable(tasks, id, now)
  {
  }

  /** A worker has room as long as it holds fewer running tasks than its limit, and always without a limit. */
  lemma RoomMeans(tasks: map<string, Task>, worker: string, max: int)
    ensures HasCapacity(tasks, worker, max) <==>
      || max <= 0
      || |set id |
            id in tasks && tasks[id].status == Running
            && tasks[id].claim.Some? && tasks[id].claim.value.claimant == worker| < max
  {
    assert RunningOf(tasks, worker) == set id |
      id in tasks && tasks[id].status == Running
      && tasks[id].claim.Some? && tasks[id].claim.value.claimant == worker;
  }

  /** A creation adds a new card to the inbox, and touches no other. */
  lemma CreationAdds(s: System, policy: Policy, init: Init, at: int)
    ensures var after := Do(s, policy, Create(init, at));
      && after.issued == s.issued && after.tasks.Keys == s.tasks.Keys + {init.id}
      && (forall id :: id in s.tasks ==> after.tasks[id] == s.tasks[id])
      && (init.id !in s.tasks ==> after.tasks[init.id] == PrepareCreate(init, at).next)
  {
  }

  /* ---------- how long a lease lasts ---------- */

  /** A claimed task can be taken back exactly when the duration of a lease has gone by since the claim. */
  lemma ClaimLasts(s: System, policy: Policy, worker: string, id: string, lease: nat, now: int, later: int)
    requires Do(s, policy, ClaimNext(worker, id, lease, now)) != s
    ensures var claimed := Do(s, policy, ClaimNext(worker, id, lease, now));
      && id in claimed.tasks && HoldsLease(claimed.tasks[id], lease)
      && claimed.tasks[id].claim.value.claimant == worker
      && (Do(claimed, policy, Reclaim(id, later)) == claimed <==> later < now + policy.leaseDuration)
      && (later >= now + policy.leaseDuration ==> TakenBack(claimed, Do(claimed, policy, Reclaim(id, later)), id))
  {
    ClaimMeans(s, policy, worker, id, lease, now);
    var claimed := Do(s, policy, ClaimNext(worker, id, lease, now));
    hide IsNext, HasCapacity, DependenciesSatisfied;
    ReclaimTakesBack(claimed, policy, id, later);
  }

  /** And a renewed one, since the renewal. */
  lemma RenewalLasts(s: System, policy: Policy, id: string, lease: nat, now: int, later: int)
    requires id in s.tasks && HoldsLease(s.tasks[id], lease)
    ensures var renewed := Do(s, policy, Heartbeat(id, lease, now));
      && id in renewed.tasks && HoldsLease(renewed.tasks[id], lease)
      && renewed.tasks[id].claim.value.claimant == s.tasks[id].claim.value.claimant
      && (Do(renewed, policy, Reclaim(id, later)) == renewed <==> later < now + policy.leaseDuration)
      && (later >= now + policy.leaseDuration ==> TakenBack(renewed, Do(renewed, policy, Reclaim(id, later)), id))
  {
    var renewed := Do(s, policy, Heartbeat(id, lease, now));
    ReclaimTakesBack(renewed, policy, id, later);
  }

  /** Back in the queue, unclaimed, and nothing else changed. */
  predicate TakenBack(before: System, after: System, id: string) {
    && id in before.tasks && after.issued == before.issued && after.tasks.Keys == before.tasks.Keys
    && after.tasks[id].status == Ready && after.tasks[id].claim.None?
    && forall other :: other in before.tasks && other != id ==> after.tasks[other] == before.tasks[other]
  }

  lemma ReclaimTakesBack(s: System, policy: Policy, id: string, now: int)
    requires id in s.tasks && s.tasks[id].status == Running && s.tasks[id].claim.Some?
    ensures Do(s, policy, Reclaim(id, now)) == s <==> now < s.tasks[id].claim.value.expiresAt
    ensures now >= s.tasks[id].claim.value.expiresAt ==> TakenBack(s, Do(s, policy, Reclaim(id, now)), id)
  {
    assert CanTransition(Running, Ready);
    var after := Do(s, policy, Reclaim(id, now));
    if now >= s.tasks[id].claim.value.expiresAt {
      assert after.tasks[id].status == Ready;
    }
  }

  /* ---------- releasing ---------- */

  /**
   * A worker that holds the lease moves its task where it says, done, failed or blocked, and anyone may cancel a
   * task that is not at its end; the claim is gone then, and no other task changes.
   */
  lemma ReleaseMoves(s: System, policy: Policy, op: Op)
    requires op.Finish? || op.Cancel?
    requires op.id in s.tasks
    ensures var after := Do(s, policy, op); var task := s.tasks[op.id];
      var moves := if op.Finish? then HoldsLease(task, op.lease) && op.to in {Done, Failed, Blocked}
                   else task.status !in {Done, Cancelled, Archived};
      && after.issued == s.issued && after.tasks.Keys == s.tasks.Keys
      && (forall other :: other in s.tasks && other != op.id ==> after.tasks[other] == s.tasks[other])
      && (!moves ==> after == s)
      && (moves ==>
            && after.tasks[op.id].status == (if op.Finish? then op.to else Cancelled)
            && after.tasks[op.id].claim.None? && after.tasks[op.id].version == task.version + 1)
  {
    var to := if op.Finish? then op.to else Cancelled;
    EnteredFrom(s.tasks[op.id].status, to);
    hide AllowedTransitions;
  }
}
