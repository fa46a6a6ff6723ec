/**
 * The dispatcher as an object: its scans over the tasks and its loops, each operation against the step it takes.
 */
module KanbanDispatcher {
  import opened Options
  import opened KanbanTask
  import opened DispatchSteps

  /** The ids of the listed tasks, in queue order, each once. */
  ghost predicate Listed(tasks: map<string, Task>, wanted: set<string>, list: seq<string>) {
    && (forall id :: id in list <==> id in wanted) && wanted <= tasks.Keys
    && (forall i, j :: 0 <= i < j < |list| ==> list[i] != list[j] && AtMost(tasks[list[i]], tasks[list[j]]))
  }

  predicate Ascending(tasks: map<string, Task>, list: seq<string>) {
    && (forall i :: 0 <= i < |list| ==> list[i] in tasks)
    && (forall i, j :: 0 <= i < j < |list| ==> AtMost(tasks[list[i]], tasks[list[j]]))
  }

  lemma AtMostIsTransitive(a: Task, b: Task, c: Task)
    requires AtMost(a, b) && AtMost(b, c)
    ensures AtMost(a, c)
  {
  }

  lemma AtMostIsTotal(a: Task, b: Task)
    ensures AtMost(a, b) || AtMost(b, a)
  {
  }

  /** Where a task goes in a sorted list: after all that come before it. */
  method Insert(tasks: map<string, Task>, ghost wanted: set<string>, list: seq<string>, id: string)
    returns (r: seq<string>)
    requires Listed(tasks, wanted, list) && id in tasks && id !in wanted
    ensures Listed(tasks, wanted + {id}, r)
  {
    hide AtMost;
    var n := |list|;
    while n > 0 && !AtMost(tasks[list[n - 1]], tasks[id])
      invariant 0 <= n <= |list|
      invariant forall j :: n <= j < |list| ==> AtMost(tasks[id], tasks[list[j]])
    {
      AtMostIsTotal(tasks[list[n - 1]], tasks[id]);
      n := n - 1;
    }
    forall i | 0 <= i < n ensures AtMost(tasks[list[i]], tasks[id]) {
      if i < n - 1 { AtMostIsTransitive(tasks[list[i]], tasks[list[n - 1]], tasks[id]); }
    }
    r := list[..n] + [id] + list[n..];
    InsertedAt(list, n, id);
    forall i, j | 0 <= i < j < |r| ensures r[i] != r[j] && AtMost(tasks[r[i]], tasks[r[j]]) {
      assert list[..n] + list[n..] == list;
    }
  }

  lemma InsertedAt(list: seq<string>, n: nat, id: string)
    requires n <= |list|
    ensures forall x :: x in list[..n] + [id] + list[n..] <==> x in list || x == id
  {
    assert list == list[..n] + list[n..];
  }

  class KanbanDispatcher {
    const policy: Policy
    var tasks: map<string, Task>
    ghost var issued: set<nat>

    constructor (policy: Policy, tasks: map<string, Task>)
      ensures this.policy == policy && this.tasks == tasks && issued == {}
    {
      this.policy, this.tasks, issued := policy, tasks, {};
    }

    ghost function Abs(): System
      reads this
    {
      System(tasks, issued)
    }

    ghost function WithStatus(status: Status): set<string>
      reads this
    {
      set id | id in tasks && tasks[id].status == status
    }

    /** The tasks of one status, sorted. */
    method List(status: Status) returns (list: seq<string>)
      ensures Listed(tasks, WithStatus(status), list)
    {
      hide AtMost;
      list := [];
      var rest := tasks.Keys;
      ghost var done: set<string> := {};
      while rest != {}
        invariant rest <= tasks.Keys && done <= tasks.Keys
        invariant forall id :: id in done <==> id in WithStatus(status) && id !in rest
        invariant Listed(tasks, done, list)
        decreases rest
      {
        var id :| id in rest;
        rest := rest - {id};
        if tasks[id].status == status {
          list := Insert(tasks, done, list, id);
          done := done + {id};
        }
      }
      assert done == WithStatus(status);
    }

    /** Ready tasks that are due and have their blocking dependencies satisfied, in queue order. */
    method ReadyTasks(now: int) returns (ready: seq<string>)
      ensures forall id :: id in ready <==> Runnable(tasks, id, now)
      ensures Ascending(tasks, ready)
    {
      hide AtMost, DependenciesSatisfied;
      var list := List(Ready);
      ready := [];
      for n := 0 to |list|
        invariant forall id :: id in ready <==> id in list[..n] && Runnable(tasks, id, now)
        invariant forall i :: 0 <= i < |ready| ==> ready[i] in list[..n]
        invariant Ascending(tasks, ready)
      {
        assert list[..n + 1] == list[..n] + [list[n]];
        assert list[n] in list;
        var satisfied := AllSatisfied(tasks[list[n]]);
        if Due(tasks[list[n]], now) && satisfied {
          ready := ready + [list[n]];
        }
      }
      assert list[..|list|] == list;
    }

    method AllSatisfied(task: Task) returns (satisfied: bool)
      ensures satisfied <==> DependenciesSatisfied(tasks, task)
    {
      for k := 0 to |task.dependencies|
        invariant forall j :: 0 <= j < k ==> Satisfied(tasks, task.dependencies[j])
      {
        if !Satisfied(tasks, task.dependencies[k]) {
          return false;
        }
      }
      return true;
    }

    /** Counts what the worker already runs. */
    method CheckCapacity(worker: string) returns (free: bool)
      ensures free <==> HasCapacity(tasks, worker, policy.maxConcurrent)
    {
      hide AtMost;
      if policy.maxConcurrent <= 0 {
        return true;
      }
      var running := List(Running);
      var mine: set<string> := {};
      for n := 0 to |running|
        invariant forall id :: id in mine <==> id in running[..n] && HeldBy(tasks[id], worker)
        invariant mine <= tasks.Keys
      {
        assert running[..n + 1] == running[..n] + [running[n]];
        assert running[n] in running;
        if tasks[running[n]].claim.Some? && tasks[running[n]].claim.value.claimant == worker {
          mine := mine + {running[n]};
        }
      }
      assert running[..|running|] == running;
      assert mine == RunningOf(tasks, worker);
      return |mine| < policy.maxConcurrent;
    }

    /** Claims the first runnable task, when there is one and the worker has room. */
    method ClaimNext(worker: string, lease: nat, now: int) returns (claimed: Option<string>)
      requires lease !in issued
      modifies this
      ensures claimed.Some? ==>
        && IsNext(old(tasks), claimed.value, now)
        && Abs() == Do(old(Abs()), policy, Op.ClaimNext(worker, claimed.value, lease, now))
      ensures claimed.None? ==> Abs() == old(Abs())
      ensures claimed.None? <==>
        !HasCapacity(old(tasks), worker, policy.maxConcurrent) || forall id :: !Runnable(old(tasks), id, now)
    {
      hide AtMost, DependenciesSatisfied, Prepare;
      var free := CheckCapacity(worker);
      if !free {
        return None;
      }
      var ready := ReadyTasks(now);
      if |ready| == 0 {
        return None;
      }
      FirstIsNext(tasks, ready, now);
      tasks := Moved(tasks, ready[0], Running, Some(NewClaim(worker, lease, now, policy)), now);
      issued := issued + {lease};
      return Some(ready[0]);
    }

    /** Renews a lease the caller still holds. */
    method Heartbeat(id: string, lease: nat, now: int) returns (r: Option<Error>)
      modifies this
      ensures Abs() == Do(old(Abs()), policy, Op.Heartbeat(id, lease, now))
      ensures r.None? <==> id in old(tasks) && HoldsLease(old(tasks)[id], lease)
    {
      if id !in tasks {
        return Some(NotFound);
      }
      var p := Prepare(tasks[id], RenewLease(lease, now + policy.leaseDuration), 0, now);
      if p.Rejected? {
        return Some(p.error);
      }
      tasks := tasks[id := p.write.next];
      return None;
    }

    /** Completes, fails or blocks a task on behalf of the worker that holds its lease. */
    method Finish(id: string, lease: nat, to: Status, now: int) returns (r: Option<Error>)
      requires to in {Done, Failed, Blocked}
      modifies this
      ensures Abs() == Do(old(Abs()), policy, Op.Finish(id, lease, to, now))
      ensures r ==
        if id !in old(tasks) then Some(NotFound)
        else if HoldsLease(old(tasks)[id], lease) then None
        else Some(LeaseLost)
      ensures r.None? ==> tasks[id].status == to && tasks[id].claim.None?
    {
      if id !in tasks {
        return Some(NotFound);
      }
      if !HoldsLease(tasks[id], lease) {
        return Some(LeaseLost);
      }
      assert CanTransition(Running, to);
      tasks := Moved(tasks, id, to, None, now);
      return None;
    }

    /** Releases every running task whose lease has lapsed. */
    method ReclaimExpired(now: int) returns (reclaimed: seq<string>)
      modifies this
      ensures forall id :: id in reclaimed <==> Expired(old(tasks), id, now)
      ensures tasks.Keys == old(tasks).Keys && issued == old(issued)
      ensures forall id :: id in tasks ==>
        tasks[id] == Reclaimed(old(tasks), id, now, true)
    {
      hide AtMost, ApplyTransition;
      ghost var before := tasks;
      var running := List(Running);
      reclaimed := [];
      for n := 0 to |running|
        invariant tasks.Keys == before.Keys && issued == old(issued)
        invariant forall id :: id in reclaimed <==> id in running[..n] && Expired(before, id, now)
        invariant forall id :: id in tasks ==>
          tasks[id] == Reclaimed(before, id, now, id in running[..n])
      {
        var id := running[n];
        assert running[..n + 1] == running[..n] + [id];
        assert id in running && id !in running[..n];
        if tasks[id].claim.Some? && tasks[id].claim.value.expiresAt <= now {
          ReclaimMoves(tasks, id, now);
          tasks := Moved(tasks, id, Ready, None, now);
          reclaimed := reclaimed + [id];
        }
      }
      assert running[..|running|] == running;
    }
  }

  /** A task whose lease has lapsed goes back to ready once the scan has reached it. */
  function Reclaimed(tasks: map<string, Task>, id: string, now: int, reached: bool): Task
    requires id in tasks
  {
    if reached && Expired(tasks, id, now) then ApplyTransition(tasks[id], Ready, None, now) else tasks[id]
  }

  lemma FirstIsNext(tasks: map<string, Task>, ready: seq<string>, now: int)
    requires |ready| > 0 && forall id :: id in ready <==> Runnable(tasks, id, now)
    requires Ascending(tasks, ready)
    ensures IsNext(tasks, ready[0], now)
  {
    hide DependenciesSatisfied;
    assert ready[0] in ready;
    AtMostIsTotal(tasks[ready[0]], tasks[ready[0]]);
    forall other | Runnable(tasks, other, now) ensures AtMost(tasks[ready[0]], tasks[other]) {
      assert other in ready;
      var k :| 0 <= k < |ready| && ready[k] == other;
    }
  }

  lemma ReclaimMoves(tasks: map<string, Task>, id: string, now: int)
    requires id in tasks && tasks[id].status == Running
    ensures Moved(tasks, id, Ready, None, now) == tasks[id := ApplyTransition(tasks[id], Ready, None, now)]
  {
    assert CanTransition(Running, Ready);
  }
}
