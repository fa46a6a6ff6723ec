/**
 * The delegation supervisor: workers that share a cursor over the requests and a usage total. A run of the
 * supervisor is any interleaving of their steps, of failures, and of aborts.
 */
module Delegation {

  datatype Usage = Usage(tokens: int, cost: real, actions: int)

  datatype Outcome<O> = Outcome(output: O, usage: Usage)

  /** The limits are positive, and `maxConcurrency` need not be whole. */
  datatype Limits = Limits(
    maxDepth: int, maxConcurrency: real, maxChildren: int, maxTokens: int, maxCost: real, maxActions: int)

  predicate Positive(l: Limits) {
    && l.maxDepth > 0 && l.maxConcurrency > 0.0 && l.maxChildren > 0
    && l.maxTokens > 0 && l.maxCost > 0.0 && l.maxActions > 0
  }

  datatype Worker = Ready | Running(index: nat) | Returned | Threw

  /**
   * The shared cursor, usage total and results; the workers; whether the signal is aborted; the indexes handed
   * to the executor so far, and what it answered.
   */
  datatype State<O> = State(
    cursor: nat, usage: Usage, results: map<nat, Outcome<O>>, workers: seq<Worker>, aborted: bool,
    executed: seq<nat>, answers: map<nat, Outcome<O>>)

  datatype Op<O> =
    | Next(worker: nat)
    | Answer(worker: nat, outcome: Outcome<O>)
    | Reject(worker: nat)
    | Abort

  const NO_USAGE := Usage(0, 0.0, 0)

  function Add(a: Usage, b: Usage): Usage { Usage(a.tokens + b.tokens, a.cost + b.cost, a.actions + b.actions) }

  predicate Within(u: Usage, l: Limits) { u.tokens <= l.maxTokens && u.cost <= l.maxCost && u.actions <= l.maxActions }

  /** An array length of `min(n, maxConcurrency)` is rounded down. */
  function WorkerCount(n: nat, l: Limits): nat {
    if l.maxConcurrency < 0.0 then 0 else if n as real <= l.maxConcurrency then n else l.maxConcurrency.Floor
  }

  function Start<O>(n: nat, l: Limits): State<O> {
    State(0, NO_USAGE, map[], seq(WorkerCount(n, l), i => Ready), false, [], map[])
  }

  function Do<O>(s: State<O>, n: nat, l: Limits, op: Op<O>): State<O> {
    match op
    case Next(w) =>
      if w >= |s.workers| || s.workers[w] != Ready then s
      else if s.aborted then s.(workers := s.workers[w := Threw])
      else if s.cursor >= n then s.(workers := s.workers[w := Returned], cursor := s.cursor + 1)
      else s.(workers := s.workers[w := Running(s.cursor)], cursor := s.cursor + 1, executed := s.executed + [s.cursor])
    case Answer(w, outcome) =>
      if w >= |s.workers| || !s.workers[w].Running? then s
      else
        var index := s.workers[w].index;
        var t := s.(usage := Add(s.usage, outcome.usage), answers := s.answers[index := outcome]);
        if Within(t.usage, l) then t.(results := s.results[index := outcome], workers := s.workers[w := Ready])
        else t.(aborted := true, workers := s.workers[w := Threw])
    case Reject(w) =>
      if w >= |s.workers| || !s.workers[w].Running? then s else s.(workers := s.workers[w := Threw])
    case Abort => s.(aborted := true)
  }

  function Run<O>(n: nat, l: Limits, ops: seq<Op<O>>): State<O> {
    if ops == [] then Start(n, l) else Do(Run(n, l, ops[..|ops| - 1]), n, l, ops[|ops| - 1])
  }

  /** The usage of the answers below an index. */
  function Total<O>(answers: map<nat, Outcome<O>>, n: nat): Usage {
    if n == 0 then NO_USAGE
    else Add(Total(answers, n - 1), if n - 1 in answers then answers[n - 1].usage else NO_USAGE)
  }

  lemma {:induction false} TotalFrame<O>(a: map<nat, Outcome<O>>, b: map<nat, Outcome<O>>, n: nat)
    requires forall i: nat :: i < n ==> (i in a <==> i in b) && (i in a ==> a[i].usage == b[i].usage)
    ensures Total(a, n) == Total(b, n)
  {
    if n > 0 { TotalFrame(a, b, n - 1); }
  }

  lemma {:induction false} TotalAdds<O>(a: map<nat, Outcome<O>>, i: nat, outcome: Outcome<O>, n: nat)
    requires i < n && i !in a
    ensures Total(a[i := outcome], n) == Add(Total(a, n), outcome.usage)
  {
    if i == n - 1 {
      TotalFrame(a, a[i := outcome], n - 1);
    } else {
      TotalAdds(a, i, outcome, n - 1);
    }
  }

  function Least(a: nat, b: nat): nat { if a <= b then a else b }

  /** Who works on what: distinct indexes below the cursor, none of them answered. */
  ghost predicate WorkersOk<O>(s: State<O>, n: nat) {
    && (forall w :: 0 <= w < |s.workers| && s.workers[w].Running? ==>
          s.workers[w].index < Least(s.cursor, n) && s.workers[w].index !in s.answers)
    && (forall v, w :: 0 <= v < w < |s.workers| && s.workers[v].Running? && s.workers[w].Running? ==>
          s.workers[v].index != s.workers[w].index)
    && (forall w :: 0 <= w < |s.workers| && s.workers[w] == Returned ==> s.cursor >= n)
  }

  /** While no worker threw, every index handed out is answered or in work, and the results are the answers. */
  ghost predicate Accounted<O>(s: State<O>, n: nat, l: Limits) {
    NoneThrew(s.workers) ==>
      && Within(s.usage, l) && s.results == s.answers
      && forall i: nat :: i < Least(s.cursor, n) && i !in s.answers ==> InWork(s.workers, i)
  }

  predicate NoneThrew(workers: seq<Worker>) { forall w :: 0 <= w < |workers| ==> workers[w] != Threw }

  predicate InWork(workers: seq<Worker>, i: nat) {
    exists w :: 0 <= w < |workers| && workers[w] == Running(i)
  }

  ghost predicate Inv<O>(s: State<O>, n: nat, l: Limits) {
    && |s.workers| == WorkerCount(n, l)
    && |s.executed| == Least(s.cursor, n) && (forall k :: 0 <= k < |s.executed| ==> s.executed[k] == k)
    && (forall i :: i in s.answers ==> i < Least(s.cursor, n))
    && (forall i :: i in s.results ==> i in s.answers && s.results[i] == s.answers[i])
    && s.usage == Total(s.answers, n)
    && WorkersOk(s, n) && Accounted(s, n, l)
  }

  lemma {:induction false} StartIsOk<O>(n: nat, l: Limits)
    requires Positive(l)
    ensures Inv<O>(Start(n, l), n, l)
  {
    NothingUsed<O>(n);
  }

  lemma {:induction false} NothingUsed<O>(n: nat)
    ensures Total<O>(map[], n) == NO_USAGE
  {
    if n > 0 { NothingUsed<O>(n - 1); }
  }

  lemma StepKeepsInv<O>(s: State<O>, n: nat, l: Limits, op: Op<O>)
    requires Inv(s, n, l)
    ensures Inv(Do(s, n, l, op), n, l)
  {
    hide Total, Within, NoneThrew, InWork;
    match op
    case Next(w) => NextKeepsInv(s, n, l, w);
    case Answer(w, outcome) => AnswerKeepsInv(s, n, l, w, outcome);
    case Reject(w) =>
      if w < |s.workers| && s.workers[w].Running? {
        ThrewStays(s.workers, w, Threw);
      }
    case Abort =>
  }

  /** A worker moves on; whoever else was on an index still is. */
  lemma OthersStay(workers: seq<Worker>, w: nat, next: Worker, i: nat)
    requires w < |workers| && InWork(workers, i) && workers[w] != Running(i)
    ensures InWork(workers[w := next], i)
  {
    var v :| 0 <= v < |workers| && workers[v] == Running(i);
    assert workers[w := next][v] == Running(i);
  }

  lemma ThrewStays(workers: seq<Worker>, w: nat, next: Worker)
    requires w < |workers| && workers[w] != Threw
    ensures NoneThrew(workers[w := next]) <==> next != Threw && NoneThrew(workers)
  {
    assert workers[w := next][w] == next;
    forall v | 0 <= v < |workers| && v != w ensures workers[w := next][v] == workers[v] {
    }
  }

  lemma NextKeepsInv<O>(s: State<O>, n: nat, l: Limits, w: nat)
    requires Inv(s, n, l)
    ensures Inv(Do(s, n, l, Next(w)), n, l)
  {
    hide Total, Within, NoneThrew, InWork;
    if w < |s.workers| && s.workers[w] == Ready {
      var t := Do(s, n, l, Next(w));
      var next := t.workers[w];
      ThrewStays(s.workers, w, next);
      forall i: nat | InWork(s.workers, i) ensures InWork(t.workers, i) {
        OthersStay(s.workers, w, next, i);
      }
      if next.Running? { ItIsInWork(t.workers, w); }
    }
  }

  lemma ItIsInWork(workers: seq<Worker>, w: nat)
    requires w < |workers| && workers[w].Running?
    ensures InWork(workers, workers[w].index)
  {
  }

  lemma AnswerKeepsInv<O>(s: State<O>, n: nat, l: Limits, w: nat, outcome: Outcome<O>)
    requires Inv(s, n, l)
    ensures Inv(Do(s, n, l, Answer(w, outcome)), n, l)
  {
    hide Total, Within, WorkersOk, Accounted, NoneThrew, InWork;
    if w < |s.workers| && s.workers[w].Running? {
      AnswerWorkers(s, n, l, w, outcome);
      AnswerAccounted(s, n, l, w, outcome);
      AnswerTotals(s, n, w, outcome);
    }
  }

  lemma AnswerTotals<O>(s: State<O>, n: nat, w: nat, outcome: Outcome<O>)
    requires w < |s.workers| && s.workers[w].Running? && WorkersOk(s, n)
    ensures var i := s.workers[w].index;
      && Total(s.answers[i := outcome], n) == Add(Total(s.answers, n), outcome.usage)
      && i < Least(s.cursor, n) && i !in s.answers
  {
    hide Total;
    TotalAdds(s.answers, s.workers[w].index, outcome, n);
  }

  lemma AnswerWorkers<O>(s: State<O>, n: nat, l: Limits, w: nat, outcome: Outcome<O>)
    requires WorkersOk(s, n) && w < |s.workers| && s.workers[w].Running?
    ensures WorkersOk(Do(s, n, l, Answer(w, outcome)), n)
  {
    hide Within;
  }

  lemma AnswerAccounted<O>(s: State<O>, n: nat, l: Limits, w: nat, outcome: Outcome<O>)
    requires Accounted(s, n, l) && w < |s.workers| && s.workers[w].Running?
    ensures Accounted(Do(s, n, l, Answer(w, outcome)), n, l)
  {
    hide InWork, NoneThrew;
    var t, index := Do(s, n, l, Answer(w, outcome)), s.workers[w].index;
    ThrewStays(s.workers, w, t.workers[w]);
    forall i: nat | InWork(s.workers, i) && i != index ensures InWork(t.workers, i) {
      OthersStay(s.workers, w, t.workers[w], i);
    }
  }

  lemma {:induction false} RunKeepsInv<O>(n: nat, l: Limits, ops: seq<Op<O>>)
    requires Positive(l)
    ensures Inv(Run(n, l, ops), n, l)
  {
    if ops == [] {
      StartIsOk<O>(n, l);
    } else {
      RunKeepsInv(n, l, ops[..|ops| - 1]);
      StepKeepsInv(Run(n, l, ops[..|ops| - 1]), n, l, ops[|ops| - 1]);
    }
  }

  function InFlight(workers: seq<Worker>): nat {
    if workers == [] then 0
    else InFlight(workers[..|workers| - 1]) + if workers[|workers| - 1].Running? then 1 else 0
  }

  lemma {:induction false} InFlightBound(workers: seq<Worker>)
    ensures InFlight(workers) <= |workers|
  {
    if workers != [] { InFlightBound(workers[..|workers| - 1]); }
  }

  /** In every interleaving each request is handed out at most once, in order, and few are in flight at a time. */
  lemma AtMostOnceAndBounded<O>(n: nat, l: Limits, ops: seq<Op<O>>)
    requires Positive(l)
    ensures var s := Run(n, l, ops);
      && (forall j, k :: 0 <= j < k < |s.executed| ==> s.executed[j] < s.executed[k] < n)
      && InFlight(s.workers) as real <= l.maxConcurrency
  {
    RunKeepsInv(n, l, ops);
    InFlightBound(Run(n, l, ops).workers);
  }

  /** The run returns normally when every worker did. */
  predicate Done<O>(s: State<O>) { forall w :: 0 <= w < |s.workers| ==> s.workers[w] == Returned }

  /**
   * On a normal return there is at least one worker: then every request has the outcome it was answered with,
   * and their summed usage is within the limits.
   */
  lemma NormalReturn<O>(n: nat, l: Limits, ops: seq<Op<O>>)
    requires Positive(l) && Done(Run(n, l, ops)) && (n > 0 ==> l.maxConcurrency >= 1.0)
    ensures var s := Run(n, l, ops);
      && (forall i: nat :: i in s.results <==> i < n)
      && s.results == s.answers && s.usage == Total(s.results, n) && Within(s.usage, l)
      && |s.executed| == n
  {
    RunKeepsInv(n, l, ops);
    var s := Run(n, l, ops);
    hide Run, Total, Within;
    if n > 0 {
      assert s.workers[0] == Returned;
    }
    forall i: nat | i < n ensures i in s.answers {
      assert !InWork(s.workers, i);
    }
  }

  /**
   * A run with requests returns them all exactly when the concurrency limit is at least one; below one there
   * is no worker, and it returns at once with nothing executed.
   */
  lemma NoWorkerNoResult<O>(n: nat, l: Limits, ops: seq<Op<O>>)
    requires Positive(l) && Done(Run(n, l, ops))
    ensures (forall i: nat :: i < n ==> i in Run(n, l, ops).results) <==> n == 0 || l.maxConcurrency >= 1.0
  {
    if n == 0 || l.maxConcurrency >= 1.0 {
      NormalReturn(n, l, ops);
    } else {
      NothingRuns(n, l, ops);
      assert 0 !in Run(n, l, ops).results;
    }
  }

  lemma {:induction false} NothingRuns<O>(n: nat, l: Limits, ops: seq<Op<O>>)
    requires n > 0 && 0.0 < l.maxConcurrency < 1.0
    ensures var s := Run(n, l, ops); s.workers == [] && s.executed == [] && s.results == map[]
  {
    if ops != [] {
      NothingRuns(n, l, ops[..|ops| - 1]);
    }
  }

  /**
   * An answer adds to what was used; it is kept, and its worker goes on, exactly when no limit is passed, and
   * otherwise it is dropped, its worker fails, and everything is aborted. No other worker is touched.
   */
  lemma AnswerCounts<O>(s: State<O>, n: nat, l: Limits, w: nat, outcome: Outcome<O>)
    requires w < |s.workers| && s.workers[w].Running?
    ensures var t, index := Do(s, n, l, Answer(w, outcome)), s.workers[w].index;
      var fits := t.usage.tokens <= l.maxTokens && t.usage.cost <= l.maxCost && t.usage.actions <= l.maxActions;
      && t.usage.tokens == s.usage.tokens + outcome.usage.tokens && t.usage.cost == s.usage.cost + outcome.usage.cost
      && t.usage.actions == s.usage.actions + outcome.usage.actions
      && t.executed == s.executed && t.cursor == s.cursor && |t.workers| == |s.workers|
      && t.results == (if fits then s.results[index := outcome] else s.results)
      && t.workers[w] == (if fits then Ready else Threw) && (t.aborted <==> s.aborted || !fits)
      && forall v :: 0 <= v < |s.workers| && v != w ==> t.workers[v] == s.workers[v]
  {
  }

  /** As many workers as requests, but no more than the whole part of the limit. */
  lemma WorkersMean(n: nat, l: Limits)
    requires Positive(l)
    ensures var count := WorkerCount(n, l);
      count <= n && count as real <= l.maxConcurrency && (count == n || count as real + 1.0 > l.maxConcurrency)
  {
  }

  /** After an abort a worker that would take another request fails instead. */
  lemma AbortEnds<O>(s: State<O>, n: nat, l: Limits, w: nat)
    requires w < |s.workers| && s.workers[w] == Ready
    ensures var t := Do(Do(s, n, l, Abort), n, l, Next(w));
      t == s.(workers := s.workers[w := Threw], aborted := true)
  {
  }

  /** Once an answer has passed a limit, nothing more is handed out, whatever happens then. */
  lemma {:induction false} OverLimitStops<O>(
    n: nat, l: Limits, ops: seq<Op<O>>, w: nat, outcome: Outcome<O>, more: seq<Op<O>>)
    requires w < |Run(n, l, ops).workers| && Run(n, l, ops).workers[w].Running?
    requires !Within(Add(Run(n, l, ops).usage, outcome.usage), l)
    ensures var t := Run(n, l, ops + [Answer(w, outcome)] + more);
      t.aborted && t.executed == Run(n, l, ops).executed
  {
    var begun := ops + [Answer(w, outcome)];
    if more == [] {
      assert begun + more == begun && begun[..|begun| - 1] == ops;
      AnswerCounts(Run(n, l, ops), n, l, w, outcome);
    } else {
      var all := begun + more;
      OverLimitStops(n, l, ops, w, outcome, more[..|more| - 1]);
      assert all[..|all| - 1] == begun + more[..|more| - 1];
      AbortStops(Run(n, l, all[..|all| - 1]), n, l, all[|all| - 1]);
    }
    hide Do;
  }

  /** Once aborted, no further request is handed out. */
  lemma {:induction false} AbortStops<O>(s: State<O>, n: nat, l: Limits, op: Op<O>)
    requires s.aborted
    ensures Do(s, n, l, op).aborted && Do(s, n, l, op).executed == s.executed
  {
  }
}
