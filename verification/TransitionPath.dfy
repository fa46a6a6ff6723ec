/**
 * The breadth-first search for the shortest legal hop sequence between two task statuses, for any
 * transition table over a finite set of statuses.
 */
module TransitionPath {
  import opened Options

  /** The table of legal hops, the statuses no path may stand on between its ends, and the two ends. */
  datatype Problem<!S> = Problem(table: map<S, seq<S>>, barred: set<S>, from: S, to: S)

  /** Every status has an entry, and hops stay in the table. */
  predicate Total<S>(table: map<S, seq<S>>) {
    forall s, k :: s in table && 0 <= k < |table[s]| ==> table[s][k] in table
  }

  predicate Hop<S(==)>(p: Problem<S>, a: S, b: S) {
    a in p.table && b in p.table[a]
  }

  /** A walk along legal hops; the first element is where it starts. */
  predicate Walk<S(==)>(p: Problem<S>, walk: seq<S>) {
    |walk| > 0 && walk[0] in p.table && forall i :: 0 <= i < |walk| - 1 ==> Hop(p, walk[i], walk[i + 1])
  }

  /** A walk that, after its start, never stands on a barred status or on the goal. */
  predicate Open<S(==)>(p: Problem<S>, walk: seq<S>) {
    Walk(p, walk) && walk[0] == p.from
    && forall i :: 1 <= i < |walk| ==> walk[i] != p.to && (walk[i] !in p.barred || walk[i] == p.from)
  }

  /** What a caller may do: legal hops from `from` to `to`, with no barred status on the way. */
  predicate Permitted<S(==)>(p: Problem<S>, hops: seq<S>) {
    && |hops| > 0 && hops[|hops| - 1] == p.to
    && Walk(p, [p.from] + hops)
    && forall i :: 0 <= i < |hops| - 1 ==> hops[i] !in p.barred || hops[i] == p.from
  }

  /* ---------- the state of the search ---------- */

  /**
   * The statuses met so far with the path each was met by, those whose hops are all explored, and the
   * length of the path taken from the queue last.
   */
  datatype Search<!S> = Search(seen: set<S>, done: set<S>, paths: map<S, seq<S>>, length: nat)

  ghost predicate PathsOk<S(!new)>(p: Problem<S>, x: Search<S>) {
    && p.from in x.seen && p.to !in x.seen && x.done <= x.seen
    && x.paths.Keys == x.seen && x.seen <= p.table.Keys && x.paths[p.from] == [p.from]
    && forall s :: s in x.seen ==>
         && Open(p, x.paths[s]) && EndsAt(x.paths[s], s)
         && forall i :: 1 <= i < |x.paths[s]| ==> x.paths[s][i] != p.from
  }

  predicate EndsAt<S(==)>(path: seq<S>, s: S) { |path| > 0 && path[|path| - 1] == s }

  /** The queued paths, each to its own status, at least as long as the one in hand and at most one longer. */
  ghost predicate QueueOk<S(!new)>(x: Search<S>, hand: set<S>, queue: seq<seq<S>>) {
    && KnownOk(x, hand) && EachQueued(x, hand, queue) && InOrder(queue)
    && (forall s :: s in x.seen ==> s in x.done || s in hand || x.paths[s] in queue)
  }

  ghost predicate KnownOk<S(!new)>(x: Search<S>, hand: set<S>) {
    && x.paths.Keys == x.seen && x.done <= x.seen
    && (forall s :: s in x.seen ==> EndsAt(x.paths[s], s))
    && (forall s :: s in x.done ==> |x.paths[s]| <= x.length)
    && (forall s :: s in hand ==> s in x.seen && s !in x.done && |x.paths[s]| == x.length)
  }

  ghost predicate EachQueued<S(!new)>(x: Search<S>, hand: set<S>, queue: seq<seq<S>>)
    requires x.paths.Keys == x.seen
  {
    forall i :: 0 <= i < |queue| ==>
      && |queue[i]| > 0 && queue[i][|queue[i]| - 1] in x.seen
      && queue[i][|queue[i]| - 1] !in x.done && queue[i][|queue[i]| - 1] !in hand
      && queue[i] == x.paths[queue[i][|queue[i]| - 1]]
      && x.length <= |queue[i]| <= x.length + 1
  }

  ghost predicate InOrder<S(!new)>(queue: seq<seq<S>>) {
    forall i, j :: 0 <= i < j < |queue| ==> |queue[i]| <= |queue[j]| && queue[i] != queue[j]
  }

  ghost predicate Queued<S(!new)>(p: Problem<S>, x: Search<S>, hand: set<S>, queue: seq<seq<S>>) {
    PathsOk(p, x) && QueueOk(x, hand, queue)
  }

  /** A hop leads to a status already seen, one step further at most, or to one that is barred; never to the goal. */
  ghost predicate Covered<S>(p: Problem<S>, x: Search<S>, s: S, n: S) {
    && n != p.to && s in x.paths && (n in x.paths || (n in p.barred && n != p.from))
    && (n in x.paths ==> |x.paths[n]| <= |x.paths[s]| + 1)
  }

  ghost predicate AllCovered<S>(p: Problem<S>, x: Search<S>, s: S, hops: seq<S>) {
    forall i :: 0 <= i < |hops| ==> Covered(p, x, s, hops[i])
  }

  ghost predicate Expanded<S(!new)>(p: Problem<S>, x: Search<S>) {
    forall s, n :: s in x.done && Hop(p, s, n) ==> Covered(p, x, s, n)
  }

  /** A walk shorter than everything not yet done ends on a status that is done, by a path no longer. */
  lemma {:induction false} ShortWalksAreDone<S(!new)>(
    p: Problem<S>, x: Search<S>, hand: set<S>, queue: seq<seq<S>>, walk: seq<S>)
    requires Queued(p, x, hand, queue) && Expanded(p, x) && Open(p, walk) && p.from != p.to
    requires |walk| < x.length || x.seen == x.done
    ensures var last := walk[|walk| - 1]; last in x.done && |x.paths[last]| <= |walk|
  {
    var last := walk[|walk| - 1];
    if |walk| == 1 {
      NotDoneIsLong(p, x, hand, queue, p.from);
    } else {
      var shorter := walk[..|walk| - 1];
      assert Open(p, shorter);
      ShortWalksAreDone(p, x, hand, queue, shorter);
      var previous := shorter[|shorter| - 1];
      assert Hop(p, previous, walk[|walk| - 2 + 1]);
      assert Covered(p, x, previous, last);
      NotDoneIsLong(p, x, hand, queue, last);
    }
  }

  lemma NotDoneIsLong<S(!new)>(p: Problem<S>, x: Search<S>, hand: set<S>, queue: seq<seq<S>>, s: S)
    requires Queued(p, x, hand, queue) && s in x.seen
    ensures s in x.done || |x.paths[s]| >= x.length
  {
  }

  /* ---------- the search ---------- */

  /**
   * The shortest hop sequence, excluding `from` and including `to`: legal, free of barred statuses on the
   * way, no longer than any permitted one, and missing only when no permitted one exists.
   */
  method ShortestTransitionPath<S(==, !new)>(p: Problem<S>) returns (path: Option<seq<S>>)
    requires Total(p.table) && p.from in p.table && p.to in p.table
    ensures p.from == p.to ==> path == Some([])
    ensures p.from != p.to && path.Some? ==> Shortest(p, path.value)
    ensures path.None? ==> forall hops :: !Permitted(p, hops)
  {
    if p.from == p.to {
      return Some([]);
    }
    var queue, seen := [[p.from]], {p.from};
    ghost var x := Search({p.from}, {}, map[p.from := [p.from]], 1);
    Start(p);
    hide Queued, Expanded, Permitted, Covered, Shortest;
    while queue != []
      invariant Queued(p, x, {}, queue) && Expanded(p, x) && x.seen == seen
      decreases p.table.Keys - seen, |queue|
    {
      ghost var before := x;
      Dequeue(p, x, queue);
      var head := queue[0];
      x := x.(length := |head|);
      path, queue, seen, x := Explore(p, head, queue[1..], seen, x);
      if path.Some? {
        return;
      }
      assert before.seen <= x.seen <= p.table.Keys by { SeenInTable(p, x, queue); }
    }
    Exhausted(p, x);
    return None;
  }

  /** The inner loop: follows every hop of the status at the end of `head`. */
  method Explore<S(==, !new)>(
    p: Problem<S>, head: seq<S>, rest: seq<seq<S>>, known: set<S>, ghost was: Search<S>)
    returns (path: Option<seq<S>>, queue: seq<seq<S>>, seen: set<S>, ghost x: Search<S>)
    requires Total(p.table) && p.from != p.to && |head| > 0 && head[|head| - 1] in p.table && known == was.seen
    requires Queued(p, was, {head[|head| - 1]}, rest) && Expanded(p, was)
    requires head[|head| - 1] in was.seen && was.paths[head[|head| - 1]] == head
    ensures path.Some? ==> Shortest(p, path.value)
    ensures path.None? ==> Queued(p, x, {}, queue) && Expanded(p, x) && x.seen == seen
    ensures known < seen || (known == seen && queue == rest)
  {
    hide Queued, Expanded, Permitted, Covered, Shortest, AllCovered;
    var last := head[|head| - 1];
    queue, seen, x := rest, known, was;
    NoneCovered(p, x, last);
    PathsOfSeen(p, x, {last}, queue);
    for k := 0 to |p.table[last]|
      invariant Queued(p, x, {last}, queue) && Expanded(p, x) && x.seen == seen
      invariant last in seen && last in x.paths && x.paths[last] == head
      invariant AllCovered(p, x, last, p.table[last][..k])
      invariant known < seen || (known == seen && queue == rest)
    {
      var next := p.table[last][k];
      assert p.table[last][..k + 1] == p.table[last][..k] + [next];
      if next in seen {
        CoveredNow(p, x, queue, last, next, p.table[last][..k]);
        continue;
      }
      if next != p.to && next != p.from && next in p.barred {
        CoveredNow(p, x, queue, last, next, p.table[last][..k]);
        continue;
      }
      var extended := head + [next];
      if next == p.to {
        Found(p, x, queue, last);
        return Some(extended[1..]), queue, seen, x;
      }
      Enqueue(p, x, last, queue, next, p.table[last][..k]);
      seen := seen + {next};
      queue := queue + [extended];
      x := Meet(x, next, extended);
    }
    assert p.table[last][..|p.table[last]|] == p.table[last];
    Finish(p, x, last, queue);
    x := x.(done := x.done + {last});
    return None, queue, seen, x;
  }

  ghost predicate Shortest<S(!new)>(p: Problem<S>, hops: seq<S>) {
    && Permitted(p, hops)
    && (forall i :: 0 <= i < |hops| - 1 ==> hops[i] !in p.barred)
    && (forall other :: Permitted(p, other) ==> |hops| <= |other|)
  }

  function Meet<S>(x: Search<S>, s: S, path: seq<S>): Search<S> {
    x.(seen := x.seen + {s}, paths := x.paths[s := path])
  }

  lemma Start<S(!new)>(p: Problem<S>)
    requires p.from in p.table && p.from != p.to
    ensures var x := Search({p.from}, {}, map[p.from := [p.from]], 1); Queued(p, x, {}, [[p.from]]) && Expanded(p, x)
  {
    assert [[p.from]][0] == [p.from];
  }

  lemma SeenInTable<S(!new)>(p: Problem<S>, x: Search<S>, queue: seq<seq<S>>)
    requires Queued(p, x, {}, queue)
    ensures x.seen <= p.table.Keys
  {
  }

  /** Taking the head of the queue in hand: everything done is no longer, everything left no shorter. */
  lemma Dequeue<S(!new)>(p: Problem<S>, x: Search<S>, queue: seq<seq<S>>)
    requires Queued(p, x, {}, queue) && Expanded(p, x) && queue != []
    ensures |queue[0]| > 0
    ensures var last, y := queue[0][|queue[0]| - 1], x.(length := |queue[0]|);
      && Queued(p, y, {last}, queue[1..]) && Expanded(p, y)
      && last in x.seen && last in p.table && last in x.paths && x.paths[last] == queue[0]
  {
    LengthIsNoMatter(p, x, |queue[0]|);
    DequeueQueue(x, queue);
    hide Expanded, Open, QueueOk;
  }

  lemma DequeueQueue<S(!new)>(x: Search<S>, queue: seq<seq<S>>)
    requires QueueOk(x, {}, queue) && queue != []
    ensures |queue[0]| > 0
    ensures var last := queue[0][|queue[0]| - 1];
      QueueOk(x.(length := |queue[0]|), {last}, queue[1..]) && last in x.seen && x.paths[last] == queue[0]
  {
    var last := queue[0][|queue[0]| - 1];
    var y, rest := x.(length := |queue[0]|), queue[1..];
    assert EndsAt(x.paths[last], last) && x.paths[last] == queue[0];
    hide EndsAt;
    forall i | 0 <= i < |rest| ensures rest[i] == queue[i + 1] && rest[i][|rest[i]| - 1] != last {
      assert queue[0] != queue[i + 1];
    }
    forall s | s in x.seen && s !in x.done && s != last ensures x.paths[s] in rest {
      assert EndsAt(x.paths[s], s) && x.paths[s] in queue && x.paths[s] != queue[0];
    }
  }

  lemma LengthIsNoMatter<S(!new)>(p: Problem<S>, x: Search<S>, length: nat)
    requires Expanded(p, x)
    ensures Expanded(p, x.(length := length))
  {
    forall s, n | s in x.done && Hop(p, s, n) ensures Covered(p, x.(length := length), s, n) {
      assert Covered(p, x, s, n);
    }
  }

  lemma PathsOfSeen<S(!new)>(p: Problem<S>, x: Search<S>, hand: set<S>, queue: seq<seq<S>>)
    requires Queued(p, x, hand, queue)
    ensures x.paths.Keys == x.seen
  {
  }

  lemma NoneCovered<S(!new)>(p: Problem<S>, x: Search<S>, s: S)
    ensures AllCovered(p, x, s, [])
  {
  }

  lemma CoveredNow<S(!new)>(p: Problem<S>, x: Search<S>, queue: seq<seq<S>>, last: S, next: S, hops: seq<S>)
    requires Queued(p, x, {last}, queue) && AllCovered(p, x, last, hops)
    requires next in x.seen || (next != p.to && next != p.from && next in p.barred)
    ensures AllCovered(p, x, last, hops + [next])
  {
    assert last in {last};
  }

  lemma Enqueue<S(!new)>(p: Problem<S>, x: Search<S>, last: S, queue: seq<seq<S>>, next: S, hops: seq<S>)
    requires Queued(p, x, {last}, queue) && Expanded(p, x) && AllCovered(p, x, last, hops)
    requires last in x.seen && last in x.paths && next !in x.seen && next != p.to && next in p.table
    requires Hop(p, last, next) && (next !in p.barred || next == p.from)
    ensures var extended := x.paths[last] + [next]; var y := Meet(x, next, extended);
      Queued(p, y, {last}, queue + [extended]) && Expanded(p, y) && AllCovered(p, y, last, hops + [next])
  {
    var extended := x.paths[last] + [next];
    var y := Meet(x, next, extended);
    assert last in {last};
    assert Open(p, extended);
    assert PathsOk(p, y);
    hide Open, PathsOk;
    EnqueueCovers(p, x, last, next, extended, hops);
    hide Expanded, AllCovered;
    EnqueueQueue(x, last, queue, next, extended);
    hide QueueOk;
  }

  lemma EnqueueQueue<S(!new)>(x: Search<S>, last: S, queue: seq<seq<S>>, next: S, path: seq<S>)
    requires QueueOk(x, {last}, queue) && next !in x.seen && last in x.seen
    requires |path| == |x.paths[last]| + 1 && path[|path| - 1] == next
    ensures QueueOk(Meet(x, next, path), {last}, queue + [path])
  {
    var y, longer := Meet(x, next, path), queue + [path];
    assert last in {last};
    EnqueueInOrder(x, {last}, queue, next, path);
    EnqueueEach(x, {last}, queue, next, path);
    hide InOrder, EachQueued;
    forall s | s in x.seen && s !in x.done && s != last ensures y.paths[s] in longer {
      assert x.paths[s] in queue;
    }
    assert longer[|queue|] == path;
  }

  lemma EnqueueInOrder<S(!new)>(x: Search<S>, hand: set<S>, queue: seq<seq<S>>, next: S, path: seq<S>)
    requires x.paths.Keys == x.seen && EachQueued(x, hand, queue) && InOrder(queue) && next !in x.seen
    requires |path| == x.length + 1 && path[|path| - 1] == next
    ensures InOrder(queue + [path])
  {
    forall i | 0 <= i < |queue| ensures queue[i] != path && |queue[i]| <= |path| {
      assert queue[i][|queue[i]| - 1] in x.seen;
    }
  }

  lemma EnqueueEach<S(!new)>(x: Search<S>, hand: set<S>, queue: seq<seq<S>>, next: S, path: seq<S>)
    requires x.paths.Keys == x.seen && EachQueued(x, hand, queue) && next !in x.seen && x.done <= x.seen
    requires hand <= x.seen
    requires |path| == x.length + 1 && path[|path| - 1] == next
    ensures EachQueued(Meet(x, next, path), hand, queue + [path])
  {
  }

  lemma EnqueueCovers<S(!new)>(p: Problem<S>, x: Search<S>, last: S, next: S, path: seq<S>, hops: seq<S>)
    requires Expanded(p, x) && AllCovered(p, x, last, hops) && x.paths.Keys == x.seen && x.done <= x.seen
    requires last in x.seen && next !in x.seen && next != p.to && |path| == |x.paths[last]| + 1
    requires next !in p.barred || next == p.from
    ensures Expanded(p, Meet(x, next, path)) && AllCovered(p, Meet(x, next, path), last, hops + [next])
  {
    var y := Meet(x, next, path);
    forall s, n | s in x.done && Hop(p, s, n) ensures Covered(p, y, s, n) {
      assert Covered(p, x, s, n);
    }
  }

  lemma Finish<S(!new)>(p: Problem<S>, x: Search<S>, last: S, queue: seq<seq<S>>)
    requires Queued(p, x, {last}, queue) && Expanded(p, x)
    requires last in p.table && AllCovered(p, x, last, p.table[last])
    ensures var y := x.(done := x.done + {last}); Queued(p, y, {}, queue) && Expanded(p, y)
  {
    var y := x.(done := x.done + {last});
    assert last in {last};
    assert forall s, n :: Covered(p, x, s, n) ==> Covered(p, y, s, n);
  }

  /** A permitted path arrives at the goal for the first time after an open walk that is no longer. */
  lemma FirstArrival<S(!new)>(p: Problem<S>, hops: seq<S>) returns (walk: seq<S>)
    requires Permitted(p, hops) && p.from != p.to
    ensures Open(p, walk) && Hop(p, walk[|walk| - 1], p.to) && |walk| <= |hops|
  {
    var n := 0;
    while hops[n] != p.to
      invariant n < |hops| && forall i :: 0 <= i < n ==> hops[i] != p.to
      decreases |hops| - n
    {
      n := n + 1;
    }
    var all := [p.from] + hops;
    walk := all[..n + 1];
    forall i | 0 <= i < n ensures Hop(p, walk[i], walk[i + 1]) {
      assert Hop(p, all[i], all[i + 1]);
    }
    assert Hop(p, all[n], all[n + 1]);
  }

  /** When a hop of the status in hand reaches the goal, its path and that hop are the answer. */
  lemma Found<S(!new)>(p: Problem<S>, x: Search<S>, queue: seq<seq<S>>, last: S)
    requires Queued(p, x, {last}, queue) && Expanded(p, x)
    requires p.from != p.to && last in x.seen && last in x.paths && Hop(p, last, p.to)
    ensures Shortest(p, (x.paths[last] + [p.to])[1..])
  {
    FoundIsPermitted(p, x, queue, last);
    assert last in {last};
    var hops := (x.paths[last] + [p.to])[1..];
    hide Permitted;
    forall other | Permitted(p, other) ensures |hops| <= |other| {
      var walk := FirstArrival(p, other);
      var end := walk[|walk| - 1];
      assert end in x.done ==> !Hop(p, end, p.to);
      if |walk| < x.length {
        ShortWalksAreDone(p, x, {last}, queue, walk);
      }
    }
  }

  /** The path in hand, with the goal at its end, is a permitted one, and as long as the search has come. */
  lemma FoundIsPermitted<S(!new)>(p: Problem<S>, x: Search<S>, queue: seq<seq<S>>, last: S)
    requires Queued(p, x, {last}, queue)
    requires p.from != p.to && last in x.seen && last in x.paths && Hop(p, last, p.to)
    ensures var hops := (x.paths[last] + [p.to])[1..];
      && |hops| == |x.paths[last]| == x.length && Permitted(p, hops)
      && forall i :: 0 <= i < |hops| - 1 ==> hops[i] !in p.barred
  {
    assert last in {last};
    var hops := (x.paths[last] + [p.to])[1..];
    assert [p.from] + hops == x.paths[last] + [p.to];
  }

  lemma Exhausted<S(!new)>(p: Problem<S>, x: Search<S>)
    requires Queued(p, x, {}, []) && Expanded(p, x) && p.from != p.to
    ensures forall hops :: !Permitted(p, hops)
  {
    assert x.seen == x.done;
    forall hops ensures !Permitted(p, hops) {
      if Permitted(p, hops) {
        var walk := FirstArrival(p, hops);
        ShortWalksAreDone(p, x, {}, [], walk);
      }
    }
  }
}
