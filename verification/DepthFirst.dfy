/** The order in which a depth-first search finishes the nodes of a graph. */
module DepthFirst {
  import opened Pieces

  /** The successors of every node, in order. */
  type Graph = map<string, seq<string>>

  /** The finished nodes after a visit: unless the node was finished before, those of its edges, then the node. */
  ghost predicate Visited(graph: Graph, id: string, before: seq<string>, after: seq<string>)
    decreases |after| - |before|, 0
  {
    if id in before then after == before
    else
      && id in graph && |before| < |after| && before <= after && after[|after| - 1] == id
      && VisitedAll(graph, graph[id], before, after[..|after| - 1])
  }

  /** The finished nodes after visits to some nodes, one after the other. */
  ghost predicate VisitedAll(graph: Graph, ids: seq<string>, before: seq<string>, after: seq<string>)
    decreases |after| - |before|, 2
  {
    before <= after
    && exists cuts :: Cuts(cuts, |ids|, |before|, |after|) && EachVisited(graph, ids, cuts, |before|, after)
  }

  ghost predicate EachVisited(graph: Graph, ids: seq<string>, cuts: seq<nat>, start: nat, after: seq<string>)
    requires start <= |after| && Cuts(cuts, |ids|, start, |after|)
    decreases |after| - start, 1
  {
    forall k :: 0 <= k < |ids| ==> Visited(graph, ids[k], after[..cuts[k]], after[..cuts[k + 1]])
  }

  /* ---------- one node after another ---------- */

  /** Visits to the first `n` nodes. */
  ghost predicate Growing(graph: Graph, ids: seq<string>, cuts: seq<nat>, start: nat, now: seq<string>, n: nat) {
    && n <= |ids| && start <= |now| && Cuts(cuts, n, start, |now|)
    && forall k :: 0 <= k < n ==> Visited(graph, ids[k], now[..cuts[k]], now[..cuts[k + 1]])
  }

  lemma StartsGrowing(graph: Graph, ids: seq<string>, now: seq<string>)
    ensures Growing(graph, ids, [|now|], |now|, now, 0)
  {
  }

  lemma GrowsOn(
    graph: Graph, ids: seq<string>, cuts: seq<nat>, start: nat, now: seq<string>, n: nat, longer: seq<string>)
    requires Growing(graph, ids, cuts, start, now, n) && n < |ids| && now <= longer
    requires Visited(graph, ids[n], now, longer)
    ensures Growing(graph, ids, cuts + [|longer|], start, longer, n + 1)
  {
    hide Visited;
    var more := cuts + [|longer|];
    forall k | 0 <= k < n + 1 ensures Visited(graph, ids[k], longer[..more[k]], longer[..more[k + 1]]) {
      if k < n {
        assert longer[..more[k]] == now[..cuts[k]] && longer[..more[k + 1]] == now[..cuts[k + 1]];
      } else {
        assert longer[..more[k]] == now && longer[..more[k + 1]] == longer;
      }
    }
  }

  lemma GrewUp(graph: Graph, ids: seq<string>, cuts: seq<nat>, before: seq<string>, now: seq<string>)
    requires Growing(graph, ids, cuts, |before|, now, |ids|) && before <= now
    ensures VisitedAll(graph, ids, before, now)
  {
    hide Visited;
    assert EachVisited(graph, ids, cuts, |before|, now);
  }

  lemma VisitedNode(graph: Graph, id: string, before: seq<string>, now: seq<string>)
    requires id in graph && id !in before && before <= now && VisitedAll(graph, graph[id], before, now)
    ensures Visited(graph, id, before, now + [id])
  {
    assert (now + [id])[..|now|] == now;
    hide VisitedAll;
  }

  lemma VisitedAlready(graph: Graph, id: string, now: seq<string>)
    ensures id in now ==> Visited(graph, id, now, now)
  {
  }

  lemma VisitedGrows(graph: Graph, id: string, before: seq<string>, after: seq<string>)
    requires Visited(graph, id, before, after)
    ensures before <= after
  {
  }

  /* ---------- there is but one ---------- */

  lemma {:induction false} VisitedOnce(graph: Graph, id: string, before: seq<string>, x: seq<string>, y: seq<string>)
    requires Visited(graph, id, before, x) && Visited(graph, id, before, y)
    ensures x == y
    decreases |x| - |before|, 0
  {
    if id !in before {
      AllVisitedOnce(graph, graph[id], before, x[..|x| - 1], y[..|y| - 1]);
      assert x == x[..|x| - 1] + [id] && y == y[..|y| - 1] + [id];
    }
  }

  /** The order is determined by the graph, and by the order of the nodes and of their edges. */
  lemma {:induction false} AllVisitedOnce(
    graph: Graph, ids: seq<string>, before: seq<string>, x: seq<string>, y: seq<string>)
    requires VisitedAll(graph, ids, before, x) && VisitedAll(graph, ids, before, y)
    ensures x == y
    decreases |x| - |before|, 1
  {
    hide Visited;
    var a :| Cuts(a, |ids|, |before|, |x|) && EachVisited(graph, ids, a, |before|, x);
    var b :| Cuts(b, |ids|, |before|, |y|) && EachVisited(graph, ids, b, |before|, y);
    for k := 0 to |ids|
      invariant x[..a[k]] == y[..b[k]]
    {
      assert Visited(graph, ids[k], x[..a[k]], x[..a[k + 1]]);
      assert Visited(graph, ids[k], y[..b[k]], y[..b[k + 1]]);
      VisitedOnce(graph, ids[k], x[..a[k]], x[..a[k + 1]], y[..b[k + 1]]);
    }
    assert x[..|x|] == x && y[..|y|] == y;
  }
}
