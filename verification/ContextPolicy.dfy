/**
 * The tool-result budget: old tool results are replaced by placeholders in what the model sees, oldest
 * first, until the rest fits. The wording of a placeholder is left out.
 */
module ContextPolicy {
  import opened Options
  import opened ThreadLog

  datatype Policy = Policy(budget: int, keepRecent: int)

  datatype Elision = Elision(messageIndex: nat, toolId: nat, originalTokens: nat, digest: string)

  const PLACEHOLDER := "[elided by context policy]"

  function Tokens(content: string): nat { (|content| + 3) / 4 }

  function TokensAt(h: seq<Message>, i: nat): nat
    requires i < |h|
  {
    Tokens(h[i].content)
  }

  /** The positions of the tool results among the first n messages, in order. */
  function ToolsUpto(h: seq<Message>, n: nat): (r: seq<nat>)
    requires n <= |h|
    ensures forall k :: 0 <= k < |r| ==> r[k] < n && h[r[k]].Tool?
  {
    if n == 0 then [] else ToolsUpto(h, n - 1) + if h[n - 1].Tool? then [n - 1] else []
  }

  lemma {:induction false} ToolsAreAll(h: seq<Message>, n: nat)
    requires n <= |h|
    ensures forall i :: 0 <= i < n && h[i].Tool? ==> i in ToolsUpto(h, n)
    ensures Ascending(ToolsUpto(h, n))
  {
    if n > 0 {
      ToolsAreAll(h, n - 1);
      var before := ToolsUpto(h, n - 1);
      forall i | 0 <= i < n && h[i].Tool? ensures i in ToolsUpto(h, n) {
        assert i == n - 1 || i in before;
      }
    }
  }

  /** What slice(-k) keeps of an array: its last k elements, but all of them for k = 0. */
  function SliceFromEnd<T>(s: seq<T>, k: int): seq<T> {
    if k > 0 then s[if k < |s| then |s| - k else 0..]
    else s[if -k < |s| then -k else |s|..]
  }

  /** The window holds the `k` most recent elements, bounded by what there is, unless k is 0 or little below it. */
  lemma WindowSize<T>(s: seq<T>, k: int)
    ensures |SliceFromEnd(s, k)| == (if k < 0 then 0 else if k <= |s| then k else |s|) <==> k > 0 || -k >= |s|
    ensures k == 0 ==> SliceFromEnd(s, k) == s
    ensures SliceFromEnd(s, k) == s[|s| - |SliceFromEnd(s, k)|..]
  {
  }

  predicate Protected(h: seq<Message>, policy: Policy, i: nat)
    requires i < |h| && h[i].Tool?
  {
    h[i].isError == Some(true) || i in SliceFromEnd(ToolsUpto(h, |h|), policy.keepRecent)
  }

  /** The tool results that may be elided, oldest first, among the first n of all. */
  function Candidates(h: seq<Message>, policy: Policy, tools: seq<nat>): (r: seq<nat>)
    requires forall k :: 0 <= k < |tools| ==> tools[k] < |h| && h[tools[k]].Tool?
    ensures forall k :: 0 <= k < |r| ==> r[k] < |h| && h[r[k]].Tool? && r[k] in tools && !Protected(h, policy, r[k])
  {
    if tools == [] then []
    else
      var last := tools[|tools| - 1];
      Candidates(h, policy, tools[..|tools| - 1]) + if Protected(h, policy, last) then [] else [last]
  }

  function Sum(h: seq<Message>, at: seq<nat>): nat
    requires forall k :: 0 <= k < |at| ==> at[k] < |h|
  {
    if at == [] then 0 else Sum(h, at[..|at| - 1]) + TokensAt(h, at[|at| - 1])
  }

  /** The tokens of the tool results that stay when these are elided. */
  function Remaining(h: seq<Message>, elided: seq<nat>): int
    requires forall k :: 0 <= k < |elided| ==> elided[k] < |h|
  {
    Sum(h, ToolsUpto(h, |h|)) - Sum(h, elided)
  }

  function Eligible(h: seq<Message>, policy: Policy): (r: seq<nat>)
    ensures forall k :: 0 <= k < |r| ==> r[k] < |h|
  {
    Candidates(h, policy, ToolsUpto(h, |h|))
  }

  /** The shortest oldest-first prefix of the eligible results that brings the rest within budget, or all. */
  ghost predicate Least(h: seq<Message>, policy: Policy, p: nat) {
    var c := Eligible(h, policy);
    && p <= |c|
    && (forall q: nat :: q < p ==> Remaining(h, c[..q]) > policy.budget)
    && (p < |c| ==> Remaining(h, c[..p]) <= policy.budget)
  }

  function ElisionOf(h: seq<Message>, i: nat): Elision
    requires i < |h| && h[i].Tool?
  {
    Elision(i, h[i].toolId, TokensAt(h, i), h[i].content)
  }

  function Folded(m: Message): Message {
    if m.Tool? then m.(content := PLACEHOLDER) else m
  }

  /** The view differs from the history in exactly the elided results, each replaced in place. */
  ghost predicate Projects(h: seq<Message>, elided: seq<nat>, view: seq<Message>, elisions: seq<Elision>) {
    && |view| == |h|
    && (forall i :: 0 <= i < |h| ==> view[i] == if i in elided then Folded(h[i]) else h[i])
    && |elisions| == |elided|
    && (forall k :: 0 <= k < |elided| ==>
          elided[k] < |h| && h[elided[k]].Tool? && elisions[k] == ElisionOf(h, elided[k]))
  }

  method ProjectHistory(h: seq<Message>, policy: Policy)
    returns (view: seq<Message>, elisions: seq<Elision>, ghost p: nat)
    ensures Least(h, policy, p)
    ensures Projects(h, Eligible(h, policy)[..p], view, elisions)
  {
    var tools := ToolIndexes(h);
    ToolsAreAll(h, |h|);
    if tools == [] {
      NothingElided(h);
      return h, [], 0;
    }
    var elide := Choose(h, policy, tools);
    p := |elide|;
    CandidatesAscend(h, policy, tools);
    hide Candidates, ToolsUpto, Remaining, Protected;
    if elide == [] {
      NothingElided(h);
      return h, [], 0;
    }
    view, elisions := Fold(h, elide);
  }

  method TotalTokens(h: seq<Message>, tools: seq<nat>) returns (total: nat)
    requires forall k :: 0 <= k < |tools| ==> tools[k] < |h|
    ensures total == Sum(h, tools)
  {
    total := 0;
    for k := 0 to |tools|
      invariant total == Sum(h, tools[..k])
    {
      assert tools[..k + 1][..k] == tools[..k];
      total := total + TokensAt(h, tools[k]);
    }
    assert tools[..|tools|] == tools;
  }

  /** Walks the results oldest first, taking each unprotected one while the rest is over budget. */
  method Choose(h: seq<Message>, policy: Policy, tools: seq<nat>) returns (elide: seq<nat>)
    requires tools == ToolsUpto(h, |h|)
    ensures elide <= Eligible(h, policy) && Least(h, policy, |elide|)
  {
    var recent := SliceFromEnd(tools, policy.keepRecent);
    var total: int := TotalTokens(h, tools);
    elide := [];
    var k := 0;
    assert tools[..k] == [];
    while k < |tools| && total > policy.budget
      invariant k <= |tools|
      invariant Chosen(h, policy, tools, k, elide) && total == Remaining(h, elide)
    {
      var i := tools[k];
      ChooseStep(h, policy, tools, k, elide);
      if i !in recent && h[i].isError != Some(true) {
        elide := elide + [i];
        total := total - TokensAt(h, i);
      }
      k := k + 1;
    }
    assert k == |tools| ==> tools[..k] == tools;
    assert Eligible(h, policy)[..|elide|] == elide;
  }

  /** The first k results are dealt with: the eligible ones among them are taken, each when over budget. */
  ghost predicate Chosen(h: seq<Message>, policy: Policy, tools: seq<nat>, k: nat, elide: seq<nat>) {
    && tools == ToolsUpto(h, |h|) && k <= |tools|
    && elide == Candidates(h, policy, tools[..k]) && elide <= Eligible(h, policy)
    && forall q: nat :: q < |elide| ==> Remaining(h, Eligible(h, policy)[..q]) > policy.budget
  }

  lemma ChooseStep(h: seq<Message>, policy: Policy, tools: seq<nat>, k: nat, elide: seq<nat>)
    requires Chosen(h, policy, tools, k, elide) && k < |tools| && Remaining(h, elide) > policy.budget
    ensures Protected(h, policy, tools[k]) ==> Chosen(h, policy, tools, k + 1, elide)
    ensures !Protected(h, policy, tools[k]) ==>
      && Chosen(h, policy, tools, k + 1, elide + [tools[k]])
      && Remaining(h, elide + [tools[k]]) == Remaining(h, elide) - TokensAt(h, tools[k])
  {
    CandidateStep(h, policy, tools, k);
    RemainingStep(h, elide, tools[k]);
    hide Remaining, Protected, Candidates, ToolsUpto, Eligible;
    var c, taken := Eligible(h, policy), elide + [tools[k]];
    if !Protected(h, policy, tools[k]) {
      forall q: nat | q < |taken| ensures Remaining(h, c[..q]) > policy.budget {
        assert q == |elide| ==> c[..q] == elide;
      }
    }
  }

  lemma RemainingStep(h: seq<Message>, at: seq<nat>, i: nat)
    requires i < |h| && forall k :: 0 <= k < |at| ==> at[k] < |h|
    ensures Remaining(h, at + [i]) == Remaining(h, at) - TokensAt(h, i)
  {
    SumStep(h, at, i);
  }

  lemma SumStep(h: seq<Message>, at: seq<nat>, i: nat)
    requires i < |h| && forall k :: 0 <= k < |at| ==> at[k] < |h|
    ensures Sum(h, at + [i]) == Sum(h, at) + TokensAt(h, i)
  {
    assert (at + [i])[..|at|] == at;
  }

  /** Rewrites the history, collecting an elision for each replaced result. */
  method Fold(h: seq<Message>, elide: seq<nat>) returns (view: seq<Message>, elisions: seq<Elision>)
    requires forall k :: 0 <= k < |elide| ==> elide[k] < |h| && h[elide[k]].Tool?
    requires Ascending(elide)
    ensures Projects(h, elide, view, elisions)
  {
    view, elisions := [], [];
    ghost var n := 0;
    for i := 0 to |h|
      invariant |view| == i
      invariant forall j :: 0 <= j < i ==> view[j] == if j in elide then Folded(h[j]) else h[j]
      invariant n <= |elide| && |elisions| == n
      invariant forall k :: 0 <= k < n ==> elide[k] < i && elisions[k] == ElisionOf(h, elide[k])
      invariant forall k :: n <= k < |elide| ==> elide[k] >= i
    {
      if i in elide {
        assert elide[n] == i;
        elisions := elisions + [ElisionOf(h, i)];
        view := view + [Folded(h[i])];
        n := n + 1;
      } else {
        view := view + [h[i]];
      }
    }
  }

  method ToolIndexes(h: seq<Message>) returns (tools: seq<nat>)
    ensures tools == ToolsUpto(h, |h|)
  {
    tools := [];
    for i := 0 to |h|
      invariant tools == ToolsUpto(h, i)
    {
      if h[i].Tool? {
        tools := tools + [i];
      }
    }
  }

  lemma NothingElided(h: seq<Message>)
    ensures Projects(h, [], h, [])
  {
  }

  lemma {:induction false} CandidateStep(h: seq<Message>, policy: Policy, tools: seq<nat>, k: nat)
    requires tools == ToolsUpto(h, |h|) && k < |tools|
    ensures Candidates(h, policy, tools[..k + 1])
         == Candidates(h, policy, tools[..k]) + if Protected(h, policy, tools[k]) then [] else [tools[k]]
    ensures Candidates(h, policy, tools[..k + 1]) <= Eligible(h, policy)
    decreases |tools| - k
  {
    assert tools[..k + 1][..k] == tools[..k];
    if k + 1 < |tools| {
      CandidateStep(h, policy, tools, k + 1);
    } else {
      assert tools[..k + 1] == tools;
    }
  }

  predicate Ascending(s: seq<nat>) { forall j, k :: 0 <= j < k < |s| ==> s[j] < s[k] }

  lemma {:induction false} CandidatesAscend(h: seq<Message>, policy: Policy, tools: seq<nat>)
    requires forall k :: 0 <= k < |tools| ==> tools[k] < |h| && h[tools[k]].Tool?
    requires Ascending(tools)
    ensures Ascending(Candidates(h, policy, tools))
  {
    if tools != [] {
      var front, last := tools[..|tools| - 1], tools[|tools| - 1];
      CandidatesAscend(h, policy, front);
      var c := Candidates(h, policy, front);
      forall k | 0 <= k < |c| ensures c[k] < last {
        var j :| 0 <= j < |front| && front[j] == c[k];
        assert tools[j] == c[k];
      }
      assert Ascending(c + [last]);
    }
  }

  lemma {:induction false} CandidatesHaveAll(h: seq<Message>, policy: Policy, tools: seq<nat>, i: nat)
    requires forall k :: 0 <= k < |tools| ==> tools[k] < |h| && h[tools[k]].Tool?
    ensures i in Candidates(h, policy, tools) <==> i in tools && !Protected(h, policy, i)
  {
    if tools != [] {
      CandidatesHaveAll(h, policy, tools[..|tools| - 1], i);
      assert tools == tools[..|tools| - 1] + [tools[|tools| - 1]];
    }
  }

  /** A tool result stands among all of them after those before it. */
  lemma {:induction false} ToolPosition(h: seq<Message>, i: nat, n: nat)
    requires i < n <= |h| && h[i].Tool?
    ensures |ToolsUpto(h, i)| < |ToolsUpto(h, n)| && ToolsUpto(h, n)[|ToolsUpto(h, i)|] == i
  {
    if i < n - 1 { ToolPosition(h, i, n - 1); }
  }

  /**
   * Which tool results may be elided: those that are no error and not in the window. The window holds the given
   * number of the most recent ones; but one of zero holds all of them, and one below zero all but as many of the
   * oldest.
   */
  lemma EligibleMeans(h: seq<Message>, policy: Policy, i: nat)
    requires i < |h|
    ensures i in Eligible(h, policy) <==>
      && h[i].Tool? && h[i].isError != Some(true)
      && if policy.keepRecent > 0 then |ToolsUpto(h, |h|)| - |ToolsUpto(h, i)| > policy.keepRecent
         else |ToolsUpto(h, i)| < -policy.keepRecent
  {
    var tools := ToolsUpto(h, |h|);
    CandidatesHaveAll(h, policy, tools, i);
    ToolsAreAll(h, |h|);
    if h[i].Tool? {
      ToolPosition(h, i, |h|);
      hide ToolsUpto, Candidates, Ascending;
      InSlice(tools, policy.keepRecent, |ToolsUpto(h, i)|);
    }
  }

  lemma InSlice(s: seq<nat>, k: int, at: nat)
    requires Ascending(s) && at < |s|
    ensures s[at] in SliceFromEnd(s, k) <==> if k > 0 then |s| - at <= k else at >= -k
  {
    var start := if k > 0 then (if k < |s| then |s| - k else 0) else if -k < |s| then -k else |s|;
    assert SliceFromEnd(s, k) == s[start..];
    if at >= start { assert s[start..][at - start] == s[at]; }
  }

  /** What an elision says of the result it stands for, and that it stands for no other. */
  lemma ElisionsTell(
    h: seq<Message>, policy: Policy, p: nat, view: seq<Message>, elisions: seq<Elision>, k: nat)
    requires Least(h, policy, p) && Projects(h, Eligible(h, policy)[..p], view, elisions) && k < |elisions|
    ensures var e := elisions[k];
      && e.messageIndex < |h| && h[e.messageIndex].Tool? && e.toolId == h[e.messageIndex].toolId
      && e.originalTokens == Tokens(h[e.messageIndex].content) && e.digest == h[e.messageIndex].content
      && view[e.messageIndex].content == PLACEHOLDER
    ensures forall j :: 0 <= j < k ==> elisions[j].messageIndex < elisions[k].messageIndex
    ensures |elisions| == p
  {
    var c := Eligible(h, policy);
    assert c[..p][k] == c[k] && c[k] in c[..p];
    ToolsAreAll(h, |h|);
    CandidatesAscend(h, policy, ToolsUpto(h, |h|));
    hide Eligible;
  }

  /** Four characters make a token, rounded up. */
  lemma TokensMean(content: string)
    ensures 4 * Tokens(content) >= |content| && 4 * Tokens(content) < |content| + 4
  {
  }

  /**
   * What a view keeps: its length, the roles and call ids, every message that is no tool result, every
   * error, and the recent window; and the view depends on nothing but the history and the policy.
   */
  lemma ViewKeeps(h: seq<Message>, policy: Policy, p: nat, view: seq<Message>, elisions: seq<Elision>, i: nat)
    requires Least(h, policy, p) && Projects(h, Eligible(h, policy)[..p], view, elisions) && i < |h|
    ensures |view| == |h|
    ensures view[i].Tool? == h[i].Tool?
    ensures !h[i].Tool? ==> view[i] == h[i]
    ensures h[i].Tool? ==> view[i] == h[i].(content := view[i].content)
    ensures h[i].Tool? && h[i].isError == Some(true) ==> view[i] == h[i]
    ensures h[i].Tool? && |ToolsUpto(h, |h|)| - |ToolsUpto(h, i)| <= policy.keepRecent ==> view[i] == h[i]
  {
    var c := Eligible(h, policy);
    if h[i].Tool? && |ToolsUpto(h, |h|)| - |ToolsUpto(h, i)| <= policy.keepRecent {
      ToolPosition(h, i, |h|);
    }
    if i in c[..p] {
      assert i in c;
      CandidatesHaveAll(h, policy, ToolsUpto(h, |h|), i);
    }
  }

  /** A window of zero elides nothing, however far the results are over budget. */
  lemma ZeroWindowElidesNothing(h: seq<Message>, budget: int, i: nat)
    requires i < |h| && h[i].Tool?
    ensures Protected(h, Policy(budget, 0), i)
  {
    ToolsAreAll(h, |h|);
    WindowSize(ToolsUpto(h, |h|), 0);
  }
}
