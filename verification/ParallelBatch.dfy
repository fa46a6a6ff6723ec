/**
 * A batch of parallel tool calls finishes in any order; its results enter the history in model order.
 */
module ParallelBatch {
  import opened ThreadLog

  datatype Intent = Intent(call: Call, itemId: nat)

  datatype TurnResult = Ended(status: Status, output: string) | Suspended(approvalId: nat)

  /** One dispatched intent: its history message, or the end of the turn. */
  datatype Outcome = Replied(message: Message) | Stopped(result: TurnResult)

  function Upto(n: nat): (r: seq<nat>)
    ensures |r| == n && forall i :: 0 <= i < n ==> r[i] == i
  {
    seq(n, i => i)
  }

  function MessageOf(outcome: Outcome): seq<Message> { if outcome.Replied? then [outcome.message] else [] }

  /** The messages among the outcomes, visited in some order. */
  function Picked(outcomes: map<nat, Outcome>, at: seq<nat>): seq<Message> {
    if at == [] then []
    else
      var last := at[|at| - 1];
      Picked(outcomes, at[..|at| - 1]) + if last in outcomes then MessageOf(outcomes[last]) else []
  }

  predicate RepliesAreTools(outcomes: map<nat, Outcome>) {
    forall i :: i in outcomes && outcomes[i].Replied? ==> outcomes[i].message.Tool?
  }

  lemma {:induction false} PickedTools(outcomes: map<nat, Outcome>, at: seq<nat>)
    requires RepliesAreTools(outcomes)
    ensures ToolsOnly(Picked(outcomes, at))
  {
    if at != [] {
      PickedTools(outcomes, at[..|at| - 1]);
    }
  }

  lemma {:induction false} PickedFrame(outcomes: map<nat, Outcome>, more: map<nat, Outcome>, at: seq<nat>)
    requires forall i :: i in at ==> i in outcomes && i in more && more[i] == outcomes[i]
    ensures Picked(more, at) == Picked(outcomes, at)
  {
    if at != [] {
      PickedFrame(outcomes, more, at[..|at| - 1]);
    }
  }

  lemma {:induction false} PickedSplit(outcomes: map<nat, Outcome>, a: seq<nat>, b: seq<nat>)
    ensures Picked(outcomes, a + b) == Picked(outcomes, a) + Picked(outcomes, b)
  {
    if b == [] {
      assert a + b == a;
    } else {
      PickedSplit(outcomes, a, b[..|b| - 1]);
      assert (a + b)[..|a + b| - 1] == a + b[..|b| - 1];
    }
  }

  lemma PickedOne(outcomes: map<nat, Outcome>, i: nat)
    requires i in outcomes
    ensures Picked(outcomes, [i]) == MessageOf(outcomes[i])
  {
    assert [i][..0] == [];
  }

  lemma RemoveOne<T>(s: seq<T>, k: nat)
    requires k < |s|
    ensures multiset(s) == multiset(s[..k] + s[k + 1..]) + multiset{s[k]}
  {
    assert s == s[..k] + [s[k]] + s[k + 1..];
  }

  lemma Cancel<T>(p: multiset<T>, q: multiset<T>, r: multiset<T>)
    requires p + r == q + r
    ensures p == q
  {
    assert p == p + r - r;
  }

  lemma PickedRemove(outcomes: map<nat, Outcome>, s: seq<nat>, k: nat)
    requires k < |s| && s[k] in outcomes
    ensures multiset(Picked(outcomes, s))
         == multiset(Picked(outcomes, s[..k] + s[k + 1..])) + multiset(MessageOf(outcomes[s[k]]))
  {
    hide Picked, MessageOf;
    var x, y, i := s[..k], s[k + 1..], s[k];
    assert s == x + [i] + y;
    PickedSplit(outcomes, x, y);
    PickedSplit(outcomes, x, [i]);
    PickedSplit(outcomes, x + [i], y);
    PickedOne(outcomes, i);
  }

  /** Visiting in another order gives the same messages, in another order. */
  lemma {:induction false} PickedPermutes(outcomes: map<nat, Outcome>, a: seq<nat>, b: seq<nat>)
    requires multiset(a) == multiset(b) && forall i :: i in a ==> i in outcomes
    ensures multiset(Picked(outcomes, a)) == multiset(Picked(outcomes, b))
    decreases |a|
  {
    hide *;
    if a == [] {
      assert |multiset(b)| == 0;
    } else {
      assert a[|a| - 1] in multiset(b);
      var n, k := |a| - 1, Find(b, a[|a| - 1]);
      var x, y := a[..n] + a[n + 1..], b[..k] + b[k + 1..];
      RemoveOne(a, n);
      RemoveOne(b, k);
      Cancel(multiset(x), multiset(y), multiset{a[n]});
      PickedRemove(outcomes, a, n);
      PickedRemove(outcomes, b, k);
      PickedPermutes(outcomes, x, y);
    }
  }

  ghost function Find<T>(s: seq<T>, x: T): (k: nat)
    requires x in s
    ensures k < |s| && s[k] == x
  {
    var k :| 0 <= k < |s| && s[k] == x; k
  }

  predicate Replies(outcome: Outcome, intent: Intent) {
    outcome.Replied? && outcome.message.Tool? && outcome.message.callId == intent.call.callId
  }

  /** Every intent of the batch was answered, under its own call id. */
  predicate AllReplied(outcomes: map<nat, Outcome>, batch: seq<Intent>) {
    forall i: nat :: i < |batch| ==> i in outcomes && Replies(outcomes[i], batch[i])
  }

  predicate Distinct(batch: seq<Intent>) {
    forall i, j :: 0 <= i < j < |batch| ==> batch[i].call.callId != batch[j].call.callId
  }

  lemma {:induction false} PickedAt(outcomes: map<nat, Outcome>, batch: seq<Intent>, at: seq<nat>)
    requires AllReplied(outcomes, batch) && forall k :: 0 <= k < |at| ==> at[k] < |batch|
    ensures |Picked(outcomes, at)| == |at|
    ensures forall k :: 0 <= k < |at| ==> Picked(outcomes, at)[k] == outcomes[at[k]].message
  {
    hide Picked;
    if at == [] {
      NothingPicked(outcomes);
    } else {
      var n := |at| - 1;
      PickedAt(outcomes, batch, at[..n]);
      PickedStep(outcomes, at, n);
      assert at[..n + 1] == at;
    }
  }

  lemma NothingPicked(outcomes: map<nat, Outcome>)
    ensures Picked(outcomes, []) == []
  {
  }

  /** With distinct call ids, the log and the history agree on a batch exactly when it finished in model order. */
  lemma OrderMatters(outcomes: map<nat, Outcome>, batch: seq<Intent>, order: seq<nat>)
    requires AllReplied(outcomes, batch) && Distinct(batch)
    requires |order| == |batch| && forall k :: 0 <= k < |order| ==> order[k] < |batch|
    ensures Picked(outcomes, order) == Picked(outcomes, Upto(|batch|)) <==> order == Upto(|batch|)
  {
    PickedAt(outcomes, batch, order);
    PickedAt(outcomes, batch, Upto(|batch|));
    if Picked(outcomes, order) == Picked(outcomes, Upto(|batch|)) {
      forall k | 0 <= k < |batch| ensures order[k] == k {
        assert Picked(outcomes, order)[k] == outcomes[order[k]].message;
      }
    }
  }

  /* ---------- batches in a turn ---------- */

  /**
   * A batch of a turn: where its events are in the log, how long the history was before it, its intents, the
   * order in which they arrived, and what came of each.
   */
  datatype Batch = Batch(
    start: nat, end: nat, pos: nat, intents: seq<Intent>, order: seq<nat>, outcomes: map<nat, Outcome>)

  /** What the log gains, in the order of arrival. */
  function Arrived(b: Batch): seq<Message> { Picked(b.outcomes, b.order) }

  /** What the history gains, in model order. */
  function Entered(b: Batch): seq<Message> { Picked(b.outcomes, Upto(|b.intents|)) }

  /** The log and the history gain the same. */
  predicate Aligned(b: Batch) { Arrived(b) == Entered(b) }

  predicate AllAligned(bs: seq<Batch>) { forall k :: 0 <= k < |bs| ==> Aligned(bs[k]) }

  /** An order of arrival names every intent once, and each has its outcome. */
  ghost predicate WellFormed(b: Batch) {
    multiset(b.order) == multiset(Upto(|b.intents|)) && forall i: nat :: i in b.outcomes <==> i < |b.intents|
  }

  /** With distinct call ids, a batch that answers everything is aligned exactly when it arrives in model order. */
  lemma AlignedMeans(b: Batch)
    requires WellFormed(b) && AllReplied(b.outcomes, b.intents) && Distinct(b.intents)
    ensures Aligned(b) <==> b.order == Upto(|b.intents|)
  {
    hide Picked, AllReplied, Distinct, Upto;
    ArrivalOnce(b.order, |b.intents|);
    OrderMatters(b.outcomes, b.intents, b.order);
  }

  lemma {:induction false} UptoOnce(n: nat, x: nat)
    ensures multiset(Upto(n))[x] == if x < n then 1 else 0
  {
    if n == 0 {
      assert Upto(0) == [];
    } else {
      UptoOnce(n - 1, x);
      assert Upto(n) == Upto(n - 1) + [n - 1];
    }
  }

  /** An order of arrival names each intent of the batch once. */
  lemma ArrivalOnce(arrival: seq<nat>, n: nat)
    requires multiset(arrival) == multiset(Upto(n))
    ensures |arrival| == n && (forall k :: 0 <= k < n ==> arrival[k] < n)
    ensures forall j, k :: 0 <= j < k < n ==> arrival[j] != arrival[k]
    ensures forall i: nat :: i in arrival <==> i < n
  {
    assert |multiset(arrival)| == |multiset(Upto(n))|;
    forall i: nat ensures i in arrival <==> i < n {
      UptoOnce(n, i);
      assert i in arrival <==> i in multiset(arrival);
    }
    forall j, k | 0 <= j < k < n ensures arrival[j] != arrival[k] {
      UptoOnce(n, arrival[j]);
      var x, y := arrival[..k], arrival[k..];
      assert arrival == x + y && arrival[j] in x && arrival[k] in y;
      assert multiset(arrival) == multiset(x) + multiset(y);
    }
    forall k | 0 <= k < n ensures arrival[k] < n {
      assert arrival[k] in arrival;
    }
  }

  function Clip<T>(s: seq<T>, k: int): seq<T> {
    if k <= 0 then [] else if k <= |s| then s[..k] else s
  }

  /** The first `n` messages of the history are not touched by an order of arrival. */
  predicate Agree(bs: seq<Batch>, n: nat) {
    forall k :: 0 <= k < |bs| ==> Clip(Arrived(bs[k]), n - bs[k].pos) == Clip(Entered(bs[k]), n - bs[k].pos)
  }

  /** Each batch lies in the log of the turn, after the ones before it. */
  ghost predicate InOrder(log: seq<Event>, from: nat, bs: seq<Batch>) {
    && (forall k :: 0 <= k < |bs| ==> WellFormed(bs[k]) && from <= bs[k].start <= bs[k].end <= |log|)
    && (forall j, k :: 0 <= j < k < |bs| ==> bs[j].end <= bs[k].start)
  }

  /** And its results are in the history. */
  ghost predicate BatchesFit(log: seq<Event>, h: seq<Message>, from: nat, bs: seq<Batch>) {
    && InOrder(log, from, bs)
    && (forall k :: 0 <= k < |bs| ==>
          && |Arrived(bs[k])| == |Entered(bs[k])| && bs[k].pos + |Entered(bs[k])| <= |h|
          && h[bs[k].pos..bs[k].pos + |Entered(bs[k])|] == Entered(bs[k]))
  }

  /** Logged and lived history have the same beginnings exactly where no order of arrival shows. */
  ghost predicate InStep(logged: seq<Message>, h: seq<Message>, bs: seq<Batch>) {
    |logged| == |h| && forall n :: 0 <= n <= |h| ==> (logged[..n] == h[..n] <==> Agree(bs, n))
  }

  /** Past the end of every batch, agreeing is being aligned. */
  lemma AgreePast(log: seq<Event>, h: seq<Message>, from: nat, bs: seq<Batch>, n: nat)
    requires BatchesFit(log, h, from, bs) && n >= |h|
    ensures Agree(bs, n) <==> AllAligned(bs)
  {
    hide Arrived, Entered, WellFormed;
    forall k | 0 <= k < |bs|
      ensures Clip(Arrived(bs[k]), n - bs[k].pos) == Arrived(bs[k])
      ensures Clip(Entered(bs[k]), n - bs[k].pos) == Entered(bs[k])
    {
    }
  }

  lemma SameWhole(log: seq<Event>, logged: seq<Message>, h: seq<Message>, from: nat, bs: seq<Batch>)
    requires BatchesFit(log, h, from, bs) && InStep(logged, h, bs)
    ensures logged == h <==> AllAligned(bs)
  {
    hide BatchesFit, Agree, AllAligned;
    AgreePast(log, h, from, bs, |h|);
    assert logged[..|h|] == logged && h[..|h|] == h;
  }

  /** Messages that both sides gain in one order. */
  lemma GrowTogether(
    log: seq<Event>, logged: seq<Message>, h: seq<Message>, from: nat, bs: seq<Batch>, more: seq<Message>)
    requires BatchesFit(log, h, from, bs) && InStep(logged, h, bs)
    ensures InStep(logged + more, h + more, bs)
  {
    SameWhole(log, logged, h, from, bs);
    hide BatchesFit, Agree, AllAligned;
    forall n | 0 <= n <= |h + more| ensures (logged + more)[..n] == (h + more)[..n] <==> Agree(bs, n) {
      if n <= |h| {
        assert (logged + more)[..n] == logged[..n] && (h + more)[..n] == h[..n];
      } else {
        AgreePast(log, h, from, bs, n);
        SplitsAt(logged, h, more, more, n);
      }
    }
  }

  /** Two histories that part ways before they grow never meet again. */
  lemma SplitsAt(a: seq<Message>, b: seq<Message>, x: seq<Message>, y: seq<Message>, n: nat)
    requires |a| == |b| && |x| == |y| && |a| <= n <= |a + x|
    ensures (a + x)[..n] == (b + y)[..n] <==> a == b && x[..n - |a|] == y[..n - |a|]
  {
    var m := n - |a|;
    assert (a + x)[..n] == a + x[..m] && (b + y)[..n] == b + y[..m];
    if a + x[..m] == b + y[..m] {
      assert a == (a + x[..m])[..|a|] && b == (b + y[..m])[..|a|];
      assert x[..m] == (a + x[..m])[|a|..] && y[..m] == (b + y[..m])[|a|..];
    }
  }

  /** A batch adds to the log in one order and to the history in another. */
  lemma GrowByBatch(log: seq<Event>, logged: seq<Message>, h: seq<Message>, from: nat, bs: seq<Batch>, b: Batch)
    requires BatchesFit(log, h, from, bs) && InStep(logged, h, bs)
    requires b.pos == |h| && |Arrived(b)| == |Entered(b)|
    ensures InStep(logged + Arrived(b), h + Entered(b), bs + [b])
  {
    hide BatchesFit, AllAligned, Arrived, Entered, Clip, Agree;
    SameWhole(log, logged, h, from, bs);
    var x, y := Arrived(b), Entered(b);
    forall n | 0 <= n <= |h + y| ensures (logged + x)[..n] == (h + y)[..n] <==> Agree(bs + [b], n) {
      AgreeMore(bs, b, n);
      ClipMeans(x, n - |h|);
      ClipMeans(y, n - |h|);
      if n <= |h| {
        assert (logged + x)[..n] == logged[..n] && (h + y)[..n] == h[..n];
      } else {
        AgreePast(log, h, from, bs, n);
        SplitsAt(logged, h, x, y, n);
      }
    }
  }

  lemma ClipMeans<T>(s: seq<T>, k: int)
    requires k <= |s|
    ensures k <= 0 ==> Clip(s, k) == []
    ensures k >= 0 ==> Clip(s, k) == s[..k]
  {
  }

  lemma AgreeMore(bs: seq<Batch>, b: Batch, n: nat)
    ensures Agree(bs + [b], n) <==> Agree(bs, n) && Clip(Arrived(b), n - b.pos) == Clip(Entered(b), n - b.pos)
  {
    hide Clip, Arrived, Entered;
    var more := bs + [b];
    assert more[|bs|] == b && forall k :: 0 <= k < |bs| ==> more[k] == bs[k];
  }

  lemma FitMore(
    log: seq<Event>, after: seq<Event>, h: seq<Message>, from: nat, bs: seq<Batch>, b: Batch)
    requires BatchesFit(log, h, from, bs) && log <= after && from <= |log|
    requires b.start == |log| && b.end == |after| && b.pos == |h|
    requires WellFormed(b) && |Arrived(b)| == |Entered(b)|
    ensures BatchesFit(after, h + Entered(b), from, bs + [b])
  {
    hide Arrived, Entered, WellFormed;
    var more, now := bs + [b], h + Entered(b);
    forall k | 0 <= k < |more|
      ensures more[k].pos + |Entered(more[k])| <= |now|
      ensures now[more[k].pos..more[k].pos + |Entered(more[k])|] == Entered(more[k])
    {
      if k < |bs| {
        assert now[bs[k].pos..bs[k].pos + |Entered(bs[k])|] == h[bs[k].pos..bs[k].pos + |Entered(bs[k])|];
      }
    }
  }

  lemma FitLonger(log: seq<Event>, after: seq<Event>, h: seq<Message>, more: seq<Message>, from: nat, bs: seq<Batch>)
    requires BatchesFit(log, h, from, bs) && |log| <= |after|
    ensures BatchesFit(after, h + more, from, bs)
  {
    hide Arrived, Entered, WellFormed;
    var now := h + more;
    forall k | 0 <= k < |bs|
      ensures now[bs[k].pos..bs[k].pos + |Entered(bs[k])|] == Entered(bs[k])
    {
      assert now[bs[k].pos..bs[k].pos + |Entered(bs[k])|] == h[bs[k].pos..bs[k].pos + |Entered(bs[k])|];
    }
  }

  /* ---------- the events of a batch ---------- */

  function Width(o: Outcome): nat { if o.Replied? then 1 else 2 }

  /** How many events the outcomes take in the log. */
  function WidthOf(outcomes: map<nat, Outcome>, at: seq<nat>): nat {
    if at == [] then 0
    else WidthOf(outcomes, at[..|at| - 1]) + if at[|at| - 1] in outcomes then Width(outcomes[at[|at| - 1]]) else 0
  }

  /** One arrival in the log: the completed tool item, or the approval asked for and a checkpoint. */
  predicate ArrivalAt(log: seq<Event>, t: nat, at: nat, intent: Intent, o: Outcome) {
    && at + Width(o) <= |log| && log[at].turn == t
    && match o
       case Replied(m) =>
         && log[at].ItemCompleted? && log[at].item.ToolItem? && log[at].item.id == intent.itemId
         && log[at].item.call == intent.call && ItemMessages(log[at].item) == [m]
       case Stopped(r) =>
         && r.Suspended? && log[at].ItemStarted? && log[at].item.ApprovalItem? && log[at].item.pending
         && log[at].item.approvalId == r.approvalId && log[at].item.callId == intent.call.callId
         && log[at + 1].Checkpoint? && log[at + 1].turn == t
  }

  /** Where the k-th arrival is in the log. */
  function PlaceOf(b: Batch, k: nat): nat
    requires k <= |b.order|
  {
    b.start + WidthOf(b.outcomes, b.order[..k])
  }

  /** The first `n` arrivals of the batch are in the log, one after the other. */
  predicate LoggedUpTo(log: seq<Event>, t: nat, b: Batch, n: nat) {
    n <= |b.order| && forall k :: 0 <= k < n ==>
      && b.order[k] < |b.intents| && b.order[k] in b.outcomes
      && ArrivalAt(log, t, PlaceOf(b, k), b.intents[b.order[k]], b.outcomes[b.order[k]])
  }

  predicate Logged(log: seq<Event>, t: nat, b: Batch) {
    LoggedUpTo(log, t, b, |b.order|) && b.end == PlaceOf(b, |b.order|) <= |log|
  }

  predicate AllLogged(log: seq<Event>, t: nat, bs: seq<Batch>) {
    forall k :: 0 <= k < |bs| ==> Logged(log, t, bs[k])
  }

  lemma LoggedLater(log: seq<Event>, after: seq<Event>, t: nat, bs: seq<Batch>)
    requires AllLogged(log, t, bs) && log <= after
    ensures AllLogged(after, t, bs)
  {
    forall k | 0 <= k < |bs| ensures Logged(after, t, bs[k]) {
      OneLoggedLater(log, after, t, bs[k], |bs[k].order|);
      assert Logged(log, t, bs[k]);
    }
  }

  lemma OneLoggedLater(log: seq<Event>, after: seq<Event>, t: nat, b: Batch, n: nat)
    requires log <= after
    ensures LoggedUpTo(log, t, b, n) ==> LoggedUpTo(after, t, b, n)
  {
    hide PlaceOf, ItemMessages;
  }

  lemma WidthStep(outcomes: map<nat, Outcome>, at: seq<nat>, k: nat)
    requires k < |at|
    ensures WidthOf(outcomes, at[..k + 1]) ==
            WidthOf(outcomes, at[..k]) + if at[k] in outcomes then Width(outcomes[at[k]]) else 0
  {
    assert at[..k + 1][..k] == at[..k];
  }

  lemma {:induction false} WidthFrame(outcomes: map<nat, Outcome>, more: map<nat, Outcome>, at: seq<nat>)
    requires forall i :: i in at ==> i in outcomes && i in more && more[i] == outcomes[i]
    ensures WidthOf(more, at) == WidthOf(outcomes, at)
  {
    if at != [] {
      WidthFrame(outcomes, more, at[..|at| - 1]);
    }
  }

  /** One more arrival. */
  lemma ArrivalLogged(before: seq<Event>, after: seq<Event>, t: nat, b: Batch, k: nat, o: Outcome)
    requires LoggedUpTo(before, t, b, k) && k < |b.order| && |before| == PlaceOf(b, k) && before <= after
    requires b.order[k] < |b.intents| && b.order[k] !in b.order[..k] && |after| == |before| + Width(o)
    requires ArrivalAt(after, t, |before|, b.intents[b.order[k]], o)
    ensures var c := b.(outcomes := b.outcomes[b.order[k] := o]);
      LoggedUpTo(after, t, c, k + 1) && |after| == PlaceOf(c, k + 1)
  {
    hide ArrivalAt;
    var c := b.(outcomes := b.outcomes[b.order[k] := o]);
    forall j | 0 <= j <= k ensures PlaceOf(c, j) == PlaceOf(b, j) {
      assert forall i :: i in b.order[..j] ==> i in b.order[..k];
      forall i | i in b.order[..j] ensures i in b.outcomes && c.outcomes[i] == b.outcomes[i] {
        var m :| 0 <= m < j && b.order[m] == i;
      }
      WidthFrame(b.outcomes, c.outcomes, b.order[..j]);
    }
    WidthStep(c.outcomes, c.order, k);
    forall j | 0 <= j <= k
      ensures ArrivalAt(after, t, PlaceOf(c, j), c.intents[c.order[j]], c.outcomes[c.order[j]])
    {
      if j < k {
        assert b.order[j] in b.order[..k];
        StaysLogged(before, after, t, PlaceOf(b, j), b.intents[b.order[j]], b.outcomes[b.order[j]]);
      }
    }
  }

  lemma StaysLogged(before: seq<Event>, after: seq<Event>, t: nat, at: nat, intent: Intent, o: Outcome)
    requires before <= after && ArrivalAt(before, t, at, intent, o)
    ensures ArrivalAt(after, t, at, intent, o)
  {
    hide ItemMessages;
  }

  /** The messages logged before an arrival are those of the earlier ones. */
  lemma {:induction false} LoggedMessages(log: seq<Event>, t: nat, b: Batch, n: nat)
    requires LoggedUpTo(log, t, b, n) && PlaceOf(b, n) <= |log|
    ensures TurnMessages(log[b.start..PlaceOf(b, n)], t) == Picked(b.outcomes, b.order[..n])
  {
    hide TurnMessages, ItemMessages, Picked, ArrivalAt, WidthOf;
    if n == 0 {
      NothingYet(b);
      assert log[b.start..b.start] == [];
      NothingSaid(t);
    } else {
      WidthStep(b.outcomes, b.order, n - 1);
      LoggedMessages(log, t, b, n - 1);
      ArrivalMessages(log, t, PlaceOf(b, n - 1), b.intents[b.order[n - 1]], b.outcomes[b.order[n - 1]]);
      JoinMessages(log, t, b.start, PlaceOf(b, n - 1), PlaceOf(b, n));
      PickedStep(b.outcomes, b.order, n - 1);
    }
  }

  lemma NothingYet(b: Batch)
    ensures PlaceOf(b, 0) == b.start && Picked(b.outcomes, b.order[..0]) == []
  {
  }

  lemma JoinMessages(log: seq<Event>, t: nat, a: nat, b: nat, c: nat)
    requires a <= b <= c <= |log|
    ensures TurnMessages(log[a..c], t) == TurnMessages(log[a..b], t) + TurnMessages(log[b..c], t)
  {
    hide TurnMessages;
    assert log[a..c] == log[a..b] + log[b..c];
    TurnMessagesSplit(log[a..b], log[b..c], t);
  }

  lemma PickedStep(outcomes: map<nat, Outcome>, at: seq<nat>, k: nat)
    requires k < |at| && at[k] in outcomes
    ensures Picked(outcomes, at[..k + 1]) == Picked(outcomes, at[..k]) + MessageOf(outcomes[at[k]])
  {
    assert at[..k + 1][..k] == at[..k];
  }

  lemma NothingSaid(t: nat)
    ensures TurnMessages([], t) == []
  {
  }

  lemma ArrivalMessages(log: seq<Event>, t: nat, at: nat, intent: Intent, o: Outcome)
    requires ArrivalAt(log, t, at, intent, o)
    ensures TurnMessages(log[at..at + Width(o)], t) == MessageOf(o)
  {
    hide TurnMessages, ItemMessages;
    OneMessage(log[at], t);
    if o.Replied? {
      assert log[at..at + 1] == [log[at]];
    } else {
      OneMessage(log[at + 1], t);
      TurnMessagesSplit([log[at]], [log[at + 1]], t);
      assert log[at..at + 2] == [log[at]] + [log[at + 1]];
    }
  }

  /* ---------- checkpoints in and after batches ---------- */

  /**
   * No order of arrival shows at this place of the log: batches that ended are aligned, and in one that is under
   * way no message was logged yet.
   */
  predicate Clean(log: seq<Event>, t: nat, bs: seq<Batch>, i: nat)
    requires i <= |log|
  {
    forall k :: 0 <= k < |bs| ==>
      && (bs[k].end <= i ==> Aligned(bs[k]))
      && (bs[k].start <= i < bs[k].end ==> TurnMessages(log[bs[k].start..i], t) == [])
  }

  /** From an index on, a checkpoint replays exactly when `ok` holds and no order of arrival shows there. */
  ghost predicate ReplayIff(log: seq<Event>, t: nat, from: nat, ok: bool, bs: seq<Batch>) {
    forall i :: from <= i < |log| && log[i].Checkpoint? ==> (Replays(log, i) <==> ok && Clean(log, t, bs, i))
  }

  lemma CleanLater(log: seq<Event>, after: seq<Event>, t: nat, bs: seq<Batch>, i: nat)
    requires log <= after && i <= |log|
    ensures Clean(after, t, bs, i) <==> Clean(log, t, bs, i)
  {
    hide TurnMessages, Aligned;
    assert forall k :: 0 <= k < |bs| && bs[k].start <= i ==> after[bs[k].start..i] == log[bs[k].start..i];
  }

  lemma CleanMore(log: seq<Event>, t: nat, bs: seq<Batch>, b: Batch, i: nat)
    requires i <= |log|
    ensures Clean(log, t, bs + [b], i) <==>
      && Clean(log, t, bs, i) && (b.end <= i ==> Aligned(b))
      && (b.start <= i < b.end ==> TurnMessages(log[b.start..i], t) == [])
  {
    hide TurnMessages, Aligned;
    var more := bs + [b];
    assert more[|bs|] == b && forall k :: 0 <= k < |bs| ==> more[k] == bs[k];
  }

  lemma CleanPast(log: seq<Event>, h: seq<Message>, from: nat, t: nat, bs: seq<Batch>, i: nat)
    requires i <= |log| && BatchesFit(log[..i], h, from, bs)
    ensures Clean(log, t, bs, i) <==> AllAligned(bs)
  {
    hide TurnMessages, Aligned, Arrived, Entered, WellFormed;
  }

  lemma ReplaysInPrefix(log: seq<Event>, after: seq<Event>, i: nat)
    requires log <= after && i < |log| && log[i].Checkpoint?
    ensures Replays(after, i) <==> Replays(log, i)
  {
    hide Live;
    assert after[..i + 1] == log[..i + 1];
  }

  /**
   * A checkpoint that records the history from before some events of the turn replays exactly when that history
   * was the logged one and no message was completed among them.
   */
  lemma EarlierHistory(before: seq<Event>, after: seq<Event>, t: nat, i: nat)
    requires StartIndex(before, t).Some? && before <= after
    requires |before| <= i < |after| && after[i].Checkpoint? && after[i].turn == t
    requires |Live(before, t)| >= |after[i].digest|
    ensures Replays(after, i) <==>
      after[i].digest == Live(before, t) && TurnMessages(after[|before|..i], t) == []
  {
    hide StartIndex, Live, TurnMessages;
    var since := after[|before|..i];
    assert after[..i + 1] == before + (since + [after[i]]);
    LiveSplit(before, since + [after[i]], t);
    TurnMessagesSplit(since, [after[i]], t);
    OneMessage(after[i], t);
    assert TurnMessages(since, t) + [] == TurnMessages(since, t);
    if after[i].digest == Live(before, t) + TurnMessages(since, t) {
      assert |TurnMessages(since, t)| == 0;
      assert TurnMessages(since, t) == [];
    }
  }
}
