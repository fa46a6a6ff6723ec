/**
 * What a whole call of the step loop leaves behind in the log of its thread, and what holds over every run of
 * calls, cut off by crashes at any point.
 */
module ThreadRuns {
  import opened Options
  import opened ThreadLog
  import opened ParallelBatch
  import opened LoopBooks

  /* ---------- one call ---------- */

  /** At any point of a call, the thread missed what it did before, or what was unknown once it asked again. */
  ghost predicate PassedFrom(before: seq<Event>, after: seq<Event>, unknown: set<nat>) {
    forall n :: |before| <= n <= |after| ==> PassesOver(Messages(before), Messages(after[..n]), unknown)
  }

  /** A summary recorded from an index on describes the thread before it if no order of arrival shows in it. */
  ghost predicate SummariesFrom(log: seq<Event>, from: nat, bs: seq<Batch>) {
    forall i :: from <= i < |log| && log[i].Compacted? ==>
      (Applies(log[i].view, Messages(log[..i])) <==> Agree(bs, log[i].view.count))
  }

  /** A new turn takes up all that came before it. */
  predicate Knows(before: seq<Event>, carry: bool) { carry || Messages(before) == [] }

  /** The history a new turn takes up. */
  function TakenUp(before: seq<Event>, carry: bool): seq<Message> { if carry then Messages(before) else [] }

  /** What a new turn makes of the log of its thread. */
  ghost predicate Began(before: seq<Event>, after: seq<Event>, t: nat, bs: seq<Batch>, carry: bool) {
    && Extends(before, after, t) && OnlySince(after, t) && InOrder(after, |before|, bs) && AllLogged(after, t, bs)
    && ReplayIff(after, t, |before|, Knows(before, carry), bs)
    && PassedFrom(before, after, Unknown(TakenUp(before, carry), Messages(before)))
    && (Knows(before, carry) ==> SummariesFrom(after, |before|, bs))
  }

  /** What a resumed or recovered turn makes of the log; its summaries are of the thread if it is the last of it. */
  ghost predicate Continued(before: seq<Event>, after: seq<Event>, t: nat, bs: seq<Batch>) {
    && Extends(before, after, t) && InOrder(after, |before|, bs) && AllLogged(after, t, bs)
    && ReplayIff(after, t, |before|, Orphans(before, t) == [], bs)
    && PassedFrom(before, after, Unknown(Committed(before, t), Messages(before)))
    && (OnlySince(before, t) && Orphans(before, t) == [] ==> SummariesFrom(after, |before|, bs))
  }

  lemma {:induction false} LoadedDescribes(log: seq<Event>, h: seq<Message>)
    ensures Describes(Loaded(log, h), h)
  {
    if log != [] {
      LoadedDescribes(log[..|log| - 1], h);
    }
  }

  /** The books of a call that did nothing yet. */
  lemma OpenBooks(g: Ledger, log: seq<Event>, c: Option<Compaction>)
    requires StartIndex(log, g.turn).Some? && g.from == |log| && g.was == Messages(log)
    requires |Live(log, g.turn)| == |g.kept| + g.missing && (g.missing == 0 ==> Live(log, g.turn) == g.kept)
    requires (forall m :: m in g.kept ==> m in g.was) && (c.None? || c == Loaded(log, g.kept))
    ensures Books(g, log, g.kept, c, [])
  {
    hide Live, StartIndex, Covers, Missed, PassesOver, Loaded, Replays, Applies, Messages, Unknown;
    LoadedDescribes(log, g.kept);
    CoversTaken(g.kept, g.was);
    CoversPassesOver(g.kept, g.was, Messages(log), g.kept);
    assert log[..|log|] == log;
  }

  /** The ledger a rebuilt turn goes on with. */
  ghost function RebuiltLedger(log: seq<Event>, t: nat, exclusive: bool): Ledger {
    Ledger(t, |log|, Committed(log, t), Messages(log), |Orphans(log, t)|, exclusive)
  }

  lemma RebuiltBooks(log: seq<Event>, t: nat, exclusive: bool)
    requires StartIndex(log, t).Some?
    ensures var h := Committed(log, t); Books(RebuiltLedger(log, t, exclusive), log, h, Loaded(log, h), [])
  {
    hide Live, Committed, Orphans, StartIndex, Loaded, Books, Messages;
    LiveIsCommittedAndOrphans(log, t);
    CommittedInThread(log, t);
    assert Orphans(log, t) == [] ==> Committed(log, t) + Orphans(log, t) == Committed(log, t);
    OpenBooks(RebuiltLedger(log, t, exclusive), log, Loaded(log, Committed(log, t)));
  }

  lemma CommittedInThread(log: seq<Event>, t: nat)
    ensures forall m :: m in Committed(log, t) ==> m in Messages(log)
  {
    hide Messages, OfTurn, StartIndex, LastCheckpoint;
    var start, last := StartIndex(log, t), LastCheckpoint(log, t);
    if start.Some? { PrefixInThread(log, start.value); }
    if last.Some? {
      TurnInThread(log[..last.value + 1], t);
      PrefixInThread(log, last.value + 1);
    }
  }

  lemma PrefixInThread(log: seq<Event>, n: nat)
    requires n <= |log|
    ensures forall m :: m in Messages(log[..n]) ==> m in Messages(log)
  {
    hide Messages;
    MessagesSplit(log[..n], log[n..]);
    assert log == log[..n] + log[n..];
  }

  lemma {:induction false} TurnInThread(log: seq<Event>, t: nat)
    ensures forall m :: m in Messages(OfTurn(log, t)) ==> m in Messages(log)
  {
    hide Messages, EventMessages;
    if log != [] {
      var front, e := log[..|log| - 1], log[|log| - 1];
      TurnInThread(front, t);
      MessagesStep(front, e);
      MessagesStep(OfTurn(front, t), e);
      assert log == front + [e];
      assert OfTurn(log, t) == OfTurn(front, t) + if e.turn == t then [e] else [];
      assert OfTurn(front, t) + [] == OfTurn(front, t);
    }
  }

  /** The thread's messages are the live history of its last turn, at every point since the turn started. */
  lemma ThreadIsLive(log: seq<Event>, t: nat, n: nat)
    requires OnlySince(log, t) && StartIndex(log, t).value < n <= |log|
    ensures Messages(log[..n]) == Live(log[..n], t)
  {
    hide Messages, Live, OnlySince, StartIndex;
    OnlyPrefix(log, t, n);
    LiveIsThread(log[..n], t);
  }

  lemma OnlyPrefix(log: seq<Event>, t: nat, n: nat)
    requires OnlySince(log, t) && StartIndex(log, t).value < n <= |log|
    ensures OnlySince(log[..n], t)
  {
    hide StartIndex, Carried;
    StartedEarly(log, t, n);
    StartStays(log[..n], log[n..], t);
    assert log == log[..n] + log[n..];
    assert forall i :: 0 <= i < n ==> log[..n][i] == log[i];
  }

  lemma ThreadSummaries(log: seq<Event>, t: nat, from: nat, h: seq<Message>, bs: seq<Batch>)
    requires OnlySince(log, t) && StartIndex(log, t).value < from && SummariesIff(log, t, from, h, bs)
    ensures SummariesFrom(log, from, bs)
  {
    hide Live, StartIndex, Applies, Messages, OnlySince, Agree;
    forall i | from <= i < |log| && log[i].Compacted?
      ensures Applies(log[i].view, Messages(log[..i])) <==> Agree(bs, log[i].view.count)
    {
      ThreadIsLive(log, t, i);
    }
  }

  lemma OnlyIsStarted(log: seq<Event>, t: nat)
    requires OnlySince(log, t)
    ensures StartIndex(log, t).Some? && StartIndex(log, t).value < |log|
  {
  }

  lemma StartUnmoved(before: seq<Event>, after: seq<Event>, t: nat)
    requires OnlySince(before, t) && Extends(before, after, t)
    ensures OnlySince(after, t) && StartIndex(after, t) == StartIndex(before, t)
  {
    ExtendsOnly(before, after, t);
    StartStays(before, after[|before|..], t);
    assert after == before + after[|before|..];
    hide StartIndex, Carried;
  }

  /** From the books at the end of a rebuilt turn to what it leaves behind. */
  lemma RebuiltLeaves(
    before: seq<Event>, after: seq<Event>, t: nat, exclusive: bool, h: seq<Message>, c: Option<Compaction>,
    bs: seq<Batch>)
    requires StartIndex(before, t).Some? && Extends(before, after, t)
    requires Books(RebuiltLedger(before, t, exclusive), after, h, c, bs)
    ensures Continued(before, after, t, bs)
  {
    hide Live, Committed, Orphans, StartIndex, Asks, Missed, Covers, OnlySince, Extends, Messages, ReplayIff, AllLogged,
      PassesOver, SummariesIff, InOrder, Entered, Arrived, InStep;
    if OnlySince(before, t) && Orphans(before, t) == [] { SummariesAfter(before, after, t, h, bs); }
  }

  lemma SummariesAfter(before: seq<Event>, after: seq<Event>, t: nat, h: seq<Message>, bs: seq<Batch>)
    requires OnlySince(before, t) && Extends(before, after, t) && SummariesIff(after, t, |before|, h, bs)
    ensures SummariesFrom(after, |before|, bs)
  {
    hide StartIndex, Live, Applies, Messages, OnlySince, Agree;
    OnlyIsStarted(before, t);
    StartUnmoved(before, after, t);
    ThreadSummaries(after, t, |before|, h, bs);
  }

  /** An event that nothing is read from leaves everything as it was. */
  lemma NothingHappened(before: seq<Event>, after: seq<Event>, t: nat)
    requires after == before || after == before + [RecoveryFailed(t)]
    ensures Continued(before, after, t, [])
  {
    hide Orphans, Asks, Replays, Applies, OnlySince, Messages, Clean, Unknown, Committed;
    assert before[..|before|] == before;
    if after != before {
      MessagesStep(before, RecoveryFailed(t));
      assert Messages(before) + [] == Messages(before);
      assert after[..|before|] == before && after[..|before| + 1] == after;
    }
  }

  /** The ledger of a new turn. When nothing is carried on, it lacks all that came before. */
  ghost function BegunLedger(before: seq<Event>, t: nat, exclusive: bool, carry: bool): Ledger {
    var missing := if carry then 0 else |Messages(before)|;
    Ledger(t, |before| + 1, TakenUp(before, carry), Messages(before), missing, exclusive)
  }

  /** The first events of a new turn. */
  ghost function Opening(before: seq<Event>, t: nat, id: nat, input: string): seq<Event> {
    before + [TurnStarted(t)] + [ItemStarted(t, MessageItem(id, UserRole, input, []))]
    + [ItemCompleted(t, MessageItem(id, UserRole, input, []))]
  }

  lemma StartMessages(before: seq<Event>, t: nat)
    ensures Messages(before + [TurnStarted(t)]) == Messages(before)
  {
    MessagesStep(before, TurnStarted(t));
    hide Messages;
    assert Messages(before) + [] == Messages(before);
  }

  lemma BegunBooks(before: seq<Event>, t: nat, exclusive: bool, carry: bool, c: Option<Compaction>)
    requires forall i :: 0 <= i < |before| ==> before[i].turn != t
    requires c.None? || (carry && c == Loaded(before + [TurnStarted(t)], Messages(before)))
    ensures var g := BegunLedger(before, t, exclusive, carry);
      OnlySince(before + [TurnStarted(t)], t) && StartIndex(before + [TurnStarted(t)], t) == Some(|before|)
      && Books(g, before + [TurnStarted(t)], g.kept, c, [])
  {
    hide Messages, Live, StartIndex, Loaded, Books;
    var log := before + [TurnStarted(t)];
    StartMeans(log, t);
    assert log[|before|] == TurnStarted(t);
    LiveIsThread(log, t);
    StartMessages(before, t);
    OpenBooks(BegunLedger(before, t, exclusive, carry), log, c);
  }

  /** From the books at the end of a new turn to what it leaves behind. */
  lemma BegunLeaves(
    before: seq<Event>, after: seq<Event>, t: nat, exclusive: bool, carry: bool, h: seq<Message>,
    c: Option<Compaction>, bs: seq<Batch>)
    requires OnlySince(before + [TurnStarted(t)], t) && StartIndex(before + [TurnStarted(t)], t) == Some(|before|)
    requires Extends(before + [TurnStarted(t)], after, t)
    requires Books(BegunLedger(before, t, exclusive, carry), after, h, c, bs)
    ensures Began(before, after, t, bs, carry)
  {
    hide Live, StartIndex, Covers, OnlySince, Messages, ReplayIff, AllLogged, PassesOver, SummariesIff, Entered,
      Arrived, InStep, Describes, WellFormed, Unknown, Missed;
    var begun := before + [TurnStarted(t)];
    StartUnmoved(begun, after, t);
    assert after[|before|] == TurnStarted(t) && after[..|before|] == before;
    ReplayEarlier(after, t, |before|, Knows(before, carry), bs);
    NothingPassed(Messages(before), Unknown(TakenUp(before, carry), Messages(before)));
    assert |Messages(before)| == 0 <==> Messages(before) == [];
    if Knows(before, carry) {
      ThreadSummaries(after, t, |before| + 1, h, bs);
      SummariesEarlier(after, |before|, bs);
    }
  }

  lemma NothingPassed(was: seq<Message>, unknown: set<nat>)
    ensures PassesOver(was, was, unknown)
  {
  }

  lemma ReplayEarlier(log: seq<Event>, t: nat, from: nat, ok: bool, bs: seq<Batch>)
    requires ReplayIff(log, t, from + 1, ok, bs) && from < |log| && !log[from].Checkpoint?
    ensures ReplayIff(log, t, from, ok, bs)
  {
    hide Replays, Clean;
  }

  lemma SummariesEarlier(log: seq<Event>, from: nat, bs: seq<Batch>)
    requires SummariesFrom(log, from + 1, bs) && from < |log| && !log[from].Compacted?
    ensures SummariesFrom(log, from, bs)
  {
    hide Applies, Agree, Messages;
  }

  /* ---------- what the order of arrival does ---------- */

  /** Every batch answered all its calls, which have distinct ids. */
  ghost predicate AllAnswered(bs: seq<Batch>) {
    forall k :: 0 <= k < |bs| ==> AllReplied(bs[k].outcomes, bs[k].intents) && Distinct(bs[k].intents)
  }

  /** The intents of a batch arrived in model order up to the k-th. */
  predicate InModelOrder(b: Batch, n: int) {
    forall j :: 0 <= j < n && j < |b.order| ==> b.order[j] == j
  }

  /** Every batch that ended before this point arrived in model order. */
  predicate ModelOrderBefore(bs: seq<Batch>, i: nat) {
    forall k :: 0 <= k < |bs| && bs[k].end <= i ==> InModelOrder(bs[k], |bs[k].order|)
  }

  /** Every result that belongs to the first `n` messages arrived in model order. */
  predicate ModelOrderWithin(bs: seq<Batch>, n: nat) {
    forall k :: 0 <= k < |bs| ==> InModelOrder(bs[k], n - bs[k].pos)
  }

  lemma ClipsAgree(b: Batch, n: int)
    requires WellFormed(b) && AllReplied(b.outcomes, b.intents) && Distinct(b.intents)
    ensures Clip(Arrived(b), n) == Clip(Entered(b), n) <==> InModelOrder(b, n)
  {
    hide Picked, Upto;
    ArrivalOnce(b.order, |b.intents|);
    PickedAt(b.outcomes, b.intents, b.order);
    PickedAt(b.outcomes, b.intents, Upto(|b.intents|));
    var x, y := Clip(Arrived(b), n), Clip(Entered(b), n);
    assert |x| == |y|;
    if x == y {
      forall j | 0 <= j < n && j < |b.order| ensures b.order[j] == j {
        assert x[j] == Arrived(b)[j] && y[j] == Entered(b)[j];
      }
    }
  }

  lemma AgreeMeans(bs: seq<Batch>, n: nat)
    requires AllAnswered(bs) && forall k :: 0 <= k < |bs| ==> WellFormed(bs[k])
    ensures Agree(bs, n) <==> ModelOrderWithin(bs, n)
  {
    hide Clip, Arrived, Entered, WellFormed, InModelOrder, AllReplied, Distinct;
    forall k | 0 <= k < |bs|
      ensures Clip(Arrived(bs[k]), n - bs[k].pos) == Clip(Entered(bs[k]), n - bs[k].pos) <==>
              InModelOrder(bs[k], n - bs[k].pos)
    {
      ClipsAgree(bs[k], n - bs[k].pos);
    }
  }

  lemma AlignedInModelOrder(b: Batch)
    requires WellFormed(b) && AllReplied(b.outcomes, b.intents) && Distinct(b.intents)
    ensures Aligned(b) <==> InModelOrder(b, |b.order|)
  {
    hide AllReplied, Distinct, Arrived, Entered;
    ArrivalOnce(b.order, |b.intents|);
    AlignedMeans(b);
  }

  /**
   * In a turn whose batches answered all their calls, a checkpoint outside of any batch replays exactly when
   * every batch before it arrived in model order.
   */
  lemma CheckpointReplays(log: seq<Event>, t: nat, from: nat, bs: seq<Batch>, i: nat)
    requires ReplayIff(log, t, from, true, bs) && InOrder(log, from, bs) && AllAnswered(bs)
    requires from <= i < |log| && log[i].Checkpoint?
    requires forall k :: 0 <= k < |bs| ==> !(bs[k].start <= i < bs[k].end)
    ensures Replays(log, i) <==> ModelOrderBefore(bs, i)
  {
    hide Replays, WellFormed, Aligned, InModelOrder, AllReplied, Distinct, TurnMessages;
    forall k | 0 <= k < |bs| ensures Aligned(bs[k]) <==> InModelOrder(bs[k], |bs[k].order|) {
      AlignedInModelOrder(bs[k]);
    }
    assert Clean(log, t, bs, i) <==> ModelOrderBefore(bs, i);
  }

  /**
   * And a summary describes the thread it was taken of exactly when every result it covers arrived in model
   * order.
   */
  lemma SummaryDescribes(log: seq<Event>, from: nat, bs: seq<Batch>, i: nat)
    requires SummariesFrom(log, from, bs) && InOrder(log, from, bs) && AllAnswered(bs)
    requires from <= i < |log| && log[i].Compacted?
    ensures Applies(log[i].view, Messages(log[..i])) <==> ModelOrderWithin(bs, log[i].view.count)
  {
    hide Messages, Applies, Agree, WellFormed, ModelOrderWithin, AllAnswered;
    AgreeMeans(bs, log[i].view.count);
  }

  /* ---------- orphans ---------- */

  /** A turn whose last event is its checkpoint has no orphans. */
  lemma NoOrphans(log: seq<Event>, t: nat)
    requires |log| > 0 && log[|log| - 1].Checkpoint? && log[|log| - 1].turn == t
    ensures Orphans(log, t) == []
  {
    assert LastCheckpoint(log, t) == Some(|log| - 1);
    assert log[|log|..] == [];
  }

  lemma OrphansStep(log: seq<Event>, e: Event, t: nat)
    requires !e.Checkpoint? && e.turn == t
    ensures Orphans(log + [e], t) == Orphans(log, t) + EventMessages(e)
    ensures LastCheckpoint(log + [e], t) == LastCheckpoint(log, t)
  {
    hide TurnMessages, EventMessages;
    assert (log + [e])[..|log|] == log;
    var last := LastCheckpoint(log, t);
    assert LastCheckpoint(log + [e], t) == last;
    var n := if last.Some? then last.value + 1 else 0;
    assert (log + [e])[n..] == log[n..] + [e] && log[0..] == log;
    TurnMessagesSplit(log[n..], [e], t);
    OneMessage(e, t);
  }

  /* ---------- whole runs of a thread ---------- */

  /** A call of the only writer: a new turn, or one that goes on with a turn of the thread. */
  datatype Doing = Begin(turn: nat, carry: bool) | GoOn(turn: nat)

  ghost predicate Did(d: Doing, before: seq<Event>, after: seq<Event>, bs: seq<Batch>) {
    match d
    case Begin(t, carry) => Began(before, after, t, bs, carry)
    case GoOn(t) => Continued(before, after, t, bs)
  }

  /** The calls of the thread that are not in the history taken up, or are passed over in it. */
  function NotTaken(d: Doing, before: seq<Event>): set<nat> {
    match d
    case Begin(_, carry) => Unknown(TakenUp(before, carry), Messages(before))
    case GoOn(t) => Unknown(Committed(before, t), Messages(before))
  }

  /** Every message that its turn has logged or carried is in the history taken up. */
  predicate KnowsAll(d: Doing, before: seq<Event>) {
    match d
    case Begin(_, carry) => Knows(before, carry)
    case GoOn(t) => Orphans(before, t) == []
  }

  /** And there is no other turn after it. */
  predicate KnowsThread(d: Doing, before: seq<Event>) { KnowsAll(d, before) && (d.GoOn? ==> OnlySince(before, d.turn)) }

  lemma CallMeans(d: Doing, before: seq<Event>, after: seq<Event>, bs: seq<Batch>)
    requires Did(d, before, after, bs)
    ensures before <= after && PassedFrom(before, after, NotTaken(d, before))
    ensures ReplayIff(after, d.turn, |before|, KnowsAll(d, before), bs)
    ensures KnowsThread(d, before) ==> SummariesFrom(after, |before|, bs)
  {
    hide Live, OnlySince, PassedFrom, ReplayIff, SummariesFrom, AllLogged, InOrder, Orphans, Unknown, Knows, Committed;
  }

  /** At every point, a call that is not answered is one of the last message that calls tools. */
  ghost predicate AllTidy(log: seq<Event>) { forall n :: 0 <= n <= |log| ==> Tidy(Messages(log[..n])) }

  /** Whenever the call has logged a message that calls tools, the calls it did not take up are answered. */
  ghost predicate InTime(d: Doing, before: seq<Event>, after: seq<Event>) {
    forall n :: |before| <= n <= |after| && |Asks(Messages(after[..n]))| > |Asks(Messages(before))| ==>
      NotTaken(d, before) <= Answers(Messages(after[..n]))
  }

  /** Every checkpoint of the call is of a history that is all of the thread, with no order of arrival in it. */
  ghost predicate Unspoiled(d: Doing, before: seq<Event>, after: seq<Event>, bs: seq<Batch>) {
    forall i :: |before| <= i < |after| && after[i].Checkpoint? ==> KnowsAll(d, before) && Clean(after, d.turn, bs, i)
  }

  /** A call leaves a tidy thread tidy at every point exactly when the calls it did not take up are answered in time. */
  lemma CallKeepsTidy(d: Doing, before: seq<Event>, after: seq<Event>, bs: seq<Batch>)
    requires Did(d, before, after, bs)
    ensures AllTidy(after) <==> AllTidy(before) && InTime(d, before, after)
  {
    CallMeans(d, before, after, bs);
    hide Did, Messages, Tidy, NotTaken, Asks, Answers, PassesOver;
    TidyPrefix(before, after);
    assert before[..|before|] == before;
    if Tidy(Messages(before)) {
      forall n | |before| <= n <= |after|
        ensures Tidy(Messages(after[..n])) <==>
          (|Asks(Messages(after[..n]))| > |Asks(Messages(before))| ==>
             NotTaken(d, before) <= Answers(Messages(after[..n])))
      {
        TidyThen(Messages(before), Messages(after[..n]), NotTaken(d, before));
      }
    }
  }

  lemma TidyThen(was: seq<Message>, now: seq<Message>, unknown: set<nat>)
    requires PassesOver(was, now, unknown) && Tidy(was)
    ensures Tidy(now) <==> (|Asks(now)| > |Asks(was)| ==> unknown <= Answers(now))
  {
    hide Asks, Answers, Missed;
    assert {} - Answers(now) == {};
    if unknown - Answers(now) == {} {
      assert forall id :: id in unknown ==> id in Answers(now) || id in unknown - Answers(now);
    } else {
      var id :| id in unknown - Answers(now);
    }
  }

  lemma TidyPrefix(before: seq<Event>, after: seq<Event>)
    requires before <= after
    ensures AllTidy(before) <==> forall n :: 0 <= n <= |before| ==> Tidy(Messages(after[..n]))
  {
    hide Messages, Tidy;
    assert forall n :: 0 <= n <= |before| ==> after[..n] == before[..n];
  }

  /** And a thread whose checkpoints all replay stays so exactly when every new one is unspoiled. */
  lemma CallKeepsReplay(d: Doing, before: seq<Event>, after: seq<Event>, bs: seq<Batch>)
    requires Did(d, before, after, bs)
    ensures Replay(after, 0, true) <==> Replay(before, 0, true) && Unspoiled(d, before, after, bs)
  {
    CallMeans(d, before, after, bs);
    hide Did, Replays, Clean, KnowsAll;
    forall i | 0 <= i < |before| && before[i].Checkpoint? ensures Replays(after, i) <==> Replays(before, i) {
      ReplaysInPrefix(before, after, i);
    }
  }

  /**
   * A run of calls, each on what a crash may have left of the log of the one before it: `kept[i]` is how much of it
   * is there when the i-th call is made.
   */
  ghost predicate IsRun(logs: seq<seq<Event>>, kept: seq<nat>, calls: seq<Doing>, batches: seq<seq<Batch>>) {
    && |logs| == |calls| + 1 == |kept| + 1 == |batches| + 1 && logs[0] == []
    && (forall i :: 0 <= i < |calls| ==> kept[i] <= |logs[i]|)
    && forall i :: 0 <= i < |calls| ==> Did(calls[i], logs[i][..kept[i]], logs[i + 1], batches[i])
  }

  lemma RunStep(logs: seq<seq<Event>>, kept: seq<nat>, calls: seq<Doing>, batches: seq<seq<Batch>>, n: nat)
    requires IsRun(logs, kept, calls, batches) && n < |calls|
    ensures IsRun(logs[..n + 1], kept[..n], calls[..n], batches[..n])
    ensures kept[n] <= |logs[n]| && Did(calls[n], logs[n][..kept[n]], logs[n + 1], batches[n])
  {
    hide Did;
  }

  lemma RunGrows(
    logs: seq<seq<Event>>, kept: seq<nat>, calls: seq<Doing>, batches: seq<seq<Batch>>, keep: nat, d: Doing,
    after: seq<Event>, bs: seq<Batch>)
    requires IsRun(logs, kept, calls, batches) && keep <= |logs[|calls|]|
    requires Did(d, logs[|calls|][..keep], after, bs)
    ensures IsRun(logs + [after], kept + [keep], calls + [d], batches + [bs])
  {
    hide Did;
  }

  /**
   * Over every run of calls and crashes: no call of a tool is passed over at any point of any log exactly when each
   * call finds what it did not take up answered by the time it asks again.
   */
  lemma {:induction false} EveryRunIsTidy(
    logs: seq<seq<Event>>, kept: seq<nat>, calls: seq<Doing>, batches: seq<seq<Batch>>)
    requires IsRun(logs, kept, calls, batches)
    ensures (forall i :: 0 <= i < |logs| ==> AllTidy(logs[i])) <==>
      forall i :: 0 <= i < |calls| ==> InTime(calls[i], logs[i][..kept[i]], logs[i + 1])
  {
    hide Did, AllTidy, InTime;
    if calls == [] {
      NothingIsTidy();
    } else {
      var n := |calls| - 1;
      RunStep(logs, kept, calls, batches, n);
      EveryRunIsTidy(logs[..n + 1], kept[..n], calls[..n], batches[..n]);
      CallKeepsTidy(calls[n], logs[n][..kept[n]], logs[n + 1], batches[n]);
      CrashKeepsTidy(logs[n], kept[n]);
      assert forall i :: 0 <= i < |logs| ==> i == n + 1 || logs[i] == logs[..n + 1][i];
    }
  }

  /** Over every such run: every checkpoint replays exactly when each call leaves only unspoiled ones. */
  lemma {:induction false} EveryRunReplays(
    logs: seq<seq<Event>>, kept: seq<nat>, calls: seq<Doing>, batches: seq<seq<Batch>>)
    requires IsRun(logs, kept, calls, batches)
    ensures (forall i :: 0 <= i < |logs| ==> Replay(logs[i], 0, true)) <==>
      forall i :: 0 <= i < |calls| ==> Unspoiled(calls[i], logs[i][..kept[i]], logs[i + 1], batches[i])
  {
    hide Did, Replay, Unspoiled;
    if calls == [] {
      NothingReplays();
    } else {
      var n := |calls| - 1;
      RunStep(logs, kept, calls, batches, n);
      EveryRunReplays(logs[..n + 1], kept[..n], calls[..n], batches[..n]);
      CallKeepsReplay(calls[n], logs[n][..kept[n]], logs[n + 1], batches[n]);
      CrashKeepsReplay(logs[n], kept[n]);
      assert forall i :: 0 <= i < |logs| ==> i == n + 1 || logs[i] == logs[..n + 1][i];
    }
  }

  /** The calls of tools that some call of the run knew nothing of, and found without an answer. */
  function Lost(logs: seq<seq<Event>>, kept: seq<nat>, calls: seq<Doing>): set<nat>
    requires |logs| >= |calls| == |kept| && forall i :: 0 <= i < |calls| ==> kept[i] <= |logs[i]|
  {
    if calls == [] then {}
    else
      var n := |calls| - 1;
      var before := logs[n][..kept[n]];
      Lost(logs, kept[..n], calls[..n]) + (NotTaken(calls[n], before) - Answers(Messages(before)))
  }

  /** Over every run, only calls that a crash, or a turn that carries nothing on, left unanswered are passed over. */
  lemma {:induction false} EveryRunMissesOnlyLost(
    logs: seq<seq<Event>>, kept: seq<nat>, calls: seq<Doing>, batches: seq<seq<Batch>>, at: nat)
    requires IsRun(logs, kept, calls, batches) && at <= |logs[|calls|]|
    ensures Missed(Messages(logs[|calls|][..at])) <= Lost(logs, kept, calls)
  {
    hide Did, Messages, Missed, Answers, NotTaken;
    if calls == [] {
      NothingIsTidy();
      NoMessages();
    } else {
      var n := |calls| - 1;
      RunStep(logs, kept, calls, batches, n);
      var before, after := logs[n][..kept[n]], logs[n + 1];
      LostFrame(logs, logs[..n + 1], kept[..n], calls[..n]);
      CallMeans(calls[n], before, after, batches[n]);
      if at <= |before| {
        assert after[..at] == logs[n][..at];
        EveryRunMissesOnlyLost(logs[..n + 1], kept[..n], calls[..n], batches[..n], at);
      } else {
        EveryRunMissesOnlyLost(logs[..n + 1], kept[..n], calls[..n], batches[..n], kept[n]);
        MoreIsAnswered(before, after, at);
        assert PassesOver(Messages(before), Messages(after[..at]), NotTaken(calls[n], before));
      }
    }
  }

  lemma {:induction false} LostFrame(logs: seq<seq<Event>>, some: seq<seq<Event>>, kept: seq<nat>, calls: seq<Doing>)
    requires |logs| >= |some| >= |calls| == |kept| && forall i :: 0 <= i < |calls| ==> kept[i] <= |logs[i]|
    requires some <= logs
    ensures Lost(logs, kept, calls) == Lost(some, kept, calls)
  {
    if calls != [] {
      LostFrame(logs, some, kept[..|calls| - 1], calls[..|calls| - 1]);
    }
  }

  lemma MoreIsAnswered(before: seq<Event>, after: seq<Event>, n: nat)
    requires before <= after && |before| <= n <= |after|
    ensures Answers(Messages(before)) <= Answers(Messages(after[..n]))
  {
    hide Messages, Answers;
    assert after[..n] == before + after[|before|..n];
    MessagesSplit(before, after[|before|..n]);
    AsksSplit(Messages(before), Messages(after[|before|..n]));
  }

  /* ---------- sound threads ---------- */

  /** Every recorded summary describes the thread up to it. */
  ghost predicate AllSummarize(log: seq<Event>) {
    forall i :: 0 <= i < |log| && log[i].Compacted? ==> Applies(log[i].view, Messages(log[..i]))
  }

  /**
   * What holds of a thread log when no call was passed over. If all calls were steady, every checkpoint replays,
   * and every summary describes the history.
   */
  ghost predicate Sound(log: seq<Event>, steady: bool) {
    AllTidy(log) && (steady ==> Replay(log, 0, true) && AllSummarize(log))
  }

  /** No order of arrival shows in the log of the turn. */
  ghost predicate Unmixed(log: seq<Event>, t: nat, bs: seq<Batch>) {
    AllAligned(bs) && forall i :: 0 <= i < |log| && log[i].Checkpoint? ==> Clean(log, t, bs, i)
  }

  /** The call took up the whole thread, and no order of arrival shows in what it adds. */
  ghost predicate IsSteady(d: Doing, before: seq<Event>, after: seq<Event>, bs: seq<Batch>) {
    KnowsThread(d, before) && Unmixed(after, d.turn, bs)
  }

  /** The call finds what it did not take up answered, and is steady if it has to be. */
  ghost predicate Informed(d: Doing, before: seq<Event>, after: seq<Event>, bs: seq<Batch>, steady: bool) {
    NotTaken(d, before) <= Answers(Messages(before)) && (steady ==> IsSteady(d, before, after, bs))
  }

  lemma UnmixedAgrees(log: seq<Event>, t: nat, bs: seq<Batch>, n: nat)
    requires Unmixed(log, t, bs)
    ensures Agree(bs, n)
  {
    hide Arrived, Entered, Clean;
  }

  lemma ExclusiveIsUnmixed(log: seq<Event>, t: nat)
    ensures Unmixed(log, t, [])
  {
  }

  lemma SteadyIsUnspoiled(d: Doing, before: seq<Event>, after: seq<Event>, bs: seq<Batch>)
    requires IsSteady(d, before, after, bs)
    ensures Unspoiled(d, before, after, bs)
  {
    hide Clean, KnowsAll, AllAligned;
  }

  lemma SummariesJoin(before: seq<Event>, after: seq<Event>, t: nat, bs: seq<Batch>)
    requires before <= after && AllSummarize(before) && SummariesFrom(after, |before|, bs) && Unmixed(after, t, bs)
    ensures AllSummarize(after)
  {
    hide Messages, Applies, Unmixed, Agree;
    forall i | 0 <= i < |after| && after[i].Compacted? ensures Applies(after[i].view, Messages(after[..i])) {
      if i < |before| {
        assert after[..i] == before[..i];
      } else {
        UnmixedAgrees(after, t, bs, after[i].view.count);
      }
    }
  }

  /** What was answered before the call is answered in time. */
  lemma AnsweredInTime(d: Doing, before: seq<Event>, after: seq<Event>)
    requires before <= after && NotTaken(d, before) <= Answers(Messages(before))
    ensures InTime(d, before, after)
  {
    hide Messages, Answers, NotTaken, Asks;
    forall n | |before| <= n <= |after| ensures Answers(Messages(before)) <= Answers(Messages(after[..n])) {
      MoreIsAnswered(before, after, n);
    }
  }

  /** A call that finds all it did not take up answered keeps the thread sound. */
  lemma CallKeepsSound(d: Doing, before: seq<Event>, after: seq<Event>, bs: seq<Batch>, steady: bool)
    requires Sound(before, steady) && Did(d, before, after, bs) && Informed(d, before, after, bs, steady)
    ensures Sound(after, steady)
  {
    CallMeans(d, before, after, bs);
    hide Did, Replay, AllTidy, InTime, Messages, AllSummarize, Unmixed, ReplayIff, SummariesFrom, NotTaken, Unspoiled,
      KnowsAll;
    AnsweredInTime(d, before, after);
    CallKeepsTidy(d, before, after, bs);
    if steady {
      SteadyIsUnspoiled(d, before, after, bs);
      CallKeepsReplay(d, before, after, bs);
      SummariesJoin(before, after, d.turn, bs);
    }
  }

  lemma CrashKeepsTidy(log: seq<Event>, n: nat)
    requires n <= |log|
    ensures AllTidy(log) ==> AllTidy(log[..n])
  {
    hide Tidy, Messages;
    forall m | 0 <= m <= n ensures log[..n][..m] == log[..m] {
    }
  }

  lemma CrashKeepsReplay(log: seq<Event>, n: nat)
    requires n <= |log|
    ensures Replay(log, 0, true) ==> Replay(log[..n], 0, true)
  {
    hide Replays;
    var kept := log[..n];
    forall i | 0 <= i < n && kept[i].Checkpoint? ensures Replays(log, i) <==> Replays(kept, i) {
      ReplaysInPrefix(kept, log, i);
    }
  }

  /** What a crash leaves is as sound as the log was. */
  lemma CrashKeepsSound(log: seq<Event>, n: nat, steady: bool)
    requires Sound(log, steady) && n <= |log|
    ensures Sound(log[..n], steady)
  {
    hide Messages, Applies, Replay, AllTidy;
    CrashKeepsTidy(log, n);
    CrashKeepsReplay(log, n);
    forall m | 0 <= m <= n ensures log[..n][..m] == log[..m] {
    }
  }

  /**
   * Every run of calls and crashes in which each call finds what it did not take up answered: no call is passed
   * over, and if all calls are steady every checkpoint replays and every summary describes the history.
   */
  lemma {:induction false} EveryRunIsSound(
    logs: seq<seq<Event>>, kept: seq<nat>, calls: seq<Doing>, batches: seq<seq<Batch>>, steady: bool)
    requires IsRun(logs, kept, calls, batches)
    requires forall i :: 0 <= i < |calls| ==> Informed(calls[i], logs[i][..kept[i]], logs[i + 1], batches[i], steady)
    ensures Sound(logs[|calls|], steady)
  {
    hide Did, Sound, Informed;
    if calls == [] {
      NothingIsSound(steady);
    } else {
      var n := |calls| - 1;
      RunStep(logs, kept, calls, batches, n);
      EveryRunIsSound(logs[..n + 1], kept[..n], calls[..n], batches[..n], steady);
      CrashKeepsSound(logs[n], kept[n], steady);
      CallKeepsSound(calls[n], logs[n][..kept[n]], logs[n + 1], batches[n], steady);
    }
  }

  lemma NothingIsTidy()
    ensures AllTidy([]) && Missed([]) == {}
  {
    NoMessages();
    NothingAsked();
    hide Messages, Asks, Answers;
    assert AllButLast<seq<Call>>([]) == [];
  }

  lemma NothingReplays()
    ensures Replay([], 0, true)
  {
  }

  lemma NothingIsSound(steady: bool)
    ensures Sound([], steady)
  {
    NothingIsTidy();
    NothingReplays();
  }

  /** All summaries describe the history as it is now, so the newest is the one a load finds. */
  lemma NewestIsLoaded(log: seq<Event>)
    requires Sound(log, true)
    ensures AllApply(log, Messages(log)) && Loaded(log, Messages(log)) == Newest(log)
  {
    hide Messages, Applies, Replay, AllTidy, Loaded, Newest;
    forall i | 0 <= i < |log| && log[i].Compacted? ensures Applies(log[i].view, Messages(log)) {
      assert log == log[..i] + log[i..];
      MessagesSplit(log[..i], log[i..]);
      AppliesLonger(log[i].view, Messages(log[..i]), Messages(log[i..]));
    }
    LoadedIsNewest(log, Messages(log));
  }

  /** In such a run the digest check of a rebuild never fails. */
  lemma DigestCheckPasses(log: seq<Event>, t: nat, i: nat)
    requires Sound(log, true) && LastCheckpoint(log, t) == Some(i)
    requires StartIndex(log, t).Some? && StartIndex(log, t).value < i
    ensures Committed(log, t) == log[i].digest
  {
    hide Replays, Committed, AllTidy, AllSummarize, StartIndex, LastCheckpoint;
    ReplayedIsCommitted(log, t, i);
    assert Replays(log, i);
  }
}
