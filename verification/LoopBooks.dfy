/**
 * What the step loop keeps true between its live history and the log of its thread, as facts about values.
 */
module LoopBooks {
  import opened Options
  import opened ThreadLog
  import opened ParallelBatch

  /**
   * What a running call goes on from: its turn, the log length at its start, the history it took up, the messages
   * of the thread then, how many messages of its turn it lacks, and whether all tool calls run alone.
   */
  datatype Ledger =
    Ledger(turn: nat, from: nat, kept: seq<Message>, was: seq<Message>, missing: nat, exclusive: bool)

  /** At any point since, the thread passed over only calls that were unknown. */
  ghost predicate PassedSince(log: seq<Event>, from: nat, was: seq<Message>, unknown: set<nat>) {
    forall n :: from <= n <= |log| ==> PassesOver(was, Messages(log[..n]), unknown)
  }

  /** No call is open but those that were missed when the history was taken up. */
  predicate Settled(g: Ledger, h: seq<Message>) { Open(h) <= Missed(g.kept) }

  /** The log covers the history, which misses nothing new, so only what was unknown is passed over. */
  ghost predicate Followed(g: Ledger, log: seq<Event>, h: seq<Message>) {
    && Missed(h) <= Missed(g.kept) && Covers(g.kept, g.was, Messages(log), h)
    && PassedSince(log, g.from, g.was, Unknown(g.kept, g.was))
  }

  /** A recorded summary describes the history logged when it was taken exactly if no order of arrival shows in it. */
  ghost predicate SummariesIff(log: seq<Event>, t: nat, from: nat, h: seq<Message>, bs: seq<Batch>) {
    forall i :: from <= i < |log| && log[i].Compacted? ==>
      log[i].view.count <= |h| && (Applies(log[i].view, Live(log[..i], t)) <==> Agree(bs, log[i].view.count))
  }

  predicate Describes(c: Option<Compaction>, h: seq<Message>) { c.Some? ==> Applies(c.value, h) }

  ghost predicate Books(g: Ledger, log: seq<Event>, h: seq<Message>, c: Option<Compaction>, bs: seq<Batch>) {
    && StartIndex(log, g.turn).Some? && g.from <= |log| && Describes(c, h) && Followed(g, log, h)
    && |Live(log, g.turn)| == |h| + g.missing
    && BatchesFit(log, h, g.from, bs) && AllLogged(log, g.turn, bs) && (g.exclusive ==> bs == [])
    && ReplayIff(log, g.turn, g.from, g.missing == 0, bs)
    && (g.missing == 0 ==> InStep(Live(log, g.turn), h, bs) && SummariesIff(log, g.turn, g.from, h, bs))
  }

  /** The log grew, by events of this turn. */
  predicate Extends(before: seq<Event>, after: seq<Event>, t: nat) {
    before <= after && forall i :: |before| <= i < |after| ==> after[i].turn == t
  }

  /** Events that no history, checkpoint or summary is read from. */
  predicate Plain(e: Event) { EventMessages(e) == [] && !e.Checkpoint? && !e.Compacted? }

  /** One message was recorded. */
  predicate Recorded(before: seq<Event>, after: seq<Event>, t: nat, m: Message) {
    && |after| == |before| + 1 && before <= after
    && after[|before|].ItemCompleted? && after[|before|].turn == t && EventMessages(after[|before|]) == [m]
  }

  lemma {:induction false} ExtendsOnly(before: seq<Event>, after: seq<Event>, t: nat)
    requires OnlySince(before, t) && Extends(before, after, t)
    ensures OnlySince(after, t)
  {
    assert after == before + after[|before|..];
    StartStays(before, after[|before|..], t);
    hide StartIndex, Carried;
  }

  lemma DescribesLonger(c: Option<Compaction>, h: seq<Message>, more: seq<Message>)
    requires Describes(c, h)
    ensures Describes(c, h + more)
  {
    if c.Some? { AppliesLonger(c.value, h, more); }
  }

  /** What is followed after an event that adds the same to log and history. */
  lemma FollowedStep(g: Ledger, log: seq<Event>, e: Event, h: seq<Message>, more: seq<Message>)
    requires Followed(g, log, h) && EventMessages(e) == more && Missed(h + more) <= Missed(g.kept)
    ensures Followed(g, log + [e], h + more)
  {
    hide Messages, Missed, EventMessages, Covers, PassesOver;
    MessagesStep(log, e);
    CoversSame(g.kept, g.was, Messages(log), h, more);
    PassedStep(g, log, e, h + more);
  }

  lemma PassedStep(g: Ledger, log: seq<Event>, e: Event, h: seq<Message>)
    requires PassedSince(log, g.from, g.was, Unknown(g.kept, g.was))
    requires Covers(g.kept, g.was, Messages(log + [e]), h) && Missed(h) <= Missed(g.kept)
    ensures PassedSince(log + [e], g.from, g.was, Unknown(g.kept, g.was))
  {
    hide Messages, Missed, Covers, PassesOver, Unknown;
    CoversPassesOver(g.kept, g.was, Messages(log + [e]), h);
    assert forall n :: 0 <= n <= |log| ==> (log + [e])[..n] == log[..n];
    assert (log + [e])[..|log| + 1] == log + [e];
  }

  /** And after one that adds an answer to the log alone. */
  lemma FollowedMore(g: Ledger, log: seq<Event>, e: Event, h: seq<Message>)
    requires Followed(g, log, h) && ToolsOnly(EventMessages(e))
    ensures Followed(g, log + [e], h)
  {
    hide Messages, Missed, EventMessages, Covers, PassesOver, ToolsOnly;
    MessagesStep(log, e);
    MoreCovers(g, Messages(log), h, EventMessages(e));
    PassedStep(g, log, e, h);
  }

  lemma MoreCovers(g: Ledger, logged: seq<Message>, h: seq<Message>, more: seq<Message>)
    requires Covers(g.kept, g.was, logged, h) && ToolsOnly(more)
    ensures Covers(g.kept, g.was, logged + more, h)
  {
    ToolsAskNothing(logged, more);
    hide Asks, Answers;
  }

  /** A summary of the history describes the log too if no order of arrival shows in it. */
  lemma SummaryStep(
    log: seq<Event>, t: nat, from: nat, h: seq<Message>, more: seq<Message>, bs: seq<Batch>, e: Event)
    requires SummariesIff(log, t, from, h, bs) && InStep(Live(log, t), h, bs)
    requires e.Compacted? ==> Applies(e.view, h)
    ensures SummariesIff(log + [e], t, from, h + more, bs)
  {
    hide Live, Agree;
    assert forall i :: 0 <= i <= |log| ==> (log + [e])[..i] == log[..i];
    assert log[..|log|] == log;
    if e.Compacted? {
      assert Live(log, t)[..e.view.count] == h[..e.view.count] <==> Agree(bs, e.view.count);
    }
  }

  /** Whether a checkpoint of the history replays. */
  lemma ReplayIffStep(
    log: seq<Event>, t: nat, from: nat, h: seq<Message>, missing: nat, bs: seq<Batch>, e: Event)
    requires StartIndex(log, t).Some? && e.turn == t && BatchesFit(log, h, from, bs)
    requires |Live(log, t)| == |h| + missing && (missing == 0 ==> InStep(Live(log, t), h, bs))
    requires ReplayIff(log, t, from, missing == 0, bs) && (e.Checkpoint? ==> e.digest == h)
    ensures ReplayIff(log + [e], t, from, missing == 0, bs)
  {
    hide StartIndex, Live, Clean, BatchesFit, InStep, Replays, AllAligned;
    forall i | 0 <= i < |log| && log[i].Checkpoint?
      ensures Replays(log + [e], i) <==> Replays(log, i)
      ensures Clean(log + [e], t, bs, i) <==> Clean(log, t, bs, i)
    {
      ReplaysLater(log, e, i);
      CleanLater(log, log + [e], t, bs, i);
    }
    if e.Checkpoint? {
      CheckpointAdds(log, t, e.stepIndex, e.digest);
      assert (log + [e])[..|log|] == log;
      CleanPast(log + [e], h, from, t, bs, |log|);
      if missing == 0 { SameWhole(log, Live(log, t), h, from, bs); }
    }
  }

  /** The books after an event, from what it does to each of their parts. */
  lemma BooksStep(
    g: Ledger, log: seq<Event>, e: Event, h: seq<Message>, more: seq<Message>, c: Option<Compaction>,
    d: Option<Compaction>, bs: seq<Batch>)
    requires Books(g, log, h, c, bs) && e.turn == g.turn
    requires EventMessages(e) == more && Missed(h + more) <= Missed(g.kept)
    requires e.Checkpoint? ==> e.digest == h
    requires e.Compacted? ==> Applies(e.view, h)
    requires d == if e.Compacted? then Some(e.view) else c
    ensures Books(g, log + [e], h + more, d, bs)
  {
    hide Live, StartIndex, Missed, EventMessages, Applies, Followed, ReplayIff, BatchesFit, InStep, SummariesIff,
      AllLogged;
    LiveStep(log, e, g.turn);
    DescribesLonger(d, h, more);
    ReplayIffStep(log, g.turn, g.from, h, g.missing, bs, e);
    FitLonger(log, log + [e], h, more, g.from, bs);
    LoggedLater(log, log + [e], g.turn, bs);
    FollowedStep(g, log, e, h, more);
    if g.missing == 0 {
      GrowTogether(log, Live(log, g.turn), h, g.from, bs, more);
      SummaryStep(log, g.turn, g.from, h, more, bs, e);
    }
  }

  /** Nothing that is read changes. */
  lemma PlainKeeps(g: Ledger, log: seq<Event>, e: Event, h: seq<Message>, c: Option<Compaction>, bs: seq<Batch>)
    requires Books(g, log, h, c, bs) && Plain(e) && e.turn == g.turn
    ensures Books(g, log + [e], h, c, bs)
  {
    hide Books, Missed, Describes, EventMessages;
    BooksMean(g, log, h, c, bs);
    assert h + [] == h;
    BooksStep(g, log, e, h, [], c, c, bs);
  }

  lemma BooksMean(g: Ledger, log: seq<Event>, h: seq<Message>, c: Option<Compaction>, bs: seq<Batch>)
    requires Books(g, log, h, c, bs)
    ensures Missed(h) <= Missed(g.kept) && StartIndex(log, g.turn).Some? && Describes(c, h)
    ensures g.exclusive ==> bs == []
  {
    hide Missed, StartIndex, Describes;
  }

  /** A message goes to the log and to the history. */
  lemma PushKeeps(
    g: Ledger, log: seq<Event>, after: seq<Event>, h: seq<Message>, c: Option<Compaction>, bs: seq<Batch>, m: Message)
    requires Books(g, log, h, c, bs) && Recorded(log, after, g.turn, m) && (Settled(g, h) || !Asking(m))
    ensures Books(g, after, h + [m], c, bs)
  {
    hide Books, Missed, Open, EventMessages, Describes;
    BooksMean(g, log, h, c, bs);
    PushMisses(h, m);
    RecordedIs(log, after, g.turn, m);
    hide Recorded, Asking;
    BooksStep(g, log, after[|log|], h, [m], c, c, bs);
  }

  lemma RecordedIs(before: seq<Event>, after: seq<Event>, t: nat, m: Message)
    requires Recorded(before, after, t, m)
    ensures |after| == |before| + 1 && after == before + [after[|before|]] && after[|before|].turn == t
    ensures after[|before|].ItemCompleted? && EventMessages(after[|before|]) == [m]
  {
  }

  lemma CheckpointKeeps(
    g: Ledger, log: seq<Event>, step: nat, h: seq<Message>, c: Option<Compaction>, bs: seq<Batch>)
    requires Books(g, log, h, c, bs)
    ensures Books(g, log + [Checkpoint(g.turn, step, h)], h, c, bs)
  {
    hide Books, Missed, Describes;
    BooksMean(g, log, h, c, bs);
    assert h + [] == h;
    BooksStep(g, log, Checkpoint(g.turn, step, h), h, [], c, c, bs);
  }

  lemma CompactionKeeps(
    g: Ledger, log: seq<Event>, h: seq<Message>, c: Option<Compaction>, bs: seq<Batch>, view: Compaction)
    requires Books(g, log, h, c, bs) && Applies(view, h)
    ensures Books(g, log + [Compacted(g.turn, view)], h, Some(view), bs)
  {
    hide Books, Missed, Describes, Applies;
    BooksMean(g, log, h, c, bs);
    assert h + [] == h;
    BooksStep(g, log, Compacted(g.turn, view), h, [], c, Some(view), bs);
  }

  /* ---------- a batch ---------- */

  /** The log of a batch under way: what it gained so far, with the history still as before. */
  ghost predicate InBatch(g: Ledger, before: seq<Event>, log: seq<Event>, h: seq<Message>, added: seq<Message>) {
    && StartIndex(log, g.turn).Some? && Live(log, g.turn) == Live(before, g.turn) + added
    && Messages(log) == Messages(before) + added
    && Extends(before, log, g.turn) && Followed(g, log, h)
    && forall i :: |before| <= i < |log| ==> !log[i].Compacted? && (log[i].Checkpoint? ==> log[i].digest == h)
  }

  lemma InBatchStarts(g: Ledger, log: seq<Event>, h: seq<Message>, c: Option<Compaction>, bs: seq<Batch>)
    requires Books(g, log, h, c, bs)
    ensures InBatch(g, log, log, h, [])
  {
    hide Live, StartIndex, Followed, InStep, SummariesIff, ReplayIff, BatchesFit, Messages;
    assert Live(log, g.turn) + [] == Live(log, g.turn) && Messages(log) + [] == Messages(log);
  }

  lemma InBatchStep(
    g: Ledger, before: seq<Event>, log: seq<Event>, h: seq<Message>, added: seq<Message>, e: Event)
    requires InBatch(g, before, log, h, added) && ToolsOnly(EventMessages(e))
    requires e.turn == g.turn && !e.Compacted? && (e.Checkpoint? ==> e.digest == h)
    ensures InBatch(g, before, log + [e], h, added + EventMessages(e))
  {
    hide StartIndex, Live, EventMessages, Followed, ToolsOnly, Messages;
    LiveStep(log, e, g.turn);
    MessagesStep(log, e);
    Associate(Live(before, g.turn), added, EventMessages(e));
    Associate(Messages(before), added, EventMessages(e));
    FollowedMore(g, log, e, h);
  }

  /** The books after a batch: the log has the results in the order they came, the history in model order. */
  lemma BatchKeeps(
    g: Ledger, log: seq<Event>, after: seq<Event>, h: seq<Message>, c: Option<Compaction>, bs: seq<Batch>, b: Batch)
    requires Books(g, log, h, c, bs) && !g.exclusive && InBatch(g, log, after, h, Arrived(b))
    requires b.start == |log| && b.end == |after| && b.pos == |h| && WellFormed(b) && Logged(after, g.turn, b)
    requires ToolsOnly(Arrived(b)) && ToolsOnly(Entered(b)) && multiset(Arrived(b)) == multiset(Entered(b))
    ensures Books(g, after, h + Entered(b), c, bs + [b])
  {
    hide StartIndex, Live, Followed, InStep, SummariesIff, ReplayIff, BatchesFit, Arrived, Entered, ToolsOnly,
      WellFormed, Describes, Logged;
    LoggedLater(log, after, g.turn, bs);
    DescribesLonger(c, h, Entered(b));
    SameSize(Arrived(b), Entered(b));
    FitMore(log, after, h, g.from, bs, b);
    BatchReplays(g, log, after, h, c, bs, b);
    BatchFollowed(g, log, after, h, b);
    if g.missing == 0 {
      GrowByBatch(log, Live(log, g.turn), h, g.from, bs, b);
      BatchSummaries(log, after, g.turn, g.from, h, bs, b);
    }
  }

  lemma SameSize(a: seq<Message>, b: seq<Message>)
    requires multiset(a) == multiset(b)
    ensures |a| == |b|
  {
    assert |multiset(a)| == |multiset(b)|;
  }

  lemma BatchFollowed(g: Ledger, log: seq<Event>, after: seq<Event>, h: seq<Message>, b: Batch)
    requires Followed(g, log, h) && Followed(g, after, h) && Messages(after) == Messages(log) + Arrived(b)
    requires ToolsOnly(Arrived(b)) && ToolsOnly(Entered(b)) && multiset(Arrived(b)) == multiset(Entered(b))
    ensures Followed(g, after, h + Entered(b))
  {
    hide Messages, Missed, Covers, PassesOver, Arrived, Entered, ToolsOnly;
    CoversTools(g.kept, g.was, Messages(log), h, Arrived(b), Entered(b));
    ToolsKeepMissed(h, Entered(b));
  }

  lemma BatchSummaries(
    log: seq<Event>, after: seq<Event>, t: nat, from: nat, h: seq<Message>, bs: seq<Batch>, b: Batch)
    requires SummariesIff(log, t, from, h, bs) && log <= after && b.pos == |h|
    requires forall i :: |log| <= i < |after| ==> !after[i].Compacted?
    ensures SummariesIff(after, t, from, h + Entered(b), bs + [b])
  {
    hide Live, Agree, Applies, Entered;
    forall i | from <= i < |after| && after[i].Compacted?
      ensures after[i].view.count <= |h| && after[..i] == log[..i]
      ensures Agree(bs + [b], after[i].view.count) <==> Agree(bs, after[i].view.count)
    {
      assert after[i] == log[i];
      AgreeMore(bs, b, after[i].view.count);
    }
  }

  /** Checkpoints before the batch are as they were; those in it record the history from before it. */
  lemma BatchReplays(
    g: Ledger, log: seq<Event>, after: seq<Event>, h: seq<Message>, c: Option<Compaction>, bs: seq<Batch>, b: Batch)
    requires Books(g, log, h, c, bs) && Extends(log, after, g.turn) && b.start == |log| && b.end == |after|
    requires forall i :: |log| <= i < |after| && after[i].Checkpoint? ==> after[i].digest == h
    ensures ReplayIff(after, g.turn, g.from, g.missing == 0, bs + [b])
  {
    hide StartIndex, Live, Followed, SummariesIff, BatchesFit, Clean, Replays, TurnMessages, Aligned,
      AllAligned;
    forall i | g.from <= i < |after| && after[i].Checkpoint?
      ensures Replays(after, i) <==> g.missing == 0 && Clean(after, g.turn, bs + [b], i)
    {
      CleanMore(after, g.turn, bs, b, i);
      if i < |log| {
        ReplaysInPrefix(log, after, i);
        CleanLater(log, after, g.turn, bs, i);
      } else {
        InsideReplays(g, log, after, h, c, bs, i);
      }
    }
  }

  lemma InsideReplays(
    g: Ledger, log: seq<Event>, after: seq<Event>, h: seq<Message>, c: Option<Compaction>, bs: seq<Batch>, i: nat)
    requires Books(g, log, h, c, bs) && Extends(log, after, g.turn)
    requires |log| <= i < |after| && after[i].Checkpoint? && after[i].digest == h
    ensures Replays(after, i) <==>
      g.missing == 0 && Clean(after, g.turn, bs, i) && TurnMessages(after[|log|..i], g.turn) == []
  {
    hide StartIndex, Live, Followed, SummariesIff, InStep, ReplayIff, BatchesFit, Clean, Replays,
      TurnMessages, AllAligned;
    EarlierHistory(log, after, g.turn, i);
    FitLonger(log, after[..i], h, [], g.from, bs);
    assert h + [] == h;
    CleanPast(after, h, g.from, g.turn, bs, i);
    if g.missing == 0 { SameWhole(log, Live(log, g.turn), h, g.from, bs); }
  }

  /* ---------- counting ---------- */

  /** How many model calls the log records. */
  function Requests(log: seq<Event>): nat {
    if log == [] then 0 else Requests(log[..|log| - 1]) + if log[|log| - 1].ModelRequested? then 1 else 0
  }

  /** How many checkpoints it records. */
  function Steps(log: seq<Event>): nat {
    if log == [] then 0 else Steps(log[..|log| - 1]) + if log[|log| - 1].Checkpoint? then 1 else 0
  }

  lemma CountStep(log: seq<Event>, e: Event)
    ensures Requests(log + [e]) == Requests(log) + if e.ModelRequested? then 1 else 0
    ensures Steps(log + [e]) == Steps(log) + if e.Checkpoint? then 1 else 0
  {
    assert (log + [e])[..|log|] == log;
  }

  lemma RecordedCounts(before: seq<Event>, after: seq<Event>, t: nat, m: Message)
    requires Recorded(before, after, t, m)
    ensures Requests(after) == Requests(before) && Steps(after) == Steps(before)
  {
    CountStep(before, after[|before|]);
    assert after == before + [after[|before|]];
  }
}
