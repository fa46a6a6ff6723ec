/** What the end of a turn lets the next call do: resume it, or start another turn of the thread. */
module TurnEndings {
  import opened Options
  import opened ThreadLog
  import opened LoopBooks
  import opened LoopSteps
  import opened ParallelBatch
  import opened ThreadRuns
  import opened TurnRecords

  /** A suspended turn that a resumption may go on from. */
  ghost predicate Ready(log: seq<Event>, t: nat, exclusive: bool) {
    OnlySince(log, t) && Quiet(log, t) && (exclusive ==> Orphans(log, t) == [])
  }

  lemma ReadyToResume(log: seq<Event>, t: nat, exclusive: bool)
    requires Ready(log, t, exclusive)
    ensures StartIndex(log, t).Some?
  {
    hide Orphans, Asks;
    OnlyIsStarted(log, t);
  }

  lemma RunKeepsSound(before: seq<Event>, after: seq<Event>, t: nat, bs: seq<Batch>, was: bool, steady: bool)
    requires Sound(before, was) && Began(before, after, t, bs, true) && (steady ==> Unmixed(after, t, bs))
    ensures Sound(after, was && steady)
  {
    hide Began, Unmixed, Messages, Answers, Asks, Replay, AllSummarize;
    SoundLess(before, was, was && steady);
    assert before[..|before|] == before;
    CallKeepsSound(Begin(t, true), before, after, bs, was && steady);
  }

  lemma ResumeKeepsSound(before: seq<Event>, after: seq<Event>, t: nat, bs: seq<Batch>, was: bool, steady: bool)
    requires Sound(before, was) && Continued(before, after, t, bs) && Ready(before, t, false) && (steady ==> was)
    requires steady ==> Unmixed(after, t, bs) && Orphans(before, t) == []
    ensures Sound(after, steady)
  {
    hide Continued, Unmixed, OnlySince, Orphans, Asks, Messages, Answers, Committed, Replay, AllSummarize, Ids;
    SoundLess(before, was, steady);
    NothingNew(before, t, was);
    CallKeepsSound(GoOn(t), before, after, bs, steady);
  }

  /** Without an asking message among its orphans, the last turn of a tidy thread takes up all its calls. */
  lemma NothingNew(log: seq<Event>, t: nat, steady: bool)
    requires Sound(log, steady) && OnlySince(log, t) && Asks(Orphans(log, t)) == []
    ensures NotTaken(GoOn(t), log) <= Answers(Messages(log))
  {
    hide OnlySince, Orphans, Asks, Messages, Answers, Committed, Replay, AllSummarize, Live;
    OnlyIsStarted(log, t);
    LiveIsCommittedAndOrphans(log, t);
    LiveIsThread(log, t);
    AsksSplit(Committed(log, t), Orphans(log, t));
    assert log[..|log|] == log;
    var taken := Committed(log, t);
    assert Asks(Messages(log)) == Asks(taken) + [] == Asks(taken);
    assert Tidy(Messages(log[..|log|]));
    hide Ids, AllTidy, Sound;
    forall id | id in Missed(taken) ensures id in Answers(Messages(log)) {
      assert id !in Missed(Messages(log));
    }
  }

  lemma SoundLess(log: seq<Event>, was: bool, steady: bool)
    requires Sound(log, was) && (steady ==> was)
    ensures Sound(log, steady)
  {
    hide AllTidy, Replay, AllSummarize;
  }

  lemma ExclusiveStaysSteady(
    before: seq<Event>, after: seq<Event>, t: nat, bs: seq<Batch>, steady: bool, now: bool, exclusive: bool)
    requires Ready(before, t, exclusive) && (exclusive ==> steady && bs == [])
    requires now == (steady && Orphans(before, t) == [] && Unmixed(after, t, bs))
    ensures exclusive ==> now
  {
    ExclusiveIsUnmixed(after, t);
    hide Orphans, Unmixed, OnlySince, Asks;
  }

  lemma AloneHasNoOrphans(log: seq<Event>, t: nat, id: nat)
    requires SuspendedAlone(log, t, id)
    ensures Orphans(log, t) == []
  {
    NoOrphans(log, t);
    hide Orphans;
  }

  lemma ClosedIsReady(
    before: seq<Event>, after: seq<Event>, t: nat, bs: seq<Batch>, r: TurnResult, exclusive: bool)
    requires Began(before, after, t, bs, true) && Closed(after, t, r, bs) && (exclusive ==> bs == [])
    ensures r.Suspended? ==> Ready(after, t, exclusive)
  {
    hide Orphans, OnlySince, Asks, LastCheckpoint, EndsInBatch;
    if r.Suspended? && exclusive {
      AloneHasNoOrphans(after, t, r.approvalId);
    }
  }

  lemma ClosedStaysReady(
    before: seq<Event>, after: seq<Event>, t: nat, bs: seq<Batch>, r: TurnResult, exclusive: bool)
    requires Continued(before, after, t, bs) && OnlySince(before, t) && Closed(after, t, r, bs)
    requires exclusive ==> bs == []
    ensures r.Suspended? ==> Ready(after, t, exclusive)
  {
    hide Orphans, OnlySince, Asks, LastCheckpoint, EndsInBatch, Extends;
    ExtendsOnly(before, after, t);
    if r.Suspended? && exclusive {
      AloneHasNoOrphans(after, t, r.approvalId);
    }
  }

  lemma BeganExtends(before: seq<Event>, after: seq<Event>, t: nat, carry: bool, bs: seq<Batch>)
    requires Began(before, after, t, bs, carry)
    ensures before <= after && forall i :: |before| <= i < |after| ==> after[i].turn == t
  {
  }

  lemma ContinuedExtends(before: seq<Event>, after: seq<Event>, t: nat, bs: seq<Batch>)
    requires Continued(before, after, t, bs)
    ensures before <= after && forall i :: |before| <= i < |after| ==> after[i].turn == t
  {
  }

  lemma StartedIsKnown(log: seq<Event>, t: nat, newest: nat)
    requires StartIndex(log, t).Some? && forall i :: 0 <= i < |log| ==> log[i].turn < newest
    ensures t < newest
  {
    StartMeans(log, t);
    hide StartIndex;
  }

  /** With exclusive tools, new checkpoints are unspoiled exactly if nothing was orphaned, or there are none. */
  lemma ExclusiveUnspoiled(before: seq<Event>, after: seq<Event>, t: nat)
    ensures Unspoiled(GoOn(t), before, after, []) <==>
      Orphans(before, t) == [] || forall i :: |before| <= i < |after| ==> !after[i].Checkpoint?
  {
    hide Orphans;
  }

  /* ---------- a crash right after a message that calls tools ---------- */

  /**
   * A turn that crashed after the model's message was logged and before its checkpoint can be recovered. It then
   * asks again, and the first call is passed over: the thread was sound, and is no longer tidy.
   */
  lemma CrashAfterAsking(one: Call, two: Call, left: seq<Event>, after: seq<Event>, exclusive: bool)
    requires left == Opening([], 0, 0, "hi") + [ItemCompleted(0, MessageItem(1, AssistantRole, "", [one]))]
    requires after == left + [ItemCompleted(0, MessageItem(2, AssistantRole, "", [two]))]
    ensures Sound(left, true)
    ensures FoundTurn(OfTurn(left, 0)) == Some(Active) && DigestPasses(left, 0)
    ensures FirstWaiting(OfTurn(left, 0), |OfTurn(left, 0)|).None?
    ensures Books(RebuiltLedger(left, 0, exclusive), after, [Assistant("", [two])], None, [])
    ensures Did(GoOn(0), left, after, []) && Missed(Messages(after)) == {one.callId} && !AllTidy(after)
  {
    hide Messages, Live, Committed, Orphans, Books, OfTurn, FoundTurn, FirstWaiting, Missed, OnlySince, StartIndex,
      LastCheckpoint, Continued, Sound;
    AskedAndCrashed(one, left);
    OnlyIsStarted(left, 0);
    RecoversToNothing(left);
    RebuiltBooks(left, 0, exclusive);
    AsksAgain(two, left, after, exclusive);
    RebuiltLeaves(left, after, 0, exclusive, [Assistant("", [two])], None, []);
    PassedOver(one, two, left, after);
    assert after[..|after|] == after;
    OneAskIsSound(left);
    assert !Tidy(Messages(after[..|after|]));
  }

  /** A turn that started and asked, without a checkpoint, a summary, an approval or an end. */
  predicate JustAsked(log: seq<Event>) {
    && |log| == 4 && log[0] == TurnStarted(0)
    && forall i :: 0 < i < 4 ==>
      && log[i].turn == 0 && (log[i].ItemCompleted? || (log[i].ItemStarted? && !log[i].item.ApprovalItem?))
  }

  lemma AskedAndCrashed(one: Call, left: seq<Event>)
    requires left == Opening([], 0, 0, "hi") + [ItemCompleted(0, MessageItem(1, AssistantRole, "", [one]))]
    ensures JustAsked(left) && OnlySince(left, 0) && StartIndex(left, 0) == Some(0)
    ensures Asks(Messages(left)) == [[one]] && Answers(Messages(left)) == {}
  {
    hide Messages, Asks, Answers;
    var item := MessageItem(0, UserRole, "hi", []);
    var asked := MessageItem(1, AssistantRole, "", [one]);
    var begun := [] + [TurnStarted(0)] + [ItemStarted(0, item)];
    assert left == begun + [ItemCompleted(0, item)] + [ItemCompleted(0, asked)];
    JustStarted(left);
    AskedOnly(begun, item, asked, one);
  }

  lemma JustStarted(log: seq<Event>)
    requires JustAsked(log)
    ensures OnlySince(log, 0) && StartIndex(log, 0) == Some(0)
  {
    StartMeans(log, 0);
    hide StartIndex;
  }

  lemma AskedOnly(begun: seq<Event>, item: Item, asked: Item, one: Call)
    requires begun == [] + [TurnStarted(0)] + [ItemStarted(0, item)]
    requires ItemMessages(item) == [User("hi")] && ItemMessages(asked) == [Assistant("", [one])]
    ensures var h := Messages(begun + [ItemCompleted(0, item)] + [ItemCompleted(0, asked)]);
      Asks(h) == [[one]] && Answers(h) == {}
  {
    hide Messages, Asks, Answers, ItemMessages;
    NoMessages();
    NothingAsked();
    MessagesStep([], TurnStarted(0));
    MessagesStep([] + [TurnStarted(0)], ItemStarted(0, item));
    MessagesStep(begun, ItemCompleted(0, item));
    MessagesStep(begun + [ItemCompleted(0, item)], ItemCompleted(0, asked));
    assert Messages(begun) == [];
    AsksStep([], User("hi"));
    AsksStep([] + [User("hi")], Assistant("", [one]));
  }

  /** Without a checkpoint the turn starts over, from what was there before it. */
  lemma RecoversToNothing(left: seq<Event>)
    requires OnlySince(left, 0) && StartIndex(left, 0) == Some(0) && JustAsked(left)
    ensures FoundTurn(OfTurn(left, 0)) == Some(Active) && DigestPasses(left, 0)
    ensures FirstWaiting(OfTurn(left, 0), |OfTurn(left, 0)|).None?
    ensures Committed(left, 0) == [] && Loaded(left, []) == None && Orphans(left, 0) == Messages(left)
  {
    hide Messages, Waiting, StartIndex, OfTurn, FirstWaiting, FoundTurn, Loaded, LastCheckpoint;
    AllOfTurn(left, 0);
    LastMeans(left, 0);
    NoMessages();
    JustAskedIsActive(left);
    JustAskedWaits(left);
    assert left[..0] == [];
  }

  lemma JustAskedIsActive(log: seq<Event>)
    requires JustAsked(log)
    ensures FoundTurn(log) == Some(Active) && Loaded(log, []) == None
  {
    for n := 0 to 4
      invariant Loaded(log[..n], []) == None
      invariant FoundTurn(log[..n]) == if n == 0 then None else Some(Active)
    {
      assert log[..n + 1][..n] == log[..n];
    }
    assert log[..4] == log;
  }

  lemma JustAskedWaits(log: seq<Event>)
    requires JustAsked(log)
    ensures FirstWaiting(log, |log|).None?
  {
    hide FirstWaiting, OpenTool, CompletedIds;
    FirstWaitingNone(log);
    for n := 0 to 4
      invariant FirstWaiting(log, n).None?
    {
      NextWaits(log, n);
      assert Waiting(log, log[n]).None?;
    }
  }

  lemma FirstWaitingNone(events: seq<Event>)
    ensures FirstWaiting(events, 0).None?
  {
  }

  lemma AsksAgain(two: Call, left: seq<Event>, after: seq<Event>, exclusive: bool)
    requires Books(RebuiltLedger(left, 0, exclusive), left, [], None, [])
    requires after == left + [ItemCompleted(0, MessageItem(2, AssistantRole, "", [two]))]
    ensures Books(RebuiltLedger(left, 0, exclusive), after, [Assistant("", [two])], None, [])
  {
    hide Books, Messages, Live, Committed, Orphans, Missed;
    NothingAsked();
    assert Open([]) == {};
    PushKeeps(RebuiltLedger(left, 0, exclusive), left, after, [], None, [], Assistant("", [two]));
    assert [] + [Assistant("", [two])] == [Assistant("", [two])];
  }

  lemma PassedOver(one: Call, two: Call, left: seq<Event>, after: seq<Event>)
    requires Asks(Messages(left)) == [[one]] && Answers(Messages(left)) == {}
    requires after == left + [ItemCompleted(0, MessageItem(2, AssistantRole, "", [two]))]
    ensures Missed(Messages(after)) == {one.callId}
  {
    hide Messages, Asks, Answers;
    MessagesStep(left, after[|left|]);
    AsksStep(Messages(left), Assistant("", [two]));
    assert AllButLast([[one]] + [[two]]) == [[one]] && [one] in [[one]] && one in [one];
    assert Ids([[one]]) == {one.callId};
  }

  /** With one message that calls tools, and no checkpoint or summary, all is well. */
  lemma OneAskIsSound(log: seq<Event>)
    requires |Asks(Messages(log))| <= 1
    requires forall i :: 0 <= i < |log| ==> !log[i].Checkpoint? && !log[i].Compacted?
    ensures Sound(log, true)
  {
    hide Messages, Asks, Answers, Replays;
    forall n | 0 <= n <= |log| ensures Tidy(Messages(log[..n])) {
      assert log == log[..n] + log[n..];
      MessagesSplit(log[..n], log[n..]);
      AsksSplit(Messages(log[..n]), Messages(log[n..]));
      assert AllButLast(Asks(Messages(log[..n]))) == [];
    }
  }

  /** A call once passed over stays so, whatever is logged later, until it is answered. */
  lemma PassedOverStays(before: seq<Event>, after: seq<Event>, id: nat)
    requires before <= after && id in Missed(Messages(before))
    ensures id in Missed(Messages(after)) || id in Answers(Messages(after))
  {
    hide Messages, Asks, Answers, Ids;
    var more := after[|before|..];
    assert after == before + more;
    MessagesSplit(before, more);
    AsksSplit(Messages(before), Messages(more));
    AllButFirst(Asks(Messages(before)), Asks(Messages(more)));
  }

  lemma AllButFirst(a: seq<seq<Call>>, b: seq<seq<Call>>)
    ensures Ids(AllButLast(a)) <= Ids(AllButLast(a + b))
  {
    assert forall k :: 0 <= k < |a| - 1 ==> AllButLast(a + b)[k] == a[k];
  }

  /* ---------- whether a suspended turn can be resumed ---------- */

  lemma StartsBeforeBatch(before: seq<Event>, after: seq<Event>, t: nat, b: Batch)
    requires Extends(before, after, t) && OnlySince(after, t) && EndsInBatch(after, t, b)
    requires |before| <= b.start < |after|
    requires !after[b.start].TurnStarted?
    ensures StartIndex(after, t).Some? && StartIndex(after, t).value < b.start
  {
    hide WellFormed, Logged, StartIndex;
    StartMeans(after, t);
  }

  /** The first event of a batch with a suspension is no start of a turn. */
  lemma BatchOpens(log: seq<Event>, t: nat, b: Batch)
    requires Logged(log, t, b) && |b.order| > 0
    ensures b.start < |log| && !log[b.start].TurnStarted?
  {
    NothingYet(b);
    assert ArrivalAt(log, t, PlaceOf(b, 0), b.intents[b.order[0]], b.outcomes[b.order[0]]);
  }

  /**
   * A new turn that suspends in its last batch: the approval it returns resumes it exactly when the turn knew its
   * thread, its earlier batches are aligned, the first call to ask in model order was also the first to ask, and
   * no sibling's result was logged before the last suspension.
   */
  lemma BatchSuspensionResumes(
    before: seq<Event>, after: seq<Event>, t: nat, carry: bool, bs: seq<Batch>, b: Batch, approvalId: nat)
    returns (asked: nat, first: nat, last: nat)
    requires Began(before, after, t, bs + [b], carry) && EndsInBatch(after, t, b) && Findable(after, t, b)
    requires Returns(b, Suspended(approvalId))
    ensures IsFirstAsked(b, asked) && IsFirstStop(b, first) && IsLastStop(b, last)
    ensures Resumable(after, t, approvalId) <==>
      Knows(before, carry) && AllAligned(bs) && b.order[first] == asked && NoReplyBefore(b, last)
  {
    hide ReplayIff, SummariesFrom, PassedFrom, AllLogged, OnlySince, StartIndex, Resumable, Findable, NoReplyBefore,
      Logged, WellFormed, Suspends, AllAligned, Messages;
    asked, first, last := ReturnedFirst(b, approvalId);
    LastIsLast(after, |before|, bs, b);
    BatchOpens(after, t, b);
    StartsBeforeBatch(before, after, t, b);
    BatchIsResumable(after, t, |before|, Knows(before, carry), bs, b, asked, first, last);
  }

  lemma ReturnedFirst(b: Batch, approvalId: nat) returns (asked: nat, first: nat, last: nat)
    requires WellFormed(b) && Returns(b, Suspended(approvalId))
    ensures IsFirstAsked(b, asked) && b.outcomes[asked].result == Suspended(approvalId)
    ensures IsFirstStop(b, first) && IsLastStop(b, last)
  {
    hide WellFormed;
    var i :| IsFirstAsked(b, i) && b.outcomes[i].result == Suspended(approvalId);
    asked, first, last := SuspensionsExist(b, i);
  }

  lemma LastIsLast(log: seq<Event>, from: nat, bs: seq<Batch>, b: Batch)
    requires InOrder(log, from, bs + [b])
    ensures from <= b.start <= |log| && forall k :: 0 <= k < |bs| ==> bs[k].end <= b.start
  {
    hide WellFormed;
    var all := bs + [b];
    assert all[|bs|] == b && forall k :: 0 <= k < |bs| ==> all[k] == bs[k];
  }

  /**
   * A new turn that a call running alone suspends, with nothing else waiting: the approval it returns resumes
   * it exactly when the turn knew its thread, its batches are aligned, and it started the tool item of the call.
   */
  lemma AloneSuspensionResumes(
    before: seq<Event>, after: seq<Event>, t: nat, carry: bool, bs: seq<Batch>, approvalId: nat, front: seq<Event>,
    asked: Event)
    requires Began(before, after, t, bs, carry) && SuspendedAlone(after, t, approvalId)
    requires front == after[..|after| - 2] && asked == after[|after| - 2] && asked.item.pending
    requires |front| > |before| && forall k :: 0 <= k < |bs| ==> bs[k].end <= |front|
    requires var events := OfTurn(front, t);
      asked.item.id !in CompletedIds(events) && FirstWaiting(events, |events|).None?
    ensures var events := OfTurn(front, t);
      Resumable(after, t, approvalId) <==>
        Knows(before, carry) && AllAligned(bs) && OpenTool(events, CompletedIds(events), asked.item.callId).Some?
  {
    hide ReplayIff, SummariesFrom, PassedFrom, AllLogged, OnlySince, StartIndex, FirstWaiting, OpenTool, CompletedIds,
      OfTurn, LastCheckpoint, Committed, AllAligned, Messages;
    var taken, i := after[|after| - 1], |after| - 1;
    var events := OfTurn(front, t);
    assert after == front + [asked, taken] && asked.turn == t;
    OwnTwo(front, t, asked, taken);
    SuspendedIsResumable(events, t, asked.item.id, approvalId, asked.item.callId, taken.stepIndex, taken.digest);
    LastOfAll(after, t);
    CleanAfterAll(after, t, bs, i);
    CheckpointAt(after, t, |before|, Knows(before, carry), bs, i);
    StartsEarly(before, after, t, i);
    ReplayedIsCommitted(after, t, i);
  }

  lemma CheckpointAt(log: seq<Event>, t: nat, from: nat, whole: bool, bs: seq<Batch>, i: nat)
    requires ReplayIff(log, t, from, whole, bs) && from <= i < |log| && log[i].Checkpoint?
    ensures Replays(log, i) <==> whole && Clean(log, t, bs, i)
  {
    hide Replays, Clean;
  }

  lemma LastOfAll(log: seq<Event>, t: nat)
    requires |log| > 0 && log[|log| - 1].Checkpoint? && log[|log| - 1].turn == t
    ensures LastCheckpoint(log, t) == Some(|log| - 1)
  {
  }

  lemma StartsEarly(before: seq<Event>, after: seq<Event>, t: nat, i: nat)
    requires Extends(before, after, t) && OnlySince(after, t) && |before| < i < |after|
    ensures StartIndex(after, t).Some? && StartIndex(after, t).value < i
  {
    hide StartIndex;
    assert after[|before|].turn == t;
  }

  lemma OwnTwo(front: seq<Event>, t: nat, asked: Event, taken: Event)
    requires asked.turn == t && taken.turn == t
    ensures OfTurn(front + [asked, taken], t) == OfTurn(front, t) + [asked, taken]
  {
    OfTurnSplit(front, [asked, taken], t);
    AllOfTurn([asked, taken], t);
    hide OfTurn;
  }
}
