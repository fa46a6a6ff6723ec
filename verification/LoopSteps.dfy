/**
 * The parts of the step loop as facts about values: what it runs, what each step does to log, history and
 * batches, and how a turn ends.
 */
module LoopSteps {
  import opened Options
  import opened ThreadLog
  import opened LoopBooks
  import opened ParallelBatch
  import opened ThreadRuns
  import opened TurnRecords
  import ContextPolicy

  datatype Settings = Settings(
    maxSteps: int, maxRetries: int, modelMax: nat, maxOutputTokens: Option<nat>, carry: bool, maxParallel: nat,
    results: ContextPolicy.Policy, keepRecent: nat, maxAttempts: nat, minCovered: nat)

  datatype Stop = EndTurn | Decision | MaxTokens | ToolCalls

  /** Errors the runtime knows to be worth another try, those it knows not to be, and all others. */
  datatype Fault = Retryable | Final | Foreign

  /**
   * What one model call may do: fail before it streams, break off in the middle of the stream, fail at its end,
   * be cancelled, or answer.
   */
  datatype Ending =
    | NoStream(fault: Fault) | Torn(fault: Fault) | Broken(fault: Fault) | CallCancelled
    | Finished(stop: Stop, output: string)

  datatype Reply = Reply(content: string, calls: seq<Call>, ending: Ending)

  datatype Generation =
    | Generated(stop: Stop, itemId: nat, content: string, intents: seq<Intent>, output: string)
    | GenerationFailed
    | GenerationCancelled

  datatype Attempted = Got(generation: Generation) | Threw(fault: Fault)

  datatype ToolOutcome = ToolResult(result: Result) | ToolThrew(error: string) | ApprovalRequired(approvalId: nat)

  datatype Segment = Segment(parallel: bool, intents: seq<Intent>)

  datatype Rebuilt =
    | State(history: seq<Message>, stepIndex: nat,
        compaction: Option<Compaction>, status: Status, pending: Option<Pending>)
    | NoTurn
    | Mismatch

  /** What running some intents does to the log, the history and the batches, whether or not it ends the turn. */
  ghost predicate Ran(
    before: seq<Event>, after: seq<Event>, g: Ledger, h: seq<Message>, now: seq<Message>, bs: seq<Batch>,
    intents: seq<Intent>, terminal: Option<TurnResult>, results: seq<Message>)
  {
    && Extends(before, after, g.turn) && now == h + results && ToolsOnly(results)
    && (terminal.None? ==> Answering(results, intents) && Steps(after) == Steps(before))
    && (terminal.Some? ==> Closed(after, g.turn, terminal.value, bs))
    && (terminal.Some? && terminal.value.Ended? ==> terminal.value.status == Cancelled)
    && Requests(after) == Requests(before)
  }

  lemma RanNothing(log: seq<Event>, g: Ledger, h: seq<Message>, bs: seq<Batch>, intents: seq<Intent>)
    ensures Ran(log, log, g, h, h, bs, intents[..0], None, [])
  {
  }

  lemma RanEnded(
    start: seq<Event>, before: seq<Event>, after: seq<Event>, g: Ledger, h: seq<Message>, now: seq<Message>,
    bs: seq<Batch>, intents: seq<Intent>, n: nat, results: seq<Message>, r: TurnResult)
    requires n <= |intents| && Ran(start, before, g, h, now, bs, intents[..n], None, results)
    requires r.Ended? && r.status == Cancelled && after == before + [TurnEnded(g.turn, r.status)]
    ensures Ran(start, after, g, h, now, bs, intents, Some(r), results)
  {
    hide Requests, Steps;
    CountStep(before, TurnEnded(g.turn, r.status));
  }

  lemma RanSuspended(
    start: seq<Event>, before: seq<Event>, after: seq<Event>, g: Ledger, h: seq<Message>, now: seq<Message>,
    bs: seq<Batch>, intents: seq<Intent>, n: nat, results: seq<Message>, callId: nat, r: TurnResult)
    requires n <= |intents| && Ran(start, before, g, h, now, bs, intents[..n], None, results)
    requires SuspendedLog(before, after, g.turn, now, callId, r)
    ensures Ran(start, after, g, h, now, bs, intents, Some(r), results)
  {
    hide Orphans, Asks, Requests, Steps, LastCheckpoint, ToolsOnly, SuspendedInBatch;
    NoOrphans(after, g.turn);
    NothingAsked();
    EndsOnCheckpoint(after, g.turn);
    SuspensionCounts(before, after, g.turn, now, callId, r);
  }

  lemma EndsOnCheckpoint(log: seq<Event>, t: nat)
    requires |log| > 0 && log[|log| - 1].Checkpoint? && log[|log| - 1].turn == t
    ensures LastCheckpoint(log, t).Some?
  {
  }

  lemma SuspensionCounts(before: seq<Event>, after: seq<Event>, t: nat, h: seq<Message>, callId: nat, r: TurnResult)
    requires SuspendedLog(before, after, t, h, callId, r)
    ensures Requests(after) == Requests(before)
  {
    hide Requests, Steps;
    var asked, taken := after[|before|], after[|before| + 1];
    CountStep(before, asked);
    CountStep(before + [asked], taken);
    assert after == before + [asked] + [taken];
  }

  lemma RanMore(
    start: seq<Event>, before: seq<Event>, after: seq<Event>, g: Ledger, h: seq<Message>, now: seq<Message>,
    bs: seq<Batch>, intents: seq<Intent>, n: nat, results: seq<Message>, o: Outcome)
    requires n < |intents| && Ran(start, before, g, h, now, bs, intents[..n], None, results)
    requires Replies(o, intents[n]) && Recorded(before, after, g.turn, o.message)
    ensures Ran(start, after, g, h, now + [o.message], bs, intents[..n + 1], None, results + [o.message])
  {
    hide Closed, Requests, Steps;
    RecordedCounts(before, after, g.turn, o.message);
    assert now + [o.message] == h + (results + [o.message]);
  }

  /** One run of intents after another. */
  lemma RanBoth(
    start: seq<Event>, before: seq<Event>, after: seq<Event>, g: Ledger, h: seq<Message>, mid: seq<Message>,
    now: seq<Message>, was: seq<Batch>, bs: seq<Batch>, first: seq<Intent>, second: seq<Intent>,
    terminal: Option<TurnResult>, results: seq<Message>, more: seq<Message>)
    requires Ran(start, before, g, h, mid, was, first, None, results)
    requires Ran(before, after, g, mid, now, bs, second, terminal, more)
    ensures Ran(start, after, g, h, now, bs, first + second, terminal, results + more)
  {
    hide Closed, Requests, Steps;
    Associate(h, results, more);
  }

  lemma SuspensionKeeps(
    g: Ledger, before: seq<Event>, after: seq<Event>, h: seq<Message>, c: Option<Compaction>, bs: seq<Batch>,
    callId: nat, r: TurnResult)
    requires Books(g, before, h, c, bs) && SuspendedLog(before, after, g.turn, h, callId, r)
    ensures Books(g, after, h, c, bs)
  {
    hide Books;
    var asked, taken := after[|before|], after[|before| + 1];
    PlainKeeps(g, before, asked, h, c, bs);
    CheckpointKeeps(g, before + [asked], taken.stepIndex, h, c, bs);
    assert after == before + [asked] + [taken];
  }

  lemma ReplyKeeps(
    g: Ledger, before: seq<Event>, after: seq<Event>, h: seq<Message>, c: Option<Compaction>, bs: seq<Batch>,
    o: Outcome, intent: Intent)
    requires Books(g, before, h, c, bs) && Replies(o, intent) && Recorded(before, after, g.turn, o.message)
    ensures Books(g, after, h + [o.message], c, bs)
  {
    hide Books, Recorded, Settled;
    PushKeeps(g, before, after, h, c, bs, o.message);
  }

  predicate OutcomesOk(outcomes: map<nat, Outcome>, batch: seq<Intent>) {
    forall i :: i in outcomes ==>
      i < |batch| && if outcomes[i].Replied? then Replies(outcomes[i], batch[i]) else outcomes[i].result.Suspended?
  }

  lemma Arrives(
    g: Ledger, start: seq<Event>, before: seq<Event>, after: seq<Event>, h: seq<Message>,
    added: seq<Message>, o: Outcome, intent: Intent)
    requires InBatch(g, start, before, h, added)
    requires o.Replied? ==> Replies(o, intent) && Recorded(before, after, g.turn, o.message)
    requires o.Stopped? ==> SuspendedLog(before, after, g.turn, h, intent.call.callId, o.result)
    ensures InBatch(g, start, after, h, added + MessageOf(o))
  {
    hide InBatch;
    var e := after[|before|];
    InBatchStep(g, start, before, h, added, e);
    if o.Replied? {
      assert after == before + [e];
    } else {
      var taken := after[|before| + 1];
      InBatchStep(g, start, before + [e], h, added + EventMessages(e), taken);
      assert added + [] == added;
      assert after == before + [e] + [taken];
    }
  }

  /** The first k arrivals have their outcome, they are in the log, and their messages are what it gained. */
  ghost predicate Settling(log: seq<Event>, t: nat, b: Batch, k: nat, added: seq<Message>) {
    && k <= |b.order| && OutcomesOk(b.outcomes, b.intents)
    && (forall i: nat :: i in b.outcomes <==> i in b.order[..k])
    && added == Picked(b.outcomes, b.order[..k])
    && LoggedUpTo(log, t, b, k) && |log| == PlaceOf(b, k)
  }

  /** A suspension leaves nothing after its checkpoint; a result logged later leaves no new call there. */
  lemma OutcomeIsQuiet(
    before: seq<Event>, after: seq<Event>, t: nat, h: seq<Message>, o: Outcome, intent: Intent, stopped: bool)
    requires o.Replied? ==> Replies(o, intent) && Recorded(before, after, t, o.message)
    requires o.Stopped? ==> SuspendedLog(before, after, t, h, intent.call.callId, o.result)
    requires stopped ==> Quiet(before, t)
    ensures o.Stopped? ==> o.result.Suspended?
    ensures stopped || o.Stopped? ==> Quiet(after, t)
  {
    hide Orphans, Asks, Answers, LastCheckpoint;
    if o.Stopped? {
      NoOrphans(after, t);
      NothingAsked();
      EndsOnCheckpoint(after, t);
    } else if stopped {
      assert after == before + [after[|before|]];
      OrphansStep(before, after[|before|], t);
      AsksStep(Orphans(before, t), o.message);
    }
  }

  /** There is a checkpoint to go on from, and no call was logged after the last one. */
  predicate Quiet(log: seq<Event>, t: nat) { LastCheckpoint(log, t).Some? && Asks(Orphans(log, t)) == [] }

  /** How a dispatched intent is in the log. */
  predicate Dispatched(before: seq<Event>, after: seq<Event>, t: nat, h: seq<Message>, intent: Intent, o: Outcome) {
    && (o.Replied? ==>
          && Replies(o, intent) && Recorded(before, after, t, o.message)
          && AnswersCall(after[|before|], t, intent.itemId, intent.call))
    && (o.Stopped? ==> SuspendedLog(before, after, t, h, intent.call.callId, o.result))
  }

  lemma DispatchArrives(before: seq<Event>, after: seq<Event>, t: nat, h: seq<Message>, intent: Intent, o: Outcome)
    requires Dispatched(before, after, t, h, intent, o)
    ensures before <= after && |after| == |before| + Width(o) && ArrivalAt(after, t, |before|, intent, o)
  {
  }

  lemma OutcomeAdds(
    before: seq<Event>, after: seq<Event>, t: nat, h: seq<Message>, b: Batch, k: nat, o: Outcome, added: seq<Message>)
    requires multiset(b.order) == multiset(Upto(|b.intents|)) && k < |b.intents| == |b.order|
    requires b.order[k] < |b.intents|
    requires Settling(before, t, b, k, added) && Dispatched(before, after, t, h, b.intents[b.order[k]], o)
    requires o.Stopped? ==> o.result.Suspended?
    ensures Settling(after, t, b.(outcomes := b.outcomes[b.order[k] := o]), k + 1, added + MessageOf(o))
    ensures NoneStopped(b.outcomes[b.order[k] := o]) <==> NoneStopped(b.outcomes) && o.Replied?
  {
    hide Picked, Upto, Replies, NoneStopped, LoggedUpTo, PlaceOf, ArrivalAt, Recorded, SuspendedLog, AnswersCall;
    ArrivalOnce(b.order, |b.intents|);
    var more := b.outcomes[b.order[k] := o];
    assert b.order[..k + 1] == b.order[..k] + [b.order[k]];
    forall i | i in b.order[..k] ensures i != b.order[k] {
      var j :| 0 <= j < k && b.order[j] == i;
    }
    assert b.order[k] !in b.outcomes;
    NoneStoppedStep(b.outcomes, b.order[k], o);
    DispatchArrives(before, after, t, h, b.intents[b.order[k]], o);
    ArrivalLogged(before, after, t, b, k, o);
    PickedStep(more, b.order, k);
    PickedFrame(b.outcomes, more, b.order[..k]);
  }

  lemma BatchRan(
    g: Ledger, before: seq<Event>, after: seq<Event>, h: seq<Message>, now: seq<Message>, c: Option<Compaction>,
    bs: seq<Batch>, b: Batch, terminal: Option<TurnResult>)
    requires Books(g, before, h, c, bs) && !g.exclusive && InBatch(g, before, after, h, Arrived(b))
    requires b.start == |before| && b.end == |after| && b.pos == |h| && WellFormed(b) && Logged(after, g.turn, b)
    requires ToolsOnly(Arrived(b)) && ToolsOnly(Entered(b)) && multiset(Arrived(b)) == multiset(Entered(b))
    requires now == h + Entered(b)
    requires terminal.Some? ==>
      terminal.value.Suspended? && Quiet(after, g.turn) && Returns(b, terminal.value)
    requires terminal.None? ==> Answering(Entered(b), b.intents) && Steps(after) == Steps(before)
    requires Requests(after) == Requests(before)
    ensures Books(g, after, now, c, bs + [b])
    ensures Ran(before, after, g, h, now, bs + [b], b.intents, terminal, Entered(b))
    ensures Live(after, g.turn) == Live(before, g.turn) + Arrived(b)
    ensures forall i :: |before| <= i < |after| && after[i].Checkpoint? ==> after[i].digest == h
  {
    hide Live, Books, Requests, Steps, ToolsOnly, StartIndex, Answering, Arrived, Entered, Followed, WellFormed, Logged,
      Orphans, Asks, LastCheckpoint, Returns;
    BatchKeeps(g, before, after, h, c, bs, b);
  }

  /** A batch under way: the log, the outcomes so far, and whether one of them suspended the turn. */
  ghost predicate Batched(
    g: Ledger, start: seq<Event>, log: seq<Event>, h: seq<Message>, b: Batch, k: nat,
    added: seq<Message>, stopped: bool)
  {
    && InBatch(g, start, log, h, added) && Settling(log, g.turn, b, k, added)
    && Requests(log) == Requests(start)
    && (stopped <==> !NoneStopped(b.outcomes))
    && if stopped then Quiet(log, g.turn) else Steps(log) == Steps(start)
  }

  lemma BatchStep(
    g: Ledger, start: seq<Event>, before: seq<Event>, after: seq<Event>, h: seq<Message>,
    b: Batch, k: nat, added: seq<Message>, stopped: bool, o: Outcome)
    requires Batched(g, start, before, h, b, k, added, stopped)
    requires multiset(b.order) == multiset(Upto(|b.intents|)) && k < |b.intents| == |b.order|
    requires b.order[k] < |b.intents|
    requires Dispatched(before, after, g.turn, h, b.intents[b.order[k]], o)
    ensures Batched(g, start, after, h, b.(outcomes := b.outcomes[b.order[k] := o]), k + 1,
                    added + MessageOf(o), stopped || o.Stopped?)
  {
    hide InBatch, Settling, Quiet, Recorded, SuspendedLog, Replies, Upto, Requests, Steps, NoneStopped,
      AnswersCall;
    if o.Replied? {
      RecordedCounts(before, after, g.turn, o.message);
    } else {
      SuspensionCounts(before, after, g.turn, h, b.intents[b.order[k]].call.callId, o.result);
    }
    OutcomeIsQuiet(before, after, g.turn, h, o, b.intents[b.order[k]], stopped);
    Arrives(g, start, before, after, h, added, o, b.intents[b.order[k]]);
    OutcomeAdds(before, after, g.turn, h, b, k, o, added);
  }

  lemma BatchStarts(
    g: Ledger, log: seq<Event>, h: seq<Message>, c: Option<Compaction>, bs: seq<Batch>, b: Batch)
    requires Books(g, log, h, c, bs) && b.start == |log| && b.outcomes == map[]
    ensures Batched(g, log, log, h, b, 0, [], false)
  {
    hide Books, InBatch, Requests, Steps, Quiet;
    InBatchStarts(g, log, h, c, bs);
    NothingYet(b);
  }

  lemma BatchedMeans(
    g: Ledger, start: seq<Event>, log: seq<Event>, h: seq<Message>, b: Batch, k: nat,
    added: seq<Message>, stopped: bool)
    requires Batched(g, start, log, h, b, k, added, stopped)
    ensures InBatch(g, start, log, h, added) && Settling(log, g.turn, b, k, added)
    ensures Requests(log) == Requests(start) && (stopped <==> !NoneStopped(b.outcomes))
    ensures if stopped then Quiet(log, g.turn) else Steps(log) == Steps(start)
  {
  }

  predicate NoneStopped(outcomes: map<nat, Outcome>) { forall i :: i in outcomes ==> outcomes[i].Replied? }

  lemma NoneStoppedStep(outcomes: map<nat, Outcome>, i: nat, o: Outcome)
    requires i !in outcomes
    ensures NoneStopped(outcomes[i := o]) <==> NoneStopped(outcomes) && o.Replied?
  {
    assert forall j :: j in outcomes ==> outcomes[i := o][j] == outcomes[j];
    assert outcomes[i := o][i] == o;
  }

  lemma AskedMore(outcomes: map<nat, Outcome>, n: nat)
    ensures forall j :: FirstAskedOf(outcomes, n, j) ==> FirstAskedOf(outcomes, n + 1, j)
  {
    hide Suspends;
  }

  lemma StoppedMeans(outcomes: map<nat, Outcome>, batch: seq<Intent>, stopped: bool)
    requires OutcomesOk(outcomes, batch) && forall i: nat :: i in outcomes <==> i < |batch|
    requires stopped <==> !NoneStopped(outcomes)
    ensures AllReplied(outcomes, batch) <==> !stopped
  {
  }

  /** A settled batch, with its end known. */
  lemma SettledAll(log: seq<Event>, t: nat, b: Batch, added: seq<Message>)
    requires multiset(b.order) == multiset(Upto(|b.intents|)) && Settling(log, t, b, |b.intents|, added)
    ensures OutcomesOk(b.outcomes, b.intents) && WellFormed(b) && WellFormed(b.(end := |log|))
    ensures forall i: nat :: i in b.outcomes <==> i < |b.intents|
    ensures Logged(log, t, b.(end := |log|)) && added == Arrived(b) == Arrived(b.(end := |log|))
  {
    hide LoggedUpTo, PlaceOf, Picked, Upto;
    ArrivalOnce(b.order, |b.intents|);
    assert b.order[..|b.intents|] == b.order;
    EndIsNoMatter(log, t, b, |b.order|, |log|);
  }

  lemma EndIsNoMatter(log: seq<Event>, t: nat, b: Batch, n: nat, end: nat)
    requires n <= |b.order| && LoggedUpTo(log, t, b, n)
    ensures LoggedUpTo(log, t, b.(end := end), n) && PlaceOf(b.(end := end), n) == PlaceOf(b, n)
  {
    hide ArrivalAt, WidthOf;
  }

  /** The log gains what the history gains, in another order; in the same one exactly for arrival in model order. */
  lemma BatchIsPermuted(b: Batch)
    requires WellFormed(b) && OutcomesOk(b.outcomes, b.intents)
    ensures ToolsOnly(Arrived(b)) && ToolsOnly(Entered(b)) && multiset(Arrived(b)) == multiset(Entered(b))
    ensures AllReplied(b.outcomes, b.intents) ==> Answering(Entered(b), b.intents)
    ensures AllReplied(b.outcomes, b.intents) && Distinct(b.intents) ==> (Aligned(b) <==> b.order == Upto(|b.intents|))
  {
    hide Picked, ToolsOnly, Distinct, Upto, AllReplied, Answering;
    ArrivalOnce(b.order, |b.intents|);
    PickedPermutes(b.outcomes, b.order, Upto(|b.intents|));
    RepliesAreToolMessages(b.outcomes, b.intents);
    PickedTools(b.outcomes, b.order);
    PickedTools(b.outcomes, Upto(|b.intents|));
    if AllReplied(b.outcomes, b.intents) {
      PickedAnswers(b.outcomes, b.intents);
      if Distinct(b.intents) { OrderMatters(b.outcomes, b.intents, b.order); }
    }
  }

  lemma RepliesAreToolMessages(outcomes: map<nat, Outcome>, batch: seq<Intent>)
    requires OutcomesOk(outcomes, batch)
    ensures RepliesAreTools(outcomes)
  {
  }

  lemma PickedAnswers(outcomes: map<nat, Outcome>, batch: seq<Intent>)
    requires AllReplied(outcomes, batch)
    ensures Answering(Picked(outcomes, Upto(|batch|)), batch)
  {
    PickedAt(outcomes, batch, Upto(|batch|));
  }

  lemma RanToTheEnd(
    start: seq<Event>, after: seq<Event>, g: Ledger, h: seq<Message>, now: seq<Message>, bs: seq<Batch>,
    some: seq<Intent>, intents: seq<Intent>, terminal: Option<TurnResult>, results: seq<Message>)
    requires terminal.Some? && Ran(start, after, g, h, now, bs, some, terminal, results)
    ensures Ran(start, after, g, h, now, bs, intents, terminal, results)
  {
  }

  /** How many of the calls of a segment are done after some batches, with room for so many in each. */
  function DoneAfter(batches: nat, room: nat, calls: nat): (r: nat)
    ensures r <= calls
  {
    if batches == 0 then 0
    else
      var before := DoneAfter(batches - 1, room, calls);
      if before + room <= calls then before + room else calls
  }

  /** The batches of a segment come to its end exactly when there is room for a call, or none to run. */
  lemma BatchesEnd(room: nat, calls: nat)
    ensures (exists n :: DoneAfter(n, room, calls) == calls) <==> room > 0 || calls == 0
  {
    for n := 0 to calls
      invariant room > 0 ==> DoneAfter(n, room, calls) >= n
    {
    }
    if room == 0 {
      forall n: nat ensures DoneAfter(n, room, calls) == 0 {
        NoRoom(n, calls);
      }
    } else {
      assert DoneAfter(calls, room, calls) == calls;
    }
    assert DoneAfter(0, room, 0) == 0;
  }

  lemma {:induction false} NoRoom(batches: nat, calls: nat)
    ensures DoneAfter(batches, 0, calls) == 0
  {
    if batches > 0 { NoRoom(batches - 1, calls); }
  }

  lemma FlatNothing(segments: seq<Segment>, intents: seq<Intent>)
    ensures Flat(segments[..0]) == intents[..0]
  {
  }

  lemma FlatStep(segments: seq<Segment>, n: nat)
    requires n < |segments|
    ensures Flat(segments[..n + 1]) == Flat(segments[..n]) + segments[n].intents
    ensures Flat(segments[..n])[..|Flat(segments[..n])|] == Flat(segments[..n])
  {
    assert segments[..n + 1][..n] == segments[..n];
  }

  /** A parallel segment holds a call that may run beside others. */
  lemma ParallelIsUnsafe(segment: Segment, safe: Call -> bool)
    requires Uniform(segment, safe) && segment.parallel
    ensures exists call :: safe(call)
  {
    assert RunsParallel(safe, segment.intents[0].call);
  }

  lemma {:induction false} LastAsking(h: seq<Message>, i: nat)
    requires i <= |h| && (forall j :: i <= j < |h| ==> !Asking(h[j])) && (i > 0 ==> Asking(h[i - 1]))
    ensures i == 0 ==> Asks(h) == []
    ensures i > 0 ==> Asks(h) != [] && Asks(h)[|Asks(h)| - 1] == h[i - 1].calls
  {
    if i < |h| {
      LastAsking(h[..|h| - 1], i);
    }
  }

  lemma CallsStep(intents: seq<Intent>, intent: Intent)
    ensures Calls(intents + [intent]) == Calls(intents) + [intent.call]
  {
  }

  lemma NoCalls()
    ensures Calls([]) == []
  {
  }

  function Covered(c: Option<Compaction>): nat { if c.Some? then c.value.count else 0 }

  /** How far a summary is to go: over all but the recent window, and over no less than before. */
  predicate Reaches(target: nat, c: Option<Compaction>, h: seq<Message>, keepRecent: nat) {
    && Covered(c) <= target && |h| <= target + keepRecent && (target == Covered(c) || target + keepRecent == |h|)
  }

  /** When an attempt to summarize is made: it is time to, there are attempts left, and there is enough to cover. */
  predicate Summarizes(over: bool, attempts: nat, target: nat, c: Option<Compaction>, settings: Settings) {
    over && attempts < settings.maxAttempts && Covered(c) < target && settings.minCovered <= target
  }

  /** What an attempt to summarize leaves in the log. */
  predicate SummaryLogged(
    before: seq<Event>, after: seq<Event>, t: nat, covered: seq<Message>, modelMax: nat, c: Option<Compaction>)
  {
    after == before + [ModelRequested(t, covered, modelMax)] + if c.Some? then [Compacted(t, c.value)] else []
  }

  /** A newer summary covers strictly more, and describes the history. */
  predicate Widened(before: Option<Compaction>, after: Option<Compaction>, h: seq<Message>) {
    after.Some? && Covered(before) < after.value.count && Applies(after.value, h)
  }

  lemma CoversBeginning(view: Compaction, h: seq<Message>)
    requires view.count <= |h| && view.digest == h[..view.count]
    ensures Applies(view, h)
  {
  }

  /** The history as the model sees it: a summary that describes it stands for what it covers. */
  function CompactView(h: seq<Message>, c: Option<Compaction>): seq<Message> {
    if c.None? || (if c.value.count <= |h| then h[..c.value.count] else h) != c.value.digest then h
    else if c.value.count >= |h| then [User(c.value.summary)]
    else [User(c.value.summary)] + h[c.value.count..]
  }

  /** A summary that describes a history goes on describing it as it grows, and folds exactly what it covers. */
  lemma FoldsExactlyAPrefix(h: seq<Message>, more: seq<Message>, c: Compaction)
    requires Applies(c, h)
    ensures var view := CompactView(h + more, Some(c));
      && |view| > 0 && view[0] == User(c.summary) && h + more == c.digest + view[1..]
      && |view| == 1 + |h + more| - c.count
  {
    AppliesLonger(c, h, more);
    assert h + more == (h + more)[..c.count] + (h + more)[c.count..];
  }

  /** The events that start tool items for some calls, with ids from a first one on. */
  function Starts(t: nat, calls: seq<Call>, first: nat): (r: seq<Event>)
    ensures |r| == |calls|
  {
    seq(|calls|, j requires 0 <= j < |calls| => ItemStarted(t, ToolItem(first + j, calls[j], Result("", None))))
  }

  lemma NothingStarts(t: nat, calls: seq<Call>, first: nat)
    ensures Starts(t, calls[..0], first) == []
  {
  }

  lemma StartsMore(t: nat, calls: seq<Call>, k: nat, first: nat)
    requires k < |calls|
    ensures Starts(t, calls[..k + 1], first) ==
      Starts(t, calls[..k], first) + [ItemStarted(t, ToolItem(first + k, calls[k], Result("", None)))]
  {
  }

  function Opened(t: nat, id: nat): Event { ItemStarted(t, MessageItem(id, AssistantRole, "", [])) }

  /** What a model call leaves in the log: its item, the request, the calls that streamed in, and maybe its failure. */
  predicate CallLogged(
    before: seq<Event>, after: seq<Event>, t: nat, id: nat, visible: seq<Message>, cap: nat, calls: seq<Call>,
    failed: bool)
  {
    after == before + [Opened(t, id)] + [ModelRequested(t, visible, cap)] + Starts(t, calls, id + 1)
             + if failed then [ItemFailed(t, id)] else []
  }

  /** The calls of a reply have streamed in. */
  predicate CallStarted(
    before: seq<Event>, after: seq<Event>, t: nat, id: nat, visible: seq<Message>, cap: nat, calls: seq<Call>)
  {
    after == before + [Opened(t, id)] + [ModelRequested(t, visible, cap)] + Starts(t, calls, id + 1)
  }

  lemma CallEnds(
    before: seq<Event>, mid: seq<Event>, t: nat, id: nat, visible: seq<Message>, cap: nat, calls: seq<Call>)
    requires CallStarted(before, mid, t, id, visible, cap, calls)
    ensures CallLogged(before, mid, t, id, visible, cap, calls, false)
    ensures CallLogged(before, mid + [ItemFailed(t, id)], t, id, visible, cap, calls, true)
  {
    assert mid + [] == mid;
    hide Starts;
  }

  lemma CallStarts(
    before: seq<Event>, asked: seq<Event>, mid: seq<Event>, t: nat, id: nat, visible: seq<Message>, cap: nat,
    calls: seq<Call>)
    requires asked == before + [Opened(t, id)] + [ModelRequested(t, visible, cap)]
    requires mid == asked + Starts(t, calls, id + 1)
    ensures CallStarted(before, mid, t, id, visible, cap, calls)
  {
  }

  /** What was generated is in the log as it began: its message, and all its calls. */
  predicate InLog(before: seq<Event>, after: seq<Event>, t: nat, out: Generation) {
    out.Generated? ==>
      && (exists i :: |before| <= i < |after| && after[i] == Opened(t, out.itemId))
      && forall k :: 0 <= k < |out.intents| ==>
           exists i ::
             |before| <= i < |after|
             && after[i] == ItemStarted(t, ToolItem(out.intents[k].itemId, out.intents[k].call, Result("", None)))
  }

  /** Without a summary, or with one of another history, the model sees all of it. */
  lemma ViewOfAll(h: seq<Message>, c: Option<Compaction>)
    ensures c.None? || (c.value.count <= |h| && !Applies(c.value, h)) ==> CompactView(h, c) == h
  {
  }

  /** Upper bound on the attempts of one round. */
  function Tries(settings: Settings): nat { if settings.maxRetries < 0 then 0 else settings.maxRetries + 1 }

  lemma TriesMean(settings: Settings, retry: nat)
    ensures retry < Tries(settings) <==> retry <= settings.maxRetries
  {
  }

  /** What one round shows the model: what hooks put around the folded history, then projected once. */
  datatype View = View(
    mark: nat, front: seq<Message>, back: seq<Message>, elided: nat,
    elisions: seq<ContextPolicy.Elision>, visible: seq<Message>)

  ghost predicate Shown(h: seq<Message>, c: Option<Compaction>, policy: ContextPolicy.Policy, v: View) {
    var assembled := v.front + CompactView(h, c) + v.back;
    && ContextPolicy.Least(assembled, policy, v.elided)
    && ContextPolicy.Projects(assembled, ContextPolicy.Eligible(assembled, policy)[..v.elided], v.visible, v.elisions)
  }

  lemma AssembledIsShown(
    h: seq<Message>, c: Option<Compaction>, policy: ContextPolicy.Policy,
    retrieved: seq<Message>, planned: seq<Message>,
    assembled: seq<Message>, v: View)
    requires assembled == v.front + CompactView(h, c) + retrieved + planned && v.back == retrieved + planned
    requires ContextPolicy.Least(assembled, policy, v.elided)
    requires
      ContextPolicy.Projects(assembled, ContextPolicy.Eligible(assembled, policy)[..v.elided], v.visible, v.elisions)
    ensures Shown(h, c, policy, v)
  {
    hide ContextPolicy.Least, ContextPolicy.Projects, ContextPolicy.Eligible, CompactView;
    Associate(v.front + CompactView(h, c), retrieved, planned);
  }

  lemma ExtendsPrefix(before: seq<Event>, after: seq<Event>, t: nat)
    requires Extends(before, after, t)
    ensures before <= after
  {
  }

  lemma ExtendsLength(before: seq<Event>, after: seq<Event>, t: nat)
    requires Extends(before, after, t)
    ensures |before| <= |after| && forall i :: 0 <= i < |before| ==> after[i] == before[i]
  {
  }

  /** Summarization attempts: none, or up to the limit. */
  predicate AttemptsOk(before: nat, after: nat, settings: Settings) {
    before <= after && (after == before || after <= settings.maxAttempts)
  }

  lemma NoAttempts(n: nat, settings: Settings)
    ensures AttemptsOk(n, n, settings)
  {
  }

  lemma AttemptsOn(a: nat, b: nat, c: nat, settings: Settings)
    requires AttemptsOk(a, b, settings) && AttemptsOk(b, c, settings)
    ensures AttemptsOk(a, c, settings)
  {
  }

  /** A completed turn was checkpointed just before it ended, with no call open but those it had found missed. */
  ghost predicate CompletedOk(log: seq<Event>, g: Ledger, stepIndex: nat, h: seq<Message>) {
    && |log| >= 2 && log[|log| - 1] == TurnEnded(g.turn, Completed)
    && log[|log| - 2] == Checkpoint(g.turn, stepIndex + 1, h) && Settled(g, h)
  }

  lemma CompletedMeans(log: seq<Event>, g: Ledger, stepIndex: nat, h: seq<Message>)
    requires |log| > 0 && log[|log| - 1] == Checkpoint(g.turn, stepIndex + 1, h) && Settled(g, h)
    ensures CompletedOk(log + [TurnEnded(g.turn, Completed)], g, stepIndex, h)
  {
    hide Settled;
  }

  function Times(rounds: nat, tries: nat): nat { rounds * tries }

  lemma OneMoreRound(rounds: nat, tries: nat)
    ensures Times(rounds + 1, tries) == Times(rounds, tries) + tries && Times(0, tries) == 0
  {
  }

  /** The event that completes the tool item of a call. */
  predicate AnswersCall(e: Event, t: nat, itemId: nat, call: Call) {
    e.ItemCompleted? && e.turn == t && e.item.ToolItem? && e.item.id == itemId && e.item.call == call
  }

  lemma PlainIsNoStep(log: seq<Event>, e: Event)
    requires Plain(e)
    ensures Requests(log + [e]) == Requests(log) + (if e.ModelRequested? then 1 else 0)
    ensures Steps(log + [e]) == Steps(log)
    ensures Messages(log + [e]) == Messages(log)
  {
    hide Messages, Requests, Steps;
    CountStep(log, e);
    MessagesStep(log, e);
    assert Messages(log) + [] == Messages(log);
  }

  lemma ExtendsNothing(log: seq<Event>, t: nat)
    ensures Extends(log, log, t)
  {
  }

  lemma ExtendsOn(a: seq<Event>, b: seq<Event>, c: seq<Event>, t: nat)
    requires Extends(a, b, t) && Extends(b, c, t)
    ensures Extends(a, c, t)
  {
  }

  /** The step a rebuild goes on from. */
  function BegunAt(log: seq<Event>, t: nat): nat {
    var last := LastCheckpoint(log, t);
    if last.Some? then log[last.value].stepIndex else 0
  }

  /** It is the one that the last checkpoint of the turn says, and the first without one. */
  lemma BegunMeans(log: seq<Event>, t: nat)
    ensures forall i :: 0 <= i < |log| && log[i].Checkpoint? && log[i].turn == t ==>
      (forall j :: i < j < |log| && log[j].Checkpoint? ==> log[j].turn != t) ==> BegunAt(log, t) == log[i].stepIndex
    ensures (forall i :: 0 <= i < |log| && log[i].Checkpoint? ==> log[i].turn != t) ==> BegunAt(log, t) == 0
  {
    LastMeans(log, t);
    hide LastCheckpoint;
  }

  function Least(a: int, b: int): int { if a <= b then a else b }

  lemma CallsAll(intents: seq<Intent>)
    ensures |intents| == 0 <==> Calls(intents) == []
  {
  }

  lemma RanMeans(
    start: seq<Event>, after: seq<Event>, g: Ledger, h: seq<Message>, now: seq<Message>, bs: seq<Batch>,
    intents: seq<Intent>, terminal: Option<TurnResult>, results: seq<Message>)
    requires Ran(start, after, g, h, now, bs, intents, terminal, results)
    ensures Extends(start, after, g.turn) && now == h + results
    ensures terminal.None? ==> Answering(results, intents) && Steps(after) == Steps(start)
    ensures terminal.Some? ==> Closed(after, g.turn, terminal.value, bs)
    ensures terminal.Some? && terminal.value.Ended? ==> terminal.value.status == Cancelled
    ensures Requests(after) == Requests(start) && ToolsOnly(results)
  {
  }

  lemma ExtendsFrom(before: seq<Event>, after: seq<Event>, t: nat)
    requires Extends(before, after, t)
    ensures forall start :: Extends(start, before, t) ==> Extends(start, after, t)
  {
    forall start | Extends(start, before, t) ensures Extends(start, after, t) {
      ExtendsOn(start, before, after, t);
    }
  }

  lemma ExtendsMore(before: seq<Event>, after: seq<Event>, t: nat, m: Message)
    requires Recorded(before, after, t, m)
    ensures forall start :: Extends(start, before, t) ==> Extends(start, after, t)
  {
    ExtendsFrom(before, after, t);
  }

  lemma ExtendsRecorded(start: seq<Event>, mid: seq<Event>, after: seq<Event>, t: nat, m: Message)
    requires Recorded(start, mid, t, m) && Extends(mid, after, t)
    ensures forall first :: Extends(first, start, t) ==> Extends(first, after, t)
  {
    ExtendsOn(start, mid, after, t);
    ExtendsFrom(start, after, t);
  }

  /** A history that misses nothing new and has nothing left to take up is settled. */
  lemma NothingLeft(g: Ledger, h: seq<Message>)
    requires Missed(h) <= Missed(g.kept) && Unanswered(h) == []
    ensures Settled(g, h) && ToolsOnly([])
  {
    hide Open, Missed, Unanswered;
    NoneUnanswered(h);
  }

  lemma AnswersSettle(g: Ledger, h: seq<Message>, intents: seq<Intent>, results: seq<Message>)
    requires Missed(h) <= Missed(g.kept) && Calls(intents) == Unanswered(h)
    requires Answering(results, intents) && ToolsOnly(results)
    ensures Settled(g, h + results)
  {
    hide Open, Missed, Unanswered, ToolsOnly;
    AnsweringSettles(h, Calls(intents), results);
  }

  lemma AnswersAll(g: Ledger, h: seq<Message>, m: Message, intents: seq<Intent>, results: seq<Message>)
    requires Settled(g, h) && m.Assistant? && m.calls == Calls(intents)
    requires Answering(results, intents) && ToolsOnly(results)
    ensures Settled(g, h + [m] + results)
  {
    hide Open, Missed, ToolsOnly;
    AnsweringAll(h, m, results);
  }

  lemma AssistantRecorded(log: seq<Event>, t: nat, id: nat, content: string, calls: seq<Call>)
    ensures
      Recorded(
        log, log + [ItemCompleted(t, MessageItem(id, AssistantRole, content, calls))], t, Assistant(content, calls))
  {
  }

  function Calls(intents: seq<Intent>): (r: seq<Call>)
    ensures |r| == |intents| && forall i :: 0 <= i < |r| ==> r[i] == intents[i].call
  {
    seq(|intents|, i requires 0 <= i < |intents| => intents[i].call)
  }

  /** The results answer the intents one by one, in order. */
  predicate Answering(results: seq<Message>, intents: seq<Intent>) {
    && |results| == |intents|
    && forall i :: 0 <= i < |results| ==> results[i].Tool? && results[i].callId == intents[i].call.callId
  }

  function Flat(segments: seq<Segment>): seq<Intent> {
    if segments == [] then [] else Flat(segments[..|segments| - 1]) + segments[|segments| - 1].intents
  }

  predicate RunsParallel(safe: Call -> bool, call: Call) { call.inputError.None? && safe(call) }

  predicate Uniform(segment: Segment, safe: Call -> bool) {
    segment.intents != []
    && forall i :: 0 <= i < |segment.intents| ==> (segment.parallel <==> RunsParallel(safe, segment.intents[i].call))
  }

  /** Segments are not empty, of one kind each, and as long as they can be. */
  predicate Grouped(segments: seq<Segment>, safe: Call -> bool) {
    && (forall k :: 0 <= k < |segments| ==> Uniform(segments[k], safe))
    && (forall k :: 0 < k < |segments| ==> segments[k].parallel != segments[k - 1].parallel)
  }

  /** What runs beside others may, and had no input error; what runs alone must, or had one. */
  lemma GroupedMeans(segments: seq<Segment>, safe: Call -> bool)
    requires Grouped(segments, safe)
    ensures forall k, i :: 0 <= k < |segments| && 0 <= i < |segments[k].intents| ==>
      (segments[k].parallel <==> segments[k].intents[i].call.inputError.None? && safe(segments[k].intents[i].call))
  {
  }

  lemma AddToSegments(segments: seq<Segment>, safe: Call -> bool, intent: Intent)
    requires Grouped(segments, safe)
    ensures var parallel := RunsParallel(safe, intent.call); var n := |segments|;
      var longer :=
        if n > 0 && segments[n - 1].parallel == parallel then
          segments[..n - 1] + [Segment(parallel, segments[n - 1].intents + [intent])]
        else segments + [Segment(parallel, [intent])];
      Grouped(longer, safe) && Flat(longer) == Flat(segments) + [intent]
  {
    var parallel, n := RunsParallel(safe, intent.call), |segments|;
    if n > 0 && segments[n - 1].parallel == parallel {
      var longer := Segment(parallel, segments[n - 1].intents + [intent]);
      assert Uniform(segments[n - 1], safe) && Uniform(longer, safe);
      assert (segments[..n - 1] + [longer])[..n - 1] == segments[..n - 1];
      Associate(Flat(segments[..n - 1]), segments[n - 1].intents, [intent]);
    } else {
      assert (segments + [Segment(parallel, [intent])])[..n] == segments;
    }
  }

  /** The log of a suspension: the approval item, then a checkpoint of the history. */
  predicate SuspendedLog(before: seq<Event>, after: seq<Event>, t: nat, h: seq<Message>, callId: nat, r: TurnResult) {
    && |after| == |before| + 2 && before <= after && r.Suspended?
    && after[|before|].ItemStarted? && after[|before|].turn == t
    && (match after[|before|].item
        case ApprovalItem(_, approvalId, call, pending) => approvalId == r.approvalId && call == callId && pending
        case _ => false)
    && after[|before| + 1].Checkpoint? && after[|before| + 1].turn == t && after[|before| + 1].digest == h
  }

  /** The turn was suspended by a call that ran alone. */
  predicate SuspendedAlone(log: seq<Event>, t: nat, approvalId: nat) {
    && |log| >= 2 && log[|log| - 1].Checkpoint? && log[|log| - 1].turn == t
    && log[|log| - 2].ItemStarted? && log[|log| - 2].item.ApprovalItem? && log[|log| - 2].item.approvalId == approvalId
  }

  /** The turn was suspended by its last batch, and returns the approval of the first call of it that asked. */
  ghost predicate SuspendedInBatch(log: seq<Event>, t: nat, bs: seq<Batch>, approvalId: nat) {
    bs != [] && EndsInBatch(log, t, bs[|bs| - 1]) && Returns(bs[|bs| - 1], Suspended(approvalId))
  }

  /** What a batch with a suspension gives the turn to return. */
  ghost predicate Returns(b: Batch, r: TurnResult) {
    exists i :: IsFirstAsked(b, i) && b.outcomes[i].result == r
  }

  /** How the log ends when a turn returns. */
  ghost predicate Closed(log: seq<Event>, t: nat, r: TurnResult, bs: seq<Batch>) {
    match r
    case Ended(status, _) => |log| > 0 && log[|log| - 1] == TurnEnded(t, status) && status != Active
    case Suspended(id) => Quiet(log, t) && (SuspendedAlone(log, t, id) || SuspendedInBatch(log, t, bs, id))
  }
}
