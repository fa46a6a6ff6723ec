/**
 * What happened around the loop while it ran: what the model said, what the tools did, when the abort signal was
 * looked at, and what the summarizer and the hooks gave. And what the loop must have made of it.
 */
module LoopTrace {
  import opened Options
  import opened ThreadLog
  import opened ParallelBatch
  import opened LoopSteps

  datatype Happening =
    | Checked(aborted: bool)
    | Spoke(reply: Reply)
    | Used(intent: Intent, outcome: ToolOutcome)
    | Summarized(summary: Option<string>)
    | Gathered(system: seq<Message>, retrieved: seq<Message>, planned: seq<Message>)

  /** What happened after the first of two points. */
  function Since(before: seq<Happening>, now: seq<Happening>): seq<Happening>
    requires before <= now
  {
    now[|before|..]
  }

  predicate Aborted(did: seq<Happening>) { Checked(true) in did }

  predicate IsAsking(h: Happening) { h.Used? && h.outcome.ApprovalRequired? }

  /** A tool asked for approval. */
  predicate Asked(did: seq<Happening>) { exists k :: 0 <= k < |did| && IsAsking(did[k]) }

  predicate Smooth(did: seq<Happening>) { !Aborted(did) && !Asked(did) }

  /** The last thing the model said. */
  function Spoken(did: seq<Happening>): Option<Reply> {
    if did == [] then None
    else if did[|did| - 1].Spoke? then Some(did[|did| - 1].reply)
    else Spoken(did[..|did| - 1])
  }

  /** How often the model was called, and tools were used. */
  function Speeches(did: seq<Happening>): nat {
    if did == [] then 0 else Speeches(did[..|did| - 1]) + if did[|did| - 1].Spoke? then 1 else 0
  }

  function Uses(did: seq<Happening>): nat {
    if did == [] then 0 else Uses(did[..|did| - 1]) + if did[|did| - 1].Used? then 1 else 0
  }

  lemma Joined(a: seq<Happening>, b: seq<Happening>, c: seq<Happening>)
    requires a <= b <= c
    ensures a <= c && Since(a, c) == Since(a, b) + Since(b, c)
  {
  }

  lemma OneMore(before: seq<Happening>, h: Happening)
    ensures before <= before + [h] && Since(before, before + [h]) == [h]
  {
  }

  lemma NothingYetDone(now: seq<Happening>)
    ensures now <= now && Since(now, now) == []
  {
  }

  lemma {:induction false} Sums(a: seq<Happening>, b: seq<Happening>)
    ensures Aborted(a + b) <==> Aborted(a) || Aborted(b)
    ensures Asked(a + b) <==> Asked(a) || Asked(b)
    ensures Spoken(a + b) == if Spoken(b).Some? then Spoken(b) else Spoken(a)
    ensures Speeches(a + b) == Speeches(a) + Speeches(b) && Uses(a + b) == Uses(a) + Uses(b)
  {
    AskedEither(a, b);
    hide Asked;
    if b == [] {
      assert a + b == a;
    } else {
      Sums(a, b[..|b| - 1]);
      assert (a + b)[..|a + b| - 1] == a + b[..|b| - 1];
    }
  }

  lemma AskedEither(a: seq<Happening>, b: seq<Happening>)
    ensures Asked(a + b) <==> Asked(a) || Asked(b)
  {
    if k :| 0 <= k < |a| && IsAsking(a[k]) { assert (a + b)[k] == a[k]; }
    if k :| 0 <= k < |b| && IsAsking(b[k]) { assert (a + b)[|a| + k] == b[k]; }
  }

  lemma One(h: Happening)
    ensures Aborted([h]) <==> h == Checked(true)
    ensures Asked([h]) <==> IsAsking(h)
    ensures Spoken([h]) == if h.Spoke? then Some(h.reply) else None
    ensures Speeches([h]) == (if h.Spoke? then 1 else 0) && Uses([h]) == if h.Used? then 1 else 0
  {
    assert [h][..0] == [];
    assert Spoken([]) == None && Speeches([]) == 0 && Uses([]) == 0;
    if IsAsking(h) { assert IsAsking([h][0]); }
  }

  lemma NothingDid()
    ensures !Aborted([]) && !Asked([]) && Spoken([]) == None && Speeches([]) == 0 && Uses([]) == 0
  {
  }

  /* ---------- tools ---------- */

  /** The message a tool outcome stands for. */
  function Told(intent: Intent, outcome: ToolOutcome): Message
    requires !outcome.ApprovalRequired?
  {
    match outcome
    case ToolResult(result) => Tool(intent.call.callId, intent.call.toolId, result.content, result.isError)
    case ToolThrew(error) => Tool(intent.call.callId, intent.call.toolId, error, Some(true))
  }

  /** The message answers the intent: with its input error, or with what the tool did. */
  predicate Truly(did: seq<Happening>, intent: Intent, m: Message) {
    if intent.call.inputError.Some? then
      m == Tool(intent.call.callId, intent.call.toolId, intent.call.inputError.value, Some(true))
    else
      exists k ::
        && 0 <= k < |did| && did[k].Used? && did[k].intent == intent && !did[k].outcome.ApprovalRequired?
        && m == Told(intent, did[k].outcome)
  }

  /** What came of an intent is what the tool did. */
  predicate TrueOutcome(did: seq<Happening>, intent: Intent, o: Outcome) {
    match o
    case Replied(m) => Truly(did, intent, m)
    case Stopped(r) => r.Suspended? && Used(intent, ApprovalRequired(r.approvalId)) in did
  }

  /** Every result is the true answer of an intent; of all of them in order, when the turn goes on. */
  ghost predicate TrueResults(did: seq<Happening>, intents: seq<Intent>, results: seq<Message>, all: bool) {
    && (forall m :: m in results ==> exists i :: 0 <= i < |intents| && Truly(did, intents[i], m))
    && (all ==> |results| == |intents| && forall i :: 0 <= i < |intents| ==> Truly(did, intents[i], results[i]))
  }

  /**
   * Running the intents: no model call; it goes on exactly when nothing aborted it and no tool asked, is
   * cancelled exactly when aborted, and else suspended on an approval that a tool asked for.
   */
  ghost predicate Worked(
    did: seq<Happening>, intents: seq<Intent>, terminal: Option<TurnResult>, results: seq<Message>)
  {
    && Spoken(did).None? && Uses(did) <= |intents|
    && (terminal.None? <==> Smooth(did))
    && (terminal.Some? && terminal.value.Ended? ==> terminal.value == Ended(Cancelled, "") && Aborted(did))
    && (terminal.Some? && terminal.value.Suspended? ==>
          !Aborted(did) && SomeoneAsked(did, terminal.value.approvalId))
    && TrueResults(did, intents, results, terminal.None?)
  }

  predicate SomeoneAsked(did: seq<Happening>, approvalId: nat) {
    exists k :: 0 <= k < |did| && did[k].Used? && did[k].outcome == ApprovalRequired(approvalId)
  }

  lemma AskedByThen(did: seq<Happening>, more: seq<Happening>, approvalId: nat)
    ensures SomeoneAsked(did, approvalId) ==> SomeoneAsked(did + more, approvalId) && Asked(did)
    ensures SomeoneAsked(more, approvalId) ==> SomeoneAsked(did + more, approvalId) && Asked(more)
  {
    if SomeoneAsked(did, approvalId) {
      var k :| 0 <= k < |did| && did[k].Used? && did[k].outcome == ApprovalRequired(approvalId);
      assert (did + more)[k] == did[k] && IsAsking(did[k]);
    }
    if SomeoneAsked(more, approvalId) {
      var k :| 0 <= k < |more| && more[k].Used? && more[k].outcome == ApprovalRequired(approvalId);
      assert (did + more)[|did| + k] == more[k] && IsAsking(more[k]);
    }
  }

  lemma TrulyMore(did: seq<Happening>, more: seq<Happening>, intent: Intent, m: Message)
    ensures Truly(did, intent, m) ==> Truly(did + more, intent, m)
    ensures Truly(more, intent, m) ==> Truly(did + more, intent, m)
  {
    if intent.call.inputError.None? {
      if Truly(did, intent, m) {
        var k :| 0 <= k < |did| && did[k].Used? && did[k].intent == intent && !did[k].outcome.ApprovalRequired?
          && m == Told(intent, did[k].outcome);
        assert (did + more)[k] == did[k];
      }
      if Truly(more, intent, m) {
        var k :| 0 <= k < |more| && more[k].Used? && more[k].intent == intent && !more[k].outcome.ApprovalRequired?
          && m == Told(intent, more[k].outcome);
        assert (did + more)[|did| + k] == more[k];
      }
    }
  }

  lemma TrueOutcomeMore(did: seq<Happening>, more: seq<Happening>, intent: Intent, o: Outcome)
    ensures TrueOutcome(did, intent, o) ==> TrueOutcome(did + more, intent, o)
    ensures TrueOutcome(more, intent, o) ==> TrueOutcome(did + more, intent, o)
  {
    if o.Replied? { TrulyMore(did, more, intent, o.message); }
    hide Truly;
  }

  /** Two runs of intents, one after the other. */
  lemma WorkedBoth(
    did: seq<Happening>, more: seq<Happening>, first: seq<Intent>, second: seq<Intent>, terminal: Option<TurnResult>,
    results: seq<Message>, last: seq<Message>)
    requires Worked(did, first, None, results) && Worked(more, second, terminal, last)
    ensures Worked(did + more, first + second, terminal, results + last)
  {
    Sums(did, more);
    hide Truly, Aborted, Asked, Spoken, Uses, SomeoneAsked;
    if terminal.Some? && terminal.value.Suspended? { AskedByThen(did, more, terminal.value.approvalId); }
    var intents, all := first + second, results + last;
    forall m | m in all ensures exists i :: 0 <= i < |intents| && Truly(did + more, intents[i], m) {
      if m in results {
        var i :| 0 <= i < |first| && Truly(did, first[i], m);
        TrulyMore(did, more, first[i], m);
        assert intents[i] == first[i];
      } else {
        var i :| 0 <= i < |second| && Truly(more, second[i], m);
        TrulyMore(did, more, second[i], m);
        assert intents[|first| + i] == second[i];
      }
    }
    forall i | 0 <= i < |intents| && terminal.None? ensures Truly(did + more, intents[i], all[i]) {
      if i < |first| {
        TrulyMore(did, more, first[i], results[i]);
      } else {
        TrulyMore(did, more, second[i - |first|], last[i - |first|]);
      }
    }
  }

  /** What ended early ended so for all the intents. */
  lemma WorkedAll(
    did: seq<Happening>, some: seq<Intent>, intents: seq<Intent>, terminal: Option<TurnResult>, results: seq<Message>)
    requires terminal.Some? && some <= intents && Worked(did, some, terminal, results)
    ensures Worked(did, intents, terminal, results)
  {
    hide Truly, Aborted, Asked, Spoken, Uses, SomeoneAsked;
    forall m | m in results ensures exists i :: 0 <= i < |intents| && Truly(did, intents[i], m) {
      var i :| 0 <= i < |some| && Truly(did, some[i], m);
      assert intents[i] == some[i];
    }
  }

  lemma WorkedNothing(intents: seq<Intent>)
    ensures Worked([], intents[..0], None, [])
  {
    NothingDid();
  }

  /** The signal was looked at between two calls. */
  lemma WorkedChecked(did: seq<Happening>, intents: seq<Intent>, results: seq<Message>, aborted: bool)
    requires Worked(did, intents, None, results)
    ensures aborted ==> Worked(did + [Checked(true)], intents, Some(Ended(Cancelled, "")), results)
    ensures !aborted ==> Worked(did + [Checked(false)], intents, None, results)
  {
    hide Truly, Asked, Spoken, Uses, Aborted, SomeoneAsked;
    var h := Checked(aborted);
    Sums(did, [h]);
    One(h);
    forall i, m | 0 <= i < |intents| && Truly(did, intents[i], m) ensures Truly(did + [h], intents[i], m) {
      TrulyMore(did, [h], intents[i], m);
    }
  }

  /** One intent was dispatched. */
  lemma WorkedOne(did: seq<Happening>, intent: Intent, o: Outcome)
    requires DispatchDid(did, intent, o)
    ensures o.Replied? ==> Worked(did, [intent], None, [o.message])
    ensures o.Stopped? ==> Worked(did, [intent], Some(o.result), [])
  {
    NothingDid();
    if did != [] {
      One(did[0]);
      assert did == [did[0]];
    }
    hide Aborted, Asked, Spoken, Uses;
    if o.Replied? { assert Truly(did, [intent][0], o.message); }
    if o.Stopped? { assert did[0].outcome == ApprovalRequired(o.result.approvalId); }
  }

  /** Dispatching uses the tool once, unless the call has an input error. */
  predicate DispatchDid(did: seq<Happening>, intent: Intent, o: Outcome) {
    && TrueOutcome(did, intent, o)
    && (if intent.call.inputError.Some? then did == [] && o.Replied?
        else |did| == 1 && did[0].Used? && did[0].intent == intent
             && (did[0].outcome.ApprovalRequired? <==> o.Stopped?))
  }

  /** Nothing is used for a call with an input error, which is its own answer. */
  lemma ErrorAnswered(intent: Intent, o: Outcome)
    requires intent.call.inputError.Some?
    requires o == Replied(Tool(intent.call.callId, intent.call.toolId, intent.call.inputError.value, Some(true)))
    ensures DispatchDid([], intent, o)
  {
  }

  lemma ToolAnswered(intent: Intent, tool: ToolOutcome, o: Outcome)
    requires intent.call.inputError.None?
    requires o ==
      if tool.ApprovalRequired? then Outcome.Stopped(Suspended(tool.approvalId)) else Replied(Told(intent, tool))
    ensures DispatchDid([Used(intent, tool)], intent, o)
  {
    var did := [Used(intent, tool)];
    assert did[0] == Used(intent, tool);
    if o.Replied? { assert Truly(did, intent, o.message); }
  }

  /** The signal was looked at. */
  lemma Looked(start: seq<Happening>, before: seq<Happening>, now: seq<Happening>, aborted: bool)
    requires start <= before && now == before + [Checked(aborted)]
    ensures start <= now && Since(start, now) == Since(start, before) + [Checked(aborted)]
    ensures Aborted(Since(start, now)) <==> Aborted(Since(start, before)) || aborted
  {
    Joined(start, before, now);
    OneMore(before, Checked(aborted));
    Sums(Since(start, before), [Checked(aborted)]);
    One(Checked(aborted));
  }

  /** One more intent was dispatched. */
  lemma DispatchWorked(
    start: seq<Happening>, before: seq<Happening>, now: seq<Happening>, intents: seq<Intent>, n: nat,
    results: seq<Message>, o: Outcome)
    requires start <= before <= now && n < |intents| && Worked(Since(start, before), intents[..n], None, results)
    requires DispatchDid(Since(before, now), intents[n], o)
    ensures start <= now && (Aborted(Since(start, now)) <==> Aborted(Since(start, before)))
    ensures o.Replied? ==> Worked(Since(start, now), intents[..n + 1], None, results + [o.message])
    ensures o.Stopped? ==> Worked(Since(start, now), intents, Some(o.result), results)
  {
    Joined(start, before, now);
    WorkedOne(Since(before, now), intents[n], o);
    DispatchIsNoAbort(Since(before, now), intents[n], o);
    Sums(Since(start, before), Since(before, now));
    assert intents[..n + 1] == intents[..n] + [intents[n]];
    hide Worked, DispatchDid, Aborted;
    if o.Replied? {
      WorkedBoth(Since(start, before), Since(before, now), intents[..n], [intents[n]], None, results, [o.message]);
    } else {
      WorkedBoth(Since(start, before), Since(before, now), intents[..n], [intents[n]], Some(o.result), results, []);
      assert results + [] == results;
      WorkedAll(Since(start, now), intents[..n + 1], intents, Some(o.result), results);
    }
  }

  /** More intents were run. */
  lemma WorkedOn(
    start: seq<Happening>, before: seq<Happening>, now: seq<Happening>, first: seq<Intent>, second: seq<Intent>,
    terminal: Option<TurnResult>, results: seq<Message>, more: seq<Message>)
    requires start <= before <= now && Worked(Since(start, before), first, None, results)
    requires Worked(Since(before, now), second, terminal, more)
    ensures start <= now && Worked(Since(start, now), first + second, terminal, results + more)
    ensures Aborted(Since(start, now)) <==> Aborted(Since(before, now))
  {
    Joined(start, before, now);
    WorkedBoth(Since(start, before), Since(before, now), first, second, terminal, results, more);
    Sums(Since(start, before), Since(before, now));
    hide TrueResults, Aborted;
  }

  lemma {:induction false} FlatIsPrefix(segments: seq<Segment>, n: nat)
    requires n <= |segments|
    ensures Flat(segments[..n]) <= Flat(segments)
    decreases |segments| - n
  {
    if n == |segments| {
      assert segments[..n] == segments;
    } else {
      FlatIsPrefix(segments, n + 1);
      FlatStep(segments, n);
    }
  }

  lemma DispatchIsNoAbort(did: seq<Happening>, intent: Intent, o: Outcome)
    requires DispatchDid(did, intent, o)
    ensures !Aborted(did)
  {
  }

  /* ---------- batches ---------- */

  /** The outcomes of a batch so far are what its tools did, and nothing else happened. */
  ghost predicate Batching(did: seq<Happening>, batch: seq<Intent>, outcomes: map<nat, Outcome>, k: nat) {
    && (forall i :: i in outcomes ==> i < |batch| && TrueOutcome(did, batch[i], outcomes[i]))
    && Spoken(did).None? && Uses(did) <= k && !Aborted(did)
    && (Asked(did) <==> exists i :: i in outcomes && outcomes[i].Stopped?)
  }

  lemma BatchingMore(
    did: seq<Happening>, more: seq<Happening>, batch: seq<Intent>, outcomes: map<nat, Outcome>, k: nat, i: nat,
    o: Outcome)
    requires Batching(did, batch, outcomes, k) && i < |batch| && i !in outcomes && DispatchDid(more, batch[i], o)
    ensures Batching(did + more, batch, outcomes[i := o], k + 1)
  {
    Sums(did, more);
    NothingDid();
    if more != [] { One(more[0]); assert more == [more[0]]; }
    hide TrueOutcome, Aborted, Asked, Spoken, Uses;
    var now := outcomes[i := o];
    forall j | j in now ensures TrueOutcome(did + more, batch[j], now[j]) {
      TrueOutcomeMore(did, more, batch[j], now[j]);
    }
    if j :| j in outcomes && outcomes[j].Stopped? { assert now[j].Stopped?; }
    assert now[i] == o;
    if j :| j in now && now[j].Stopped? { assert j != i ==> j in outcomes && outcomes[j].Stopped?; }
  }

  lemma BatchingNothing(batch: seq<Intent>)
    ensures Batching([], batch, map[], 0)
  {
    NothingDid();
  }

  /** What is picked of the outcomes are messages of outcomes. */
  lemma {:induction false} PickedFrom(outcomes: map<nat, Outcome>, at: seq<nat>, m: Message)
    requires m in Picked(outcomes, at)
    ensures exists i :: i in at && i in outcomes && outcomes[i] == Replied(m)
  {
    var n := |at| - 1;
    if m in Picked(outcomes, at[..n]) {
      PickedFrom(outcomes, at[..n], m);
      var i :| i in at[..n] && i in outcomes && outcomes[i] == Replied(m);
      assert i in at;
    } else {
      assert at[n] in at;
    }
  }

  /** A settled batch, from what was dispatched. */
  lemma BatchWorked(did: seq<Happening>, b: Batch, terminal: Option<TurnResult>)
    requires Batching(did, b.intents, b.outcomes, |b.intents|) && forall i: nat :: i in b.outcomes <==> i < |b.intents|
    requires terminal.None? <==> AllReplied(b.outcomes, b.intents)
    requires OutcomesOk(b.outcomes, b.intents)
    requires terminal.Some? ==> terminal.value.Suspended? && Returns(b, terminal.value)
    ensures Worked(did, b.intents, terminal, Entered(b)) && !Aborted(did)
  {
    hide Truly, Aborted, Spoken, Uses, Picked;
    forall m | m in Entered(b) ensures exists i :: 0 <= i < |b.intents| && Truly(did, b.intents[i], m) {
      PickedFrom(b.outcomes, Upto(|b.intents|), m);
      var i :| i in Upto(|b.intents|) && i in b.outcomes && b.outcomes[i] == Replied(m);
      assert TrueOutcome(did, b.intents[i], b.outcomes[i]);
    }
    if terminal.None? {
      PickedAt(b.outcomes, b.intents, Upto(|b.intents|));
      forall i | 0 <= i < |b.intents| ensures Truly(did, b.intents[i], Entered(b)[i]) {
        assert TrueOutcome(did, b.intents[i], b.outcomes[i]);
      }
    }
  }

  /* ---------- generations ---------- */

  /** The generation is what the model said. */
  predicate Says(g: Generation, reply: Reply) {
    && g.Generated? && reply.ending == Finished(g.stop, g.output) && g.content == reply.content
    && Calls(g.intents) == reply.calls
  }

  /** What a model call comes to, when nothing aborts it. */
  predicate Comes(reply: Reply, a: Attempted) {
    match reply.ending
    case NoStream(fault) => a == Threw(fault)
    case Torn(fault) => a == Threw(fault)
    case Broken(fault) => a == if fault.Final? then Got(GenerationFailed) else Threw(fault)
    case CallCancelled => a == Got(GenerationCancelled)
    case Finished(_, _) => a.Got? && Says(a.generation, reply)
  }

  predicate AttemptDid(did: seq<Happening>, a: Attempted) {
    && Uses(did) == 0 && !Asked(did) && Speeches(did) <= 1
    && if Aborted(did) then a == Got(GenerationCancelled)
       else Speeches(did) == 1 && Spoken(did).Some? && Comes(Spoken(did).value, a)
  }

  /**
   * What an attempt leaves in the log. The calls that streamed in are all of the reply's, unless it was aborted
   * between them or never streamed; the item fails when it is aborted, cancelled or broken at its end.
   */
  ghost predicate AttemptLogged(
    before: seq<Event>, after: seq<Event>, t: nat, id: nat, next: nat, visible: seq<Message>, cap: nat,
    did: seq<Happening>, a: Attempted)
  {
    match Spoken(did)
    case None => after == before && next == id
    case Some(reply) =>
      exists k: nat ::
        && k <= |reply.calls| && next == id + 1 + k
        && (!Aborted(did) ==> k == if reply.ending.NoStream? then 0 else |reply.calls|)
        && CallLogged(before, after, t, id, visible, cap, reply.calls[..k],
                      Aborted(did) || reply.ending.Broken? || reply.ending.CallCancelled?)
        && (a.Got? && a.generation.Generated? ==>
              a.generation.itemId == id && NumberedFrom(a.generation.intents, id + 1))
  }

  /** Intents with ids from a first one on. */
  predicate NumberedFrom(intents: seq<Intent>, first: nat) {
    forall j :: 0 <= j < |intents| ==> intents[j].itemId == first + j
  }

  lemma NumberedMore(intents: seq<Intent>, first: nat, call: Call)
    requires NumberedFrom(intents, first)
    ensures NumberedFrom(intents + [Intent(call, first + |intents|)], first)
  {
  }

  lemma NothingNumbered(first: nat)
    ensures NumberedFrom([], first)
  {
  }

  lemma AttemptIsLogged(
    before: seq<Event>, after: seq<Event>, t: nat, id: nat, next: nat, visible: seq<Message>, cap: nat,
    did: seq<Happening>, reply: Reply, k: nat, failed: bool, a: Attempted)
    requires next == id + 1 + k
    requires Spoken(did) == Some(reply) && k <= |reply.calls|
    requires !Aborted(did) ==> k == if reply.ending.NoStream? then 0 else |reply.calls|
    requires failed <==> Aborted(did) || reply.ending.Broken? || reply.ending.CallCancelled?
    requires CallLogged(before, after, t, id, visible, cap, reply.calls[..k], failed)
    requires a.Got? && a.generation.Generated? ==>
      a.generation.itemId == id && NumberedFrom(a.generation.intents, id + 1)
    ensures AttemptLogged(before, after, t, id, next, visible, cap, did, a)
  {
    hide Spoken, Aborted, CallLogged, NumberedFrom;
  }

  lemma SilentIsLogged(
    log: seq<Event>, t: nat, id: nat, visible: seq<Message>, cap: nat, did: seq<Happening>, a: Attempted)
    requires Spoken(did).None?
    ensures AttemptLogged(log, log, t, id, id, visible, cap, did, a)
  {
  }

  /** An attempt asks for what is visible, and for nothing else. */
  lemma LoggedAsks(
    before: seq<Event>, after: seq<Event>, t: nat, id: nat, next: nat, visible: seq<Message>, cap: nat,
    did: seq<Happening>, a: Attempted)
    requires AttemptLogged(before, after, t, id, next, visible, cap, did, a)
    ensures before <= after
    ensures forall i :: |before| <= i < |after| && after[i].ModelRequested? ==>
      after[i] == ModelRequested(t, visible, cap)
  {
    hide Spoken, Aborted, NumberedFrom;
  }

  lemma NothingGenerated(t: nat)
    ensures forall before: seq<Event>, after: seq<Event>, out: Generation ::
      !out.Generated? ==> InLog(before, after, t, out)
  {
  }

  lemma LoggedIsInLog(
    before: seq<Event>, after: seq<Event>, t: nat, id: nat, next: nat, visible: seq<Message>, cap: nat,
    did: seq<Happening>, a: Attempted)
    requires AttemptLogged(before, after, t, id, next, visible, cap, did, a) && AttemptDid(did, a)
    ensures a.Got? ==> InLog(before, after, t, a.generation)
  {
    if a.Got? && a.generation.Generated? {
      var reply, out := Spoken(did).value, a.generation;
      var k: nat :| k <= |reply.calls|
        && CallLogged(before, after, t, id, visible, cap, reply.calls[..k],
                      Aborted(did) || reply.ending.Broken? || reply.ending.CallCancelled?)
        && (!Aborted(did) ==> k == if reply.ending.NoStream? then 0 else |reply.calls|)
        && NumberedFrom(out.intents, id + 1) && out.itemId == id;
      assert after[|before|] == Opened(t, id);
      hide Spoken, Aborted;
      forall j | 0 <= j < |out.intents|
        ensures after[|before| + 2 + j] ==
          ItemStarted(t, ToolItem(out.intents[j].itemId, out.intents[j].call, Result("", None)))
      {
        assert Calls(out.intents)[j] == reply.calls[j];
      }
    }
  }

  lemma InLogLater(start: seq<Event>, before: seq<Event>, after: seq<Event>, t: nat, out: Generation)
    requires InLog(before, after, t, out) && |start| <= |before|
    ensures InLog(start, after, t, out)
  {
    if out.Generated? {
      var i :| |before| <= i < |after| && after[i] == Opened(t, out.itemId);
      forall k | 0 <= k < |out.intents|
        ensures exists i ::
          |start| <= i < |after|
          && after[i] == ItemStarted(t, ToolItem(out.intents[k].itemId, out.intents[k].call, Result("", None)))
      {
        var j :| |before| <= j < |after|
          && after[j] == ItemStarted(t, ToolItem(out.intents[k].itemId, out.intents[k].call, Result("", None)));
      }
    }
  }

  /** The model has spoken, and nothing aborted the attempt yet. */
  predicate Speaking(did: seq<Happening>, reply: Reply) {
    Uses(did) == 0 && !Asked(did) && Speeches(did) == 1 && Spoken(did) == Some(reply) && !Aborted(did)
  }

  lemma StartedSpeaking(start: seq<Happening>, now: seq<Happening>, reply: Reply)
    requires now == start + [Checked(false)] + [Spoke(reply)]
    ensures start <= now && Speaking(Since(start, now), reply)
  {
    assert Since(start, now) == [Checked(false)] + [Spoke(reply)];
    Sums([Checked(false)], [Spoke(reply)]);
    One(Checked(false));
    One(Spoke(reply));
  }

  lemma CancelledBefore(start: seq<Happening>, now: seq<Happening>)
    requires now == start + [Checked(true)]
    ensures start <= now && AttemptDid(Since(start, now), Got(GenerationCancelled)) && Spoken(Since(start, now)).None?
  {
    assert Since(start, now) == [Checked(true)];
    One(Checked(true));
  }

  lemma SpeakingChecked(
    start: seq<Happening>, before: seq<Happening>, now: seq<Happening>, reply: Reply, aborted: bool)
    requires start <= before && now == before + [Checked(aborted)] && Speaking(Since(start, before), reply)
    ensures start <= now && (!aborted ==> Speaking(Since(start, now), reply))
    ensures aborted ==> AttemptDid(Since(start, now), Got(GenerationCancelled))
    ensures Spoken(Since(start, now)) == Some(reply) && (Aborted(Since(start, now)) <==> aborted)
  {
    Looked(start, before, now, aborted);
    Sums(Since(start, before), [Checked(aborted)]);
    One(Checked(aborted));
    hide Uses, Asked, Speeches, Spoken, Aborted;
  }

  lemma SpeakingMeans(did: seq<Happening>, reply: Reply)
    requires Speaking(did, reply)
    ensures !Aborted(did) && Spoken(did) == Some(reply)
  {
  }

  lemma SpeakingDid(did: seq<Happening>, reply: Reply, a: Attempted)
    requires Speaking(did, reply) && Comes(reply, a)
    ensures AttemptDid(did, a)
  {
  }

  /** The call failed in a way that is worth another try. */
  predicate Retries(e: Ending) { (e.NoStream? || e.Torn? || e.Broken?) && e.fault.Retryable? }

  /** Only calls worth another try were followed by one. */
  predicate OnlyRetries(did: seq<Happening>) {
    forall j, k :: 0 <= j < k < |did| && did[j].Spoke? && did[k].Spoke? ==> Retries(did[j].reply.ending)
  }

  /** What a round of attempts comes to: what the last one says, if it says something, and a failure otherwise. */
  predicate GenerateDid(did: seq<Happening>, out: Generation, tries: nat) {
    && Uses(did) == 0 && !Asked(did) && Speeches(did) <= tries && OnlyRetries(did)
    && (Aborted(did) ==> out.GenerationCancelled?)
    && (!Aborted(did) && Speeches(did) == 0 ==> tries == 0 && out.GenerationFailed?)
    && (!Aborted(did) && Speeches(did) > 0 ==>
          Spoken(did).Some? && Concludes(Spoken(did).value, out, Speeches(did) == tries))
  }

  /** What the last reply of a round makes of it. */
  predicate Concludes(reply: Reply, out: Generation, exhausted: bool) {
    match reply.ending
    case Finished(_, _) => Says(out, reply)
    case CallCancelled => out.GenerationCancelled?
    case e => out.GenerationFailed? && (Retries(e) ==> exhausted)
  }

  /** So far every attempt failed in a way worth another try. */
  predicate Trying(did: seq<Happening>, tries: nat) {
    && Uses(did) == 0 && !Asked(did) && Speeches(did) == tries && !Aborted(did)
    && (forall k :: 0 <= k < |did| && did[k].Spoke? ==> Retries(did[k].reply.ending))
    && (tries > 0 ==> Spoken(did).Some? && Retries(Spoken(did).value.ending))
  }

  lemma SilentIsSmooth(did: seq<Happening>)
    requires forall k :: 0 <= k < |did| ==> did[k].Summarized? || did[k].Gathered? || did[k] == Checked(false)
    ensures Uses(did) == 0 && Speeches(did) == 0 && Spoken(did).None? && Smooth(did)
  {
    if did != [] { SilentIsSmooth(did[..|did| - 1]); }
  }

  lemma {:induction false} SpokenIsThere(did: seq<Happening>)
    ensures Speeches(did) > 0 <==> Spoken(did).Some?
    ensures Spoken(did).Some? ==> exists k :: 0 <= k < |did| && did[k] == Spoke(Spoken(did).value)
    ensures Speeches(did) == 0 ==> forall k :: 0 <= k < |did| ==> !did[k].Spoke?
    ensures Speeches(did) <= 1 ==> forall j, k :: 0 <= j < k < |did| ==> !(did[j].Spoke? && did[k].Spoke?)
  {
    if did != [] {
      var front := did[..|did| - 1];
      SpokenIsThere(front);
      if Spoken(front).Some? {
        var k :| 0 <= k < |front| && front[k] == Spoke(Spoken(front).value);
        assert did[k] == front[k];
      }
    }
  }

  /** One more attempt, after some that were worth another try. */
  lemma TriedOnce(did: seq<Happening>, more: seq<Happening>, n: nat, a: Attempted)
    requires Trying(did, n) && AttemptDid(more, a)
    ensures Uses(did + more) == 0 && !Asked(did + more) && Speeches(did + more) == n + Speeches(more)
    ensures OnlyRetries(did + more) && (Aborted(did + more) <==> Aborted(more))
    ensures !Aborted(more) ==> Spoken(did + more) == Spoken(more) && Spoken(more).Some? && Speeches(more) == 1
    ensures !Aborted(more) && a.Threw? && a.fault.Retryable? ==> Trying(did + more, n + 1)
    ensures !Aborted(more) ==> Comes(Spoken(more).value, a)
  {
    Sums(did, more);
    SpokenIsThere(more);
    hide Uses, Asked, Speeches, Aborted, Spoken;
    var all := did + more;
    assert forall k :: |did| <= k < |all| ==> all[k] == more[k - |did|];
    if !Aborted(more) && a.Threw? && a.fault.Retryable? {
      var m :| 0 <= m < |more| && more[m] == Spoke(Spoken(more).value);
      assert forall k :: 0 <= k < |more| && more[k].Spoke? ==> k == m;
    }
  }

  /** The signal was looked at after an attempt. */
  lemma TriedChecked(did: seq<Happening>, aborted: bool)
    ensures var all := did + [Checked(aborted)];
      && Uses(all) == Uses(did) && (Asked(all) <==> Asked(did)) && Speeches(all) == Speeches(did)
      && Spoken(all) == Spoken(did) && (Aborted(all) <==> Aborted(did) || aborted)
      && (OnlyRetries(did) ==> OnlyRetries(all))
      && (forall n :: Trying(did, n) && !aborted ==> Trying(all, n))
  {
    Sums(did, [Checked(aborted)]);
    One(Checked(aborted));
    hide Uses, Asked, Speeches, Aborted, Spoken;
  }

  /** What the hooks gave is what the round showed around the history. */
  ghost predicate GatheredAs(did: seq<Happening>, v: View) {
    exists retrieved, planned :: Gathered(v.front, retrieved, planned) in did && v.back == retrieved + planned
  }

  /** The summarizer is asked exactly when an attempt is spent; only what it says becomes the summary. */
  predicate CompactionDid(did: seq<Happening>, spent: bool, was: Option<Compaction>, now: Option<Compaction>) {
    if !spent then did == [] && now == was
    else
      && |did| == 1 && did[0].Summarized?
      && match did[0].summary
         case None => now == was
         case Some(summary) => now.Some? && now.value.summary == summary
  }

  /** A new summary is what the summarizer said. */
  predicate SummaryTold(did: seq<Happening>, was: Option<Compaction>, now: Option<Compaction>) {
    now != was ==> now.Some? && Summarized(Some(now.value.summary)) in did
  }

  /** Before the first attempt: the hooks, and perhaps the summarizer. */
  lemma BeforeTrying(
    start: seq<Happening>, before: seq<Happening>, now: seq<Happening>, spent: bool, was: Option<Compaction>,
    c: Option<Compaction>, v: View, retrieved: seq<Message>, planned: seq<Message>)
    requires before == start + [Gathered(v.front, retrieved, planned)] && before <= now
    requires v.back == retrieved + planned && CompactionDid(Since(before, now), spent, was, c)
    ensures start <= now && Trying(Since(start, now), 0) && OnlyRetries(Since(start, now))
    ensures !Aborted(Since(start, now)) && GatheredAs(Since(start, now), v) && SummaryTold(Since(start, now), was, c)
  {
    hide Trying, OnlyRetries, Aborted;
    Joined(start, before, now);
    var did, more := Since(start, now), Since(before, now);
    assert did == [Gathered(v.front, retrieved, planned)] + more;
    assert did[0] == Gathered(v.front, retrieved, planned);
    assert spent ==> did[1] == more[0];
    OnlyPrepared(did);
  }

  lemma OnlyPrepared(did: seq<Happening>)
    requires forall k :: 0 <= k < |did| ==> did[k].Summarized? || did[k].Gathered?
    ensures Trying(did, 0) && OnlyRetries(did) && !Aborted(did)
  {
    SilentIsSmooth(did);
    SpokenIsThere(did);
    hide Asked, Spoken, Speeches, Uses;
  }

  /** What was gathered and summarized stays so. */
  lemma StillTold(
    start: seq<Happening>, before: seq<Happening>, now: seq<Happening>, v: View, was: Option<Compaction>,
    c: Option<Compaction>)
    requires start <= before <= now
    requires GatheredAs(Since(start, before), v) && SummaryTold(Since(start, before), was, c)
    ensures start <= now && GatheredAs(Since(start, now), v) && SummaryTold(Since(start, now), was, c)
  {
    Joined(start, before, now);
    var retrieved, planned :| Gathered(v.front, retrieved, planned) in Since(start, before)
      && v.back == retrieved + planned;
    assert Gathered(v.front, retrieved, planned) in Since(start, now);
  }

  lemma AbortedRound(did: seq<Happening>, tries: nat)
    requires Uses(did) == 0 && !Asked(did) && Speeches(did) <= tries && OnlyRetries(did) && Aborted(did)
    ensures GenerateDid(did, GenerationCancelled, tries)
  {
  }

  /** Before another attempt the signal was looked at. */
  lemma CheckedTrying(
    start: seq<Happening>, before: seq<Happening>, now: seq<Happening>, n: nat, aborted: bool, tries: nat)
    requires start <= before && now == before + [Checked(aborted)] && n <= tries
    requires Trying(Since(start, before), n) && OnlyRetries(Since(start, before))
    ensures start <= now && OnlyRetries(Since(start, now)) && (!aborted ==> Trying(Since(start, now), n))
    ensures aborted ==> GenerateDid(Since(start, now), GenerationCancelled, tries)
  {
    Looked(start, before, now, aborted);
    TriedChecked(Since(start, before), aborted);
    hide Uses, Asked, Speeches, Aborted, Spoken, OnlyRetries;
    if aborted { AbortedRound(Since(start, now), tries); }
  }

  /** An attempt threw, and how. */
  predicate Tried(did: seq<Happening>, n: nat, a: Attempted) {
    && Uses(did) == 0 && !Asked(did) && Speeches(did) == n > 0 && OnlyRetries(did) && !Aborted(did)
    && Spoken(did).Some? && Comes(Spoken(did).value, a) && a.Threw? && (a.fault.Retryable? ==> Trying(did, n))
  }

  lemma ThrewIsTried(did: seq<Happening>, more: seq<Happening>, n: nat, a: Attempted)
    requires Trying(did, n) && AttemptDid(more, a) && a.Threw?
    ensures Tried(did + more, n + 1, a) && !Aborted(did + more)
  {
    TriedOnce(did, more, n, a);
    hide Uses, Asked, Speeches, Aborted, Spoken, OnlyRetries, Trying;
  }

  /** The attempt got something. */
  lemma GotIsRound(did: seq<Happening>, more: seq<Happening>, n: nat, a: Attempted, tries: nat)
    requires Trying(did, n) && AttemptDid(more, a) && a.Got? && n < tries
    ensures GenerateDid(did + more, a.generation, tries) && (Aborted(did + more) <==> Aborted(more))
  {
    TriedOnce(did, more, n, a);
    hide Uses, Asked, Speeches, Aborted, Spoken, OnlyRetries, Trying;
  }

  /** After an attempt that threw the signal was looked at. */
  lemma CheckedTried(
    start: seq<Happening>, before: seq<Happening>, now: seq<Happening>, n: nat, a: Attempted, aborted: bool,
    tries: nat)
    requires start <= before && now == before + [Checked(aborted)] && Tried(Since(start, before), n, a) && n <= tries
    ensures start <= now && OnlyRetries(Since(start, now))
    ensures aborted ==> GenerateDid(Since(start, now), GenerationCancelled, tries)
    ensures !aborted && (a.fault.Retryable? ==> n == tries) ==> GenerateDid(Since(start, now), GenerationFailed, tries)
    ensures !aborted && a.fault.Retryable? ==> Trying(Since(start, now), n)
    ensures !aborted ==> !Aborted(Since(start, now))
  {
    Looked(start, before, now, aborted);
    TriedChecked(Since(start, before), aborted);
    hide Uses, Asked, Speeches, Aborted, Spoken, OnlyRetries, Trying;
    if aborted { AbortedRound(Since(start, now), tries); }
  }

  lemma NeverTried(did: seq<Happening>)
    requires Trying(did, 0) && OnlyRetries(did)
    ensures GenerateDid(did, GenerationFailed, 0) && !Aborted(did)
  {
  }

  /* ---------- rounds and turns ---------- */

  /** The reply that ends a turn, and with what output. */
  predicate Ends(reply: Reply, output: string) {
    reply.ending.Finished? && reply.ending.stop in {EndTurn, Decision} && reply.ending.output == output
  }

  predicate StopsWith(reply: Option<Reply>, stop: Stop) {
    reply.Some? && reply.value.ending.Finished? && reply.value.ending.stop == stop
  }

  /** A pass of the loop, told from what happened: how it ends the turn, or what it goes on with. */
  ghost predicate RoundDid(did: seq<Happening>, ended: Option<TurnResult>, cap: nat, next: nat, raised: nat) {
    var reply := Spoken(did);
    && (ended.Some? && ended.value.Ended? && ended.value.status == Cancelled <==> Aborted(did))
    && (ended.Some? && ended.value.Suspended? <==> !Aborted(did) && Asked(did))
    && (ended.Some? && ended.value.Suspended? ==> SomeoneAsked(did, ended.value.approvalId))
    && (forall output :: ended == Some(Ended(Completed, output)) <==>
          Smooth(did) && reply.Some? && Ends(reply.value, output))
    && (ended.None? && next == cap <==> Smooth(did) && StopsWith(reply, ToolCalls))
    && (ended.None? && next != cap <==> Smooth(did) && StopsWith(reply, MaxTokens) && raised > cap)
    && (ended.None? ==> next == cap || next == raised)
    && (ended.Some? && ended.value.Ended? ==> ended.value.status in {Completed, Failed, Cancelled})
    && (ended.Some? && ended.value.Ended? && ended.value.status != Completed ==> ended.value.output == "")
  }

  /** How often the model ran into the output cap. */
  function Truncated(did: seq<Happening>): nat {
    if did == [] then 0
    else
      var h := did[|did| - 1];
      Truncated(did[..|did| - 1]) + if h.Spoke? && StopsWith(Some(h.reply), MaxTokens) then 1 else 0
  }

  lemma {:induction false} TruncatedSums(a: seq<Happening>, b: seq<Happening>)
    ensures Truncated(a + b) == Truncated(a) + Truncated(b)
  {
    hide StopsWith;
    if b == [] {
      assert a + b == a;
    } else {
      TruncatedSums(a, b[..|b| - 1]);
      assert (a + b)[..|a + b| - 1] == a + b[..|b| - 1];
    }
  }

  lemma {:induction false} SilentIsWhole(did: seq<Happening>)
    requires Spoken(did).None?
    ensures Truncated(did) == 0
  {
    if did != [] { SilentIsWhole(did[..|did| - 1]); }
  }

  /** Only the last reply of a round can have run into the cap. */
  lemma {:induction false} OnlyLastTruncated(did: seq<Happening>)
    requires OnlyRetries(did)
    ensures Truncated(did) == if StopsWith(Spoken(did), MaxTokens) then 1 else 0
  {
    if did != [] {
      var front, last := did[..|did| - 1], did[|did| - 1];
      OnlyLastTruncated(front);
      SpokenIsThere(front);
      if last.Spoke? && Spoken(front).Some? {
        var k :| 0 <= k < |front| && front[k] == Spoke(Spoken(front).value);
        assert did[k].Spoke? && did[|did| - 1].Spoke?;
      }
    }
  }

  /** What a pass adds to the history when it acts on a reply: the open answers, the reply, and its answers. */
  ghost predicate ActedOn(did: seq<Happening>, reply: Reply, before: seq<Message>, now: seq<Message>) {
    exists open, settled, intents, results ::
      && Calls(open) == Unanswered(before) && TrueResults(did, open, settled, true)
      && Calls(intents) == reply.calls && TrueResults(did, intents, results, true)
      && now == before + settled + [Assistant(reply.content, reply.calls)] + results
  }

  /** And what it adds when it only settles: the open answers. */
  ghost predicate OnlySettled(did: seq<Happening>, before: seq<Message>, now: seq<Message>) {
    exists open, settled ::
      Calls(open) == Unanswered(before) && TrueResults(did, open, settled, true) && now == before + settled
  }

  /** A message that the model said, or that answers a call truly. */
  ghost predicate FromTrace(did: seq<Happening>, m: Message) {
    || (exists k :: 0 <= k < |did| && did[k].Spoke? && m == Assistant(did[k].reply.content, did[k].reply.calls))
    || exists intent :: Truly(did, intent, m)
  }

  /** Everything added to the history was said, or done. */
  ghost predicate Faithful(did: seq<Happening>, before: seq<Message>, now: seq<Message>) {
    before <= now && forall k :: |before| <= k < |now| ==> FromTrace(did, now[k])
  }

  lemma FromTraceMore(did: seq<Happening>, more: seq<Happening>, m: Message)
    ensures FromTrace(did, m) || FromTrace(more, m) ==> FromTrace(did + more, m)
  {
    if k :| 0 <= k < |did| && did[k].Spoke? && m == Assistant(did[k].reply.content, did[k].reply.calls) {
      assert (did + more)[k] == did[k];
    } else if k :| 0 <= k < |more| && more[k].Spoke? && m == Assistant(more[k].reply.content, more[k].reply.calls) {
      assert (did + more)[|did| + k] == more[k];
    } else if intent :| Truly(did, intent, m) || Truly(more, intent, m) {
      TrulyMore(did, more, intent, m);
    }
  }

  lemma FaithfulBoth(
    did: seq<Happening>, more: seq<Happening>, before: seq<Message>, mid: seq<Message>, now: seq<Message>)
    requires Faithful(did, before, mid) && Faithful(more, mid, now)
    ensures Faithful(did + more, before, now)
  {
    hide FromTrace;
    forall k | |before| <= k < |now| ensures FromTrace(did + more, now[k]) {
      FromTraceMore(did, more, now[k]);
    }
  }

  lemma FaithfulNothing(did: seq<Happening>, h: seq<Message>)
    ensures Faithful(did, h, h)
  {
  }

  lemma WorkedIsFaithful(
    did: seq<Happening>, intents: seq<Intent>, terminal: Option<TurnResult>, results: seq<Message>,
    before: seq<Message>)
    requires Worked(did, intents, terminal, results)
    ensures Faithful(did, before, before + results)
  {
    hide Truly, Aborted, Asked, Spoken, Uses, SomeoneAsked;
    var now := before + results;
    forall k | |before| <= k < |now| ensures FromTrace(did, now[k]) {
      assert now[k] in results;
    }
  }

  lemma SaidIsFaithful(did: seq<Happening>, out: Generation, before: seq<Message>)
    requires Spoken(did).Some? && Says(out, Spoken(did).value)
    ensures Faithful(did, before, before + [Assistant(out.content, Calls(out.intents))])
  {
    SpokenIsThere(did);
  }

  lemma TrueMore(did: seq<Happening>, more: seq<Happening>, intents: seq<Intent>, results: seq<Message>)
    ensures TrueResults(did, intents, results, true) ==> TrueResults(did + more, intents, results, true)
    ensures TrueResults(more, intents, results, true) ==> TrueResults(did + more, intents, results, true)
  {
    hide Truly;
    forall i, m | 0 <= i < |intents|
      ensures Truly(did, intents[i], m) || Truly(more, intents[i], m) ==> Truly(did + more, intents[i], m)
    {
      TrulyMore(did, more, intents[i], m);
    }
  }

  /** The open calls did not settle. */
  lemma SettlingEnds(
    did: seq<Happening>, open: seq<Intent>, terminal: TurnResult, results: seq<Message>, cap: nat, raised: nat)
    requires Worked(did, open, Some(terminal), results)
    ensures RoundDid(did, Some(terminal), cap, cap, raised)
    ensures Truncated(did) == if StopsWith(Spoken(did), MaxTokens) then 1 else 0
  {
    SilentIsWhole(did);
    if terminal.Suspended? { AskedByThen(did, [], terminal.approvalId); }
    hide TrueResults, Aborted, Asked, SomeoneAsked;
  }

  /** Settled, then a generation: what the pass has to go on with. */
  lemma SettledThenSaid(
    first: seq<Happening>, second: seq<Happening>, open: seq<Intent>, settled: seq<Message>, out: Generation,
    tries: nat)
    requires Worked(first, open, None, settled) && GenerateDid(second, out, tries)
    ensures var did := first + second;
      && !Asked(did) && (Aborted(did) <==> Aborted(second)) && Spoken(did) == Spoken(second)
      && Truncated(did) == (if StopsWith(Spoken(did), MaxTokens) then 1 else 0)
      && (out.Generated? ==> !Aborted(did) && Spoken(did).Some? && Says(out, Spoken(did).value))
      && (!out.Generated? && !Aborted(did) ==> Spoken(did).Some? ==> !Spoken(did).value.ending.Finished?)
  {
    Sums(first, second);
    TruncatedSums(first, second);
    SilentIsWhole(first);
    OnlyLastTruncated(second);
    SpokenIsThere(second);
    hide TrueResults, Aborted, Asked, Spoken, Truncated, OnlyRetries, Uses, Speeches;
  }

  /** The generation failed or was cancelled. */
  lemma SaidNothing(did: seq<Happening>, aborted: bool, cap: nat, raised: nat)
    requires !Asked(did) && (Aborted(did) ==> aborted)
    requires !Aborted(did) ==> Spoken(did).Some? ==> !Spoken(did).value.ending.Finished?
    requires Truncated(did) == if StopsWith(Spoken(did), MaxTokens) then 1 else 0
    ensures var all, r := did + [Checked(aborted)], Ended(if aborted then Cancelled else Failed, "");
      && RoundDid(all, Some(r), cap, cap, raised) && (Aborted(all) <==> aborted)
      && Truncated(all) == (if StopsWith(Spoken(all), MaxTokens) then 1 else 0) && Spoken(all) == Spoken(did)
  {
    Sums(did, [Checked(aborted)]);
    TruncatedSums(did, [Checked(aborted)]);
    One(Checked(aborted));
    SilentIsWhole([Checked(aborted)]);
    hide Aborted, Asked, Spoken, Truncated, SomeoneAsked;
  }

  /** The reply ran into the cap: the pass raises it, or fails. */
  lemma Capped(did: seq<Happening>, cap: nat, raised: nat)
    requires Smooth(did) && StopsWith(Spoken(did), MaxTokens)
    ensures raised > cap ==> RoundDid(did, None, cap, raised, raised)
    ensures raised <= cap ==> RoundDid(did, Some(Ended(Failed, "")), cap, cap, raised)
  {
    hide Aborted, Asked, Spoken, SomeoneAsked;
  }

  /** The calls of the reply did not all settle. */
  lemma ActingEnds(
    did: seq<Happening>, more: seq<Happening>, intents: seq<Intent>, terminal: TurnResult, results: seq<Message>,
    cap: nat, raised: nat)
    requires Smooth(did) && Worked(more, intents, Some(terminal), results)
    ensures RoundDid(did + more, Some(terminal), cap, cap, raised) && Spoken(did + more) == Spoken(did)
    ensures Truncated(did + more) == Truncated(did) && (Aborted(did + more) <==> Aborted(more))
  {
    Sums(did, more);
    TruncatedSums(did, more);
    SilentIsWhole(more);
    if terminal.Suspended? { AskedByThen(did, more, terminal.approvalId); }
    hide TrueResults, Aborted, Asked, SomeoneAsked, Spoken, Truncated;
  }

  /** They all did: the reply ends the turn, or the pass is a step done. */
  lemma ActingGoesOn(
    did: seq<Happening>, more: seq<Happening>, intents: seq<Intent>, results: seq<Message>, cap: nat, raised: nat)
    requires Smooth(did) && Worked(more, intents, None, results)
    requires Spoken(did).Some? && Spoken(did).value.ending.Finished? && Spoken(did).value.ending.stop != MaxTokens
    ensures var ending := Spoken(did).value.ending;
      if ending.stop == ToolCalls then RoundDid(did + more, None, cap, cap, raised)
      else RoundDid(did + more, Some(Ended(Completed, ending.output)), cap, cap, raised)
    ensures Truncated(did + more) == Truncated(did) && Spoken(did + more) == Spoken(did) && !Aborted(did + more)
  {
    Sums(did, more);
    TruncatedSums(did, more);
    SilentIsWhole(more);
    hide TrueResults, Aborted, Asked, SomeoneAsked, Spoken, Truncated;
  }

  /**
   * A pass of the loop whose model call may be tried so often, and what it makes of the history: a pass that goes
   * on to another step, or completes the turn, acts on the reply; one that raises the cap only settles; and one
   * that fails could not try, could not raise the cap, or got no answer.
   */
  ghost predicate PassDid(
    did: seq<Happening>, ended: Option<TurnResult>, cap: nat, next: nat, raised: nat, tries: nat,
    before: seq<Message>, now: seq<Message>)
  {
    && RoundDid(did, ended, cap, next, raised) && (Spoken(did).Some? ==> tries > 0) && Faithful(did, before, now)
    && Truncated(did) == (if StopsWith(Spoken(did), MaxTokens) then 1 else 0)
    && ((if ended.Some? then ended.value.Ended? && ended.value.status == Completed else next == cap) ==>
          Spoken(did).Some? && ActedOn(did, Spoken(did).value, before, now))
    && (ended.None? && next != cap ==> OnlySettled(did, before, now))
    && (ended.Some? && ended.value.Ended? && ended.value.status == Failed ==>
          && (Spoken(did).None? ==> tries == 0)
          && (StopsWith(Spoken(did), MaxTokens) ==> raised <= cap))
  }

  lemma SettlingIsPass(
    did: seq<Happening>, open: seq<Intent>, terminal: TurnResult, results: seq<Message>, cap: nat, raised: nat,
    tries: nat, before: seq<Message>, now: seq<Message>)
    requires Worked(did, open, Some(terminal), results) && now == before + results
    ensures PassDid(did, Some(terminal), cap, cap, raised, tries, before, now)
  {
    SettlingEnds(did, open, terminal, results, cap, raised);
    WorkedIsFaithful(did, open, Some(terminal), results, before);
    hide Faithful, RoundDid, Truncated, ActedOn, OnlySettled, TrueResults, Aborted, Asked, Spoken, SomeoneAsked;
  }

  /** Nothing was generated, and the signal was looked at. */
  lemma SilenceIsPass(
    first: seq<Happening>, second: seq<Happening>, open: seq<Intent>, settled: seq<Message>, out: Generation,
    aborted: bool, cap: nat, raised: nat, tries: nat, before: seq<Message>, now: seq<Message>)
    requires Worked(first, open, None, settled) && GenerateDid(second, out, tries) && !out.Generated?
    requires (Aborted(second) ==> aborted) && now == before + settled
    ensures var did, r := first + second + [Checked(aborted)], Ended(if aborted then Cancelled else Failed, "");
      PassDid(did, Some(r), cap, cap, raised, tries, before, now) && (Aborted(did) <==> aborted)
  {
    SettledThenSaid(first, second, open, settled, out, tries);
    SaidMeans(second, out, tries);
    SaidNothing(first + second, aborted, cap, raised);
    WorkedIsFaithful(first, open, None, settled, before);
    FaithfulNothing(second + [Checked(aborted)], now);
    FaithfulBoth(first, second + [Checked(aborted)], before, now, now);
    assert first + second + [Checked(aborted)] == first + (second + [Checked(aborted)]);
    hide Faithful, RoundDid, Truncated, ActedOn, OnlySettled, TrueResults, Aborted, Asked, Spoken, Worked, GenerateDid;
  }

  /** The reply ran into the output cap. */
  lemma CappedIsPass(
    first: seq<Happening>, second: seq<Happening>, open: seq<Intent>, settled: seq<Message>, out: Generation,
    cap: nat, raised: nat, tries: nat, before: seq<Message>, now: seq<Message>)
    requires Worked(first, open, None, settled) && GenerateDid(second, out, tries)
    requires out.Generated? && out.stop == MaxTokens
    requires Calls(open) == Unanswered(before) && now == before + settled
    ensures raised > cap ==> PassDid(first + second, None, cap, raised, raised, tries, before, now)
    ensures raised <= cap ==>
      PassDid(first + second, Some(Ended(Failed, "")), cap, cap, raised, tries, before, now)
    ensures !Aborted(first + second)
  {
    SettledThenSaid(first, second, open, settled, out, tries);
    SaidMeans(second, out, tries);
    Capped(first + second, cap, raised);
    SettledOnly(first, second, open, settled, before, now);
    WorkedIsFaithful(first, open, None, settled, before);
    FaithfulNothing(second, now);
    FaithfulBoth(first, second, before, now, now);
    hide Faithful, RoundDid, Truncated, ActedOn, OnlySettled, TrueResults, Aborted, Asked, Spoken, Worked, GenerateDid,
      Unanswered;
  }

  /** The reply was acted on. */
  lemma ActingIsPass(
    first: seq<Happening>, second: seq<Happening>, third: seq<Happening>, open: seq<Intent>, settled: seq<Message>,
    out: Generation, broke: Option<TurnResult>, results: seq<Message>, cap: nat, raised: nat, tries: nat,
    before: seq<Message>, now: seq<Message>)
    requires Worked(first, open, None, settled) && GenerateDid(second, out, tries)
    requires out.Generated? && out.stop != MaxTokens && Worked(third, out.intents, broke, results)
    requires Calls(open) == Unanswered(before)
    requires now == before + settled + [Assistant(out.content, Calls(out.intents))] + results
    ensures var done := if out.stop == ToolCalls then None else Some(Ended(Completed, out.output));
      PassDid(first + second + third, if broke.Some? then broke else done, cap, cap, raised, tries, before, now)
    ensures Aborted(first + second + third) <==> Aborted(third)
  {
    var did := first + second;
    SettledThenSaid(first, second, open, settled, out, tries);
    SaidMeans(second, out, tries);
    SmoothSaid(did);
    if broke.Some? {
      ActingEnds(did, third, out.intents, broke.value, results, cap, raised);
      WorkedNotCompleted(third, out.intents, broke.value, results);
    } else {
      ActingGoesOn(did, third, out.intents, results, cap, raised);
      WorkedIsNoAbort(third, out.intents, results);
      ActedMeans(first, second, third, open, settled, out, results, before, now);
    }
    ActedFaithfully(first, second, third, open, settled, out, broke, results, before);
    hide Faithful, RoundDid, Truncated, ActedOn, OnlySettled, TrueResults, Aborted, Asked, Spoken, Worked, GenerateDid,
      Unanswered;
  }

  lemma ActedFaithfully(
    first: seq<Happening>, second: seq<Happening>, third: seq<Happening>, open: seq<Intent>, settled: seq<Message>,
    out: Generation, broke: Option<TurnResult>, results: seq<Message>, before: seq<Message>)
    requires Worked(first, open, None, settled) && out.Generated? && Worked(third, out.intents, broke, results)
    requires Spoken(second).Some? && Says(out, Spoken(second).value)
    ensures Faithful(first + second + third, before,
                     before + settled + [Assistant(out.content, Calls(out.intents))] + results)
  {
    var mid := before + settled;
    var said := mid + [Assistant(out.content, Calls(out.intents))];
    WorkedIsFaithful(first, open, None, settled, before);
    SaidIsFaithful(second, out, mid);
    WorkedIsFaithful(third, out.intents, broke, results, said);
    hide Faithful, Worked, Spoken, Says;
    FaithfulBoth(first, second, before, mid, said);
    FaithfulBoth(first + second, third, before, said, said + results);
  }

  /** A reply stands in the log: its item was opened, and completed with what it says. */
  ghost predicate ReplyLogged(before: seq<Event>, after: seq<Event>, t: nat, reply: Reply) {
    exists i, j ::
      && |before| <= i < j < |after|
      && after[j].ItemCompleted? && after[j].item.MessageItem? && after[i] == Opened(t, after[j].item.id)
      && after[j] == ItemCompleted(t, MessageItem(after[j].item.id, AssistantRole, reply.content, reply.calls))
  }

  /** A reply that ran into the output cap does not: the item it opened failed, there. */
  ghost predicate ReplyDropped(before: seq<Event>, after: seq<Event>, t: nat, at: int) {
    && |before| < at < |after| && after[at].ItemFailed? && after[at].turn == t
    && exists i :: |before| <= i < at && after[i] == Opened(t, after[at].itemId)
  }

  /**
   * What a pass leaves in the log that nothing aborted: the reply it acted on, or the failure of one that ran into
   * the cap; and at its end a checkpoint of the history, when the step is done.
   */
  ghost predicate PassLogged(
    before: seq<Event>, after: seq<Event>, t: nat, did: seq<Happening>, ended: Option<TurnResult>, sameCap: bool,
    stepIndex: nat, h: seq<Message>)
  {
    && (!Aborted(did) && Spoken(did).Some? && Spoken(did).value.ending.Finished? ==>
          if StopsWith(Spoken(did), MaxTokens)
          then ReplyDropped(before, after, t, |after| - if ended.None? then 1 else 2)
          else ReplyLogged(before, after, t, Spoken(did).value))
    && (ended.None? && sameCap ==> after != [] && after[|after| - 1] == Checkpoint(t, stepIndex, h))
  }

  lemma SettlingIsLogged(
    before: seq<Event>, after: seq<Event>, t: nat, did: seq<Happening>, open: seq<Intent>, terminal: TurnResult,
    results: seq<Message>, stepIndex: nat, h: seq<Message>)
    requires Worked(did, open, Some(terminal), results)
    ensures PassLogged(before, after, t, did, Some(terminal), true, stepIndex, h)
  {
  }

  lemma SilenceIsLogged(
    before: seq<Event>, after: seq<Event>, t: nat, first: seq<Happening>, second: seq<Happening>, open: seq<Intent>,
    settled: seq<Message>, out: Generation, aborted: bool, tries: nat, r: TurnResult, stepIndex: nat, h: seq<Message>)
    requires Worked(first, open, None, settled) && GenerateDid(second, out, tries) && !out.Generated?
    requires Aborted(second) ==> aborted
    ensures PassLogged(before, after, t, first + second + [Checked(aborted)], Some(r), true, stepIndex, h)
  {
    SettledThenSaid(first, second, open, settled, out, tries);
    Sums(first + second, [Checked(aborted)]);
    One(Checked(aborted));
    hide Aborted, Asked, Spoken, Worked, GenerateDid, Truncated, ReplyLogged, ReplyDropped;
  }

  lemma CappedIsLogged(
    before: seq<Event>, mid: seq<Event>, after: seq<Event>, t: nat, first: seq<Happening>, second: seq<Happening>,
    open: seq<Intent>, settled: seq<Message>, out: Generation, tries: nat, ended: Option<TurnResult>, stepIndex: nat,
    h: seq<Message>)
    requires Worked(first, open, None, settled) && GenerateDid(second, out, tries)
    requires out.Generated? && out.stop == MaxTokens && InLog(before, mid, t, out)
    requires |after| == |mid| + (if ended.None? then 1 else 2) && mid <= after
    requires after[|mid|] == ItemFailed(t, out.itemId)
    ensures PassLogged(before, after, t, first + second, ended, false, stepIndex, h)
    ensures ended.Some? ==> PassLogged(before, after, t, first + second, ended, true, stepIndex, h)
  {
    SettledThenSaid(first, second, open, settled, out, tries);
    var i :| |before| <= i < |mid| && mid[i] == Opened(t, out.itemId);
    assert after[i] == mid[i];
    hide Aborted, Asked, Spoken, Worked, GenerateDid, Truncated, ReplyLogged;
  }

  lemma ActingIsLogged(
    before: seq<Event>, mid: seq<Event>, after: seq<Event>, t: nat, first: seq<Happening>, second: seq<Happening>,
    third: seq<Happening>, open: seq<Intent>, settled: seq<Message>, out: Generation, broke: Option<TurnResult>,
    results: seq<Message>, tries: nat, ended: Option<TurnResult>, stepIndex: nat, h: seq<Message>)
    requires Worked(first, open, None, settled) && GenerateDid(second, out, tries)
    requires out.Generated? && out.stop != MaxTokens && InLog(before, mid, t, out)
    requires Worked(third, out.intents, broke, results)
    requires |mid| < |after| && (forall i :: 0 <= i < |mid| ==> after[i] == mid[i])
    requires after[|mid|] == ItemCompleted(t, MessageItem(out.itemId, AssistantRole, out.content, Calls(out.intents)))
    requires ended.None? ==> after[|after| - 1] == Checkpoint(t, stepIndex, h)
    ensures PassLogged(before, after, t, first + second + third, ended, true, stepIndex, h)
  {
    SettledThenSaid(first, second, open, settled, out, tries);
    Sums(first + second, third);
    assert Spoken(third).None?;
    var i :| |before| <= i < |mid| && mid[i] == Opened(t, out.itemId);
    assert after[i] == Opened(t, out.itemId);
    assert ReplyLogged(before, after, t, Spoken(second).value);
    hide Aborted, Asked, Spoken, Worked, GenerateDid, Truncated, ReplyLogged, ReplyDropped;
  }

  lemma SmoothSaid(did: seq<Happening>)
    ensures Smooth(did) <==> !Aborted(did) && !Asked(did)
  {
  }

  lemma WorkedNotCompleted(did: seq<Happening>, intents: seq<Intent>, r: TurnResult, results: seq<Message>)
    requires Worked(did, intents, Some(r), results)
    ensures r.Ended? ==> r.status == Cancelled
  {
  }

  lemma WorkedIsNoAbort(did: seq<Happening>, intents: seq<Intent>, results: seq<Message>)
    requires Worked(did, intents, None, results)
    ensures !Aborted(did)
  {
  }

  /* ---------- whole drives ---------- */

  /** How a turn fails: out of steps, out of room for output, or because the model does not answer. */
  ghost predicate FailedBecause(did: seq<Happening>, begun: nat, steps: int, maxSteps: int, tries: nat, raises: nat) {
    match Spoken(did)
    case None => begun >= maxSteps || tries == 0
    case Some(reply) =>
      && (StopsWith(Some(reply), ToolCalls) ==> steps >= maxSteps)
      && (StopsWith(Some(reply), MaxTokens) ==> steps >= maxSteps || Truncated(did) == raises + 1)
  }

  /**
   * How a turn ends, told from what happened: cancelled exactly when the abort was noticed, suspended exactly
   * when a tool asked, completed exactly when the last thing the model said ends the turn, with that output,
   * and failed otherwise, for a reason. `begun` is the step it began at, `steps` the one it got to.
   */
  ghost predicate TurnDid(
    did: seq<Happening>, r: TurnResult, begun: nat, steps: int, maxSteps: int, tries: nat, raises: nat)
  {
    && (r.Ended? && r.status == Cancelled <==> Aborted(did))
    && (r.Suspended? <==> !Aborted(did) && Asked(did))
    && (r.Suspended? ==> SomeoneAsked(did, r.approvalId))
    && (forall output :: r == Ended(Completed, output) <==>
          Smooth(did) && Spoken(did).Some? && Ends(Spoken(did).value, output))
    && (r.Ended? && r.status != Completed ==> r.output == "" && r.status in {Failed, Cancelled})
    && (r.Ended? && r.status == Failed ==> FailedBecause(did, begun, steps, maxSteps, tries, raises))
  }

  /** A turn that goes on: it said nothing yet, or its last reply called tools or ran into the cap. */
  predicate GoingOn(did: seq<Happening>, rounds: nat) {
    && Smooth(did)
    && (rounds == 0 <==> Spoken(did).None?)
    && (rounds > 0 ==> StopsWith(Spoken(did), ToolCalls) || StopsWith(Spoken(did), MaxTokens))
  }

  /** The top of the loop: aborted, or out of steps, or one more pass. */
  lemma TopOfLoop(
    did: seq<Happening>, rounds: nat, aborted: bool, begun: nat, steps: int, maxSteps: int, tries: nat,
    raises: nat)
    requires GoingOn(did, rounds)
    requires rounds == 0 ==> begun == steps
    ensures var all := did + [Checked(aborted)];
      && (!aborted ==> GoingOn(all, rounds) && Truncated(all) == Truncated(did) && Spoken(all) == Spoken(did))
      && (Aborted(all) <==> aborted)
      && (aborted ==> TurnDid(all, Ended(Cancelled, ""), begun, steps, maxSteps, tries, raises))
      && (!aborted && steps >= maxSteps ==>
            TurnDid(all, Ended(Failed, ""), begun, steps, maxSteps, tries, raises))
  {
    Sums(did, [Checked(aborted)]);
    TruncatedSums(did, [Checked(aborted)]);
    One(Checked(aborted));
    SilentIsWhole([Checked(aborted)]);
    hide Aborted, Asked, SomeoneAsked, Spoken, Truncated;
  }

  /** A pass that ends the turn. */
  lemma LastPass(
    did: seq<Happening>, more: seq<Happening>, rounds: nat, r: TurnResult, cap: nat, next: nat, raised: nat,
    before: seq<Message>, now: seq<Message>, begun: nat, steps: int, maxSteps: int, tries: nat, raises: nat)
    requires GoingOn(did, rounds) && PassDid(more, Some(r), cap, next, raised, tries, before, now)
    requires raised <= cap ==> Truncated(did) == raises
    requires tries == 0 ==> rounds == 0
    ensures TurnDid(did + more, r, begun, steps, maxSteps, tries, raises)
    ensures (Aborted(did + more) <==> Aborted(more)) && Faithful(more, before, now)
  {
    Sums(did, more);
    TruncatedSums(did, more);
    if r.Suspended? { AskedByThen(did, more, r.approvalId); }
    hide Aborted, Asked, SomeoneAsked, Spoken, Truncated, ActedOn, OnlySettled;
  }

  /** A pass that goes on. */
  lemma OnePassMore(
    did: seq<Happening>, more: seq<Happening>, rounds: nat, cap: nat, next: nat, raised: nat, tries: nat,
    before: seq<Message>, now: seq<Message>)
    requires GoingOn(did, rounds) && PassDid(more, None, cap, next, raised, tries, before, now)
    ensures GoingOn(did + more, rounds + 1) && tries > 0
    ensures Truncated(did + more) == Truncated(did) + if next == cap then 0 else 1
    ensures (next != cap ==> next == raised > cap) && Faithful(more, before, now)
  {
    Sums(did, more);
    TruncatedSums(did, more);
    hide Aborted, Asked, SomeoneAsked, Spoken, Truncated, ActedOn, OnlySettled;
  }

  lemma NothingGoesOn()
    ensures GoingOn([], 0) && Truncated([]) == 0
  {
    NothingDid();
  }

  lemma SaidMeans(did: seq<Happening>, out: Generation, tries: nat)
    requires GenerateDid(did, out, tries)
    ensures Spoken(did).Some? ==> tries > 0
    ensures Spoken(did).None? && !Aborted(did) ==> tries == 0
    ensures out.Generated? ==> !Aborted(did) && Spoken(did).Some? && Says(out, Spoken(did).value)
  {
    SpokenIsThere(did);
  }

  /** What the pass settled is settled truly, whatever came after. */
  lemma SettledOnly(
    first: seq<Happening>, second: seq<Happening>, open: seq<Intent>, settled: seq<Message>, before: seq<Message>,
    now: seq<Message>)
    requires Worked(first, open, None, settled) && Calls(open) == Unanswered(before) && now == before + settled
    ensures OnlySettled(first + second, before, now)
  {
    TrueMore(first, second, open, settled);
    hide TrueResults, Unanswered;
  }

  lemma ActedMeans(
    first: seq<Happening>, second: seq<Happening>, third: seq<Happening>, open: seq<Intent>, settled: seq<Message>,
    out: Generation, results: seq<Message>, before: seq<Message>, now: seq<Message>)
    requires Worked(first, open, None, settled) && Calls(open) == Unanswered(before)
    requires out.Generated? && Worked(third, out.intents, None, results) && Spoken(second).Some?
    requires Says(out, Spoken(second).value)
    requires now == before + settled + [Assistant(out.content, Calls(out.intents))] + results
    ensures Spoken(first + second + third) == Spoken(second)
    ensures ActedOn(first + second + third, Spoken(second).value, before, now)
  {
    Sums(first, second);
    Sums(first + second, third);
    TrueMore(first, second, open, settled);
    TrueMore(first + second, third, open, settled);
    TrueMore(first + second, third, out.intents, results);
    hide TrueResults, Unanswered, Spoken;
  }

  /** Steps matter only to a turn that failed. */
  lemma SameTurn(
    did: seq<Happening>, r: TurnResult, begun: nat, some: int, steps: int, maxSteps: int, tries: nat, raises: nat)
    requires TurnDid(did, r, begun, some, maxSteps, tries, raises)
    requires r.Ended? && r.status == Failed ==> some == steps
    ensures TurnDid(did, r, begun, steps, maxSteps, tries, raises)
  {
    hide Aborted, Asked, SomeoneAsked, Spoken, Truncated, FailedBecause;
  }

  /** A tool that answered first is no part of how the turn ends. */
  lemma AnsweredFirst(
    h: Happening, did: seq<Happening>, r: TurnResult, begun: nat, steps: int, maxSteps: int, tries: nat, raises: nat)
    requires h.Used? && !h.outcome.ApprovalRequired? && TurnDid(did, r, begun, steps, maxSteps, tries, raises)
    ensures TurnDid([h] + did, r, begun, steps, maxSteps, tries, raises)
  {
    Sums([h], did);
    TruncatedSums([h], did);
    One(h);
    SilentIsWhole([h]);
    if r.Suspended? { AskedByThen([h], did, r.approvalId); }
    hide Aborted, Asked, SomeoneAsked, Spoken, Truncated;
  }
}
