/**
 * The step loop of an agent turn: generate, run the tool calls, checkpoint, suspend or go on, and rebuild
 * from the log. What the model, the tools and the abort signal do is left open at every step. The log has
 * one writer, and writes do not fail.
 */
module AgentLoop {
  import opened Options
  import opened ThreadLog
  import opened LoopBooks
  import opened LoopSteps
  import opened LoopTrace
  import opened ParallelBatch
  import opened ThreadRuns
  import opened TurnEndings
  import opened TurnRecords
  import ContextPolicy
  import OutputCap

  /** What the owner of a thread may do: say something, decide an approval, or recover a turn. */
  datatype Action = Say(input: string) | Answer(turn: nat, approvalId: nat) | Recover(turn: nat)

  class LoopState {
    const turn: nat
    var history: seq<Message>
    var stepIndex: nat
    var compaction: Option<Compaction>
    var attempts: nat
    ghost var batches: seq<Batch>

    constructor (turn: nat, history: seq<Message>, stepIndex: nat, compaction: Option<Compaction>)
      ensures this.turn == turn && this.history == history && this.stepIndex == stepIndex
      ensures this.compaction == compaction && attempts == 0 && batches == []
    {
      this.turn, this.history, this.stepIndex, this.compaction, attempts := turn, history, stepIndex, compaction, 0;
      batches := [];
    }
  }

  class AgentLoop {
    const settings: Settings
    const parallelSafe: Call -> bool
    var log: seq<Event>
    var nextId: nat
    var signal: bool
    ghost var trace: seq<Happening>

    constructor (settings: Settings, parallelSafe: Call -> bool, log: seq<Event>, nextId: nat)
      ensures this.settings == settings && this.parallelSafe == parallelSafe && this.log == log && this.nextId == nextId
      ensures trace == [] && !signal
    {
      this.settings, this.parallelSafe, this.log, this.nextId := settings, parallelSafe, log, nextId;
      signal, trace := false, [];
    }

    /* ---------- what is not determined here ---------- */

    /** The abort signal, which never goes back. */
    method CheckAbort() returns (aborted: bool)
      modifies `signal, `trace
      ensures aborted == signal && (old(signal) ==> signal) && trace == old(trace) + [Checked(aborted)]
    {
      var now: bool := *;
      signal := signal || now;
      trace := trace + [Checked(signal)];
      return signal;
    }

    /** What the model says. */
    method CallModel() returns (reply: Reply)
      modifies `trace
      ensures trace == old(trace) + [Spoke(reply)]
    {
      reply := *;
      trace := trace + [Spoke(reply)];
    }

    /** What a tool does. */
    method UseTool(intent: Intent) returns (outcome: ToolOutcome)
      modifies `trace
      ensures trace == old(trace) + [Used(intent, outcome)]
    {
      outcome := *;
      trace := trace + [Used(intent, outcome)];
    }

    method AskSummarizer() returns (summary: Option<string>)
      modifies `trace
      ensures trace == old(trace) + [Summarized(summary)]
    {
      summary := *;
      trace := trace + [Summarized(summary)];
    }

    /** The messages that hooks put around the history. */
    method GatherMessages() returns (system: seq<Message>, retrieved: seq<Message>, planned: seq<Message>)
      modifies `trace
      ensures trace == old(trace) + [Gathered(system, retrieved, planned)]
    {
      system, retrieved, planned := *, *, *;
      trace := trace + [Gathered(system, retrieved, planned)];
    }

    /** Nothing that was noticed of the abort signal is taken back. */
    ghost predicate Heard(did: seq<Happening>)
      reads this
    {
      Aborted(did) ==> signal
    }

    /** Every tool runs alone. */
    ghost predicate Exclusive() { forall call: Call :: !parallelSafe(call) }

    /** A batch of no calls would repeat for ever, so tools that run in parallel need room for one. */
    ghost predicate Bounded() { settings.maxParallel > 0 || Exclusive() }

    ghost predicate Kept(g: Ledger, state: LoopState)
      reads this, state
    {
      && g.turn == state.turn && Bounded()
      && (g.exclusive ==> Exclusive())
      && Books(g, log, state.history, state.compaction, state.batches)
    }

    /** Appends an event that no fold reads. */
    method Note(e: Event, state: LoopState, ghost g: Ledger)
      requires Kept(g, state) && Plain(e) && e.turn == g.turn
      modifies `log
      ensures Kept(g, state) && log == old(log) + [e]
      ensures forall start :: Extends(start, old(log), g.turn) ==> Extends(start, log, g.turn)
      ensures Requests(log) == Requests(old(log)) + (if e.ModelRequested? then 1 else 0)
      ensures Steps(log) == Steps(old(log))
      ensures Messages(log) == Messages(old(log))
    {
      hide Books, Exclusive, Plain, Requests, Steps, Messages;
      PlainIsNoStep(log, e);
      PlainKeeps(g, log, e, state.history, state.compaction, state.batches);
      log := log + [e];
    }

    method TakeCheckpoint(state: LoopState, stepIndex: nat, ghost g: Ledger)
      requires Kept(g, state)
      modifies `log
      ensures forall start :: Extends(start, old(log), g.turn) ==> Extends(start, log, g.turn)
      ensures Kept(g, state) && log == old(log) + [Checkpoint(state.turn, stepIndex, state.history)]
      ensures Steps(log) == Steps(old(log)) + 1 && Requests(log) == Requests(old(log))
    {
      hide Books, Exclusive, Requests, Steps;
      CountStep(log, Checkpoint(state.turn, stepIndex, state.history));
      CheckpointKeeps(g, log, stepIndex, state.history, state.compaction, state.batches);
      log := log + [Checkpoint(state.turn, stepIndex, state.history)];
    }

    method End(state: LoopState, status: Status, output: string, ghost g: Ledger) returns (r: TurnResult)
      requires Kept(g, state) && status != Active
      modifies `log
      ensures Kept(g, state) && r == Ended(status, output)
      ensures log == old(log) + [TurnEnded(state.turn, status)]
      ensures Requests(log) == Requests(old(log)) && Steps(log) == Steps(old(log))
      ensures forall start :: Extends(start, old(log), g.turn) ==> Extends(start, log, g.turn)
    {
      hide Books, Exclusive;
      Note(TurnEnded(state.turn, status), state, g);
      return Ended(status, output);
    }

    /* ---------- tool calls ---------- */

    /** Groups consecutive intents of the same kind; a call with an input error runs alone. */
    method SegmentIntents(intents: seq<Intent>) returns (segments: seq<Segment>)
      ensures Flat(segments) == intents && Grouped(segments, parallelSafe)
      ensures forall k, i :: 0 <= k < |segments| && 0 <= i < |segments[k].intents| ==>
        var call := segments[k].intents[i].call;
        segments[k].parallel <==> call.inputError.None? && parallelSafe(call)
    {
      segments := [];
      for n := 0 to |intents|
        invariant Flat(segments) == intents[..n] && Grouped(segments, parallelSafe)
      {
        hide Flat, Grouped;
        assert intents[..n + 1] == intents[..n] + [intents[n]];
        var parallel := RunsParallel(parallelSafe, intents[n].call);
        AddToSegments(segments, parallelSafe, intents[n]);
        if segments != [] && segments[|segments| - 1].parallel == parallel {
          var front, last := segments[..|segments| - 1], segments[|segments| - 1];
          segments := front + [Segment(parallel, last.intents + [intents[n]])];
        } else {
          segments := segments + [Segment(parallel, [intents[n]])];
        }
      }
      assert intents[..|intents|] == intents;
      GroupedMeans(segments, parallelSafe);
    }

    /** Executes one intent, or answers its input error, and records the result or the suspension. */
    method Dispatch(turn: nat, h: seq<Message>, stepIndex: nat, intent: Intent) returns (o: Outcome)
      modifies `log, `nextId, `trace
      ensures Dispatched(old(log), log, turn, h, intent, o)
      ensures nextId == old(nextId) + if o.Stopped? then 1 else 0
      ensures o.Stopped? ==>
        log[|old(log)|] ==
        ItemStarted(turn, ApprovalItem(old(nextId), o.result.approvalId, intent.call.callId, true))
      ensures o.Replied? ==> Replies(o, intent) && Recorded(old(log), log, turn, o.message)
      ensures o.Stopped? ==> SuspendedLog(old(log), log, turn, h, intent.call.callId, o.result)
      ensures o.Stopped? ==> log[|old(log)| + 1].stepIndex == stepIndex + 1
      ensures o.Replied? && intent.call.inputError.Some? ==>
        log[|old(log)|].item.result == Result(intent.call.inputError.value, Some(true))
      ensures old(trace) <= trace && DispatchDid(Since(old(trace), trace), intent, o)
    {
      hide DispatchDid;
      if intent.call.inputError.Some? {
        o := CompleteToolItem(turn, intent, Result(intent.call.inputError.value, Some(true)));
        NothingYetDone(trace);
        ErrorAnswered(intent, o);
        return;
      }
      var tool := UseTool(intent);
      OneMore(old(trace), Used(intent, tool));
      match tool {
        case ToolThrew(error) =>
          o := CompleteToolItem(turn, intent, Result(error, Some(true)));
        case ToolResult(result) =>
          o := CompleteToolItem(turn, intent, result);
        case ApprovalRequired(approvalId) =>
          log := log + [ItemStarted(turn, ApprovalItem(nextId, approvalId, intent.call.callId, true))];
          nextId := nextId + 1;
          log := log + [Checkpoint(turn, stepIndex + 1, h)];
          o := Outcome.Stopped(Suspended(approvalId));
      }
      ToolAnswered(intent, tool, o);
    }

    method CompleteToolItem(turn: nat, intent: Intent, result: Result) returns (o: Outcome)
      modifies `log
      ensures o == Replied(Tool(intent.call.callId, intent.call.toolId, result.content, result.isError))
      ensures log == old(log) + [ItemCompleted(turn, ToolItem(intent.itemId, intent.call, result))]
      ensures Recorded(old(log), log, turn, o.message)
    {
      log := log + [ItemCompleted(turn, ToolItem(intent.itemId, intent.call, result))];
      o := Replied(Tool(intent.call.callId, intent.call.toolId, result.content, result.isError));
    }

    /** Runs the intents one after the other, until one ends the turn. */
    method RunExclusive(state: LoopState, intents: seq<Intent>, ghost g: Ledger)
      returns (terminal: Option<TurnResult>, ghost results: seq<Message>)
      requires Kept(g, state)
      modifies `log, `nextId, `signal, `trace, state`history
      ensures Kept(g, state)
      ensures Ran(old(log), log, g, old(state.history), state.history, state.batches, intents, terminal, results)
      ensures old(trace) <= trace && Worked(Since(old(trace), trace), intents, terminal, results)
      ensures (old(signal) ==> signal) && Heard(Since(old(trace), trace))
    {
      hide Books, Exclusive, Ran, Recorded, SuspendedLog, Plain, Extends, Dispatched, Replies, Requests, Steps,
        Messages, Worked, DispatchDid, Aborted;
      results := [];
      RanNothing(log, g, state.history, state.batches, intents);
      WorkedNothing(intents);
      NothingYetDone(trace);
      NothingDid();
      for n := 0 to |intents|
        invariant Kept(g, state)
        invariant Ran(old(log), log, g, old(state.history), state.history, state.batches, intents[..n], None, results)
        invariant old(trace) <= trace && Worked(Since(old(trace), trace), intents[..n], None, results)
        invariant (old(signal) ==> signal) && Heard(Since(old(trace), trace))
      {
        ghost var before, told := log, trace;
        var aborted := CheckAbort();
        Looked(old(trace), told, trace, aborted);
        WorkedChecked(Since(old(trace), told), intents[..n], results, aborted);
        if aborted {
          var r := End(state, Cancelled, "", g);
          RanEnded(old(log), before, log, g, old(state.history), state.history, state.batches, intents, n, results, r);
          WorkedAll(Since(old(trace), trace), intents[..n], intents, Some(r), results);
          return Some(r), results;
        }
        told := trace;
        var o := Dispatch(state.turn, state.history, state.stepIndex, intents[n]);
        ghost var callId := intents[n].call.callId;
        DispatchWorked(old(trace), told, trace, intents, n, results, o);
        if o.Stopped? {
          SuspensionKeeps(g, before, log, state.history, state.compaction, state.batches, callId, o.result);
          RanSuspended(old(log), before, log, g, old(state.history), state.history, state.batches, intents, n, results,
                       callId, o.result);
          return Some(o.result), results;
        }
        ReplyKeeps(g, before, log, state.history, state.compaction, state.batches, o, intents[n]);
        RanMore(old(log), before, log, g, old(state.history), state.history, state.batches, intents, n, results, o);
        state.history := state.history + [o.message];
        results := results + [o.message];
      }
      assert intents[..|intents|] == intents;
      return None, results;
    }

    /** Runs up to `maxParallel` intents at once; they finish in any order. */
    method RunBatch(state: LoopState, batch: seq<Intent>, ghost g: Ledger)
      returns (terminal: Option<TurnResult>, ghost b: Batch)
      requires Kept(g, state) && !g.exclusive
      modifies `log, `nextId, `trace, state`history, state`batches
      ensures Kept(g, state)
      ensures old(trace) <= trace && Worked(Since(old(trace), trace), batch, terminal, Entered(b))
      ensures !Aborted(Since(old(trace), trace))
      ensures state.batches == old(state.batches) + [b] && b.intents == batch && WellFormed(b)
      ensures b.start == |old(log)| && b.end == |log| && b.pos == |old(state.history)| && Logged(log, g.turn, b)
      ensures
        Ran(old(log), log, g, old(state.history), state.history, state.batches, batch, terminal, Entered(b))
      ensures Live(log, g.turn) == Live(old(log), g.turn) + Arrived(b) && multiset(Arrived(b)) == multiset(Entered(b))
      ensures terminal.None? && Distinct(batch) ==> (Aligned(b) <==> b.order == Upto(|batch|))
      ensures forall i :: |old(log)| <= i < |log| && log[i].Checkpoint? ==> log[i].digest == old(state.history)
    {
      hide Books, Exclusive, InBatch, Ran, Live, OutcomesOk, AllReplied, Answering, Quiet, NoneStopped, Requests, Steps,
        Logged, WellFormed, Arrived, Entered, Aligned, ToolsOnly, Distinct, Upto, Batching, Worked, Returns, Aborted;
      ghost var before := log;
      var outcomes;
      ghost var stopped, added;
      outcomes, b, added, stopped := SettleBatch(state, batch, g);
      SettledAll(log, g.turn, b, added);
      b := b.(end := |log|);
      terminal := CommitBatch(state, batch, outcomes, b);
      StoppedMeans(outcomes, batch, stopped);
      BatchIsPermuted(b);
      BatchWorked(Since(old(trace), trace), b, terminal);
      BatchRan(g, before, log, old(state.history), state.history, state.compaction, state.batches, b, terminal);
      state.batches := state.batches + [b];
    }

    /** Dispatches the whole batch; `b.order` is the order in which it finishes. */
    method SettleBatch(state: LoopState, batch: seq<Intent>, ghost g: Ledger)
      returns (outcomes: map<nat, Outcome>, ghost b: Batch, ghost added: seq<Message>, ghost stopped: bool)
      requires Kept(g, state)
      modifies `log, `nextId, `trace
      ensures old(trace) <= trace && Batching(Since(old(trace), trace), batch, outcomes, |batch|)
      ensures InBatch(g, old(log), log, state.history, added)
      ensures b.start == |old(log)| && b.pos == |state.history| && b.intents == batch && b.outcomes == outcomes
      ensures multiset(b.order) == multiset(Upto(|batch|)) && Settling(log, g.turn, b, |batch|, added)
      ensures Requests(log) == Requests(old(log))
      ensures stopped <==> !NoneStopped(outcomes)
      ensures if stopped then Quiet(log, g.turn) else Steps(log) == Steps(old(log))
    {
      hide Books, InBatch, Settling, Batched, Quiet, NoneStopped, Requests, Steps, Dispatched, Recorded, SuspendedLog,
        Replies, Upto, Exclusive, OutcomesOk, Batching, DispatchDid;
      var n := |batch|;
      var order: seq<nat> := AnyOrder(n);
      ArrivalOnce(order, n);
      outcomes, added, stopped := map[], [], false;
      b := Batch(|log|, 0, |state.history|, batch, order, map[]);
      BatchStarts(g, log, state.history, state.compaction, state.batches, b);
      NothingYetDone(trace);
      BatchingNothing(batch);
      assert order[..0] == [];
      for k := 0 to n
        invariant Batched(g, old(log), log, state.history, b, k, added, stopped)
        invariant b == Batch(|old(log)|, 0, |state.history|, batch, order, outcomes)
        invariant forall i :: i in outcomes <==> i in order[..k]
        invariant old(trace) <= trace && Batching(Since(old(trace), trace), batch, outcomes, k)
      {
        ghost var before, told := log, trace;
        var i := order[k];
        assert order[..k + 1] == order[..k] + [i] && i !in order[..k];
        var o := Dispatch(state.turn, state.history, state.stepIndex, batch[i]);
        BatchStep(g, old(log), before, log, state.history, b, k, added, stopped, o);
        Joined(old(trace), told, trace);
        BatchingMore(Since(old(trace), told), Since(told, trace), batch, outcomes, k, i, o);
        outcomes := outcomes[i := o];
        b := b.(outcomes := outcomes);
        added := added + MessageOf(o);
        stopped := stopped || o.Stopped?;
      }
      BatchedMeans(g, old(log), log, state.history, b, n, added, stopped);
    }

    method AnyOrder(n: nat) returns (order: seq<nat>)
      ensures multiset(order) == multiset(Upto(n))
    {
      assert multiset(Upto(n)) == multiset(Upto(n));
      order :| multiset(order) == multiset(Upto(n));
    }

    /** Pushes the results of a settled batch in model order; the first suspension is what the turn returns. */
    method CommitBatch(state: LoopState, batch: seq<Intent>, outcomes: map<nat, Outcome>, ghost b: Batch)
      returns (terminal: Option<TurnResult>)
      requires OutcomesOk(outcomes, batch) && (forall i: nat :: i in outcomes <==> i < |batch|)
      requires b.outcomes == outcomes && b.intents == batch
      modifies state`history
      ensures state.history == old(state.history) + Entered(b)
      ensures terminal.None? <==> AllReplied(outcomes, batch)
      ensures terminal.Some? ==> terminal.value.Suspended? && Returns(b, terminal.value)
    {
      hide Picked;
      terminal := None;
      ghost var results := [];
      NothingPicked(outcomes);
      assert old(state.history) == old(state.history) + [] && Upto(0) == [];
      for i := 0 to |batch|
        invariant results == Picked(outcomes, Upto(|batch|)[..i]) && state.history == old(state.history) + results
        invariant terminal.None? <==> forall j: nat :: j < i ==> Replies(outcomes[j], batch[j])
        invariant terminal.Some? ==>
          terminal.value.Suspended? && exists j :: FirstAskedOf(outcomes, i, j) && outcomes[j].result == terminal.value
      {
        PickedStep(outcomes, Upto(|batch|), i);
        match outcomes[i] {
          case Stopped(result) =>
            if terminal.None? {
              terminal := Some(result);
              assert FirstAskedOf(outcomes, i + 1, i);
            }
          case Replied(message) =>
            Associate(old(state.history), results, [message]);
            state.history := state.history + [message];
            results := results + [message];
        }
        AskedMore(outcomes, i);
      }
      assert Upto(|batch|)[..|batch|] == Upto(|batch|);
    }

    /** Runs a segment of parallel calls, batch by batch. */
    method RunBatches(state: LoopState, intents: seq<Intent>, ghost g: Ledger)
      returns (terminal: Option<TurnResult>, ghost results: seq<Message>)
      requires Kept(g, state) && !g.exclusive && settings.maxParallel > 0
      modifies `log, `nextId, `signal, `trace, state`history, state`batches
      ensures Kept(g, state)
      ensures Ran(old(log), log, g, old(state.history), state.history, state.batches, intents, terminal, results)
      ensures old(trace) <= trace && Worked(Since(old(trace), trace), intents, terminal, results)
      ensures (old(signal) ==> signal) && Heard(Since(old(trace), trace))
    {
      hide Books, Exclusive, Ran, WellFormed, Logged, Arrived, Entered, Aligned, Live, Distinct, Worked, Aborted;
      results := [];
      RanNothing(log, g, state.history, state.batches, intents);
      WorkedNothing(intents);
      NothingYetDone(trace);
      NothingDid();
      var offset := 0;
      ghost var done := 0;
      while offset < |intents|
        invariant offset == DoneAfter(done, settings.maxParallel, |intents|) && Kept(g, state)
        invariant
          Ran(old(log), log, g, old(state.history), state.history, state.batches, intents[..offset], None, results)
        invariant old(trace) <= trace && Worked(Since(old(trace), trace), intents[..offset], None, results)
        invariant (old(signal) ==> signal) && Heard(Since(old(trace), trace))
      {
        ghost var before, mid, was, told := log, state.history, state.batches, trace;
        var aborted := CheckAbort();
        Looked(old(trace), told, trace, aborted);
        WorkedChecked(Since(old(trace), told), intents[..offset], results, aborted);
        if aborted {
          var r := End(state, Cancelled, "", g);
          RanEnded(old(log), before, log, g, old(state.history), state.history, was, intents, offset, results, r);
          WorkedAll(Since(old(trace), trace), intents[..offset], intents, Some(r), results);
          return Some(r), results;
        }
        told := trace;
        var next := if offset + settings.maxParallel <= |intents| then offset + settings.maxParallel else |intents|;
        ghost var b;
        terminal, b := RunBatch(state, intents[offset..next], g);
        RanBoth(old(log), before, log, g, old(state.history), mid, state.history, was, state.batches,
                intents[..offset], intents[offset..next], terminal, results, Entered(b));
        WorkedOn(old(trace), told, trace, intents[..offset], intents[offset..next], terminal, results, Entered(b));
        results := results + Entered(b);
        assert intents[..next] == intents[..offset] + intents[offset..next];
        if terminal.Some? {
          RanToTheEnd(old(log), log, g, old(state.history), state.history, state.batches, intents[..next], intents,
                      terminal, results);
          WorkedAll(Since(old(trace), trace), intents[..next], intents, terminal, results);
          return;
        }
        offset, done := next, done + 1;
      }
      assert intents[..offset] == intents;
      return None, results;
    }

    /** Runs one generation's intents, segment by segment. */
    method RunIntents(state: LoopState, intents: seq<Intent>, ghost g: Ledger)
      returns (terminal: Option<TurnResult>, ghost results: seq<Message>)
      requires Kept(g, state)
      modifies `log, `nextId, `signal, `trace, state`history, state`batches
      ensures Kept(g, state)
      ensures Ran(old(log), log, g, old(state.history), state.history, state.batches, intents, terminal, results)
      ensures old(trace) <= trace && Worked(Since(old(trace), trace), intents, terminal, results)
      ensures (old(signal) ==> signal) && Heard(Since(old(trace), trace))
    {
      hide Books, Ran, Flat, Uniform, Worked, Aborted;
      results := [];
      RanNothing(log, g, state.history, state.batches, intents);
      WorkedNothing(intents);
      NothingYetDone(trace);
      NothingDid();
      var segments := SegmentIntents(intents);
      FlatNothing(segments, intents);
      for n := 0 to |segments|
        invariant Kept(g, state)
        invariant
          Ran(old(log), log, g, old(state.history), state.history, state.batches, Flat(segments[..n]), None, results)
        invariant old(trace) <= trace && Worked(Since(old(trace), trace), Flat(segments[..n]), None, results)
        invariant (old(signal) ==> signal) && Heard(Since(old(trace), trace))
      {
        ghost var before, mid, was, done, told := log, state.history, state.batches, Flat(segments[..n]), trace;
        var aborted := CheckAbort();
        Looked(old(trace), told, trace, aborted);
        WorkedChecked(Since(old(trace), told), done, results, aborted);
        FlatStep(segments, n);
        FlatIsPrefix(segments, n);
        if aborted {
          var r := End(state, Cancelled, "", g);
          RanEnded(old(log), before, log, g, old(state.history), state.history, was, done, |done|, results, r);
          RanToTheEnd(old(log), log, g, old(state.history), state.history, was, done, intents, Some(r), results);
          WorkedAll(Since(old(trace), trace), done, intents, Some(r), results);
          return Some(r), results;
        }
        told := trace;
        ghost var more;
        if segments[n].parallel {
          ParallelIsUnsafe(segments[n], parallelSafe);
          terminal, more := RunBatches(state, segments[n].intents, g);
        } else {
          terminal, more := RunExclusive(state, segments[n].intents, g);
        }
        RanBoth(old(log), before, log, g, old(state.history), mid, state.history, was, state.batches,
                done, segments[n].intents, terminal, results, more);
        WorkedOn(old(trace), told, trace, done, segments[n].intents, terminal, results, more);
        results := results + more;
        FlatIsPrefix(segments, n + 1);
        if terminal.Some? {
          RanToTheEnd(old(log), log, g, old(state.history), state.history, state.batches, Flat(segments[..n + 1]),
                      intents, terminal, results);
          WorkedAll(Since(old(trace), trace), Flat(segments[..n + 1]), intents, terminal, results);
          return;
        }
      }
      assert segments[..|segments|] == segments;
      return None, results;
    }

    /** The calls of the last asking message that history holds no result for, as new intents. */
    method UnansweredIntents(h: seq<Message>) returns (intents: seq<Intent>)
      modifies `nextId
      ensures Calls(intents) == Unanswered(h)
      ensures NumberedFrom(intents, old(nextId)) && nextId == old(nextId) + |intents|
    {
      hide Calls, NumberedFrom, Without, Asks, Answers;
      NoCalls();
      NothingNumbered(nextId);
      var i := |h|;
      while i > 0 && !Asking(h[i - 1])
        invariant 0 <= i <= |h| && nextId == old(nextId)
        invariant forall j :: i <= j < |h| ==> !Asking(h[j])
      {
        i := i - 1;
      }
      LastAsking(h, i);
      if i == 0 {
        return [];
      }
      var answered: set<nat> := {};
      NothingAsked();
      for j := 0 to |h|
        invariant answered == Answers(h[..j]) && nextId == old(nextId)
      {
        assert h[..j + 1] == h[..j] + [h[j]];
        AsksStep(h[..j], h[j]);
        if h[j].Tool? { answered := answered + {h[j].callId}; }
      }
      assert h[..|h|] == h;
      intents := AsIntents(h[i - 1].calls, answered);
    }

    /** The calls that are not answered, as intents. */
    method AsIntents(calls: seq<Call>, answered: set<nat>) returns (intents: seq<Intent>)
      modifies `nextId
      ensures Calls(intents) == Without(calls, answered)
      ensures NumberedFrom(intents, old(nextId)) && nextId == old(nextId) + |intents|
    {
      hide Calls;
      intents := [];
      NoCalls();
      for k := 0 to |calls|
        invariant Calls(intents) == Without(calls[..k], answered)
        invariant NumberedFrom(intents, old(nextId)) && nextId == old(nextId) + |intents|
      {
        assert calls[..k + 1][..k] == calls[..k];
        if calls[k].callId !in answered {
          CallsStep(intents, Intent(calls[k], nextId));
          intents := intents + [Intent(calls[k], nextId)];
          nextId := nextId + 1;
        }
      }
      assert calls[..|calls|] == calls;
    }

    /* ---------- generation ---------- */

    /**
     * Over the threshold, and with attempts left, summarizes everything but the recent window and records the
     * summary; a failing summarizer costs the attempt and nothing else.
     */
    method MaybeCompact(state: LoopState, ghost g: Ledger) returns (ghost over: bool, ghost target: nat)
      requires Kept(g, state)
      modifies `log, `trace, state`compaction, state`attempts
      ensures Kept(g, state) && Extends(old(log), log, g.turn)
      ensures old(trace) <= trace
      ensures CompactionDid(Since(old(trace), trace), state.attempts > old(state.attempts), old(state.compaction),
                            state.compaction)
      ensures Reaches(target, old(state.compaction), state.history, settings.keepRecent)
      ensures state.attempts > old(state.attempts) <==>
        Summarizes(over, old(state.attempts), target, old(state.compaction), settings)
      ensures if state.attempts == old(state.attempts) then log == old(log)
              else
                && target <= |state.history|
                && SummaryLogged(old(log), log, g.turn, state.history[..target], settings.modelMax,
                                 if state.compaction == old(state.compaction) then None else state.compaction)
      ensures state.compaction != old(state.compaction) ==>
        state.compaction.Some? && state.compaction.value.count == target
      ensures Steps(log) == Steps(old(log))
      ensures Requests(log) + old(state.attempts) == Requests(old(log)) + state.attempts
      ensures
        || state.attempts == old(state.attempts)
        || old(state.attempts) < state.attempts == old(state.attempts) + 1 <= settings.maxAttempts
      ensures state.compaction != old(state.compaction) ==>
        && state.attempts == old(state.attempts) + 1
        && Widened(old(state.compaction), state.compaction, state.history)
        && log[|log| - 1] == Compacted(g.turn, state.compaction.value)
    {
      hide Books, Exclusive, Applies, Requests, Steps, Aborted;
      NothingYetDone(trace);
      ExtendsNothing(log, g.turn);
      var overThreshold: bool := *;
      over := overThreshold;
      target := Covered(state.compaction);
      if |state.history| > target + settings.keepRecent { target := |state.history| - settings.keepRecent; }
      if state.attempts >= settings.maxAttempts {
        return;
      }
      if !overThreshold {
        return;
      }
      var already := Covered(state.compaction);
      var recent := if settings.keepRecent <= |state.history| then |state.history| - settings.keepRecent else 0;
      var count := if already >= recent then already else recent;
      if count <= already || count < settings.minCovered {
        return;
      }
      var covered := state.history[..count];
      state.attempts := state.attempts + 1;
      Note(ModelRequested(state.turn, covered, settings.modelMax), state, g);
      var summary := AskSummarizer();
      OneMore(old(trace), Summarized(summary));
      if summary.None? {
        return;
      }
      var view := Compaction(summary.value, count, covered);
      CoversBeginning(view, state.history);
      CompactionKeeps(g, log, state.history, state.compaction, state.batches, view);
      CountStep(log, Compacted(state.turn, view));
      state.compaction := Some(view);
      log := log + [Compacted(state.turn, view)];
    }

    /** Records the calls of a reply as they stream in, unless it is aborted between them. */
    method TakeCalls(state: LoopState, reply: Reply, ghost start: seq<Happening>, ghost g: Ledger)
      returns (aborted: bool, intents: seq<Intent>)
      requires Kept(g, state) && start <= trace && Speaking(Since(start, trace), reply)
      modifies `log, `nextId, `signal, `trace
      ensures old(trace) <= trace && start <= trace && (old(signal) ==> signal) && (aborted ==> signal)
      ensures Kept(g, state) && Extends(old(log), log, g.turn) && Messages(log) == Messages(old(log))
      ensures Requests(log) == Requests(old(log)) && Steps(log) == Steps(old(log))
      ensures |intents| <= |reply.calls| && log == old(log) + Starts(g.turn, reply.calls[..|intents|], old(nextId))
      ensures nextId == old(nextId) + |intents| && NumberedFrom(intents, old(nextId))
      ensures Spoken(Since(start, trace)) == Some(reply) && (Aborted(Since(start, trace)) <==> aborted)
      ensures
        if aborted then AttemptDid(Since(start, trace), Got(GenerationCancelled))
        else Speaking(Since(start, trace), reply) && Calls(intents) == reply.calls
    {
      hide Books, Exclusive, Extends, Requests, Steps, Messages, Speaking, AttemptDid, Aborted,
        Spoken, Starts, NumberedFrom;
      ExtendsNothing(log, g.turn);
      NothingNumbered(nextId);
      assert log == log + Starts(g.turn, reply.calls[..0], nextId) by { NothingStarts(g.turn, reply.calls, nextId); }
      intents := [];
      for k := 0 to |reply.calls|
        invariant Kept(g, state) && Extends(old(log), log, g.turn)
        invariant Requests(log) == Requests(old(log)) && Steps(log) == Steps(old(log))
        invariant Messages(log) == Messages(old(log))
        invariant log == old(log) + Starts(g.turn, reply.calls[..k], old(nextId))
        invariant nextId == old(nextId) + k && NumberedFrom(intents, old(nextId))
        invariant |intents| == k && forall j :: 0 <= j < k ==> intents[j].call == reply.calls[j]
        invariant old(trace) <= trace && start <= trace && Speaking(Since(start, trace), reply)
        invariant old(signal) ==> signal
      {
        ghost var told := trace;
        aborted := CheckAbort();
        SpeakingChecked(start, told, trace, reply, aborted);
        if aborted {
          return;
        }
        StartsMore(g.turn, reply.calls, k, old(nextId));
        Note(ItemStarted(state.turn, ToolItem(nextId, reply.calls[k], Result("", None))), state, g);
        NumberedMore(intents, old(nextId), reply.calls[k]);
        intents := intents + [Intent(reply.calls[k], nextId)];
        nextId := nextId + 1;
      }
      aborted := false;
      SpeakingMeans(Since(start, trace), reply);
      assert Calls(intents) == reply.calls && reply.calls[..|intents|] == reply.calls;
    }

    /** One model call. Whatever it does before it fails leaves no message behind. */
    method Attempt(state: LoopState, visible: seq<Message>, cap: nat, ghost g: Ledger) returns (a: Attempted)
      requires Kept(g, state) && Settled(g, state.history)
      modifies `log, `nextId, `signal, `trace
      ensures Kept(g, state) && Extends(old(log), log, g.turn)
      ensures old(trace) <= trace && AttemptDid(Since(old(trace), trace), a)
      ensures (old(signal) ==> signal) && Heard(Since(old(trace), trace))
      ensures
        AttemptLogged(old(log), log, g.turn, old(nextId), nextId, visible, cap, Since(old(trace), trace), a)
      ensures Messages(log) == Messages(old(log))
      ensures Requests(log) <= Requests(old(log)) + 1 && Steps(log) == Steps(old(log))
    {
      hide Books, Exclusive, Extends, Settled, Requests, Steps, Messages, Speaking, AttemptDid, Aborted,
        Spoken, AttemptLogged, CallLogged, CallStarted, Starts, NumberedFrom;
      ExtendsNothing(log, g.turn);
      var aborted := CheckAbort();
      if aborted {
        CancelledBefore(old(trace), trace);
        SilentIsLogged(log, g.turn, nextId, visible, cap, Since(old(trace), trace), Got(GenerationCancelled));
        return Got(GenerationCancelled);
      }
      var itemId := nextId;
      nextId := nextId + 1;
      Note(ItemStarted(state.turn, MessageItem(itemId, AssistantRole, "", [])), state, g);
      Note(ModelRequested(state.turn, visible, cap), state, g);
      var reply := CallModel();
      StartedSpeaking(old(trace), trace, reply);
      SpeakingMeans(Since(old(trace), trace), reply);
      if reply.ending.NoStream? {
        a := Threw(reply.ending.fault);
        SpeakingDid(Since(old(trace), trace), reply, a);
        NothingStarts(g.turn, reply.calls, itemId + 1);
        assert log == log + [];
        CallStarts(old(log), log, log, g.turn, itemId, visible, cap, reply.calls[..0]);
        CallEnds(old(log), log, g.turn, itemId, visible, cap, reply.calls[..0]);
        AttemptIsLogged(old(log), log, g.turn, itemId, nextId, visible, cap, Since(old(trace), trace), reply, 0, false,
                        a);
        return;
      }
      ghost var logged := log;
      var intents;
      aborted, intents := TakeCalls(state, reply, old(trace), g);
      ExtendsOn(old(log), logged, log, g.turn);
      ghost var k := |intents|;
      CallStarts(old(log), logged, log, g.turn, itemId, visible, cap, reply.calls[..k]);
      CallEnds(old(log), log, g.turn, itemId, visible, cap, reply.calls[..k]);
      if aborted {
        Note(ItemFailed(state.turn, itemId), state, g);
        AttemptIsLogged(old(log), log, g.turn, itemId, nextId, visible, cap, Since(old(trace), trace), reply, k, true,
                        Got(GenerationCancelled));
        return Got(GenerationCancelled);
      }
      SpeakingMeans(Since(old(trace), trace), reply);
      if reply.ending.Torn? {
        a := Threw(reply.ending.fault);
        SpeakingDid(Since(old(trace), trace), reply, a);
        AttemptIsLogged(old(log), log, g.turn, itemId, nextId, visible, cap, Since(old(trace), trace), reply, k, false,
                        a);
        return;
      }
      if reply.ending.Finished? {
        a := Got(Generated(reply.ending.stop, itemId, reply.content, intents, reply.ending.output));
        SpeakingDid(Since(old(trace), trace), reply, a);
        AttemptIsLogged(old(log), log, g.turn, itemId, nextId, visible, cap, Since(old(trace), trace), reply, k, false,
                        a);
        return;
      }
      Note(ItemFailed(state.turn, itemId), state, g);
      ghost var told := trace;
      aborted := CheckAbort();
      SpeakingChecked(old(trace), told, trace, reply, aborted);
      if aborted {
        AttemptIsLogged(old(log), log, g.turn, itemId, nextId, visible, cap, Since(old(trace), trace), reply, k, true,
                        Got(GenerationCancelled));
        return Got(GenerationCancelled);
      }
      if reply.ending.Broken? {
        a := if reply.ending.fault.Final? then Got(GenerationFailed) else Threw(reply.ending.fault);
      } else {
        a := Got(GenerationCancelled);
      }
      SpeakingMeans(Since(old(trace), trace), reply);
      SpeakingDid(Since(old(trace), trace), reply, a);
      AttemptIsLogged(old(log), log, g.turn, itemId, nextId, visible, cap, Since(old(trace), trace), reply, k, true, a);
    }

    /** What the model will see of the history, summarized if it is time to, between what the hooks put around it. */
    method Assemble(state: LoopState, ghost g: Ledger) returns (visible: seq<Message>, ghost shown: View)
      requires Kept(g, state)
      modifies `log, `trace, state`compaction, state`attempts
      ensures Kept(g, state) && Extends(old(log), log, g.turn) && Steps(log) == Steps(old(log))
      ensures old(trace) <= trace && Trying(Since(old(trace), trace), 0) && OnlyRetries(Since(old(trace), trace))
      ensures GatheredAs(Since(old(trace), trace), shown)
      ensures SummaryTold(Since(old(trace), trace), old(state.compaction), state.compaction)
      ensures AttemptsOk(old(state.attempts), state.attempts, settings)
      ensures Covered(old(state.compaction)) <= Covered(state.compaction)
      ensures Requests(log) + old(state.attempts) == Requests(old(log)) + state.attempts
      ensures Shown(state.history, state.compaction, settings.results, shown)
      ensures shown.visible == visible && |old(log)| <= shown.mark == |log|
    {
      hide Books, Exclusive, Extends, Applies, Requests, Steps, Shown, Trying, Aborted, OnlyRetries, GatheredAs,
        SummaryTold, CompactionDid;
      var system, retrieved, planned := GatherMessages();
      ghost var gathered := trace;
      ghost var over, target;
      over, target := MaybeCompact(state, g);
      ExtendsLength(old(log), log, g.turn);
      var assembled := system + CompactView(state.history, state.compaction) + retrieved + planned;
      ghost var elisions, elided;
      visible, elisions, elided := ContextPolicy.ProjectHistory(assembled, settings.results);
      shown := View(|log|, system, retrieved + planned, elided, elisions, visible);
      AssembledIsShown(state.history, state.compaction, settings.results, retrieved, planned, assembled, shown);
      BeforeTrying(old(trace), gathered, trace, state.attempts > old(state.attempts), old(state.compaction),
                   state.compaction, shown, retrieved, planned);
    }

    /** One more try of a round, unless it is aborted: what the round comes to, or nothing if it is to try again. */
    method TryModel(
      state: LoopState, visible: seq<Message>, cap: nat, retry: int, ghost start: seq<Happening>, ghost g: Ledger)
      returns (out: Option<Generation>)
      requires Kept(g, state) && Settled(g, state.history) && 0 <= retry <= settings.maxRetries
      requires start <= trace && Trying(Since(start, trace), retry) && OnlyRetries(Since(start, trace))
      modifies `log, `nextId, `signal, `trace
      ensures Kept(g, state) && Extends(old(log), log, g.turn)
      ensures old(trace) <= trace && start <= trace
      ensures out.Some? ==> GenerateDid(Since(start, trace), out.value, Tries(settings)) && Heard(Since(start, trace))
      ensures out.Some? ==> InLog(old(log), log, g.turn, out.value)
      ensures out.None? ==>
        retry < settings.maxRetries && Trying(Since(start, trace), retry + 1) && OnlyRetries(Since(start, trace))
      ensures old(signal) ==> signal
      ensures Requests(log) <= Requests(old(log)) + 1 && Steps(log) == Steps(old(log))
      ensures forall i :: |old(log)| <= i < |log| && log[i].ModelRequested? ==>
        log[i] == ModelRequested(g.turn, visible, cap)
    {
      hide Books, Exclusive, Extends, Settled, Requests, Steps, Trying, AttemptDid, GenerateDid, Aborted, OnlyRetries,
        Tried, Messages, AttemptLogged, InLog, Spoken;
      ExtendsNothing(log, g.turn);
      NothingGenerated(g.turn);
      var aborted;
      ghost var told := trace;
      if retry > 0 {
        aborted := CheckAbort();
        CheckedTrying(start, told, trace, retry, aborted, Tries(settings));
        if aborted {
          return Some(GenerationCancelled);
        }
        told := trace;
      }
      ghost var first := nextId;
      var a := Attempt(state, visible, cap, g);
      Joined(start, told, trace);
      LoggedIsInLog(old(log), log, g.turn, first, nextId, visible, cap, Since(told, trace), a);
      LoggedAsks(old(log), log, g.turn, first, nextId, visible, cap, Since(told, trace), a);
      if a.Got? {
        GotIsRound(Since(start, told), Since(told, trace), retry, a, Tries(settings));
        return Some(a.generation);
      }
      ThrewIsTried(Since(start, told), Since(told, trace), retry, a);
      told := trace;
      aborted := CheckAbort();
      CheckedTried(start, told, trace, retry + 1, a, aborted, Tries(settings));
      if aborted {
        return Some(GenerationCancelled);
      }
      if !(a.fault.Retryable? && retry < settings.maxRetries) {
        return Some(GenerationFailed);
      }
      return None;
    }

    /**
     * One round: what the model will see is folded once, then at most `maxRetries + 1` attempts are made.
     * The model is called only with every tool call answered but those the turn found missed when it was taken up.
     */
    method Generate(state: LoopState, cap: nat, ghost g: Ledger) returns (out: Generation, ghost shown: View)
      requires Kept(g, state) && Settled(g, state.history)
      modifies `log, `nextId, `signal, `trace, state`compaction, state`attempts
      ensures Kept(g, state) && Extends(old(log), log, g.turn) && Steps(log) == Steps(old(log))
      ensures old(trace) <= trace && GenerateDid(Since(old(trace), trace), out, Tries(settings))
      ensures GatheredAs(Since(old(trace), trace), shown) && InLog(old(log), log, g.turn, out)
      ensures SummaryTold(Since(old(trace), trace), old(state.compaction), state.compaction)
      ensures (old(signal) ==> signal) && Heard(Since(old(trace), trace))
      ensures AttemptsOk(old(state.attempts), state.attempts, settings)
      ensures Covered(old(state.compaction)) <= Covered(state.compaction)
      ensures Requests(log) + old(state.attempts) <= Requests(old(log)) + state.attempts + Tries(settings)
      ensures Shown(state.history, state.compaction, settings.results, shown) && |old(log)| <= shown.mark <= |log|
      ensures forall i :: shown.mark <= i < |log| && log[i].ModelRequested? ==>
        log[i] == ModelRequested(g.turn, shown.visible, cap)
    {
      hide Books, Exclusive, Extends, Settled, Applies, Requests, Steps, Shown, Trying, AttemptDid, GenerateDid,
        Aborted, OnlyRetries, GatheredAs, SummaryTold, CompactionDid, InLog;
      var visible;
      visible, shown := Assemble(state, g);
      var retry := 0;
      ghost var before := trace;
      while retry <= settings.maxRetries
        modifies `log, `nextId, `signal, `trace
        invariant 0 <= retry && (retry > 0 ==> retry <= settings.maxRetries)
        invariant Kept(g, state) && Extends(old(log), log, g.turn) && Steps(log) == Steps(old(log))
        invariant Requests(log) + old(state.attempts) <= Requests(old(log)) + state.attempts + retry
        invariant |old(log)| <= shown.mark <= |log|
        invariant forall i :: shown.mark <= i < |log| && log[i].ModelRequested? ==>
          log[i] == ModelRequested(g.turn, visible, cap)
        invariant old(trace) <= before <= trace && Trying(Since(old(trace), trace), retry)
        invariant OnlyRetries(Since(old(trace), trace))
        invariant old(signal) ==> signal
      {
        ghost var logged := log;
        var said := TryModel(state, visible, cap, retry, old(trace), g);
        ExtendsOn(old(log), logged, log, g.turn);
        ExtendsLength(logged, log, g.turn);
        if said.Some? {
          StillTold(old(trace), before, trace, shown, old(state.compaction), state.compaction);
          InLogLater(old(log), logged, log, g.turn, said.value);
          return said.value, shown;
        }
        retry := retry + 1;
      }
      NothingGenerated(g.turn);
      NeverTried(Since(old(trace), trace));
      StillTold(old(trace), before, trace, shown, old(state.compaction), state.compaction);
      return GenerationFailed, shown;
    }

    /** What the settings ask for, as far as the model goes. */
    function InitialCap(): (cap: nat)
      ensures cap == settings.modelMax || Some(cap) == settings.maxOutputTokens
      ensures cap <= settings.modelMax && (settings.maxOutputTokens.Some? ==> cap <= settings.maxOutputTokens.value)
    {
      if settings.maxOutputTokens.Some? && settings.maxOutputTokens.value < settings.modelMax then
        settings.maxOutputTokens.value
      else settings.modelMax
    }

    /** The most generation rounds a turn can take from a step on. */
    function RoundBound(stepIndex: nat): nat {
      (if stepIndex < settings.maxSteps then settings.maxSteps - stepIndex else 0)
      + OutputCap.Escalations(InitialCap(), settings.modelMax)
    }

    /** How often the output cap can be raised. */
    function Raises(): nat { OutputCap.Escalations(InitialCap(), settings.modelMax) }

    /**
     * The step loop: finish what is unanswered, generate, run the calls, checkpoint, and go on until the model
     * ends the turn or something else does.
     */
    method Drive(state: LoopState, ghost g: Ledger) returns (r: TurnResult, ghost rounds: nat)
      requires Kept(g, state)
      modifies `log, `nextId, `signal, `trace
      modifies state`history, state`stepIndex, state`compaction, state`attempts, state`batches
      ensures Kept(g, state) && Extends(old(log), log, g.turn) && Closed(log, g.turn, r, state.batches)
      ensures old(trace) <= trace
      ensures TurnDid(Since(old(trace), trace), r, old(state.stepIndex), state.stepIndex, settings.maxSteps,
                      Tries(settings), Raises())
      ensures rounds <= RoundBound(old(state.stepIndex))
      ensures
        Requests(log) + old(state.attempts) <= Requests(old(log)) + state.attempts + Times(rounds, Tries(settings))
      ensures Faithful(Since(old(trace), trace), old(state.history), state.history)
      ensures old(state.history) <= state.history && Covered(old(state.compaction)) <= Covered(state.compaction)
      ensures AttemptsOk(old(state.attempts), state.attempts, settings)
      ensures r.Ended? && r.status == Failed ==> rounds > 0 || old(state.stepIndex) >= settings.maxSteps
      ensures r.Ended? && r.status == Completed ==>
        && Steps(log) + old(state.stepIndex) == Steps(old(log)) + state.stepIndex + 1
        && CompletedOk(log, g, state.stepIndex, state.history)
      ensures r.Ended? && r.status == Failed ==>
        Steps(log) + old(state.stepIndex) == Steps(old(log)) + state.stepIndex
    {
      hide Books, Exclusive, Extends, Closed, Requests, Steps, Times, AttemptsOk, CompletedOk, Tries,
        OutputCap.Escalations, GoingOn, PassDid, TurnDid, Aborted, Truncated, Faithful;
      var cap := InitialCap();
      rounds := 0;
      ExtendsNothing(log, g.turn);
      OneMoreRound(0, Tries(settings));
      NoAttempts(state.attempts, settings);
      NothingYetDone(trace);
      NothingGoesOn();
      FaithfulNothing(Since(trace, trace), state.history);
      while true
        invariant Kept(g, state) && Extends(old(log), log, g.turn)
        invariant rounds == 0 ==> cap == InitialCap()
        invariant rounds > 0 ==>
          && old(state.stepIndex) < settings.maxSteps
          && rounds + OutputCap.Escalations(cap, settings.modelMax) + old(state.stepIndex)
             <= Least(state.stepIndex, settings.maxSteps) + OutputCap.Escalations(InitialCap(), settings.modelMax)
        invariant old(state.stepIndex) <= state.stepIndex && (rounds == 0 ==> state.stepIndex == old(state.stepIndex))
        invariant Steps(log) + old(state.stepIndex) == Steps(old(log)) + state.stepIndex
        invariant
          Requests(log) + old(state.attempts) <= Requests(old(log)) + state.attempts + Times(rounds, Tries(settings))
        invariant old(state.history) <= state.history && Covered(old(state.compaction)) <= Covered(state.compaction)
        invariant AttemptsOk(old(state.attempts), state.attempts, settings)
        invariant old(trace) <= trace && GoingOn(Since(old(trace), trace), rounds)
        invariant Faithful(Since(old(trace), trace), old(state.history), state.history)
        invariant Truncated(Since(old(trace), trace)) + OutputCap.Escalations(cap, settings.modelMax) == Raises()
        invariant rounds > 0 ==> Tries(settings) > 0
        decreases settings.maxSteps - state.stepIndex, OutputCap.Escalations(cap, settings.modelMax)
      {
        ghost var told := trace;
        var aborted := CheckAbort();
        Looked(old(trace), told, trace, aborted);
        TopOfLoop(Since(old(trace), told), rounds, aborted, old(state.stepIndex), state.stepIndex, settings.maxSteps,
                  Tries(settings), Raises());
        FaithfulNothing([Checked(aborted)], state.history);
        FaithfulBoth(Since(old(trace), told), [Checked(aborted)], old(state.history), state.history, state.history);
        if aborted || state.stepIndex >= settings.maxSteps {
          r := EndTurnWith(state, if aborted then Cancelled else Failed, "", g);
          return;
        }
        told := trace;
        var ended, next;
        ghost var generated, before, attempts, was := false, log, state.attempts, state.history;
        ended, next, generated := Round(state, cap, g);
        ExtendsOn(old(log), before, log, g.turn);
        AttemptsOn(old(state.attempts), attempts, state.attempts, settings);
        OneMoreRound(rounds, Tries(settings));
        OutputCap.EscalationStep(cap, settings.modelMax);
        Joined(old(trace), told, trace);
        if ended.Some? {
          LastPass(Since(old(trace), told), Since(told, trace), rounds, ended.value, cap, next,
                   OutputCap.Escalated(cap, settings.modelMax), was, state.history, old(state.stepIndex),
                   state.stepIndex, settings.maxSteps, Tries(settings), Raises());
          FaithfulBoth(Since(old(trace), told), Since(told, trace), old(state.history), was, state.history);
          rounds := rounds + if generated then 1 else 0;
          return ended.value, rounds;
        }
        OnePassMore(Since(old(trace), told), Since(told, trace), rounds, cap, next,
                    OutputCap.Escalated(cap, settings.modelMax), Tries(settings), was, state.history);
        FaithfulBoth(Since(old(trace), told), Since(told, trace), old(state.history), was, state.history);
        rounds := rounds + 1;
        cap := next;
      }
    }

    /** One pass of the step loop: it ends the turn, or finishes a step, or raises the output cap for the same step. */
    method Round(state: LoopState, cap: nat, ghost g: Ledger)
      returns (ended: Option<TurnResult>, next: nat, ghost generated: bool)
      requires Kept(g, state)
      modifies `log, `nextId, `signal, `trace
      modifies state`history, state`stepIndex, state`compaction, state`attempts, state`batches
      ensures Kept(g, state) && Extends(old(log), log, g.turn)
      ensures old(trace) <= trace
      ensures PassDid(Since(old(trace), trace), ended, cap, next, OutputCap.Escalated(cap, settings.modelMax),
                      Tries(settings), old(state.history), state.history)
      ensures (old(signal) ==> signal) && Heard(Since(old(trace), trace))
      ensures PassLogged(old(log), log, g.turn, Since(old(trace), trace), ended, next == cap, state.stepIndex,
                         state.history)
      ensures
        Requests(log) + old(state.attempts) <=
        Requests(old(log)) + state.attempts + if generated then Tries(settings) else 0
      ensures old(state.history) <= state.history && Covered(old(state.compaction)) <= Covered(state.compaction)
      ensures AttemptsOk(old(state.attempts), state.attempts, settings)
      ensures ended.Some? ==> Closed(log, g.turn, ended.value, state.batches)
      ensures !generated ==> ended.Some? && (ended.value.Ended? ==> ended.value.status == Cancelled)
      ensures ended.Some? && ended.value.Ended? && ended.value.status == Completed ==>
        && Steps(log) + old(state.stepIndex) == Steps(old(log)) + state.stepIndex + 1
        && CompletedOk(log, g, state.stepIndex, state.history)
      ensures ended.Some? && ended.value.Ended? && ended.value.status == Failed ==>
        old(state.stepIndex) <= state.stepIndex
        && Steps(log) + old(state.stepIndex) == Steps(old(log)) + state.stepIndex
      ensures ended.None? ==> generated && Steps(log) + old(state.stepIndex) == Steps(old(log)) + state.stepIndex
      ensures ended.None? ==>
        if next == cap then old(state.stepIndex) < state.stepIndex
        else old(state.stepIndex) <= state.stepIndex && cap < next == OutputCap.Escalated(cap, settings.modelMax)
    {
      hide Books, Exclusive, Extends, Settled, Closed, Requests, Steps, Shown, AttemptsOk, Unanswered, ToolsOnly,
        Tries, Worked, GenerateDid, PassDid, Aborted, GatheredAs, SummaryTold, InLog, PassLogged;
      next, generated := cap, false;
      ghost var results, open, start, attempts, h, begun := [], [], log, state.attempts, state.history, trace;
      ghost var raised := OutputCap.Escalated(cap, settings.modelMax);
      ended, results, open := Settle(state, g);
      ExtendsNothing(start, g.turn);
      NoAttempts(attempts, settings);
      if ended.Some? {
        SettlingIsPass(Since(begun, trace), open, ended.value, results, cap, raised, Tries(settings), h, state.history);
        SettlingIsLogged(start, log, g.turn, Since(begun, trace), open, ended.value, results, state.stepIndex,
                         state.history);
        return;
      }
      ghost var settled, mid := results, trace;
      var out;
      ghost var shown, before := View(0, [], [], 0, [], []), log;
      out, shown := Generate(state, cap, g);
      ExtendsOn(start, before, log, g.turn);
      generated := true;
      Joined(begun, mid, trace);
      ExtendsLength(start, before, g.turn);
      InLogLater(start, before, log, g.turn, out);
      ExtendsNothing(log, g.turn);
      ghost var now, told := trace, log;
      ended, next := Conclude(state, out, cap, Since(begun, mid), Since(mid, now), open, settled, start, h, g);
      Joined(begun, now, trace);
      ExtendsOn(start, told, log, g.turn);
    }

    /**
     * What a pass makes of what was generated, after `first` and `second`: nothing, or a reply that ran into the cap,
     * which is raised if it can be, or a reply to act on.
     */
    method Conclude(
      state: LoopState, out: Generation, cap: nat, ghost first: seq<Happening>, ghost second: seq<Happening>,
      ghost open: seq<Intent>, ghost settled: seq<Message>, ghost start: seq<Event>, ghost h: seq<Message>,
      ghost g: Ledger) returns (ended: Option<TurnResult>, next: nat)
      requires Kept(g, state) && Settled(g, state.history) && InLog(start, log, g.turn, out)
      requires Worked(first, open, None, settled) && GenerateDid(second, out, Tries(settings))
      requires Calls(open) == Unanswered(h) && state.history == h + settled && Heard(first) && Heard(second)
      modifies `log, `nextId, `signal, `trace, state`history, state`stepIndex, state`batches
      ensures Kept(g, state) && old(trace) <= trace && old(state.history) <= state.history
      ensures forall before :: Extends(before, old(log), g.turn) ==> Extends(before, log, g.turn)
      ensures
        PassDid(first + second + Since(old(trace), trace), ended, cap, next,
                OutputCap.Escalated(cap, settings.modelMax), Tries(settings), h, state.history)
      ensures
        PassLogged(start, log, g.turn, first + second + Since(old(trace), trace), ended, next == cap, state.stepIndex,
                   state.history)
      ensures (old(signal) ==> signal) && Heard(first + second + Since(old(trace), trace))
      ensures Requests(log) == Requests(old(log)) && (ended.Some? ==> Closed(log, g.turn, ended.value, state.batches))
      ensures ended.Some? ==> state.stepIndex == old(state.stepIndex)
      ensures ended.Some? && ended.value.Ended? && ended.value.status == Completed ==>
        Steps(log) == Steps(old(log)) + 1 && CompletedOk(log, g, state.stepIndex, state.history)
      ensures ended.Some? && ended.value.Ended? && ended.value.status == Failed ==> Steps(log) == Steps(old(log))
      ensures ended.None? ==> Steps(log) + old(state.stepIndex) == Steps(old(log)) + state.stepIndex
      ensures ended.None? ==>
        if next == cap then old(state.stepIndex) < state.stepIndex
        else old(state.stepIndex) == state.stepIndex && cap < next == OutputCap.Escalated(cap, settings.modelMax)
    {
      hide Books, Exclusive, Extends, Settled, Closed, Requests, Steps, Unanswered, ToolsOnly, Tries, Worked,
        GenerateDid, PassDid, Aborted, InLog, PassLogged;
      next := cap;
      ghost var raised, tries := OutputCap.Escalated(cap, settings.modelMax), Tries(settings);
      if !out.Generated? {
        var aborted := CheckAbort();
        OneMore(old(trace), Checked(aborted));
        SilenceIsPass(first, second, open, settled, out, aborted, cap, raised, tries, h, state.history);
        var r := EndTurnWith(state, if aborted then Cancelled else Failed, "", g);
        SilenceIsLogged(start, log, g.turn, first, second, open, settled, out, aborted, tries, r, state.stepIndex,
                        state.history);
        return Some(r), cap;
      }
      ghost var told := log;
      if out.stop == MaxTokens {
        var escalated := OutputCap.Escalated(cap, settings.modelMax);
        Note(ItemFailed(state.turn, out.itemId), state, g);
        NothingYetDone(trace);
        assert first + second + [] == first + second;
        CappedIsPass(first, second, open, settled, out, cap, raised, tries, h, state.history);
        if escalated > cap {
          CappedIsLogged(start, told, log, g.turn, first, second, open, settled, out, tries, None, state.stepIndex,
                         state.history);
          return None, escalated;
        }
        var r := EndTurnWith(state, Failed, "", g);
        CappedIsLogged(start, told, log, g.turn, first, second, open, settled, out, tries, Some(r), state.stepIndex,
                       state.history);
        return Some(r), cap;
      }
      ghost var broke, results;
      ExtendsNothing(told, g.turn);
      ended, broke, results := FinishStep(state, out, g);
      ExtendsLength(told, log, g.turn);
      ghost var third := Since(old(trace), trace);
      ActingIsPass(first, second, third, open, settled, out, broke, results, cap, raised, tries, h, state.history);
      ActingIsLogged(start, told, log, g.turn, first, second, third, open, settled, out, broke, results, tries, ended,
                     state.stepIndex, state.history);
    }

    /** Acts on a reply; unless that breaks off, the step is done, and the turn with it if the model ended it. */
    method FinishStep(state: LoopState, out: Generation, ghost g: Ledger)
      returns (ended: Option<TurnResult>, ghost broke: Option<TurnResult>, ghost results: seq<Message>)
      requires Kept(g, state) && Settled(g, state.history) && out.Generated?
      modifies `log, `nextId, `signal, `trace, state`history, state`stepIndex, state`batches
      ensures Kept(g, state)
      ensures old(trace) <= trace && Worked(Since(old(trace), trace), out.intents, broke, results)
      ensures (old(signal) ==> signal) && Heard(Since(old(trace), trace))
      ensures forall start :: Extends(start, old(log), g.turn) ==> Extends(start, log, g.turn)
      ensures state.history == old(state.history) + [Assistant(out.content, Calls(out.intents))] + results
      ensures Requests(log) == Requests(old(log)) && |log| > |old(log)| && log[|old(log)|] ==
        ItemCompleted(g.turn, MessageItem(out.itemId, AssistantRole, out.content, Calls(out.intents)))
      ensures ended.None? ==> log[|log| - 1] == Checkpoint(g.turn, state.stepIndex, state.history)
      ensures broke.Some? ==> ended == broke && (ended.value.Ended? ==> ended.value.status == Cancelled)
      ensures broke.None? ==>
        ended == if out.stop in {EndTurn, Decision} then Some(Ended(Completed, out.output)) else None
      ensures state.stepIndex == old(state.stepIndex) + if ended.None? then 1 else 0
      ensures broke.None? ==>
        Steps(log) == Steps(old(log)) + 1 && (ended.Some? ==> CompletedOk(log, g, state.stepIndex, state.history))
      ensures ended.Some? ==> Closed(log, g.turn, ended.value, state.batches)
    {
      hide Books, Exclusive, Extends, Settled, Closed, Requests, Steps, ToolsOnly, Answering, Worked, Aborted;
      ended, results := Act(state, out, g);
      broke := ended;
      if ended.Some? {
        return;
      }
      TakeCheckpoint(state, state.stepIndex + 1, g);
      if out.stop == EndTurn || out.stop == Decision {
        CompletedMeans(log, g, state.stepIndex, state.history);
        var r := EndTurnWith(state, Completed, out.output, g);
        return Some(r), broke, results;
      }
      state.stepIndex := state.stepIndex + 1;
    }

    method EndTurnWith(state: LoopState, status: Status, output: string, ghost g: Ledger) returns (r: TurnResult)
      requires Kept(g, state) && status != Active
      modifies `log
      ensures Kept(g, state) && Closed(log, g.turn, r, state.batches)
      ensures r == Ended(status, output) && log == old(log) + [TurnEnded(state.turn, status)]
      ensures Requests(log) == Requests(old(log)) && Steps(log) == Steps(old(log))
      ensures forall start :: Extends(start, old(log), g.turn) ==> Extends(start, log, g.turn)
    {
      hide Books, Exclusive, Extends, Requests, Steps;
      r := End(state, status, output, g);
    }

    /** Finishes the calls that a suspended or crashed step left open; the step then counts as done. */
    method Settle(state: LoopState, ghost g: Ledger)
      returns (ended: Option<TurnResult>, ghost results: seq<Message>, ghost open: seq<Intent>)
      requires Kept(g, state)
      modifies `log, `nextId, `signal, `trace, state`history, state`stepIndex, state`batches
      ensures Kept(g, state)
      ensures Calls(open) == Unanswered(old(state.history))
      ensures old(trace) <= trace && Worked(Since(old(trace), trace), open, ended, results)
      ensures (old(signal) ==> signal) && Heard(Since(old(trace), trace))
      ensures forall start :: Extends(start, old(log), g.turn) ==> Extends(start, log, g.turn)
      ensures state.history == old(state.history) + results && ToolsOnly(results)
      ensures ended.None? ==> Settled(g, state.history) && |results| == |Unanswered(old(state.history))|
      ensures ended.None? ==>
        forall i :: 0 <= i < |results| ==>
          results[i].Tool? && results[i].callId == Unanswered(old(state.history))[i].callId
      ensures ended.None? ==>
        state.stepIndex == old(state.stepIndex) + if Unanswered(old(state.history)) == [] then 0 else 1
      ensures ended.None? && results != [] ==>
        log != [] && log[|log| - 1] == Checkpoint(g.turn, state.stepIndex, state.history)
      ensures ended.None? ==> Steps(log) + old(state.stepIndex) == Steps(old(log)) + state.stepIndex
      ensures Requests(log) == Requests(old(log))
      ensures ended.Some? ==>
        Closed(log, g.turn, ended.value, state.batches) && (ended.value.Ended? ==> ended.value.status == Cancelled)
    {
      hide Books, Exclusive, Settled, Missed, Ran, Closed, Extends, Unanswered, Requests, Steps, ToolsOnly, Worked,
        Aborted;
      ghost var h, start := state.history, log;
      BooksMean(g, log, h, state.compaction, state.batches);
      var intents := UnansweredIntents(state.history);
      CallsAll(intents);
      results, open := [], intents;
      if |intents| == 0 {
        NothingLeft(g, h);
        ExtendsNothing(log, g.turn);
        NothingYetDone(trace);
        WorkedNothing(intents);
        NothingDid();
        return None, [], [];
      }
      ended, results := RunIntents(state, intents, g);
      RanMeans(start, log, g, h, state.history, state.batches, intents, ended, results);
      ExtendsFrom(start, log, g.turn);
      if ended.Some? {
        return;
      }
      AnswersSettle(g, h, intents, results);
      TakeCheckpoint(state, state.stepIndex + 1, g);
      state.stepIndex := state.stepIndex + 1;
    }

    /** Records the assistant message and runs its intents. */
    method Act(state: LoopState, out: Generation, ghost g: Ledger)
      returns (ended: Option<TurnResult>, ghost results: seq<Message>)
      requires Kept(g, state) && Settled(g, state.history) && out.Generated?
      modifies `log, `nextId, `signal, `trace, state`history, state`batches
      ensures Kept(g, state)
      ensures old(trace) <= trace && Worked(Since(old(trace), trace), out.intents, ended, results)
      ensures (old(signal) ==> signal) && Heard(Since(old(trace), trace))
      ensures forall start :: Extends(start, old(log), g.turn) ==> Extends(start, log, g.turn)
      ensures state.history == old(state.history) + [Assistant(out.content, Calls(out.intents))] + results
      ensures ToolsOnly(results) && |log| > |old(log)| && log[|old(log)|] ==
        ItemCompleted(g.turn, MessageItem(out.itemId, AssistantRole, out.content, Calls(out.intents)))
      ensures ended.None? ==>
        Settled(g, state.history) && Answering(results, out.intents) && Steps(log) == Steps(old(log))
      ensures Requests(log) == Requests(old(log))
      ensures ended.Some? ==>
        Closed(log, g.turn, ended.value, state.batches) && (ended.value.Ended? ==> ended.value.status == Cancelled)
    {
      hide Books, Exclusive, Settled, Ran, Closed, Answering, Extends, Recorded, Requests, Steps, ToolsOnly, Worked,
        Aborted;
      ghost var h, start := state.history, log;
      var calls := Calls(out.intents);
      var message := Assistant(out.content, calls);
      AssistantRecorded(log, g.turn, out.itemId, out.content, calls);
      PushKeeps(g, log, log + [ItemCompleted(state.turn, MessageItem(out.itemId, AssistantRole, out.content, calls))],
                h, state.compaction, state.batches, message);
      log := log + [ItemCompleted(state.turn, MessageItem(out.itemId, AssistantRole, out.content, calls))];
      RecordedCounts(start, log, g.turn, message);
      state.history := state.history + [message];
      ghost var mid := log;
      ended, results := RunIntents(state, out.intents, g);
      RanMeans(mid, log, g, h + [message], state.history, state.batches, out.intents, ended, results);
      ExtendsRecorded(start, mid, log, g.turn, message);
      ExtendsLength(mid, log, g.turn);
      if ended.None? {
        AnswersAll(g, h, message, out.intents, results);
      }
    }

    /* ---------- entry points ---------- */

    /** The messages of completed items, in event order. */
    method MessagesFromEvents(events: seq<Event>) returns (messages: seq<Message>)
      ensures messages == Messages(events)
    {
      messages := [];
      for n := 0 to |events|
        invariant messages == Messages(events[..n])
      {
        assert events[..n + 1][..n] == events[..n];
        messages := messages + EventMessages(events[n]);
      }
      assert events[..|events|] == events;
    }

    /** The newest recorded summary that describes the history. */
    method LoadCompaction(events: seq<Event>, h: seq<Message>) returns (view: Option<Compaction>)
      ensures view == Loaded(events, h)
    {
      view := None;
      for n := 0 to |events|
        invariant view == Loaded(events[..n], h)
      {
        assert events[..n + 1][..n] == events[..n];
        if events[n].Compacted? && Applies(events[n].view, h) {
          view := Some(events[n].view);
        }
      }
      assert events[..|events|] == events;
    }

    method EventsOfTurn(events: seq<Event>, t: nat) returns (own: seq<Event>)
      ensures own == OfTurn(events, t)
    {
      own := [];
      for n := 0 to |events|
        invariant own == OfTurn(events[..n], t)
      {
        assert events[..n + 1][..n] == events[..n];
        if events[n].turn == t { own := own + [events[n]]; }
      }
      assert events[..|events|] == events;
    }

    /**
     * Rebuilds a turn from the log: what was there before it started, and its own messages up to its last
     * checkpoint. A checkpoint with another digest stops the recovery, and that is recorded.
     */
    method Rebuild(t: nat) returns (r: Rebuilt)
      modifies `log
      ensures r.NoTurn? <==> FoundTurn(OfTurn(old(log), t)).None?
      ensures var last := LastCheckpoint(old(log), t);
        r.Mismatch? <==>
          FoundTurn(OfTurn(old(log), t)).Some? && last.Some? && old(log)[last.value].digest != Committed(old(log), t)
      ensures log == old(log) + if r.Mismatch? then [RecoveryFailed(t)] else []
      ensures r.State? ==>
        && r.history == Committed(log, t) && r.compaction == Loaded(log, r.history)
        && r.stepIndex == BegunAt(log, t)
        && FoundTurn(OfTurn(log, t)) == Some(r.status)
        && r.pending == FirstWaiting(OfTurn(log, t), |OfTurn(log, t)|)
    {
      hide Messages, OfTurn, StartIndex, LastCheckpoint, FoundTurn, FirstWaiting, Loaded;
      var events := EventsOfTurn(log, t);
      var status := FindTurn(events);
      if status.None? {
        return NoTurn;
      }
      var last := LastCheckpoint(log, t);
      var carried, start := [], StartIndex(log, t);
      if start.Some? {
        carried := MessagesFromEvents(log[..start.value]);
      }
      var own := [];
      if last.Some? {
        var upTo := EventsOfTurn(log[..last.value + 1], t);
        own := MessagesFromEvents(upTo);
      }
      var history := carried + own;
      if last.Some? && log[last.value].digest != history {
        log := log + [RecoveryFailed(t)];
        return Mismatch;
      }
      var compaction := LoadCompaction(log, history);
      var pending := FindPendingApproval(events);
      return State(history, if last.Some? then log[last.value].stepIndex else 0, compaction, status.value, pending);
    }

    /** A new turn: the thread's messages so far, when they are carried on, and the new input. */
    method RunTurn(t: nat, input: string) returns (r: TurnResult, ghost rounds: nat, ghost bs: seq<Batch>)
      requires Bounded()
      requires forall i :: 0 <= i < |log| ==> log[i].turn != t
      modifies `log, `nextId, `signal, `trace
      ensures Began(old(log), log, t, bs, settings.carry) && (Exclusive() ==> bs == [])
      ensures old(trace) <= trace
      ensures TurnDid(Since(old(trace), trace), r, 0, Steps(log) - Steps(old(log)), settings.maxSteps, Tries(settings),
                      Raises())
      ensures Opening(old(log), t, old(nextId), input) <= log
      ensures Closed(log, t, r, bs) && rounds <= RoundBound(0)
    {
      hide Books, Began, Closed, Exclusive, Messages, Loaded, Extends, OnlySince, StartIndex, Settled, TurnDid, Steps,
        OutputCap.Escalations, Opening;
      ghost var before := log;
      var state;
      ghost var g;
      state, g := StartTurn(t, input);
      ghost var taken := log;
      r, rounds := Drive(state, g);
      bs := state.batches;
      ExtendsOn(before + [TurnStarted(t)], taken, log, t);
      ExtendsPrefix(taken, log, t);
      SameTurn(Since(old(trace), trace), r, 0, state.stepIndex, Steps(log) - Steps(before), settings.maxSteps,
               Tries(settings), Raises());
      BooksMean(g, log, state.history, state.compaction, bs);
      BegunLeaves(before, log, t, Exclusive(), settings.carry, state.history, state.compaction, bs);
    }

    /** The start of a turn, up to its first step. */
    method StartTurn(t: nat, input: string) returns (state: LoopState, ghost g: Ledger)
      requires Bounded()
      requires forall i :: 0 <= i < |log| ==> log[i].turn != t
      modifies `log, `nextId, `signal
      ensures fresh(state) && Kept(g, state) && state.stepIndex == 0 && state.batches == []
      ensures g == BegunLedger(old(log), t, Exclusive(), settings.carry)
      ensures log == Opening(old(log), t, old(nextId), input) && Steps(log) == Steps(old(log))
      ensures
        var begun := old(log) + [TurnStarted(t)];
        OnlySince(begun, t) && StartIndex(begun, t) == Some(|old(log)|) && Extends(begun, log, t)
    {
      hide Books, Exclusive, Messages, Loaded, Extends, OnlySince, StartIndex, Steps;
      ghost var before, exclusive := log, Exclusive();
      CountStep(log, TurnStarted(t));
      log, signal := log + [TurnStarted(t)], false;
      var carried, compaction := [], None;
      if settings.carry {
        carried := MessagesFromEvents(log);
        compaction := LoadCompaction(log, carried);
        StartMessages(before, t);
      }
      BegunBooks(before, t, exclusive, settings.carry, compaction);
      g := BegunLedger(before, t, exclusive, settings.carry);
      state := new LoopState(t, carried, 0, compaction);
      ExtendsNothing(log, t);
      TakeInput(state, input, g);
    }

    /** Records the user's input. */
    method TakeInput(state: LoopState, input: string, ghost g: Ledger)
      requires Kept(g, state)
      modifies `log, `nextId, state`history
      ensures Kept(g, state) && state.history == old(state.history) + [User(input)] && nextId == old(nextId) + 1
      ensures Steps(log) == Steps(old(log))
      ensures var item := MessageItem(old(nextId), UserRole, input, []);
        log == old(log) + [ItemStarted(g.turn, item)] + [ItemCompleted(g.turn, item)]
      ensures forall start :: Extends(start, old(log), g.turn) ==> Extends(start, log, g.turn)
    {
      hide Books, Exclusive, Extends, Settled, Steps, Requests;
      var item := MessageItem(nextId, UserRole, input, []);
      nextId := nextId + 1;
      Note(ItemStarted(state.turn, item), state, g);
      ghost var before := log;
      log := log + [ItemCompleted(state.turn, item)];
      ExtendsMore(before, log, g.turn, User(input));
      RecordedCounts(before, log, g.turn, User(input));
      PushKeeps(g, before, log, state.history, state.compaction, state.batches, User(input));
      state.history := state.history + [User(input)];
    }

    /** Records the decision, runs the call that waited for it, and records its answer. */
    method AnswerPending(state: LoopState, pending: Pending, ghost g: Ledger) returns (answered: bool)
      requires Kept(g, state)
      modifies `log, `trace, state`history
      ensures Kept(g, state)
      ensures forall start :: Extends(start, old(log), g.turn) ==> Extends(start, log, g.turn)
      ensures |log| == |old(log)| + (if answered then 2 else 1) && old(log) <= log
      ensures |trace| == |old(trace)| + 1 && old(trace) <= trace && Steps(log) == Steps(old(log))
      ensures var h := trace[|old(trace)|];
        && h.Used? && h.intent == Intent(pending.call, pending.toolItem)
        && (answered <==> !h.outcome.ApprovalRequired?)
      ensures log[|old(log)|] ==
        ItemCompleted(g.turn, ApprovalItem(pending.approvalItem, pending.approvalId, pending.call.callId, false))
      ensures answered ==>
        && AnswersCall(log[|old(log)| + 1], g.turn, pending.toolItem, pending.call)
        && state.history == old(state.history) + ItemMessages(log[|old(log)| + 1].item)
        && ItemMessages(log[|old(log)| + 1].item) == [Told(trace[|old(trace)|].intent, trace[|old(trace)|].outcome)]
      ensures !answered ==> state.history == old(state.history)
    {
      hide Books, Exclusive, Extends, Steps, Requests;
      var decided := ApprovalItem(pending.approvalItem, pending.approvalId, pending.call.callId, false);
      Note(ItemCompleted(state.turn, decided), state, g);
      var intent := Intent(pending.call, pending.toolItem);
      var tool := UseTool(intent);
      if tool.ApprovalRequired? {
        return false;
      }
      ghost var mid := log;
      var result := if tool.ToolThrew? then Result(tool.error, Some(true)) else tool.result;
      var o := CompleteToolItem(state.turn, intent, result);
      ReplyKeeps(g, mid, log, state.history, state.compaction, state.batches, o, intent);
      ExtendsMore(mid, log, g.turn, o.message);
      RecordedCounts(mid, log, g.turn, o.message);
      state.history := state.history + [o.message];
      return true;
    }

    /**
     * Continues a suspended turn with the decision it waited for. It is refused when there is no such turn, when
     * its history does not rebuild, or when it waits for another approval or none; otherwise the decision is
     * recorded, and the turn goes on unless the call asks for approval again.
     */
    method ResumeTurn(t: nat, approvalId: nat)
      returns (r: Option<TurnResult>, ghost rounds: nat, ghost bs: seq<Batch>)
      requires Bounded()
      requires FoundTurn(OfTurn(log, t)).Some? ==> StartIndex(log, t).Some?
      modifies `log, `nextId, `signal, `trace
      ensures Continued(old(log), log, t, bs) && (Exclusive() ==> bs == [])
      ensures r.Some? ==> Closed(log, t, r.value, bs)
      ensures old(trace) <= trace
      ensures r.Some? ==>
        TurnDid(Since(old(trace), trace), r.value, BegunAt(old(log), t),
                BegunAt(old(log), t) + Steps(log) - Steps(old(log)), settings.maxSteps, Tries(settings), Raises())
      ensures rounds <= RoundBound(0)
      ensures var events := OfTurn(old(log), t); var waiting := FirstWaiting(events, |events|);
        if FoundTurn(events).Some? && Resumable(old(log), t, approvalId) then
          && |log| > |old(log)|
          && log[|old(log)|] ==
             ItemCompleted(t, ApprovalItem(waiting.value.approvalItem, approvalId, waiting.value.call.callId, false))
          && (if r.Some? then
                && |log| > |old(log)| + 1
                && AnswersCall(log[|old(log)| + 1], t, waiting.value.toolItem, waiting.value.call)
              else |log| == |old(log)| + 1)
          && |trace| > |old(trace)|
          && var h := trace[|old(trace)|];
             && h.Used? && h.intent == Intent(waiting.value.call, waiting.value.toolItem)
             && (r.Some? <==> !h.outcome.ApprovalRequired?)
             && (r.Some? ==> ItemMessages(log[|old(log)| + 1].item) == [Told(h.intent, h.outcome)])
        else r.None? && (log == old(log) || log == old(log) + [RecoveryFailed(t)]) && trace == old(trace)
    {
      hide Books, Continued, Closed, Exclusive, Loaded, Extends, StartIndex, Committed, LastCheckpoint, FirstWaiting,
        OfTurn, FoundTurn, TurnDid, Steps, Told, OutputCap.Escalations;
      ghost var before, exclusive := log, Exclusive();
      signal, rounds, bs := false, 0, [];
      NothingYetDone(trace);
      var rebuilt := Rebuild(t);
      NothingHappened(before, log, t);
      if !rebuilt.State? || rebuilt.pending.None? || rebuilt.pending.value.approvalId != approvalId {
        return None, 0, [];
      }
      RebuiltBooks(log, t, exclusive);
      var state := new LoopState(t, rebuilt.history, rebuilt.stepIndex, rebuilt.compaction);
      ghost var g := RebuiltLedger(before, t, exclusive);
      ExtendsNothing(log, t);
      var answered := AnswerPending(state, rebuilt.pending.value, g);
      if !answered {
        RebuiltLeaves(before, log, t, exclusive, state.history, state.compaction, []);
        return None, 0, [];
      }
      ghost var driven, told := log, trace;
      assert |driven| == |before| + 2;
      var end;
      end, rounds, bs := DriveOn(state, before, exclusive, g);
      ExtendsLength(driven, log, t);
      Joined(old(trace), told, trace);
      assert Since(old(trace), told) == [told[|old(trace)|]];
      AnsweredFirst(told[|old(trace)|], Since(told, trace), end, rebuilt.stepIndex,
                    rebuilt.stepIndex + Steps(log) - Steps(before), settings.maxSteps, Tries(settings), Raises());
      return Some(end), rounds, bs;
    }

    /** Drives a turn that was taken up, and leaves its thread in order. */
    method DriveOn(state: LoopState, ghost before: seq<Event>, ghost exclusive: bool, ghost g: Ledger)
      returns (end: TurnResult, ghost rounds: nat, ghost bs: seq<Batch>)
      requires Kept(g, state) && exclusive == Exclusive() && g == RebuiltLedger(before, state.turn, exclusive)
      requires Extends(before, log, g.turn) && Steps(log) == Steps(before) && state.batches == []
      requires StartIndex(before, g.turn).Some?
      modifies `log, `nextId, `signal, `trace
      modifies state`history, state`stepIndex, state`compaction, state`attempts, state`batches
      ensures Continued(before, log, g.turn, bs) && Extends(old(log), log, g.turn)
      ensures Closed(log, g.turn, end, bs) && (exclusive ==> bs == [])
      ensures old(trace) <= trace && rounds <= RoundBound(old(state.stepIndex))
      ensures
        TurnDid(Since(old(trace), trace), end, old(state.stepIndex), old(state.stepIndex) + Steps(log) - Steps(before),
                settings.maxSteps, Tries(settings), Raises())
    {
      hide Books, Continued, Closed, Exclusive, Loaded, Extends, StartIndex, Committed, TurnDid, Steps,
        OutputCap.Escalations;
      ghost var driven, stepIndex := log, state.stepIndex;
      end, rounds := Drive(state, g);
      bs := state.batches;
      ExtendsOn(before, driven, log, g.turn);
      SameTurn(Since(old(trace), trace), end, stepIndex, state.stepIndex, stepIndex + Steps(log) - Steps(before),
               settings.maxSteps, Tries(settings), Raises());
      BooksMean(g, log, state.history, state.compaction, bs);
      RebuiltLeaves(before, log, g.turn, exclusive, state.history, state.compaction, bs);
    }

    /**
     * Continues a turn after a crash, exactly when it is there and active, waits for no approval, and its
     * history rebuilds.
     */
    method RecoverTurn(t: nat) returns (r: Option<TurnResult>, ghost rounds: nat, ghost bs: seq<Batch>)
      requires Bounded()
      requires FoundTurn(OfTurn(log, t)).Some? ==> StartIndex(log, t).Some?
      modifies `log, `nextId, `signal, `trace
      ensures Continued(old(log), log, t, bs) && (Exclusive() ==> bs == [])
      ensures r.Some? ==> Closed(log, t, r.value, bs)
      ensures old(trace) <= trace
      ensures r.Some? ==>
        TurnDid(Since(old(trace), trace), r.value, BegunAt(old(log), t),
                BegunAt(old(log), t) + Steps(log) - Steps(old(log)), settings.maxSteps, Tries(settings), Raises())
      ensures rounds <= RoundBound(0)
      ensures var events := OfTurn(old(log), t);
        r.Some? <==>
          FoundTurn(events) == Some(Active) && FirstWaiting(events, |events|).None? && DigestPasses(old(log), t)
      ensures r.None? ==> (log == old(log) || log == old(log) + [RecoveryFailed(t)]) && trace == old(trace)
    {
      hide Books, Continued, Closed, Exclusive, Loaded, Extends, StartIndex, Committed, LastCheckpoint, FirstWaiting,
        OfTurn, FoundTurn, TurnDid, Steps, Told, OutputCap.Escalations;
      ghost var before, exclusive := log, Exclusive();
      signal, rounds, bs := false, 0, [];
      NothingYetDone(trace);
      var rebuilt := Rebuild(t);
      NothingHappened(before, log, t);
      if !rebuilt.State? || rebuilt.pending.Some? || rebuilt.status != Active {
        return None, 0, [];
      }
      RebuiltBooks(log, t, exclusive);
      var state := new LoopState(t, rebuilt.history, rebuilt.stepIndex, rebuilt.compaction);
      ghost var g := RebuiltLedger(before, t, exclusive);
      ExtendsNothing(log, t);
      var end;
      end, rounds, bs := DriveOn(state, before, exclusive, g);
      return Some(end), rounds, bs;
    }

    /* ---------- conversations ---------- */

    /**
     * A new turn, and its resumptions as long as it is suspended and there are approvals to answer with. It is
     * steady when no order of arrival shows in it and nothing is orphaned, as it always is with exclusive tools.
     */
    method Converse(t: nat, input: string, approvals: seq<nat>, ghost was: bool)
      returns (r: Option<TurnResult>, ghost steady: bool)
      requires Bounded() && settings.carry && Sound(log, was)
      requires forall i :: 0 <= i < |log| ==> log[i].turn != t
      modifies `log, `nextId, `signal, `trace
      ensures Sound(log, was && steady) && (Exclusive() ==> steady)
      ensures old(log) <= log && forall i :: |old(log)| <= i < |log| ==> log[i].turn == t
    {
      hide Sound, Began, Continued, Closed, Exclusive, Unmixed, Messages, OnlySince, Orphans, TurnDid, Steps, Opening,
        FoundTurn, FirstWaiting, OfTurn, StartIndex, Resumable, Told, AnswersCall, OutputCap.Escalations;
      ghost var bs, rounds;
      var first;
      first, rounds, bs := RunTurn(t, input);
      steady := Unmixed(log, t, bs);
      ExclusiveIsUnmixed(log, t);
      BeganExtends(old(log), log, t, true, bs);
      RunKeepsSound(old(log), log, t, bs, was, steady);
      ClosedIsReady(old(log), log, t, bs, first, Exclusive());
      r := Some(first);
      var n := 0;
      while n < |approvals| && r.Some? && r.value.Suspended?
        invariant n <= |approvals|
        invariant Sound(log, was && steady) && (Exclusive() ==> steady)
        invariant old(log) <= log && forall i :: |old(log)| <= i < |log| ==> log[i].turn == t
        invariant r.Some? && r.value.Suspended? ==> Ready(log, t, Exclusive())
      {
        ghost var before, ready := log, Orphans(log, t) == [];
        ReadyToResume(log, t, Exclusive());
        r, rounds, bs := ResumeTurn(t, approvals[n]);
        n := n + 1;
        ghost var now := steady && ready && Unmixed(log, t, bs);
        ResumeKeepsSound(before, log, t, bs, was && steady, was && now);
        ExclusiveStaysSteady(before, log, t, bs, steady, now, Exclusive());
        if r.Some? {
          ClosedStaysReady(before, log, t, bs, r.value, Exclusive());
        }
        ContinuedExtends(before, log, t, bs);
        steady := now;
      }
    }

    /** A thread from its start: turn after turn, each with its resumptions. */
    method Conversation(inputs: seq<(string, seq<nat>)>) returns (ghost steady: bool)
      requires Bounded() && settings.carry && log == []
      modifies `log, `nextId, `signal, `trace
      ensures Sound(log, steady) && (Exclusive() ==> steady)
    {
      hide Sound, Exclusive;
      steady := true;
      NothingIsSound(true);
      for n := 0 to |inputs|
        invariant Sound(log, steady) && (Exclusive() ==> steady)
        invariant forall i :: 0 <= i < |log| ==> log[i].turn < n
      {
        var r;
        ghost var still;
        r, still := Converse(n, inputs[n].0, inputs[n].1, steady);
        steady := steady && still;
      }
    }

    /**
     * A crash keeps a part of the log in which the turn had started, and the turn is recovered. The thread is tidy
     * at every point exactly when what was left is, and the calls that the turn did not take up are answered by the
     * time it calls tools again; and every checkpoint replays exactly when those left do, and the new ones are of a
     * history that nothing was orphaned from, with no order of arrival in it.
     */
    method CrashAndRecover(t: nat, kept: nat) returns (r: Option<TurnResult>, ghost bs: seq<Batch>)
      requires Bounded() && kept <= |log| && StartIndex(log[..kept], t).Some?
      modifies `log, `nextId, `signal, `trace
      ensures var left := old(log)[..kept];
        && left <= log && (forall i :: kept <= i < |log| ==> log[i].turn == t)
        && (AllTidy(log) <==> AllTidy(left) && InTime(GoOn(t), left, log))
        && (Replay(log, 0, true) <==> Replay(left, 0, true) && Unspoiled(GoOn(t), left, log, bs))
        && (Exclusive() ==>
              (Unspoiled(GoOn(t), left, log, bs) <==>
               Orphans(left, t) == [] || forall i :: kept <= i < |log| ==> !log[i].Checkpoint?))
        && forall steady :: Sound(left, steady) && Informed(GoOn(t), left, log, bs, steady) ==> Sound(log, steady)
    {
      hide Sound, Continued, Closed, Exclusive, Messages, StartIndex, Orphans, AllTidy, Replay, InTime, Unspoiled,
        Informed, TurnDid, Steps, FoundTurn, FirstWaiting, OfTurn, OutputCap.Escalations;
      log := log[..kept];
      ghost var left := log;
      ghost var rounds;
      r, rounds, bs := RecoverTurn(t);
      ContinuedExtends(left, log, t, bs);
      CallKeepsTidy(GoOn(t), left, log, bs);
      CallKeepsReplay(GoOn(t), left, log, bs);
      ExclusiveUnspoiled(left, log, t);
      forall steady | Sound(left, steady) && Informed(GoOn(t), left, log, bs, steady) ensures Sound(log, steady) {
        CallKeepsSound(GoOn(t), left, log, bs, steady);
      }
    }

    /** One call of an entry point, on what a crash left of the log. */
    method Perform(keep: nat, newest: nat, action: Action) returns (ghost d: Doing, ghost bs: seq<Batch>)
      requires Bounded() && keep <= |log| && forall i :: 0 <= i < |log| ==> log[i].turn < newest
      requires action.Say? || StartIndex(log[..keep], action.turn).Some?
      modifies `log, `nextId, `signal, `trace
      ensures Did(d, old(log)[..keep], log, bs) && (Exclusive() ==> bs == [])
      ensures forall i :: 0 <= i < |log| ==> log[i].turn <= newest
    {
      hide Began, Continued, Closed, Exclusive, StartIndex, TurnDid, Steps, Opening, FirstWaiting, Resumable, Told,
        AnswersCall, OutputCap.Escalations;
      log := log[..keep];
      ghost var left := log;
      ghost var rounds;
      match action {
        case Say(input) =>
          var said;
          said, rounds, bs := RunTurn(newest, input);
          d := Begin(newest, settings.carry);
          BeganExtends(left, log, newest, settings.carry, bs);
        case Answer(t, approvalId) =>
          var answered;
          answered, rounds, bs := ResumeTurn(t, approvalId);
          d := GoOn(t);
          ContinuedExtends(left, log, t, bs);
          StartedIsKnown(left, t, newest);
        case Recover(t) =>
          var recovered;
          recovered, rounds, bs := RecoverTurn(t);
          d := GoOn(t);
          ContinuedExtends(left, log, t, bs);
          StartedIsKnown(left, t, newest);
      }
    }

    /**
     * Any calls of the entry points, each after a crash that may cut the log off anywhere: real calls make the runs
     * that everything is proved of. A turn is gone on with only if its start is still in the log.
     */
    method Session(script: seq<(nat, Action)>)
      returns (
        ghost logs: seq<seq<Event>>, ghost kept: seq<nat>, ghost calls: seq<Doing>, ghost batches: seq<seq<Batch>>)
      requires Bounded() && log == []
      modifies `log, `nextId, `signal, `trace
      ensures IsRun(logs, kept, calls, batches) && logs[|calls|] == log
      ensures Exclusive() ==> forall i :: 0 <= i < |calls| ==> batches[i] == []
    {
      hide Did, Exclusive, StartIndex;
      logs, kept, calls, batches := [log], [], [], [];
      for n := 0 to |script|
        invariant IsRun(logs, kept, calls, batches) && logs[|calls|] == log
        invariant forall i :: 0 <= i < |log| ==> log[i].turn < n
        invariant Exclusive() ==> forall i :: 0 <= i < |calls| ==> batches[i] == []
      {
        var (cut, action) := script[n];
        var keep := if cut < |log| then cut else |log|;
        if action.Say? || StartIndex(log[..keep], action.turn).Some? {
          ghost var bs, d;
          d, bs := Perform(keep, n, action);
          RunGrows(logs, kept, calls, batches, keep, d, log, bs);
          logs, kept, calls, batches := logs + [log], kept + [keep], calls + [d], batches + [bs];
        }
      }
    }
  }
}
