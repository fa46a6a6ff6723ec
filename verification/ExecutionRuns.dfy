/**
 * Where everything in a run of the execution protocol comes from: each call from its arrival, each decision from
 * the policy, each sandbox entry from a call that was cleared, each result from the sandbox, and each failure
 * from something that failed. And what becomes of an answer of the sandbox.
 */
module ExecutionRuns {
  import opened Options
  import opened ExecutionWorld

  /** The n-th step of the run, and the state it was taken in. */
  ghost predicate StepAt(steps: seq<Step>, n: nat, step: Step, before: State) {
    n < |steps| && steps[n] == step && before == Run(steps[..n])
  }

  /** The call came in with this request and this approval. */
  ghost predicate Arrived(steps: seq<Step>, id: nat, request: Request, approval: Approval) {
    exists n, before :: StepAt(steps, n, Arrive(id, request, approval), before) && id !in before.calls
  }

  predicate IsCall(s: State, id: nat, request: Request, approval: Approval) {
    id in s.calls && s.calls[id].request == request && s.calls[id].approval == approval
  }

  /** The policy decided on the call, and the sandbox reported what it can do. */
  ghost predicate Reported(
    steps: seq<Step>, id: nat, request: Request, approval: Approval, decision: Decision, able: Capabilities)
  {
    exists n, broker, before ::
      && StepAt(steps, n, PolicyAnswers(id, decision, able, broker), before)
      && IsCall(before, id, request, approval) && before.calls[id].point.AskingCapabilities?
  }

  /** The sandbox can enforce everything that the request requires. */
  predicate Enforceable(r: Requirements, able: Capabilities) {
    && (r.readPaths != [] ==> able.filesystem) && (r.writePaths != [] ==> able.filesystem)
    && (r.networkTargets != [] ==> able.network) && (r.commands != [] ==> able.process)
  }

  /** The call passed the last check on its way to the sandbox. */
  ghost predicate Cleared(
    steps: seq<Step>, id: nat, request: Request, approval: Approval, decided: Option<Decision>)
  {
    decided.Some? &&
    exists n, able, step, before ::
      && StepAt(steps, n, step, before) && step.PolicyAnswers? && step.id == id
      && IsCall(before, id, request, approval) && before.calls[id].point == Deciding(decided.value, able)
      && Reported(steps, id, request, approval, decided.value, able)
      && Enforceable(request.requirements, able) && (request.requirements.secretEnv != map[] ==> step.haveBroker)
  }

  /** It is this call that entered the sandbox. */
  predicate Entered(s: State, id: nat) {
    && id in s.calls && |s.entries| == 1 && s.entries[0].request == s.calls[id].request
    && s.entries[0].approval == s.calls[id].approval && s.entries[0].decided == s.calls[id].decided
  }

  /** The sandbox answered the call that had entered it. */
  ghost predicate Answered(steps: seq<Step>, id: nat, result: string) {
    exists n, before ::
      && StepAt(steps, n, Answer(id, result), before)
      && Entered(before, id) && before.calls[id].point.InSandbox?
  }

  /** Something the call did failed. */
  ghost predicate FailedAt(steps: seq<Step>, id: nat, message: string) {
    exists n, step, before ::
      && StepAt(steps, n, step, before) && id in before.calls
      && (step == Throw(id, message) || step == Lose(id, message))
  }

  /* ---------- sources stay as a run goes on ---------- */

  lemma StepStays(steps: seq<Step>, last: Step, n: nat, step: Step, before: State)
    requires StepAt(steps, n, step, before)
    ensures StepAt(steps + [last], n, step, before)
  {
    assert (steps + [last])[..n] == steps[..n];
  }

  lemma LastStep(steps: seq<Step>, last: Step)
    ensures StepAt(steps + [last], |steps|, last, Run(steps))
    ensures Run(steps + [last]) == Do(Run(steps), last)
  {
    assert (steps + [last])[..|steps|] == steps;
  }

  lemma ArrivedStays(steps: seq<Step>, last: Step, id: nat, request: Request, approval: Approval)
    requires Arrived(steps, id, request, approval)
    ensures Arrived(steps + [last], id, request, approval)
  {
    var n, before :| StepAt(steps, n, Arrive(id, request, approval), before) && id !in before.calls;
    StepStays(steps, last, n, Arrive(id, request, approval), before);
    hide StepAt;
  }

  lemma ReportedStays(
    steps: seq<Step>, last: Step, id: nat, request: Request, approval: Approval, decision: Decision,
    able: Capabilities)
    requires Reported(steps, id, request, approval, decision, able)
    ensures Reported(steps + [last], id, request, approval, decision, able)
  {
    var n, broker, before :|
      && StepAt(steps, n, PolicyAnswers(id, decision, able, broker), before)
      && IsCall(before, id, request, approval) && before.calls[id].point.AskingCapabilities?;
    StepStays(steps, last, n, PolicyAnswers(id, decision, able, broker), before);
    hide StepAt;
  }

  lemma ClearedStays(
    steps: seq<Step>, last: Step, id: nat, request: Request, approval: Approval, decided: Option<Decision>)
    requires Cleared(steps, id, request, approval, decided)
    ensures Cleared(steps + [last], id, request, approval, decided)
  {
    hide Reported, Enforceable;
    var n, able, step, before :|
      && StepAt(steps, n, step, before) && step.PolicyAnswers? && step.id == id
      && IsCall(before, id, request, approval) && before.calls[id].point == Deciding(decided.value, able)
      && Reported(steps, id, request, approval, decided.value, able)
      && Enforceable(request.requirements, able) && (request.requirements.secretEnv != map[] ==> step.haveBroker);
    StepStays(steps, last, n, step, before);
    ReportedStays(steps, last, id, request, approval, decided.value, able);
    hide StepAt;
  }

  lemma AnsweredStays(steps: seq<Step>, last: Step, id: nat, result: string)
    requires Answered(steps, id, result)
    ensures Answered(steps + [last], id, result)
  {
    var n, before :|
      StepAt(steps, n, Answer(id, result), before) && Entered(before, id) && before.calls[id].point.InSandbox?;
    StepStays(steps, last, n, Answer(id, result), before);
    hide StepAt;
  }

  lemma FailedStays(steps: seq<Step>, last: Step, id: nat, message: string)
    requires FailedAt(steps, id, message)
    ensures FailedAt(steps + [last], id, message)
  {
    var n, step, before :|
      && StepAt(steps, n, step, before) && id in before.calls
      && (step == Throw(id, message) || step == Lose(id, message));
    StepStays(steps, last, n, step, before);
    hide StepAt;
  }

  /* ---------- what a state owes to its run ---------- */

  /** Where the events that a call is about to append come from. */
  ghost predicate NextSourced(steps: seq<Step>, id: nat, c: Call, events: seq<Event>, next: Next) {
    match next
    case ToDecision(decision, able) =>
      && events == [PermissionSnapshot(decision)] && c.decided == Some(decision)
      && Reported(steps, id, c.request, c.approval, decision, able)
    case ToSandbox =>
      Cleared(steps, id, c.request, c.approval, c.decided)
      && |events| == 2 && events[0].Authorized? && events[1].Started?
    case ToResult(result) => events == [Completed(result)] && Answered(steps, id, result)
    case ToErrorResult(message) => events == [Failed(Recorded(message))] && FailedAt(steps, id, message)
    case ToCapabilities => events == [Requested(c.request)]
    case ToAnswer(answer) =>
      (answer.Refused? && events == [Denied(answer.reason)])
      || (answer == NeedsApproval(c.request.id) && events == [ApprovalRequired(c.request.id)])
  }

  ghost predicate PointSourced(steps: seq<Step>, id: nat, c: Call) {
    match c.point
    case Deciding(decision, able) =>
      c.decided == Some(decision) && Reported(steps, id, c.request, c.approval, decision, able)
    case ReadingTail(events, next) => NextSourced(steps, id, c, events, next)
    case Appending(events, _, next) => NextSourced(steps, id, c, events, next)
    case Materializing => Cleared(steps, id, c.request, c.approval, c.decided)
    case SnapshotBefore => Cleared(steps, id, c.request, c.approval, c.decided)
    case SnapshotAfter(result) => Answered(steps, id, result)
    case Diffing(result) => Answered(steps, id, result)
    case _ => true
  }

  ghost predicate CallSourced(steps: seq<Step>, id: nat, c: Call) {
    Arrived(steps, id, c.request, c.approval) && PointSourced(steps, id, c)
  }

  ghost predicate EventSourced(steps: seq<Step>, e: Event) {
    match e
    case Completed(result) => exists id :: Answered(steps, id, result)
    case Failed(message) => exists id, text :: FailedAt(steps, id, text) && message == Recorded(text)
    case Requested(request) => exists id, approval :: Arrived(steps, id, request, approval)
    case PermissionSnapshot(decision) =>
      exists id, request, approval, able :: Reported(steps, id, request, approval, decision, able)
    case _ => true
  }

  ghost predicate EntrySourced(steps: seq<Step>, e: Entry) {
    exists id :: Arrived(steps, id, e.request, e.approval) && Cleared(steps, id, e.request, e.approval, e.decided)
  }

  ghost predicate Sourced(steps: seq<Step>, s: State) {
    && (forall id :: id in s.calls ==> CallSourced(steps, id, s.calls[id]))
    && (forall id :: id in s.calls && s.calls[id].point.InSandbox? ==> Entered(s, id))
    && (forall e :: e in s.stream ==> EventSourced(steps, e))
    && (forall e :: e in s.entries ==> EntrySourced(steps, e))
  }

  lemma NextStays(steps: seq<Step>, last: Step, id: nat, c: Call, events: seq<Event>, next: Next)
    requires NextSourced(steps, id, c, events, next)
    ensures NextSourced(steps + [last], id, c, events, next)
  {
    hide Reported, Cleared, Answered, FailedAt;
    match next
    case ToDecision(decision, able) => ReportedStays(steps, last, id, c.request, c.approval, decision, able);
    case ToSandbox => ClearedStays(steps, last, id, c.request, c.approval, c.decided);
    case ToResult(result) => AnsweredStays(steps, last, id, result);
    case ToErrorResult(message) => FailedStays(steps, last, id, message);
    case ToCapabilities =>
    case ToAnswer(_) =>
  }

  lemma CallStays(steps: seq<Step>, last: Step, id: nat, c: Call)
    requires CallSourced(steps, id, c)
    ensures CallSourced(steps + [last], id, c)
  {
    hide Arrived, Reported, Cleared, Answered, FailedAt, NextSourced;
    ArrivedStays(steps, last, id, c.request, c.approval);
    match c.point
    case Deciding(decision, able) => ReportedStays(steps, last, id, c.request, c.approval, decision, able);
    case ReadingTail(events, next) => NextStays(steps, last, id, c, events, next);
    case Appending(events, _, next) => NextStays(steps, last, id, c, events, next);
    case Materializing => ClearedStays(steps, last, id, c.request, c.approval, c.decided);
    case SnapshotBefore => ClearedStays(steps, last, id, c.request, c.approval, c.decided);
    case SnapshotAfter(result) => AnsweredStays(steps, last, id, result);
    case Diffing(result) => AnsweredStays(steps, last, id, result);
    case _ =>
  }

  lemma EventStays(steps: seq<Step>, last: Step, e: Event)
    requires EventSourced(steps, e)
    ensures EventSourced(steps + [last], e)
  {
    hide Arrived, Reported, Answered, FailedAt;
    match e
    case Completed(result) =>
      var id :| Answered(steps, id, result);
      AnsweredStays(steps, last, id, result);
    case Failed(message) =>
      var id, text :| FailedAt(steps, id, text) && message == Recorded(text);
      FailedStays(steps, last, id, text);
    case Requested(request) =>
      var id, approval :| Arrived(steps, id, request, approval);
      ArrivedStays(steps, last, id, request, approval);
    case PermissionSnapshot(decision) =>
      var id, request, approval, able :| Reported(steps, id, request, approval, decision, able);
      ReportedStays(steps, last, id, request, approval, decision, able);
    case _ =>
  }

  lemma EntryStays(steps: seq<Step>, last: Step, e: Entry)
    requires EntrySourced(steps, e)
    ensures EntrySourced(steps + [last], e)
  {
    hide Arrived, Cleared;
    var id :| Arrived(steps, id, e.request, e.approval) && Cleared(steps, id, e.request, e.approval, e.decided);
    ArrivedStays(steps, last, id, e.request, e.approval);
    ClearedStays(steps, last, id, e.request, e.approval, e.decided);
  }

  /* ---------- one step ---------- */

  /** The one call that a step moves, or starts. */
  function Mover(step: Step): Option<nat> { if step.Crash? then None else Some(step.id) }

  /** What a step leaves alone. */
  lemma OnlyMover(s: State, step: Step)
    ensures var t := Do(s, step);
      && (forall id :: id in t.calls && Some(id) != Mover(step) ==> id in s.calls && t.calls[id] == s.calls[id])
      && (t.stream == s.stream || (Mover(step).Some? && Mover(step).value in s.calls
           && s.calls[Mover(step).value].point.Appending?
           && t.stream == s.stream + s.calls[Mover(step).value].point.events))
      && (t.entries == s.entries || (step.Answer? && step.id in s.calls && s.calls[step.id].point.SnapshotBefore?
           && t.entries == s.entries + [EntryOf(s, step.id)]))
  {
    hide AfterThrow, AfterCapabilities, AfterDecision, AfterRead, AfterAppend, AfterAppendThrow, AfterWait, AfterAnswer;
  }

  function EntryOf(s: State, id: nat): Entry
    requires id in s.calls
  {
    Entry(s.calls[id].request, s.calls[id].decided, s.calls[id].approval, s.stream)
  }

  /** A call keeps its request and its approval, and its decision once it is past the policy. */
  lemma MoverKeeps(s: State, step: Step)
    requires Mover(step).Some? && Mover(step).value in s.calls
    ensures var id, t := Mover(step).value, Do(s, step);
      && id in t.calls && t.calls[id].request == s.calls[id].request && t.calls[id].approval == s.calls[id].approval
      && (t.calls[id].decided == s.calls[id].decided || s.calls[id].point.AskingCapabilities?)
  {
    hide FirstRequest, FirstResult, FirstDenial, HasSnapshot, HasApprovalRequest, Unsupported;
  }

  lemma UnsupportedMeans(r: Requirements, able: Capabilities)
    ensures Unsupported(r, able) == [] <==> Enforceable(r, able)
  {
  }

  lemma ThrowIsSourced(steps: seq<Step>, s: State, step: Step)
    requires s == Run(steps) && (step.Throw? || step.Lose?) && step.id in s.calls
    requires CallSourced(steps, step.id, s.calls[step.id])
    ensures CallSourced(steps + [step], step.id, Do(s, step).calls[step.id])
  {
    hide Run, Cleared, Reported, Answered, NextSourced, Arrived;
    var all, c := steps + [step], s.calls[step.id];
    CallStays(steps, step, step.id, c);
    LastStep(steps, step);
    assert FailedAt(all, step.id, step.message);
    hide StepAt, FailedAt;
    FailureIsSourced(all, step.id, RecordFailure(c, step.message), step.message);
  }

  lemma FailureIsSourced(steps: seq<Step>, id: nat, c: Call, message: string)
    requires FailedAt(steps, id, message) && c.point == ReadingTail([Failed(Recorded(message))], ToErrorResult(message))
    ensures PointSourced(steps, id, c)
  {
    hide FailedAt;
  }

  lemma AnswerIsSourced(steps: seq<Step>, s: State, id: nat, text: string)
    requires s == Run(steps) && id in s.calls && CallSourced(steps, id, s.calls[id])
    requires s.calls[id].point.InSandbox? ==> Entered(s, id)
    ensures CallSourced(steps + [Answer(id, text)], id, Do(s, Answer(id, text)).calls[id])
  {
    hide Run, Cleared, Reported, Arrived, FailedAt;
    CallStays(steps, Answer(id, text), id, s.calls[id]);
    LastStep(steps, Answer(id, text));
    hide StepAt;
  }

  lemma PolicyIsSourced(steps: seq<Step>, s: State, step: Step)
    requires s == Run(steps) && step.PolicyAnswers? && step.id in s.calls
    requires CallSourced(steps, step.id, s.calls[step.id])
    ensures CallSourced(steps + [step], step.id, Do(s, step).calls[step.id])
  {
    hide Run, Answered, Arrived, FailedAt, Unsupported, HasSnapshot, HasApprovalRequest, Enforceable;
    var all, c := steps + [step], s.calls[step.id];
    CallStays(steps, step, step.id, c);
    LastStep(steps, step);
    hide StepAt;
    if c.point.AskingCapabilities? {
      assert IsCall(s, step.id, c.request, c.approval);
      assert Reported(all, step.id, c.request, c.approval, step.decision, step.capabilities);
    } else if c.point.Deciding? {
      UnsupportedMeans(c.request.requirements, c.point.capabilities);
      if Do(s, step).calls[step.id].point.ReadingTail? && Do(s, step).calls[step.id].point.next.ToSandbox? {
        assert IsCall(s, step.id, c.request, c.approval);
        assert Cleared(all, step.id, c.request, c.approval, c.decided);
      }
    }
  }

  lemma ProceedIsSourced(steps: seq<Step>, s: State, id: nat)
    requires s == Run(steps) && Inv(s) && id in s.calls && CallSourced(steps, id, s.calls[id])
    ensures CallSourced(steps + [Proceed(id)], id, Do(s, Proceed(id)).calls[id])
  {
    hide Run, Cleared, Reported, Answered, Arrived, FailedAt, FirstRequest, FirstResult, FirstDenial, Recorded, Inv,
      Unsupported;
    CallStays(steps, Proceed(id), id, s.calls[id]);
    if s.calls[id].point.Appending? {
      AppendNeverConflicts(s, id);
      hide AfterAppendThrow, AfterRead, AfterWait;
    } else {
      hide AfterAppend, AfterAppendThrow;
    }
  }

  lemma MoverIsSourced(steps: seq<Step>, s: State, step: Step)
    requires s == Run(steps) && Inv(s) && Sourced(steps, s) && Mover(step).Some? && Mover(step).value in s.calls
    ensures step.id in Do(s, step).calls ==> CallSourced(steps + [step], step.id, Do(s, step).calls[step.id])
  {
    hide Inv, CallSourced, EventSourced, EntrySourced, Entered, Run;
    match step
    case Throw(_, _) => ThrowIsSourced(steps, s, step);
    case Lose(_, _) => ThrowIsSourced(steps, s, step);
    case Answer(id, text) => AnswerIsSourced(steps, s, id, text);
    case PolicyAnswers(_, _, _, _) => PolicyIsSourced(steps, s, step);
    case Proceed(id) => ProceedIsSourced(steps, s, id);
    case Arrive(id, _, _) => CallStays(steps, step, id, s.calls[id]);
    case Crash =>
  }

  lemma NewcomerIsSourced(steps: seq<Step>, s: State, step: Step)
    requires s == Run(steps) && step.Arrive? && step.id !in s.calls
    ensures CallSourced(steps + [step], step.id, Do(s, step).calls[step.id])
  {
    LastStep(steps, step);
    hide StepAt, Run;
  }

  lemma CallsStaySourced(steps: seq<Step>, s: State, step: Step)
    requires s == Run(steps) && Inv(s) && Sourced(steps, s)
    ensures forall id :: id in Do(s, step).calls ==> CallSourced(steps + [step], id, Do(s, step).calls[id])
  {
    hide Inv, CallSourced, EventSourced, EntrySourced, Entered, Run;
    OnlyMover(s, step);
    OnlyKnown(s, step);
    var t := Do(s, step);
    hide Do;
    forall id | id in t.calls ensures CallSourced(steps + [step], id, t.calls[id]) {
      if Some(id) != Mover(step) {
        CallStays(steps, step, id, s.calls[id]);
      } else if id in s.calls {
        MoverIsSourced(steps, s, step);
      } else {
        NewcomerIsSourced(steps, s, step);
      }
    }
  }

  lemma OnlyKnown(s: State, step: Step)
    ensures forall id :: id in Do(s, step).calls && id !in s.calls ==> step.Arrive? && step.id == id
  {
    hide AfterThrow, AfterCapabilities, AfterDecision, AfterRead, AfterAppend, AfterAppendThrow, AfterWait, AfterAnswer;
  }

  lemma StreamStaysSourced(steps: seq<Step>, s: State, step: Step)
    requires s == Run(steps) && Inv(s) && Sourced(steps, s)
    ensures forall e :: e in Do(s, step).stream ==> EventSourced(steps + [step], e)
  {
    hide Inv, EventSourced, EntrySourced, Entered, Run, Arrived, Cleared, Answered, FailedAt, Reported;
    OnlyMover(s, step);
    var t := Do(s, step);
    hide Do;
    forall e | e in t.stream ensures EventSourced(steps + [step], e) {
      if e in s.stream {
        EventStays(steps, step, e);
      } else {
        var id := Mover(step).value;
        assert CallSourced(steps, id, s.calls[id]) && e in s.calls[id].point.events;
        AppendedIsSourced(steps, id, s.calls[id], e);
        EventStays(steps, step, e);
      }
    }
  }

  lemma AppendedIsSourced(steps: seq<Step>, id: nat, c: Call, e: Event)
    requires CallSourced(steps, id, c) && c.point.Appending? && e in c.point.events
    ensures EventSourced(steps, e)
  {
    hide Arrived, Cleared, Answered, FailedAt, Reported;
    var i :| 0 <= i < |c.point.events| && c.point.events[i] == e;
    match c.point.next
    case ToDecision(decision, able) => assert Reported(steps, id, c.request, c.approval, decision, able);
    case ToResult(result) => assert Answered(steps, id, result);
    case ToErrorResult(message) => assert FailedAt(steps, id, message);
    case ToCapabilities => assert Arrived(steps, id, c.request, c.approval);
    case _ =>
  }

  lemma EntriesStaySourced(steps: seq<Step>, s: State, step: Step)
    requires s == Run(steps) && Inv(s) && Sourced(steps, s)
    ensures forall e :: e in Do(s, step).entries ==> EntrySourced(steps + [step], e)
  {
    hide Inv, EventSourced, Entered, Run, Arrived, Cleared, Answered, FailedAt, Reported;
    OnlyMover(s, step);
    var t := Do(s, step);
    hide Do;
    forall e | e in t.entries ensures EntrySourced(steps + [step], e) {
      if e !in s.entries {
        var c := s.calls[step.id];
        assert CallSourced(steps, step.id, c) && e == EntryOf(s, step.id);
        assert EntrySourced(steps, e);
      }
      EntryStays(steps, step, e);
    }
  }

  /** The call in the sandbox is the one that entered it. */
  lemma EnteredStays(s: State, step: Step)
    requires Inv(s) && (forall id :: id in s.calls && s.calls[id].point.InSandbox? ==> Entered(s, id))
    ensures forall id :: id in Do(s, step).calls && Do(s, step).calls[id].point.InSandbox? ==> Entered(Do(s, step), id)
  {
    StepKeepsInv(s, step);
    OnlyMover(s, step);
    OnlyKnown(s, step);
    InvEntries(s);
    InvEntries(Do(s, step));
    var t := Do(s, step);
    hide Inv, Entered;
    forall id | id in t.calls && t.calls[id].point.InSandbox? ensures Entered(t, id) {
      if id in s.calls {
        if Some(id) == Mover(step) { IntoSandbox(s, step); MoverKeeps(s, step); }
        EnteredNow(s, t, step, id);
      }
    }
  }

  lemma InvEntries(s: State)
    requires Inv(s)
    ensures |s.entries| <= 1
  {
  }

  lemma EnteredNow(s: State, t: State, step: Step, id: nat)
    requires id in s.calls && id in t.calls && |s.entries| <= 1 && |t.entries| <= 1
    requires t.calls[id].request == s.calls[id].request && t.calls[id].approval == s.calls[id].approval
    requires t.calls[id].decided == s.calls[id].decided
    requires t.entries == s.entries || (step.Answer? && step.id in s.calls && s.calls[step.id].point.SnapshotBefore?
      && t.entries == s.entries + [EntryOf(s, step.id)])
    requires Entered(s, id) || (s.calls[id].point.SnapshotBefore? && step.Answer? && step.id == id
      && t.entries == s.entries + [EntryOf(s, id)])
    ensures Entered(t, id)
  {
    assert t.entries != s.entries ==> |t.entries| == |s.entries| + 1;
    if t.entries != s.entries {
      assert s.entries == [] && [] + [EntryOf(s, step.id)] == [EntryOf(s, step.id)];
    }
  }

  /** Into the sandbox leads only an answer to the snapshot taken before. */
  lemma IntoSandbox(s: State, step: Step)
    requires Mover(step).Some? && Mover(step).value in s.calls && Do(s, step).calls[step.id].point.InSandbox?
    ensures s.calls[step.id].point.InSandbox? || (s.calls[step.id].point.SnapshotBefore? && step.Answer?)
    ensures s.calls[step.id].point.SnapshotBefore? ==> Do(s, step).entries == s.entries + [EntryOf(s, step.id)]
  {
    hide FirstRequest, FirstResult, FirstDenial, HasSnapshot, HasApprovalRequest, Unsupported;
  }

  /**
   * Over every run: calls, decisions, sandbox entries, results and failures all come from where they should.
   */
  lemma {:induction false} EverythingIsSourced(steps: seq<Step>)
    ensures Sourced(steps, Run(steps))
  {
    hide CallSourced, EventSourced, EntrySourced, Entered, Inv, Do;
    if steps == [] {
      assert Run(steps) == INITIAL;
    } else {
      var front, last := steps[..|steps| - 1], steps[|steps| - 1];
      EverythingIsSourced(front);
      RunKeepsInv(front);
      assert steps == front + [last];
      CallsStaySourced(front, Run(front), last);
      StreamStaysSourced(front, Run(front), last);
      EntriesStaySourced(front, Run(front), last);
      EnteredStays(Run(front), last);
    }
  }

  /** A recorded result is what the sandbox answered the call that had entered it. */
  lemma ResultsComeFromTheSandbox(steps: seq<Step>, result: string)
    requires Completed(result) in Run(steps).stream
    ensures exists id :: Answered(steps, id, result)
  {
    EverythingIsSourced(steps);
    hide CallSourced, EntrySourced, Entered, Run, Answered;
    assert EventSourced(steps, Completed(result));
  }

  /** And whoever is told a result is told that one. */
  lemma TellsComeFromTheSandbox(steps: seq<Step>, id: nat)
    requires id in Run(steps).calls && Run(steps).calls[id].point.Finished?
    requires Run(steps).calls[id].point.outcome.Result?
    ensures exists other :: Answered(steps, other, Run(steps).calls[id].point.outcome.result)
  {
    hide Run, Answered;
    AnswersAreDurable(steps, [], id);
    assert steps + [] == steps;
    ResultsComeFromTheSandbox(steps, Run(steps).calls[id].point.outcome.result);
  }

  /** A call enters the sandbox only with the policy's decision, and with everything it requires enforced. */
  lemma EntriesAreCleared(steps: seq<Step>, e: Entry)
    requires e in Run(steps).entries
    ensures Permitted(e.decided, e.approval)
    ensures exists id ::
      Arrived(steps, id, e.request, e.approval) && Cleared(steps, id, e.request, e.approval, e.decided)
  {
    EverythingIsSourced(steps);
    AtMostOnce(steps);
    hide CallSourced, EventSourced, Entered, Run, Cleared, Arrived;
    assert EntrySourced(steps, e);
  }

  /* ---------- who is answered ---------- */

  /** The call has read the stream, or written it, and found its own request there. */
  predicate PastReading(p: Point) {
    match p
    case Entering => false
    case Waiting(_) => false
    case Reading => false
    case ReadingTail(_, next) => !next.ToCapabilities?
    case Appending(_, _, next) => !next.ToCapabilities?
    case Releasing(outcome) => outcome != Threw
    case Settled(outcome) => outcome != Threw && outcome != KeyCollision
    case Finished(outcome) => outcome != Threw && outcome != KeyCollision
    case _ => true
  }

  predicate FoundIts(s: State, c: Call) { |s.stream| > 0 && s.stream[0] == Requested(c.request) }

  ghost predicate AllFoundTheirs(s: State) {
    forall id :: id in s.calls && PastReading(s.calls[id].point) ==> FoundIts(s, s.calls[id])
  }

  lemma StepFinds(s: State, step: Step)
    requires Inv(s) && AllFoundTheirs(s)
    ensures AllFoundTheirs(Do(s, step))
  {
    OnlyMover(s, step);
    OnlyKnown(s, step);
    StepGrows(s, step);
    var t := Do(s, step);
    hide Do, Inv;
    forall id | id in t.calls && PastReading(t.calls[id].point) ensures FoundIts(t, t.calls[id]) {
      if id in s.calls && Some(id) == Mover(step) {
        MoverKeeps(s, step);
        MoverFinds(s, step);
        if PastReading(s.calls[id].point) { assert FoundIts(s, s.calls[id]); }
      } else if id in s.calls {
        assert FoundIts(s, s.calls[id]);
      } else {
        NewcomerEnters(s, step);
      }
    }
  }

  lemma NewcomerEnters(s: State, step: Step)
    requires step.Arrive? && step.id !in s.calls
    ensures Do(s, step).calls[step.id].point == Entering
  {
  }

  /** A call gets past reading by finding its request at the beginning, or by being the first to write it. */
  lemma MoverFinds(s: State, step: Step)
    requires Inv(s) && Mover(step).Some? && Mover(step).value in s.calls
    ensures step.id in Do(s, step).calls && PastReading(Do(s, step).calls[step.id].point) ==>
      PastReading(s.calls[step.id].point) || FoundIts(Do(s, step), s.calls[step.id])
  {
    var c := s.calls[step.id];
    if step.Proceed? {
      ProceedFinds(s, step.id);
    } else if step.Lose? && c.point.Appending? && c.point.next.ToCapabilities? {
      hide Inv, AfterRead;
    } else {
      hide Inv, AfterRead, AfterAppend, Unsupported, FirstRequest, FirstResult, FirstDenial, Recorded;
    }
  }

  lemma ProceedFinds(s: State, id: nat)
    requires Inv(s) && id in s.calls
    ensures id in Do(s, Proceed(id)).calls && PastReading(Do(s, Proceed(id)).calls[id].point) ==>
      PastReading(s.calls[id].point) || FoundIts(Do(s, Proceed(id)), s.calls[id])
  {
    var c := s.calls[id];
    match c.point {
      case Reading =>
        InvShape(s);
        ReadFinds(s.stream, c);
        hide AfterRead, Inv;
      case Appending(_, _, _) =>
        InsideFacts(s, id);
        AppendNeverConflicts(s, id);
        hide Inv, AfterRead, AfterAppendThrow;
      case _ => hide Inv, AfterRead, AfterAppend, AfterAppendThrow;
    }
  }

  lemma ReadFinds(stream: seq<Event>, c: Call)
    requires ValidStream(stream)
    ensures PastReading(AfterRead(c, stream).point) ==> |stream| > 0 && stream[0] == Requested(c.request)
  {
    hide FirstResult, FirstDenial;
    if stream != [] {
      assert stream[0].Requested?;
    }
  }

  lemma {:induction false} EveryoneFindsTheirs(steps: seq<Step>)
    ensures AllFoundTheirs(Run(steps))
  {
    hide Do, Inv;
    if steps != [] {
      EveryoneFindsTheirs(steps[..|steps| - 1]);
      RunKeepsInv(steps[..|steps| - 1]);
      StepFinds(Run(steps[..|steps| - 1]), steps[|steps| - 1]);
    }
  }

  /** Whoever is given an answer that is not an error asked for just what the stream records. */
  lemma AnswersAreToTheRequest(steps: seq<Step>, id: nat)
    requires id in Run(steps).calls && Run(steps).calls[id].point.Finished?
    requires Run(steps).calls[id].point.outcome != Threw && Run(steps).calls[id].point.outcome != KeyCollision
    ensures FoundIts(Run(steps), Run(steps).calls[id])
  {
    EveryoneFindsTheirs(steps);
    hide Run;
  }

  /* ---------- what becomes of an answer ---------- */

  /** The call is on its way to record and return the result, or has done so. */
  predicate OnTrack(s: State, id: nat, result: string) {
    id in s.calls &&
    match s.calls[id].point
    case SnapshotAfter(r) => r == result
    case Diffing(r) => r == result
    case ReadingTail(events, next) => events == [Completed(result)] && next == ToResult(result)
    case Appending(events, _, next) => events == [Completed(result)] && next == ToResult(result)
    case Releasing(outcome) => outcome == Result(result, false) && Completed(result) in s.stream
    case Settled(outcome) => outcome == Result(result, false) && Completed(result) in s.stream
    case Finished(outcome) => outcome == Result(result, false) && Completed(result) in s.stream
    case _ => false
  }

  /** How many steps of its own the call still needs. */
  function StepsLeft(p: Point): nat {
    match p
    case SnapshotAfter(_) => 6
    case Diffing(_) => 5
    case ReadingTail(_, _) => 4
    case Appending(_, _, _) => 3
    case Releasing(_) => 2
    case Settled(_) => 1
    case _ => 0
  }

  /** A crash, or a failure of the call. */
  predicate Disturbs(step: Step, id: nat) { step.Crash? || ((step.Throw? || step.Lose?) && step.id == id) }

  /** The step that the call waits for. */
  predicate Serves(step: Step, id: nat, p: Point) {
    if p.SnapshotAfter? || p.Diffing? then step.Answer? && step.id == id else step == Proceed(id)
  }

  lemma TrackStays(s: State, step: Step, id: nat, result: string)
    requires Inv(s) && OnTrack(s, id, result) && !Disturbs(step, id)
    ensures var t := Do(s, step);
      && OnTrack(t, id, result)
      && StepsLeft(s.calls[id].point) == StepsLeft(t.calls[id].point)
         + if Serves(step, id, s.calls[id].point) && StepsLeft(s.calls[id].point) > 0 then 1 else 0
  {
    if Mover(step) == Some(id) {
      hide Do, Inv, OnTrack;
      if step.Proceed? { TrackProceeds(s, id, result); } else { TrackElse(s, step, id, result); }
    } else {
      CallStaysThere(s, step, id);
      hide Inv, Do, AfterThrow, AfterCapabilities, AfterDecision, AfterRead, AfterAppend, AfterAnswer;
    }
  }

  lemma TrackProceeds(s: State, id: nat, result: string)
    requires Inv(s) && OnTrack(s, id, result)
    ensures var t := Do(s, Proceed(id));
      && OnTrack(t, id, result)
      && StepsLeft(s.calls[id].point) == StepsLeft(t.calls[id].point)
         + if Serves(Proceed(id), id, s.calls[id].point) && StepsLeft(s.calls[id].point) > 0 then 1 else 0
  {
    if s.calls[id].point.Appending? { AppendNeverConflicts(s, id); }
    hide Inv, AfterRead, AfterAppendThrow, AfterWait;
  }

  lemma TrackElse(s: State, step: Step, id: nat, result: string)
    requires OnTrack(s, id, result) && (step.Answer? || step.Arrive? || step.PolicyAnswers?) && step.id == id
    ensures var t := Do(s, step);
      && OnTrack(t, id, result)
      && StepsLeft(s.calls[id].point) == StepsLeft(t.calls[id].point)
         + if Serves(step, id, s.calls[id].point) && StepsLeft(s.calls[id].point) > 0 then 1 else 0
  {
    hide AfterCapabilities, AfterDecision;
  }

  lemma CallStaysThere(s: State, step: Step, id: nat)
    requires id in s.calls && !step.Crash? && Mover(step) != Some(id)
    ensures id in Do(s, step).calls && Do(s, step).calls[id] == s.calls[id] && s.stream <= Do(s, step).stream
  {
    hide AfterThrow, AfterCapabilities, AfterDecision, AfterRead, AfterAppend, AfterAppendThrow, AfterWait, AfterAnswer;
  }

  /** How often the run takes the step that the call waits for. */
  ghost function Served(steps: seq<Step>, more: seq<Step>, id: nat): nat {
    if more == [] then 0
    else
      var front := more[..|more| - 1];
      var s := Run(steps + front);
      Served(steps, front, id) + if id in s.calls && Serves(more[|more| - 1], id, s.calls[id].point) then 1 else 0
  }

  /**
   * Once the sandbox has answered, and if neither a failure of the call nor a crash comes in between: the call
   * is at all times on its way to record and return that answer, and has done so when it was served six times.
   */
  lemma {:induction false} AnswerIsKept(steps: seq<Step>, more: seq<Step>, id: nat, result: string)
    requires id in Run(steps).calls && Run(steps).calls[id].point.InSandbox?
    requires forall k :: 0 <= k < |more| ==> !Disturbs(more[k], id)
    ensures var s := Run(steps + [Answer(id, result)] + more);
      && OnTrack(s, id, result)
      && StepsLeft(s.calls[id].point) + Served(steps + [Answer(id, result)], more, id) >= 6
      && (StepsLeft(s.calls[id].point) > 0 ==>
            StepsLeft(s.calls[id].point) + Served(steps + [Answer(id, result)], more, id) == 6)
  {
    hide OnTrack, Do, Inv;
    var begun := steps + [Answer(id, result)];
    if more == [] {
      assert begun + more == begun;
      LastStep(steps, Answer(id, result));
      OntoTrack(Run(steps), id, result);
    } else {
      var front, last := more[..|more| - 1], more[|more| - 1];
      AnswerIsKept(steps, front, id, result);
      assert begun + more == begun + front + [last];
      LastStep(begun + front, last);
      RunKeepsInv(begun + front);
      assert last == more[|more| - 1];
      TrackStays(Run(begun + front), last, id, result);
      TrackIsThere(Run(begun + front), id, result);
      TrackIsThere(Run(begun + more), id, result);
    }
  }

  lemma OntoTrack(s: State, id: nat, result: string)
    requires id in s.calls && s.calls[id].point.InSandbox?
    ensures OnTrack(Do(s, Answer(id, result)), id, result)
    ensures Do(s, Answer(id, result)).calls[id].point == SnapshotAfter(result)
  {
  }

  lemma TrackIsThere(s: State, id: nat, result: string)
    requires OnTrack(s, id, result)
    ensures id in s.calls
  {
  }

  /** With six steps of its own and none of others, the call returns the answer, recorded last. */
  lemma SixStepsRecord(s: State, id: nat, result: string, before: string, after: string)
    requires Inv(s) && id in s.calls && s.calls[id].point.InSandbox?
    ensures
      var read := Do(Do(Do(s, Answer(id, result)), Answer(id, before)), Answer(id, after));
      var t := Do(Do(Do(Do(read, Proceed(id)), Proceed(id)), Proceed(id)), Proceed(id));
      t.stream == s.stream + [Completed(result)] && id in t.calls
      && t.calls[id].point == Finished(Result(result, false))
  {
    hide Inv, ProtocolStep;
    var read := Do(Do(Do(s, Answer(id, result)), Answer(id, before)), Answer(id, after));
    assert id in read.calls && read.calls[id].point == ReadingTail([Completed(result)], ToResult(result));
    FourProceed(read, id, result);
  }

  lemma FourProceed(s: State, id: nat, result: string)
    requires id in s.calls && s.calls[id].point == ReadingTail([Completed(result)], ToResult(result))
    ensures var t := Do(Do(Do(Do(s, Proceed(id)), Proceed(id)), Proceed(id)), Proceed(id));
      t.stream == s.stream + [Completed(result)] && id in t.calls
      && t.calls[id].point == Finished(Result(result, false))
  {
    hide AfterRead, AfterAppendThrow, AfterWait;
  }

  /* ---------- what the policy's answer leads to ---------- */

  /** The first answer of the policy is recorded, unless one already is, and then acted on. */
  lemma ReportLeads(s: State, id: nat, decision: Decision, able: Capabilities, broker: bool)
    requires id in s.calls && s.calls[id].point.AskingCapabilities?
    ensures var t := Do(s, PolicyAnswers(id, decision, able, broker)); var c := t.calls[id];
      && t.stream == s.stream && t.entries == s.entries && c.decided == Some(decision)
      && c.point ==
         if exists i :: 0 <= i < |s.calls[id].existing| && s.calls[id].existing[i].PermissionSnapshot? then
           Deciding(decision, able)
         else ReadingTail([PermissionSnapshot(decision)], ToDecision(decision, able))
  {
  }

  /**
   * What is decided then: to the sandbox exactly when the action is allowed, or asked and approved, not
   * rejected, and all of it can be enforced; a request for approval exactly when it is asked for and not
   * answered; and a denial otherwise.
   */
  lemma DecisionLeads(s: State, id: nat, step: Step)
    requires id in s.calls && s.calls[id].point.Deciding? && step.PolicyAnswers? && step.id == id
    ensures Do(s, step).calls[id].point.ReadingTail? ==> |Do(s, step).calls[id].point.events| > 0
    ensures var t, c := Do(s, step), s.calls[id]; var decision := c.point.decision;
      var wanted := decision == Allow || (decision == Ask && c.approval == Approved);
      var able := Enforceable(c.request.requirements, c.point.capabilities)
        && (c.request.requirements.secretEnv != map[] ==> step.haveBroker);
      var p := t.calls[id].point;
      && t.stream == s.stream && t.entries == s.entries
      && (p.ReadingTail? && p.next.ToSandbox? <==> c.approval != Rejected && wanted && able)
      && (p == Settled(NeedsApproval(c.request.id))
          || (p.ReadingTail? && p.next == ToAnswer(NeedsApproval(c.request.id)))
          <==> decision == Ask && c.approval == Unanswered)
      && (p.ReadingTail? && p.next.ToAnswer? && p.next.answer.Refused? && |p.events| == 1 && p.events[0].Denied?
          <==> decision == Deny || c.approval == Rejected || (wanted && !able))
      && (p.ReadingTail? && p.events[0].Denied? ==>
            (p.events[0].reason == "rejected by the user" <==> c.approval == Rejected)
            && (p.events[0].reason == "denied by policy" <==> c.approval != Rejected && decision == Deny))
      && (p.ReadingTail? && p.events[0].Authorized? ==>
            (p.events[0].reason == "approved by the user" <==> decision == Ask))
  {
    hide HasApprovalRequest;
    UnsupportedMeans(s.calls[id].request.requirements, s.calls[id].point.capabilities);
    hide Unsupported;
  }
}
