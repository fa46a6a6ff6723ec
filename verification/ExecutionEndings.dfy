/**
 * How calls of the execution boundary end when something fails, and that nobody waits for ever.
 */
module ExecutionEndings {
  import opened Options
  import opened ExecutionWorld
  import opened ExecutionRuns

  /* ---------- failures ---------- */

  /** Between the start of the effect and the record of its result. */
  predicate InEffect(p: Point) {
    p.Materializing? || p.SnapshotBefore? || p.InSandbox? || p.SnapshotAfter? || p.Diffing?
    || ((p.ReadingTail? || p.Appending?) && p.next.ToResult?)
  }

  /** Inside, but not in the effect: before it, or after its failure is recorded or its secrets are released. */
  predicate AroundEffect(p: Point) {
    p.Reading? || p.AskingCapabilities? || p.Releasing?
    || ((p.ReadingTail? || p.Appending?) && !p.next.ToResult? && !p.next.ToErrorResult?)
  }

  function Proceeds(s: State, id: nat, n: nat): State {
    if n == 0 then s else Do(Proceeds(s, id, n - 1), Proceed(id))
  }

  /** A failure in the effect is recorded with its message, or a stand-in for none, and the caller is told of it. */
  lemma FailureIsTold(s: State, id: nat, message: string)
    requires Inv(s) && id in s.calls && InEffect(s.calls[id].point)
    ensures var t := Proceeds(Do(s, Throw(id, message)), id, 4);
      && id in t.calls && t.calls[id].point == Finished(ErrorResult(message))
      && |t.stream| == |s.stream| + 1 && s.stream <= t.stream && t.stream[|s.stream|].Failed?
      && t.stream[|s.stream|].message != "" && (message != "" ==> t.stream[|s.stream|].message == message)
      && t.entries == s.entries && t.inflight == None
  {
    InsideFacts(s, id);
    var failed := Do(s, Throw(id, message));
    assert failed.calls[id].point == ReadingTail([Failed(Recorded(message))], ToErrorResult(message));
    hide Inv, InsideOk;
    FailureProceeds(failed, id, message);
  }

  lemma FailureProceeds(s: State, id: nat, message: string)
    requires id in s.calls && s.inflight == Some(id)
    requires s.calls[id].point == ReadingTail([Failed(Recorded(message))], ToErrorResult(message))
    ensures var t := Proceeds(s, id, 4);
      && id in t.calls && t.calls[id].point == Finished(ErrorResult(message))
      && t.stream == s.stream + [Failed(Recorded(message))] && t.entries == s.entries && t.inflight == None
  {
    hide Do;
    var mid := Do(Do(s, Proceed(id)), Proceed(id));
    FailureLands(s, id, message);
    ReleaseProceeds(mid, id, ErrorResult(message));
    assert Proceeds(mid, id, 0) == mid && Proceeds(s, id, 0) == s;
    assert Proceeds(mid, id, 1) == Do(mid, Proceed(id)) && Proceeds(s, id, 1) == Do(s, Proceed(id));
    assert Proceeds(s, id, 2) == mid;
    assert Proceeds(s, id, 3) == Proceeds(mid, id, 1);
  }

  lemma FailureLands(s: State, id: nat, message: string)
    requires id in s.calls && s.inflight == Some(id)
    requires s.calls[id].point == ReadingTail([Failed(Recorded(message))], ToErrorResult(message))
    ensures var t := Do(Do(s, Proceed(id)), Proceed(id));
      && id in t.calls && t.calls[id].point == Releasing(ErrorResult(message))
      && t.stream == s.stream + [Failed(Recorded(message))] && t.entries == s.entries && t.inflight == Some(id)
  {
    hide AfterRead, AfterAppendThrow, AfterWait, Recorded;
  }

  /** Any other failure rejects the call, and leaves stream and sandbox as they are. */
  lemma FailureRejects(s: State, id: nat, message: string)
    requires Inv(s) && id in s.calls && AroundEffect(s.calls[id].point)
    ensures var t := Proceeds(Do(s, Throw(id, message)), id, 1);
      && id in t.calls && t.calls[id].point == Finished(Threw)
      && t.stream == s.stream && t.entries == s.entries && t.inflight == None
  {
    InsideFacts(s, id);
    hide Inv, InsideOk;
    var failed := Do(s, Throw(id, message));
    assert Proceeds(failed, id, 0) == failed;
  }

  /** If even the failure cannot be recorded, the call is rejected. */
  lemma UnrecordedFailureRejects(s: State, id: nat, message: string)
    requires Inv(s) && id in s.calls && (s.calls[id].point.ReadingTail? || s.calls[id].point.Appending?)
    requires s.calls[id].point.next.ToErrorResult?
    ensures var t := Proceeds(Do(s, Throw(id, message)), id, 2);
      && id in t.calls && t.calls[id].point == Finished(Threw)
      && t.stream == s.stream && t.entries == s.entries && t.inflight == None
  {
    hide Do, Inv, Outside, InsideOk, Proceeds;
    InsideFacts(s, id) by { assert !Outside(s.calls[id].point) by { NotOutside(s.calls[id].point); } }
    var failed := Do(s, Throw(id, message));
    ThrowMoves(s, id, message);
    assert failed.calls[id].point == Releasing(Threw);
    ReleaseProceeds(failed, id, Threw);
  }

  lemma NotOutside(p: Point)
    ensures Outside(p) <==> p.Entering? || p.Waiting? || p.Finished?
  {
  }

  /** A failure moves the call, and nothing else. */
  lemma ThrowMoves(s: State, id: nat, message: string)
    requires id in s.calls
    ensures Do(s, Throw(id, message)) == s.(calls := s.calls[id := AfterThrow(s.calls[id], message)])
  {
    hide AfterThrow;
  }

  lemma ReleaseProceeds(s: State, id: nat, outcome: Outcome)
    requires id in s.calls && s.inflight == Some(id) && s.calls[id].point == Releasing(outcome)
    ensures var t := Proceeds(s, id, 2);
      && id in t.calls && t.calls[id].point == Finished(outcome)
      && t.stream == s.stream && t.entries == s.entries && t.inflight == None
  {
    hide AfterRead, AfterAppendThrow, AfterWait, AfterAppend;
    assert Proceeds(s, id, 0) == s;
    assert Proceeds(s, id, 2) == Do(Do(s, Proceed(id)), Proceed(id));
  }

  /** A request that is not a valid one rejects, before anything is read. */
  lemma InvalidRequestRejects(s: State, id: nat, message: string)
    requires id in s.calls && s.calls[id].point.Entering?
    ensures var t := Do(s, Throw(id, message));
      && t == s.(calls := t.calls) && t.calls == s.calls[id := s.calls[id].(point := Finished(Threw))]
  {
  }

  /* ---------- waiting ---------- */

  /**
   * Whoever waits goes on once the call waited for is done: rejected with it if that was rejected, and from the
   * start otherwise; and not before.
   */
  lemma WaitersShare(s: State, id: nat, holder: nat)
    requires id in s.calls && s.calls[id].point == Waiting(holder) && holder in s.calls
    ensures var t, p := Do(s, Proceed(id)), s.calls[holder].point;
      && t.stream == s.stream && t.entries == s.entries && t.inflight == s.inflight && id in t.calls
      && t.calls[id] == s.calls[id].(point := t.calls[id].point)
      && (t.calls[id].point.Entering? <==>
          (p.Settled? || p.Finished?) && p.outcome != Threw && p.outcome != KeyCollision)
      && (t.calls[id].point.Finished? <==>
          (p.Settled? || p.Finished?) && (p.outcome == Threw || p.outcome == KeyCollision))
      && (t.calls[id].point.Finished? ==> t.calls[id].point.outcome == p.outcome)
  {
  }

  /** Whom a call waits for is at work, or done. */
  predicate WaitsWell(calls: map<nat, Call>, id: nat) {
    id in calls && calls[id].point.Waiting? ==>
      var holder := calls[id].point.holder;
      holder in calls && !calls[holder].point.Entering? && !calls[holder].point.Waiting?
  }

  ghost predicate AllWaitWell(s: State) { forall id :: id in s.calls ==> WaitsWell(s.calls, id) }

  /** Once at work, never back. */
  predicate AtWork(p: Point) { !p.Entering? && !p.Waiting? }

  lemma StaysAtWork(s: State, step: Step, id: nat)
    requires id in s.calls && AtWork(s.calls[id].point) && !step.Crash?
    ensures id in Do(s, step).calls && AtWork(Do(s, step).calls[id].point)
  {
    if Mover(step) != Some(id) { CallStaysThere(s, step, id); }
    hide FirstRequest, FirstResult, FirstDenial, HasSnapshot, HasApprovalRequest, Unsupported;
  }

  /** A wait begins when somebody holds the key, and only then. */
  lemma WaitBegins(s: State, step: Step, id: nat)
    requires id in Do(s, step).calls && Do(s, step).calls[id].point.Waiting?
    ensures id in s.calls && (s.calls[id].point.Entering? || s.calls[id].point == Do(s, step).calls[id].point)
    ensures s.calls[id].point.Entering? ==> s.inflight == Some(Do(s, step).calls[id].point.holder)
  {
    if !step.Crash? && Mover(step) != Some(id) && id in s.calls { CallStaysThere(s, step, id); }
    hide FirstRequest, FirstResult, FirstDenial, HasSnapshot, HasApprovalRequest, Unsupported;
  }

  lemma StepWaitsWell(s: State, step: Step)
    requires Inv(s) && AllWaitWell(s)
    ensures AllWaitWell(Do(s, step))
  {
    var t := Do(s, step);
    if step.Crash? {
      assert t.calls == map[];
      return;
    }
    forall id | id in t.calls && t.calls[id].point.Waiting? ensures WaitsWell(t.calls, id) {
      WaitBegins(s, step, id);
      var holder := t.calls[id].point.holder;
      if s.calls[id].point.Entering? {
        HolderWorks(s, holder);
      } else {
        assert WaitsWell(s.calls, id);
      }
      StaysAtWork(s, step, holder);
    }
  }

  lemma HolderWorks(s: State, holder: nat)
    requires Inv(s) && s.inflight == Some(holder)
    ensures holder in s.calls && AtWork(s.calls[holder].point) && !Outside(s.calls[holder].point)
  {
  }

  lemma {:induction false} EveryoneWaitsWell(steps: seq<Step>)
    ensures AllWaitWell(Run(steps))
  {
    hide Do, Inv;
    if steps != [] {
      EveryoneWaitsWell(steps[..|steps| - 1]);
      RunKeepsInv(steps[..|steps| - 1]);
      StepWaitsWell(Run(steps[..|steps| - 1]), steps[|steps| - 1]);
    }
  }

  /* ---------- nobody is stuck ---------- */

  /** A step that gets a call inside closer to its end: what it waits for fails, or denies. */
  function Hurry(id: nat, p: Point): Step {
    match p
    case Deciding(_, capabilities) => PolicyAnswers(id, Deny, capabilities, false)
    case Settled(_) => Proceed(id)
    case _ => Throw(id, "gave up")
  }

  function Distance(p: Point): nat {
    match p
    case Settled(_) => 1
    case Reading => 2
    case AskingCapabilities => 2
    case Releasing(_) => 2
    case Deciding(_, _) => 3
    case ReadingTail(_, next) => AppendDistance(next)
    case Appending(_, _, next) => AppendDistance(next)
    case Finished(_) => 0
    case _ => 5
  }

  function AppendDistance(next: Next): nat {
    if next.ToResult? then 5 else if next.ToErrorResult? then 3 else 2
  }

  lemma HurryStep(s: State, id: nat)
    requires Inv(s) && id in s.calls && !Outside(s.calls[id].point)
    ensures var t := Do(s, Hurry(id, s.calls[id].point));
      && id in t.calls && (t.calls[id].point.Finished? || !Outside(t.calls[id].point))
      && Distance(t.calls[id].point) < Distance(s.calls[id].point)
      && t.inflight == (if t.calls[id].point.Finished? then None else Some(id))
      && forall other :: other in s.calls && other != id ==> other in t.calls && t.calls[other] == s.calls[other]
  {
    hide Inv, Unsupported, HasApprovalRequest, AfterRead, AfterWait, AfterAppend, Recorded, Honest, ValidStream,
      Undecided, UnderWay, Permitted, Concluded;
    HolderIs(s, id);
    if s.calls[id].point.Deciding? || s.calls[id].point.Settled? {
      hide AfterThrow, AppendDistance;
    } else {
      ThrowMoves(s, id, "gave up");
      hide Do;
    }
  }

  lemma HolderIs(s: State, id: nat)
    requires Inv(s) && id in s.calls && !Outside(s.calls[id].point)
    ensures s.inflight == Some(id)
  {
  }

  /** Nothing of these steps is a crash or a new call. */
  predicate Ends(steps: seq<Step>, more: seq<Step>, id: nat) {
    && (forall step :: step in more ==> !step.Crash? && !step.Arrive?)
    && id in Run(steps + more).calls && Run(steps + more).calls[id].point.Finished?
  }

  /** The others are as they were. */
  ghost predicate OthersStay(steps: seq<Step>, more: seq<Step>, id: nat) {
    forall other :: other in Run(steps).calls && other != id ==>
      other in Run(steps + more).calls && Run(steps + more).calls[other] == Run(steps).calls[other]
  }

  lemma RunOn(steps: seq<Step>, step: Step, more: seq<Step>)
    ensures Run(steps + [step]) == Do(Run(steps), step)
    ensures steps + ([step] + more) == steps + [step] + more
  {
    assert (steps + [step])[..|steps|] == steps;
    hide Do;
  }

  /** Whoever holds the key can always be brought to its end. */
  lemma {:induction false} HolderEnds(steps: seq<Step>, id: nat) returns (more: seq<Step>)
    requires Run(steps).inflight == Some(id)
    ensures Ends(steps, more, id) && OthersStay(steps, more, id) && Run(steps + more).inflight == None
    decreases if id in Run(steps).calls then Distance(Run(steps).calls[id].point) else 0
  {
    RunKeepsInv(steps);
    var s := Run(steps);
    HolderWorks(s, id);
    hide Do, Inv, Outside;
    var step := Hurry(id, s.calls[id].point);
    HurryStep(s, id);
    RunOn(steps, step, []);
    assert steps + [step] + [] == steps + [step];
    if Run(steps + [step]).calls[id].point.Finished? {
      more := [step];
    } else {
      var rest := HolderEnds(steps + [step], id);
      RunOn(steps, step, rest);
      more := [step] + rest;
    }
  }

  /** A call that enters when nobody holds the key can always be brought to its end. */
  lemma EntrantEnds(steps: seq<Step>, id: nat) returns (more: seq<Step>)
    requires Run(steps).inflight == None && id in Run(steps).calls && Run(steps).calls[id].point.Entering?
    ensures Ends(steps, more, id)
  {
    RunOn(steps, Proceed(id), []);
    assert Run(steps + [Proceed(id)]).inflight == Some(id);
    hide Do;
    var rest := HolderEnds(steps + [Proceed(id)], id);
    RunOn(steps, Proceed(id), rest);
    more := [Proceed(id)] + rest;
  }

  lemma NewcomerEnds(steps: seq<Step>, id: nat) returns (more: seq<Step>)
    requires id in Run(steps).calls && Run(steps).calls[id].point.Entering?
    ensures Ends(steps, more, id)
  {
    hide Do, Inv, Outside;
    var s := Run(steps);
    if s.inflight == None {
      more := EntrantEnds(steps, id);
    } else {
      RunKeepsInv(steps);
      HolderWorks(s, s.inflight.value);
      var first := HolderEnds(steps, s.inflight.value);
      var rest := EntrantEnds(steps + first, id);
      assert steps + (first + rest) == steps + first + rest;
      more := first + rest;
    }
  }

  /** One that waits for a call that is done goes on. */
  lemma WaiterEnds(steps: seq<Step>, id: nat) returns (more: seq<Step>)
    requires id in Run(steps).calls && Run(steps).calls[id].point.Waiting?
    requires Run(steps).calls[id].point.holder in Run(steps).calls
    requires Run(steps).calls[Run(steps).calls[id].point.holder].point.Finished?
    ensures Ends(steps, more, id)
  {
    hide Do;
    WaitersShare(Run(steps), id, Run(steps).calls[id].point.holder);
    RunOn(steps, Proceed(id), []);
    if Run(steps + [Proceed(id)]).calls[id].point.Finished? {
      more := [Proceed(id)];
    } else {
      var rest := NewcomerEnds(steps + [Proceed(id)], id);
      RunOn(steps, Proceed(id), rest);
      more := [Proceed(id)] + rest;
    }
  }

  lemma Unstuck(steps: seq<Step>, id: nat) returns (more: seq<Step>)
    requires id in Run(steps).calls
    ensures Ends(steps, more, id)
  {
    hide Do, Inv, Run;
    RunKeepsInv(steps);
    var s := Run(steps);
    NotOutside(s.calls[id].point);
    if s.calls[id].point.Finished? {
      assert steps + [] == steps;
      more := [];
    } else if s.calls[id].point.Entering? {
      more := NewcomerEnds(steps, id);
    } else if !s.calls[id].point.Waiting? {
      HolderIs(s, id);
      more := HolderEnds(steps, id);
    } else {
      EveryoneWaitsWell(steps);
      var holder := s.calls[id].point.holder;
      assert WaitsWell(s.calls, id);
      if s.calls[holder].point.Finished? {
        more := WaiterEnds(steps, id);
      } else {
        NotOutside(s.calls[holder].point);
        HolderIs(s, holder);
        var first := HolderEnds(steps, holder);
        var rest := WaiterEnds(steps + first, id);
        assert steps + (first + rest) == steps + first + rest;
        more := first + rest;
      }
    }
  }

  /**
   * In whatever state the process is, every call can still come to its end without a crash and without new calls:
   * the key is never held for good, and nobody waits for a call that nobody finishes.
   */
  lemma NobodyIsStuck(steps: seq<Step>, id: nat)
    requires id in Run(steps).calls
    ensures exists more :: Ends(steps, more, id)
  {
    var more := Unstuck(steps, id);
  }
}
