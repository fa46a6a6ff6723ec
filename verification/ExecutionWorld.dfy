/**
 * The durable authorize, run, record boundary of the execution package, for one idempotency key.
 *
 * Each key has its own event stream and its own entry in the in-process table of running calls, so the
 * calls on one key form a protocol of their own. Every `await` of the source ends a step here, steps of
 * different calls interleave freely, any call out of the process may fail, and the process may crash at
 * any point, which forgets everything but the stream. A request digest is taken to be injective, so the
 * request itself stands for it.
 */
module ExecutionWorld {
  import opened Options

  datatype Requirements = Requirements(
    readPaths: seq<string>, writePaths: seq<string>, networkTargets: seq<string>,
    commands: seq<seq<string>>, secretEnv: map<string, string>)

  datatype Request = Request(id: string, capability: string, input: string, requirements: Requirements)

  datatype Decision = Allow | Ask | Deny

  datatype Approval = Unanswered | Approved | Rejected

  datatype Capabilities = Capabilities(filesystem: bool, network: bool, process: bool)

  datatype Event =
    | Requested(request: Request)
    | PermissionSnapshot(decision: Decision)
    | ApprovalRequired(approvalId: string)
    | Denied(reason: string)
    | Authorized(reason: string)
    | Started
    | Completed(result: string)
    | Failed(message: string)

  datatype Outcome =
    | Result(result: string, replayed: bool)
    | ErrorResult(message: string)
    | NeedsApproval(approvalId: string)
    | Refused(reason: string)
    | NeedsReconciliation
    | KeyCollision
    | Threw

  /** Where a call goes on after an append. */
  datatype Next =
    | ToCapabilities
    | ToDecision(decision: Decision, capabilities: Capabilities)
    | ToAnswer(answer: Outcome)
    | ToSandbox
    | ToResult(result: string)
    | ToErrorResult(message: string)

  datatype Point =
    | Entering
    | Waiting(holder: nat)
    | Reading
    | AskingCapabilities
    | Deciding(decision: Decision, capabilities: Capabilities)
    | ReadingTail(events: seq<Event>, next: Next)
    | Appending(events: seq<Event>, expectedSequence: nat, next: Next)
    | Materializing
    | SnapshotBefore
    | InSandbox
    | SnapshotAfter(result: string)
    | Diffing(result: string)
    | Releasing(outcome: Outcome)
    | Settled(outcome: Outcome)
    | Finished(outcome: Outcome)

  /** One `execute` call. `decided` is the policy's answer to this call, `existing` what it read. */
  datatype Call = Call(
    request: Request, approval: Approval, point: Point, existing: seq<Event>, decided: Option<Decision>)

  /** A sandbox entry: the decision and approval of the call that made it, and the stream at that moment. */
  datatype Entry = Entry(request: Request, decided: Option<Decision>, approval: Approval, stream: seq<Event>)

  datatype State = State(
    stream: seq<Event>,
    calls: map<nat, Call>,
    inflight: Option<nat>,
    entries: seq<Entry>)

  const INITIAL := State([], map[], None, [])

  /** What the world outside may do next to a call, or to the process. An append that is lost lands and rejects. */
  datatype Step =
    | Arrive(id: nat, request: Request, approval: Approval)
    | Proceed(id: nat)
    | PolicyAnswers(id: nat, decision: Decision, capabilities: Capabilities, haveBroker: bool)
    | Answer(id: nat, text: string)
    | Throw(id: nat, message: string)
    | Lose(id: nat, message: string)
    | Crash

  /* ---------- the branches of one call ---------- */

  function Unsupported(r: Requirements, c: Capabilities): seq<string> {
    (if r.readPaths != [] && !c.filesystem then ["readPaths"] else []) +
    (if r.writePaths != [] && !c.filesystem then ["writePaths"] else []) +
    (if r.networkTargets != [] && !c.network then ["networkTargets"] else []) +
    (if r.commands != [] && !c.process then ["commands"] else [])
  }

  function AfterRead(call: Call, stream: seq<Event>): Call {
    var c := call.(existing := stream);
    if forall i :: 0 <= i < |stream| ==> !stream[i].Requested? then
      c.(point := ReadingTail([Requested(c.request)], ToCapabilities))
    else if FirstRequest(stream) != c.request then c.(point := Settled(KeyCollision))
    else
      match FirstResult(stream)
      case Some(result) => c.(point := Settled(Result(result, true)))
      case None =>
        if Started in stream then c.(point := Settled(NeedsReconciliation))
        else
          match FirstDenial(stream)
          case Some(reason) => c.(point := Settled(Refused(reason)))
          case None => c.(point := AskingCapabilities)
  }

  function FirstRequest(stream: seq<Event>): Request
    requires exists i :: 0 <= i < |stream| && stream[i].Requested?
  {
    if stream[0].Requested? then stream[0].request else FirstRequest(stream[1..])
  }

  function FirstResult(stream: seq<Event>): Option<string> {
    if stream == [] then None
    else if stream[0].Completed? then Some(stream[0].result) else FirstResult(stream[1..])
  }

  function FirstDenial(stream: seq<Event>): Option<string> {
    if stream == [] then None
    else if stream[0].Denied? then Some(stream[0].reason) else FirstDenial(stream[1..])
  }

  predicate HasSnapshot(stream: seq<Event>) { exists i :: 0 <= i < |stream| && stream[i].PermissionSnapshot? }

  predicate HasApprovalRequest(stream: seq<Event>) { exists i :: 0 <= i < |stream| && stream[i].ApprovalRequired? }

  function AfterCapabilities(call: Call, decision: Decision, capabilities: Capabilities): Call {
    var c := call.(decided := Some(decision));
    if HasSnapshot(c.existing) then c.(point := Deciding(decision, capabilities))
    else c.(point := ReadingTail([PermissionSnapshot(decision)], ToDecision(decision, capabilities)))
  }

  function Refuse(call: Call, reason: string): Call {
    call.(point := ReadingTail([Denied(reason)], ToAnswer(Refused(reason))))
  }

  function AfterDecision(call: Call, decision: Decision, capabilities: Capabilities, haveBroker: bool): Call {
    if decision == Deny || call.approval == Rejected then
      Refuse(call, if call.approval == Rejected then "rejected by the user" else "denied by policy")
    else if decision == Ask && call.approval != Approved then
      var answer := NeedsApproval(call.request.id);
      if HasApprovalRequest(call.existing) then call.(point := Settled(answer))
      else call.(point := ReadingTail([ApprovalRequired(call.request.id)], ToAnswer(answer)))
    else if call.request.requirements.secretEnv != map[] && !haveBroker then Refuse(call, "no secret broker")
    else if Unsupported(call.request.requirements, capabilities) != [] then Refuse(call, "sandbox cannot enforce")
    else
      call.(point := ReadingTail([Authorized(if decision == Ask then "approved by the user" else "allowed"), Started],
                                 ToSandbox))
  }

  function AfterAppend(call: Call, next: Next): Call {
    match next
    case ToCapabilities => call.(point := AskingCapabilities)
    case ToDecision(decision, capabilities) => call.(point := Deciding(decision, capabilities))
    case ToAnswer(answer) => call.(point := Settled(answer))
    case ToSandbox => call.(point := Materializing)
    case ToResult(result) => call.(point := Releasing(Result(result, false)))
    case ToErrorResult(message) => call.(point := Releasing(ErrorResult(message)))
  }

  /** The `catch` around the sandbox: record the failure, then answer with an error result. */
  function RecordFailure(call: Call, message: string): Call {
    call.(point := ReadingTail([Failed(Recorded(message))], ToErrorResult(message)))
  }

  function Recorded(message: string): string {
    if message == "" then "Unknown execution failure" else message
  }

  function AfterThrow(call: Call, message: string): Call {
    match call.point
    case Materializing => RecordFailure(call, message)
    case SnapshotBefore => RecordFailure(call, message)
    case InSandbox => RecordFailure(call, message)
    case SnapshotAfter(_) => RecordFailure(call, message)
    case Diffing(_) => RecordFailure(call, message)
    case ReadingTail(_, next) => AfterAppendThrow(call, next, message)
    case Appending(_, _, next) => AfterAppendThrow(call, next, message)
    case Releasing(_) => call.(point := Settled(Threw))
    case Reading => call.(point := Settled(Threw))
    case AskingCapabilities => call.(point := Settled(Threw))
    case Entering => call.(point := Finished(Threw))
    case _ => call
  }

  function AfterAppendThrow(call: Call, next: Next, message: string): Call {
    match next
    case ToResult(_) => RecordFailure(call, message)
    case ToErrorResult(_) => call.(point := Releasing(Threw))
    case _ => call.(point := Settled(Threw))
  }

  /* ---------- one step of the process ---------- */

  function Do(s: State, step: Step): State {
    match step
    case Crash => State(s.stream, map[], None, s.entries)
    case Arrive(id, request, approval) =>
      if id in s.calls then s
      else s.(calls := s.calls[id := Call(request, approval, Entering, [], None)])
    case Throw(id, message) =>
      if id !in s.calls then s else s.(calls := s.calls[id := AfterThrow(s.calls[id], message)])
    case Lose(id, message) =>
      if id in s.calls && s.calls[id].point.Appending? then LoseAppend(s, id, message) else s
    case Answer(id, text) =>
      if id !in s.calls then s else SandboxStep(s, id, text)
    case PolicyAnswers(id, decision, capabilities, haveBroker) =>
      if id !in s.calls then s
      else
        var call := s.calls[id];
        (match call.point
         case AskingCapabilities => s.(calls := s.calls[id := AfterCapabilities(call, decision, capabilities)])
         case Deciding(d, c) => s.(calls := s.calls[id := AfterDecision(call, d, c, haveBroker)])
         case _ => s)
    case Proceed(id) =>
      if id !in s.calls then s else ProtocolStep(s, id)
  }

  /** The events of an append are durable, and the call sees it fail. */
  function LoseAppend(s: State, id: nat, message: string): State
    requires id in s.calls && s.calls[id].point.Appending?
  {
    var call := s.calls[id];
    if call.point.expectedSequence != |s.stream| + 1 then s
    else
      s.(stream := s.stream + call.point.events,
         calls := s.calls[id := AfterAppendThrow(call, call.point.next, message)])
  }

  /** The broker and the sandbox answer one request after the other. */
  function AfterAnswer(call: Call, text: string): Call {
    match call.point
    case Materializing => call.(point := SnapshotBefore)
    case SnapshotBefore => call.(point := InSandbox)
    case InSandbox => call.(point := SnapshotAfter(text))
    case SnapshotAfter(result) => call.(point := Diffing(result))
    case Diffing(result) => call.(point := ReadingTail([Completed(result)], ToResult(result)))
    case _ => call
  }

  function SandboxStep(s: State, id: nat, text: string): State
    requires id in s.calls
  {
    var call := s.calls[id];
    var moved := s.(calls := s.calls[id := AfterAnswer(call, text)]);
    if call.point.SnapshotBefore? then
      moved.(entries := s.entries + [Entry(call.request, call.decided, call.approval, s.stream)])
    else moved
  }

  function ProtocolStep(s: State, id: nat): State
    requires id in s.calls
  {
    var call := s.calls[id];
    match call.point
    case Entering =>
      (match s.inflight
       case Some(holder) => s.(calls := s.calls[id := call.(point := Waiting(holder))])
       case None => s.(calls := s.calls[id := call.(point := Reading)], inflight := Some(id)))
    case Waiting(holder) =>
      if holder !in s.calls then s
      else
        (match s.calls[holder].point
         case Settled(outcome) => s.(calls := s.calls[id := AfterWait(call, outcome)])
         case Finished(outcome) => s.(calls := s.calls[id := AfterWait(call, outcome)])
         case _ => s)
    case Reading => s.(calls := s.calls[id := AfterRead(call, s.stream)])
    case ReadingTail(events, next) =>
      s.(calls := s.calls[id := call.(point := Appending(events, |s.stream| + 1, next))])
    case Appending(events, expectedSequence, next) =>
      if expectedSequence == |s.stream| + 1 then
        s.(stream := s.stream + events, calls := s.calls[id := AfterAppend(call, next)])
      else s.(calls := s.calls[id := AfterAppendThrow(call, next, "sequence conflict")])
    case Releasing(outcome) => s.(calls := s.calls[id := call.(point := Settled(outcome))])
    case Settled(outcome) =>
      s.(calls := s.calls[id := call.(point := Finished(outcome))],
         inflight := if s.inflight == Some(id) then None else s.inflight)
    case _ => s
  }

  /** A waiter shares the rejection of the call it waited for, and otherwise starts over. */
  function AfterWait(call: Call, outcome: Outcome): Call {
    call.(point := if outcome == Threw || outcome == KeyCollision then Finished(outcome) else Entering)
  }

  function Run(steps: seq<Step>): State {
    if steps == [] then INITIAL else Do(Run(steps[..|steps| - 1]), steps[|steps| - 1])
  }

  /* ---------- what every stream looks like ---------- */

  predicate ValidStream(stream: seq<Event>) {
    && (|stream| > 0 ==> stream[0].Requested?)
    && (|stream| > 1 ==> stream[1].PermissionSnapshot?)
    && (|stream| > 2 ==> ValidEnding(if stream[2].ApprovalRequired? then stream[3..] else stream[2..]))
    && (|stream| > 2 && stream[2].ApprovalRequired? ==> stream[2].approvalId == stream[0].request.id)
  }

  predicate ValidEnding(rest: seq<Event>) {
    || rest == []
    || (|rest| == 1 && rest[0].Denied?)
    || (|rest| == 2 && rest[0].Authorized? && rest[1].Started?)
    || (|rest| == 3 && rest[0].Authorized? && rest[1].Started? && (rest[2].Completed? || rest[2].Failed?))
    || (|rest| == 4 && rest[0].Authorized? && rest[1].Started? && rest[2].Completed? && rest[3].Failed?)
  }

  /** The stream has a result, and a failure after it. */
  predicate Contradicted(stream: seq<Event>) { |stream| >= 2 && stream[|stream| - 2].Completed? }

  /** No verdict yet: the next call on the stream may still decide. */
  predicate Undecided(stream: seq<Event>) {
    && 1 <= |stream| <= 3
    && stream[0].Requested?
    && (|stream| > 1 ==> stream[1].PermissionSnapshot?)
    && (|stream| > 2 ==> stream[2].ApprovalRequired? && stream[2].approvalId == stream[0].request.id)
  }

  /** The effect may be under way: started, and no outcome recorded. */
  predicate UnderWay(stream: seq<Event>) {
    && |stream| >= 4
    && Undecided(stream[..|stream| - 2])
    && |stream| - 2 >= 2
    && stream[|stream| - 2].Authorized?
    && stream[|stream| - 1].Started?
  }

  /** The result is recorded. */
  predicate Concluded(stream: seq<Event>) {
    |stream| > 0 && stream[|stream| - 1].Completed? && UnderWay(stream[..|stream| - 1])
  }

  predicate Permitted(decided: Option<Decision>, approval: Approval) {
    approval != Rejected && (decided == Some(Allow) || (decided == Some(Ask) && approval == Approved))
  }

  /* ---------- the invariant ---------- */

  predicate Outside(p: Point) { p.Entering? || p.Waiting? || p.Finished? }

  /** Past `started`: the sandbox has not been entered before, or has been entered by this call. */
  predicate BeforeEntry(p: Point) { p.Materializing? || p.SnapshotBefore? }

  /** An outcome given to a caller is what the stream says. */
  predicate Honest(outcome: Outcome, stream: seq<Event>) {
    match outcome
    case Result(result, _) => Completed(result) in stream
    case ErrorResult(message) => Failed(Recorded(message)) in stream
    case Refused(reason) => Denied(reason) in stream
    case NeedsReconciliation => Started in stream
    case NeedsApproval(approvalId) =>
      |stream| > 2 && stream[2] == ApprovalRequired(approvalId)
      && stream[0].Requested? && stream[0].request.id == approvalId
    case _ => true
  }

  predicate ReadAgrees(call: Call, stream: seq<Event>) {
    call.existing == stream || (call.existing == [] && |stream| == 1)
  }

  predicate AppendOk(stream: seq<Event>, call: Call, events: seq<Event>, next: Next) {
    match next
    case ToCapabilities => stream == [] && call.existing == [] && events == [Requested(call.request)]
    case ToDecision(decision, capabilities) =>
      && |stream| == 1 && Undecided(stream) && stream[0].request == call.request
      && events == [PermissionSnapshot(decision)] && call.decided == Some(decision)
      && !HasApprovalRequest(call.existing)
    case ToAnswer(answer) =>
      && |stream| >= 2 && Undecided(stream)
      && ((answer.Refused? && events == [Denied(answer.reason)])
          || (answer.NeedsApproval? && |stream| == 2 && events == [ApprovalRequired(answer.approvalId)]
              && answer.approvalId == stream[0].request.id))
    case ToSandbox =>
      && |stream| >= 2 && Undecided(stream) && Permitted(call.decided, call.approval)
      && |events| == 2 && events[0].Authorized? && events[1] == Started
    case ToResult(result) => UnderWay(stream) && events == [Completed(result)]
    case ToErrorResult(message) =>
      (UnderWay(stream) || Concluded(stream)) && events == [Failed(Recorded(message))]
  }

  /** What holds of the one call inside, at each of its points. */
  predicate InsideOk(stream: seq<Event>, call: Call) {
    match call.point
    case Reading => true
    case AskingCapabilities =>
      Undecided(stream) && stream[0].request == call.request && ReadAgrees(call, stream)
    case Deciding(decision, _) =>
      && |stream| >= 2 && Undecided(stream) && call.decided == Some(decision) && stream[0].request == call.request
      && (HasApprovalRequest(call.existing) <==> |stream| == 3)
    case ReadingTail(events, next) => AppendOk(stream, call, events, next)
    case Appending(events, expectedSequence, next) =>
      expectedSequence == |stream| + 1 && AppendOk(stream, call, events, next)
    case Materializing => UnderWay(stream) && Permitted(call.decided, call.approval)
    case SnapshotBefore => UnderWay(stream) && Permitted(call.decided, call.approval)
    case InSandbox => UnderWay(stream)
    case SnapshotAfter(_) => UnderWay(stream)
    case Diffing(_) => UnderWay(stream)
    case Releasing(outcome) => Honest(outcome, stream)
    case Settled(outcome) => Honest(outcome, stream)
    case _ => true
  }

  predicate EntryOk(e: Entry, stream: seq<Event>) {
    && Permitted(e.decided, e.approval)
    && UnderWay(e.stream)
    && e.stream <= stream
  }

  predicate Inv(s: State) {
    && ValidStream(s.stream)
    && (forall id :: id in s.calls && !Outside(s.calls[id].point) ==> s.inflight == Some(id))
    && (s.inflight.Some? ==>
          && s.inflight.value in s.calls
          && !Outside(s.calls[s.inflight.value].point)
          && InsideOk(s.stream, s.calls[s.inflight.value]))
    && (forall id :: id in s.calls && s.calls[id].point.Finished? ==> Honest(s.calls[id].point.outcome, s.stream))
    && |s.entries| <= 1
    && (forall e :: e in s.entries ==> EntryOk(e, s.stream))
    && (Started !in s.stream ==> s.entries == [])
    && (s.inflight.Some? && BeforeEntry(s.calls[s.inflight.value].point) ==> s.entries == [])
  }

  lemma HonestGrows(outcome: Outcome, stream: seq<Event>, longer: seq<Event>)
    requires Honest(outcome, stream) && stream <= longer
    ensures Honest(outcome, longer)
  {
    assert forall e :: e in stream ==> e in longer;
    if outcome.NeedsApproval? {
      var i :| 0 <= i < |stream| && stream[i].ApprovalRequired?;
      assert longer[i].ApprovalRequired?;
    }
  }

  predicate EntriesOk(entries: seq<Entry>, stream: seq<Event>, p: Point) {
    && |entries| <= 1
    && (forall e :: e in entries ==> EntryOk(e, stream))
    && (Started !in stream || BeforeEntry(p) ==> entries == [])
  }

  /** The call inside moves on, possibly after appending to the stream. */
  lemma MoveInside(s: State, id: nat, call: Call, stream: seq<Event>, entries: seq<Entry>)
    requires Inv(s) && s.inflight == Some(id) && s.stream <= stream
    requires ValidStream(stream) && !Outside(call.point) && EntriesOk(entries, stream, call.point)
    requires InsideOk(stream, call)
    ensures Inv(State(stream, s.calls[id := call], s.inflight, entries))
  {
    forall c | c in s.calls && s.calls[c].point.Finished? ensures Honest(s.calls[c].point.outcome, stream) {
      HonestGrows(s.calls[c].point.outcome, s.stream, stream);
    }
  }

  /** The call inside moves on without touching the stream or the sandbox. */
  lemma MoveQuietly(s: State, id: nat, call: Call)
    requires Inv(s) && s.inflight == Some(id) && !Outside(call.point)
    requires BeforeEntry(call.point) ==> BeforeEntry(s.calls[id].point)
    requires InsideOk(s.stream, call)
    ensures Inv(s.(calls := s.calls[id := call]))
  {
    MoveInside(s, id, call, s.stream, s.entries);
  }

  /** A call that is not inside moves between the points outside. */
  lemma MoveOutside(s: State, id: nat, call: Call)
    requires Inv(s) && (id in s.calls ==> Outside(s.calls[id].point)) && Outside(call.point)
    requires call.point.Finished? ==> Honest(call.point.outcome, s.stream)
    ensures Inv(s.(calls := s.calls[id := call]))
  {
  }

  lemma ReadKeepsInv(s: State, id: nat)
    requires Inv(s) && id in s.calls && s.calls[id].point.Reading?
    ensures Inv(s.(calls := s.calls[id := AfterRead(s.calls[id], s.stream)]))
  {
    var call := AfterRead(s.calls[id], s.stream);
    ReadMeans(s.calls[id], s.stream);
    MoveQuietly(s, id, call);
  }

  lemma FirstsAreThere(stream: seq<Event>)
    ensures FirstResult(stream).Some? ==> Completed(FirstResult(stream).value) in stream
    ensures FirstDenial(stream).Some? ==> Denied(FirstDenial(stream).value) in stream
    ensures FirstResult(stream).None? ==> forall e :: e in stream ==> !e.Completed?
    ensures FirstDenial(stream).None? ==> forall e :: e in stream ==> !e.Denied?
  {
    if stream != [] {
      FirstsAreThere(stream[1..]);
      assert stream == [stream[0]] + stream[1..];
    }
  }

  lemma ReadMeans(call: Call, stream: seq<Event>)
    requires ValidStream(stream)
    ensures var next := AfterRead(call, stream);
      match next.point
      case ReadingTail(events, to) => stream == [] && events == [Requested(call.request)] && to == ToCapabilities
      case Settled(outcome) => Honest(outcome, stream)
      case AskingCapabilities => Undecided(stream) && stream[0].request == call.request && next.existing == stream
      case _ => false
  {
    FirstsAreThere(stream);
    if stream != [] {
      assert stream[0].Requested?;
      var rest := if |stream| > 2 && stream[2].ApprovalRequired? then stream[3..]
          else if |stream| > 2 then stream[2..] else [];
      assert forall e :: e in rest ==> e in stream;
      if rest != [] {
        assert rest[0] in stream;
        assert |rest| > 1 ==> rest[1] in stream;
      }
    }
  }

  lemma InsideFacts(s: State, id: nat)
    requires Inv(s) && id in s.calls && !Outside(s.calls[id].point)
    ensures s.inflight == Some(id) && InsideOk(s.stream, s.calls[id])
  {
  }

  lemma DecisionMeans(stream: seq<Event>, call: Call, haveBroker: bool)
    requires call.point.Deciding? && InsideOk(stream, call)
    ensures var moved := AfterDecision(call, call.point.decision, call.point.capabilities, haveBroker);
      InsideOk(stream, moved) && !Outside(moved.point) && !BeforeEntry(moved.point)
  {
    hide Unsupported, UnderWay;
    if HasApprovalRequest(call.existing) {
      assert stream[2].ApprovalRequired?;
    }
  }

  lemma DecisionKeepsInv(s: State, id: nat, haveBroker: bool)
    requires Inv(s) && id in s.calls && s.calls[id].point.Deciding?
    ensures var p := s.calls[id].point;
      Inv(s.(calls := s.calls[id := AfterDecision(s.calls[id], p.decision, p.capabilities, haveBroker)]))
  {
    InsideFacts(s, id);
    var call, p := s.calls[id], s.calls[id].point;
    DecisionMeans(s.stream, call, haveBroker);
    hide Inv, InsideOk, AfterDecision;
    MoveQuietly(s, id, AfterDecision(call, p.decision, p.capabilities, haveBroker));
  }

  /** Nobody else appends while a call is inside, so no append of the protocol meets a sequence conflict. */
  lemma AppendNeverConflicts(s: State, id: nat)
    requires Inv(s) && id in s.calls && s.calls[id].point.Appending?
    ensures s.calls[id].point.expectedSequence == |s.stream| + 1
  {
    assert s.inflight == Some(id);
  }

  lemma AppendedStream(before: seq<Event>, call: Call, events: seq<Event>, next: Next)
    requires ValidStream(before) && AppendOk(before, call, events, next)
    ensures var stream := before + events;
      && ValidStream(stream)
      && (next.ToCapabilities? ==> Undecided(stream) && |stream| == 1)
      && (next.ToDecision? ==> Undecided(stream) && |stream| == 2)
      && (next.ToAnswer? ==> Honest(next.answer, stream))
      && (next.ToSandbox? ==> UnderWay(stream) && Started !in before)
      && (next.ToResult? ==> Honest(Result(next.result, false), stream) && Concluded(stream))
      && (next.ToErrorResult? ==> Honest(ErrorResult(next.message), stream))
      && (Started in stream <==> next.ToSandbox? || Started in before)
  {
    var stream := before + events;
    assert forall e :: e in stream <==> e in before || e in events;
    if next.ToSandbox? {
      StartedStream(before, events);
    } else if next.ToErrorResult? && Concluded(before) {
      ContradictedStream(before, events);
    } else if next.ToResult? || next.ToErrorResult? {
      EndedStream(before, events);
    } else if next.ToAnswer? {
      AnsweredStream(before, events);
    }
  }

  lemma StartedStream(before: seq<Event>, events: seq<Event>)
    requires |before| >= 2 && Undecided(before) && |events| == 2 && events[0].Authorized? && events[1] == Started
    ensures ValidStream(before + events) && UnderWay(before + events) && Started !in before
  {
    var stream := before + events;
    assert stream[..|stream| - 2] == before;
    if |before| == 3 { assert stream[3..] == events; } else { assert stream[2..] == events; }
  }

  lemma EndedStream(before: seq<Event>, events: seq<Event>)
    requires UnderWay(before) && |events| == 1 && (events[0].Completed? || events[0].Failed?)
    ensures ValidStream(before + events) && (events[0].Completed? ==> Concluded(before + events))
  {
    var stream := before + events;
    assert stream[..|stream| - 1] == before;
    if before[2].ApprovalRequired? {
      assert stream[3..] == [before[3], before[4], events[0]];
    } else {
      assert stream[2..] == [before[2], before[3], events[0]];
    }
  }

  lemma ContradictedStream(before: seq<Event>, events: seq<Event>)
    requires Concluded(before) && |events| == 1 && events[0].Failed?
    ensures ValidStream(before + events)
  {
    var stream := before + events;
    if before[2].ApprovalRequired? {
      assert stream[3..] == [before[3], before[4], before[5], events[0]];
    } else {
      assert stream[2..] == [before[2], before[3], before[4], events[0]];
    }
  }

  lemma AnsweredStream(before: seq<Event>, events: seq<Event>)
    requires |before| >= 2 && Undecided(before) && |events| == 1
    requires
      events[0].Denied?
      || (|before| == 2 && events[0].ApprovalRequired? && events[0].approvalId == before[0].request.id)
    ensures ValidStream(before + events)
    ensures events[0].ApprovalRequired? ==> HasApprovalRequest(before + events)
  {
    var stream := before + events;
    if |before| == 3 {
      assert stream[3..] == events;
    } else {
      assert stream[2..] == events;
      assert stream[2] == events[0] && stream[3..] == [];
    }
  }

  lemma AppendKeepsInv(s: State, id: nat)
    requires Inv(s) && id in s.calls && s.calls[id].point.Appending?
    ensures Inv(Do(s, Proceed(id)))
  {
    hide ValidStream, Undecided, UnderWay, Honest, InsideOk, EntryOk, AfterAppendThrow;
    var call := s.calls[id];
    var events, next := call.point.events, call.point.next;
    AppendNeverConflicts(s, id);
    AppendedMeans(s, id);
    MoveInside(s, id, AfterAppend(call, next), s.stream + events, s.entries);
    hide Inv, AfterAppend;
  }

  lemma AppendedMeans(s: State, id: nat)
    requires Inv(s) && id in s.calls && s.calls[id].point.Appending?
    ensures var call := s.calls[id];
      var stream, moved := s.stream + call.point.events, AfterAppend(call, call.point.next);
      && ValidStream(stream) && !Outside(moved.point) && InsideOk(stream, moved)
      && EntriesOk(s.entries, stream, moved.point) && s.inflight == Some(id)
  {
    hide EntryOk, ValidStream, Undecided, UnderWay, Honest, AppendOk, Inv, InsideOk, AfterAppend;
    AppendedInside(s, id);
    AppendedEntries(s, id);
  }

  lemma AppendedInside(s: State, id: nat)
    requires Inv(s) && id in s.calls && s.calls[id].point.Appending?
    ensures var call := s.calls[id];
      var stream, moved := s.stream + call.point.events, AfterAppend(call, call.point.next);
      ValidStream(stream) && !Outside(moved.point) && InsideOk(stream, moved) && s.inflight == Some(id)
  {
    hide Inv, Undecided, UnderWay, EntryOk, ValidStream;
    InsideFacts(s, id);
    InvShape(s);
    AppendedStream(s.stream, s.calls[id], s.calls[id].point.events, s.calls[id].point.next);
  }

  lemma AppendedEntries(s: State, id: nat)
    requires Inv(s) && id in s.calls && s.calls[id].point.Appending?
    ensures var call := s.calls[id];
      EntriesOk(s.entries, s.stream + call.point.events, AfterAppend(call, call.point.next).point)
  {
    var call := s.calls[id];
    AppendedStream(s.stream, call, call.point.events, call.point.next);
    hide ValidStream, Undecided, UnderWay, Honest;
    forall e | e in s.entries ensures EntryOk(e, s.stream + call.point.events) {
      assert e.stream <= s.stream <= s.stream + call.point.events;
    }
  }

  lemma LoseKeepsInv(s: State, id: nat, message: string)
    requires Inv(s) && id in s.calls && s.calls[id].point.Appending?
    ensures Inv(LoseAppend(s, id, message))
  {
    hide ValidStream, Undecided, UnderWay, Concluded, Honest, InsideOk, EntryOk, AfterAppendThrow, AfterAppend,
      AppendOk;
    var call := s.calls[id];
    AppendNeverConflicts(s, id);
    AppendedInside(s, id);
    AppendedEntries(s, id);
    InsideFacts(s, id);
    InvShape(s);
    LostInside(s.stream, call, message);
    hide Inv;
    MoveInside(s, id, AfterAppendThrow(call, call.point.next, message), s.stream + call.point.events, s.entries);
  }

  /** A call that lost an append is done, or has to record a failure where its result already is. */
  lemma LostInside(before: seq<Event>, call: Call, message: string)
    requires ValidStream(before) && call.point.Appending? && InsideOk(before, call)
    ensures var moved := AfterAppendThrow(call, call.point.next, message);
      InsideOk(before + call.point.events, moved) && !Outside(moved.point) && !BeforeEntry(moved.point)
  {
    hide ValidStream, Undecided, UnderWay, Concluded, HasApprovalRequest, Permitted;
    var next := call.point.next;
    if next.ToResult? {
      AppendedStream(before, call, call.point.events, next);
    }
  }

  lemma ProtocolKeepsInv(s: State, id: nat)
    requires Inv(s) && id in s.calls && !s.calls[id].point.Appending?
    ensures Inv(ProtocolStep(s, id))
  {
    hide Inv, InsideOk, AfterRead, AfterAppend, AfterAppendThrow, AfterWait;
    var call := s.calls[id];
    match call.point
    case Entering =>
      if s.inflight.None? {
        EnterKeepsInv(s, id);
      } else {
        MoveOutside(s, id, call.(point := Waiting(s.inflight.value)));
      }
    case Waiting(holder) =>
      if holder in s.calls {
        WaitKeepsInv(s, id);
      }
    case Reading => ReadKeepsInv(s, id);
    case ReadingTail(events, next) => TailKeepsInv(s, id);
    case Appending(_, _, _) =>
    case Releasing(outcome) => ReleaseKeepsInv(s, id);
    case Settled(outcome) => LeaveKeepsInv(s, id);
    case _ =>
  }

  lemma TailKeepsInv(s: State, id: nat)
    requires Inv(s) && id in s.calls && s.calls[id].point.ReadingTail?
    ensures Inv(ProtocolStep(s, id))
  {
    hide Inv, ValidStream, Undecided, UnderWay;
    var call := s.calls[id];
    InsideFacts(s, id);
    TailIsRead(s, id);
    MoveQuietly(s, id, call.(point := Appending(call.point.events, |s.stream| + 1, call.point.next)));
  }

  lemma TailIsRead(s: State, id: nat)
    requires Inv(s) && id in s.calls && s.calls[id].point.ReadingTail?
    ensures var call := s.calls[id];
      InsideOk(s.stream, call.(point := Appending(call.point.events, |s.stream| + 1, call.point.next)))
  {
    InsideFacts(s, id);
    hide Inv, ValidStream, Undecided, UnderWay;
  }

  lemma ReleaseKeepsInv(s: State, id: nat)
    requires Inv(s) && id in s.calls && s.calls[id].point.Releasing?
    ensures Inv(ProtocolStep(s, id))
  {
    hide Inv, ValidStream, Undecided, UnderWay;
    InsideFacts(s, id);
    MoveQuietly(s, id, s.calls[id].(point := Settled(s.calls[id].point.outcome)));
  }

  lemma EnterKeepsInv(s: State, id: nat)
    requires Inv(s) && id in s.calls && s.calls[id].point.Entering? && s.inflight.None?
    ensures Inv(ProtocolStep(s, id))
  {
    hide ValidStream, EntryOk, Honest;
    var t := ProtocolStep(s, id);
    assert forall c :: c in t.calls && !Outside(t.calls[c].point) ==> c == id;
  }

  lemma WaitKeepsInv(s: State, id: nat)
    requires Inv(s) && id in s.calls && s.calls[id].point.Waiting? && s.calls[id].point.holder in s.calls
    ensures Inv(ProtocolStep(s, id))
  {
    hide ValidStream, EntryOk, Honest, AppendOk;
    var p := s.calls[s.calls[id].point.holder].point;
    if p.Settled? || p.Finished? {
      assert Honest(p.outcome, s.stream);
      MoveOutside(s, id, AfterWait(s.calls[id], p.outcome));
    }
  }

  lemma LeaveKeepsInv(s: State, id: nat)
    requires Inv(s) && id in s.calls && s.calls[id].point.Settled?
    ensures Inv(ProtocolStep(s, id))
  {
    var t := ProtocolStep(s, id);
    assert s.inflight == Some(id) && t.inflight == None;
    assert forall c :: c in t.calls && c != id ==> t.calls[c] == s.calls[c];
  }

  lemma InvShape(s: State)
    requires Inv(s)
    ensures ValidStream(s.stream)
  {
  }

  lemma AnswerMeans(stream: seq<Event>, call: Call, text: string)
    requires InsideOk(stream, call) && !Outside(call.point)
    ensures var moved := AfterAnswer(call, text);
      && InsideOk(stream, moved) && !Outside(moved.point)
      && (BeforeEntry(moved.point) ==> BeforeEntry(call.point))
      && (call.point.SnapshotBefore? ==>
            UnderWay(stream) && Permitted(call.decided, call.approval) && !BeforeEntry(moved.point))
  {
  }

  lemma SandboxKeepsInv(s: State, id: nat, text: string)
    requires Inv(s) && id in s.calls
    ensures Inv(SandboxStep(s, id, text))
  {
    var call := s.calls[id];
    var moved := AfterAnswer(call, text);
    if Outside(call.point) {
      assert moved == call && SandboxStep(s, id, text) == s;
    } else {
      InsideFacts(s, id);
      InvShape(s);
      AnswerMeans(s.stream, call, text);
      if call.point.SnapshotBefore? {
        var entry := Entry(call.request, call.decided, call.approval, s.stream);
        assert s.entries == [] && [] + [entry] == [entry];
        assert Started in s.stream;
        hide Inv, AfterAnswer, InsideOk;
        MoveInside(s, id, moved, s.stream, [entry]);
      } else {
        hide Inv, AfterAnswer, InsideOk;
        MoveQuietly(s, id, moved);
      }
    }
  }

  lemma ThrowKeepsInv(s: State, id: nat, message: string)
    requires Inv(s) && id in s.calls
    ensures Inv(s.(calls := s.calls[id := AfterThrow(s.calls[id], message)]))
  {
    hide ValidStream, Undecided, UnderWay, EntryOk;
    var call := s.calls[id];
    var moved := AfterThrow(call, message);
    if Outside(call.point) {
      MoveOutside(s, id, moved);
    } else {
      InsideFacts(s, id);
      hide Inv;
      MoveQuietly(s, id, moved);
    }
  }

  lemma PolicyKeepsInv(s: State, id: nat, decision: Decision, capabilities: Capabilities)
    requires Inv(s) && id in s.calls && s.calls[id].point.AskingCapabilities?
    ensures Inv(s.(calls := s.calls[id := AfterCapabilities(s.calls[id], decision, capabilities)]))
  {
    MoveQuietly(s, id, AfterCapabilities(s.calls[id], decision, capabilities));
  }

  /** Every step of every call, every failure and every crash keeps the protocol intact. */
  lemma StepKeepsInv(s: State, step: Step)
    requires Inv(s)
    ensures Inv(Do(s, step))
  {
    hide Honest, InsideOk, ValidStream, EntryOk, BeforeEntry, AfterThrow, AfterCapabilities, AfterDecision, AfterRead;
    match step
    case Crash =>
    case Arrive(id, request, approval) =>
      if id !in s.calls {
        MoveOutside(s, id, Call(request, approval, Entering, [], None));
      }
    case Throw(id, message) => if id in s.calls { ThrowKeepsInv(s, id, message); }
    case Lose(id, message) =>
      if id in s.calls && s.calls[id].point.Appending? { LoseKeepsInv(s, id, message); }
    case Answer(id, text) => if id in s.calls { SandboxKeepsInv(s, id, text); }
    case PolicyAnswers(id, decision, capabilities, haveBroker) =>
      if id in s.calls && s.calls[id].point.AskingCapabilities? {
        PolicyKeepsInv(s, id, decision, capabilities);
      } else if id in s.calls && s.calls[id].point.Deciding? {
        DecisionKeepsInv(s, id, haveBroker);
      }
    case Proceed(id) =>
      if id in s.calls && s.calls[id].point.Appending? {
        AppendKeepsInv(s, id);
      } else if id in s.calls {
        ProtocolKeepsInv(s, id);
      }
  }

  /* ---------- whole runs ---------- */

  lemma {:induction false} RunKeepsInv(steps: seq<Step>)
    ensures Inv(Run(steps))
  {
    if steps != [] {
      RunKeepsInv(steps[..|steps| - 1]);
      StepKeepsInv(Run(steps[..|steps| - 1]), steps[|steps| - 1]);
    }
  }

  /**
   * The effect happens at most once, over any run of concurrent calls, failures, crashes and restarts:
   * only after `started` is durable, and only for a call that was allowed, or asked and approved.
   */
  lemma AtMostOnce(steps: seq<Step>)
    ensures var s := Run(steps);
      && |s.entries| <= 1
      && forall e :: e in s.entries ==>
           && Permitted(e.decided, e.approval)
           && e.stream <= s.stream && e.stream != [] && e.stream[|e.stream| - 1] == Started
  {
    RunKeepsInv(steps);
  }

  /** The append of a result lands and rejects. */
  predicate LosesResult(s: State, step: Step) {
    step.Lose? && step.id in s.calls && s.calls[step.id].point.Appending? && s.calls[step.id].point.next.ToResult?
  }

  predicate NoResultLost(steps: seq<Step>) {
    forall n :: 0 <= n < |steps| ==> !LosesResult(Run(steps[..n]), steps[n])
  }

  /**
   * The stream is always a prefix of: requested, snapshot, approval request if any, then one verdict; and only if
   * the append of a result was lost does a failure follow the result.
   */
  lemma StreamShape(steps: seq<Step>)
    ensures ValidStream(Run(steps).stream) && (NoResultLost(steps) ==> !Contradicted(Run(steps).stream))
  {
    RunKeepsInv(steps);
    if NoResultLost(steps) { NothingContradicted(steps); }
  }

  /** A failure is recorded only of an action that has no result. */
  predicate FailsTruly(call: Call, stream: seq<Event>) {
    (call.point.ReadingTail? || call.point.Appending?) && call.point.next.ToErrorResult? ==> UnderWay(stream)
  }

  predicate Uncontradicted(s: State) {
    !Contradicted(s.stream)
    && (s.inflight.Some? && s.inflight.value in s.calls ==> FailsTruly(s.calls[s.inflight.value], s.stream))
  }

  lemma {:induction false} NothingContradicted(steps: seq<Step>)
    requires NoResultLost(steps)
    ensures Uncontradicted(Run(steps))
  {
    hide Do, Uncontradicted, LosesResult;
    if steps == [] {
      assert Uncontradicted(INITIAL) by { NothingYet(); }
    } else {
      var front := steps[..|steps| - 1];
      assert forall n :: 0 <= n < |front| ==> front[..n] == steps[..n] && front[n] == steps[n];
      NothingContradicted(front);
      RunKeepsInv(front);
      StepContradictsNothing(Run(front), steps[|steps| - 1]);
    }
  }

  lemma NothingYet()
    ensures Uncontradicted(INITIAL)
  {
  }

  lemma StepContradictsNothing(s: State, step: Step)
    requires Inv(s) && Uncontradicted(s) && !LosesResult(s, step)
    ensures Uncontradicted(Do(s, step))
  {
    hide Inv, InsideOk, ValidStream, UnderWay, Contradicted, AfterThrow, AfterCapabilities, AfterDecision, AfterRead,
      AfterAppend, AfterAppendThrow, AfterWait, AfterAnswer, FailsTruly, Outside;
    if !step.Crash? && !step.Arrive? && step.id in s.calls {
      if Outside(s.calls[step.id].point) {
        OutsideContradictsNothing(s, step);
      } else {
        InsideFacts(s, step.id);
        if s.calls[step.id].point.Appending? && (step.Proceed? || step.Lose?) {
          AppendContradictsNothing(s, step);
        } else {
          InsideFailsTruly(s, step);
        }
      }
    } else if step.Arrive? {
      InflightIsThere(s);
    }
  }

  /** A call outside moves nothing but itself, or goes inside to read. */
  lemma OutsideContradictsNothing(s: State, step: Step)
    requires Inv(s) && Uncontradicted(s) && !step.Crash? && !step.Arrive? && step.id in s.calls
    requires Outside(s.calls[step.id].point)
    ensures Uncontradicted(Do(s, step))
  {
    hide Honest, ValidStream, EntryOk, Contradicted, UnderWay;
    var t := Do(s, step);
    assert t.stream == s.stream;
    assert s.inflight.Some? ==> s.inflight.value != step.id;
  }

  lemma InsideFailsTruly(s: State, step: Step)
    requires Inv(s) && Uncontradicted(s) && !step.Crash? && !step.Arrive? && step.id in s.calls
    requires s.inflight == Some(step.id) && InsideOk(s.stream, s.calls[step.id])
    requires !(s.calls[step.id].point.Appending? && (step.Proceed? || step.Lose?))
    ensures Uncontradicted(Do(s, step))
  {
    hide Inv, Honest, ValidStream, EntryOk, Contradicted, UnderWay, Concluded, Undecided, Unsupported, FirstRequest,
      FirstResult, FirstDenial, HasSnapshot, HasApprovalRequest;
    var t := Do(s, step);
    assert t.stream == s.stream;
  }

  lemma AppendContradictsNothing(s: State, step: Step)
    requires Inv(s) && Uncontradicted(s) && (step.Proceed? || step.Lose?) && step.id in s.calls
    requires s.inflight == Some(step.id) && s.calls[step.id].point.Appending?
    requires !LosesResult(s, step) && InsideOk(s.stream, s.calls[step.id])
    ensures Uncontradicted(Do(s, step))
  {
    hide Inv, Honest, ValidStream, EntryOk, Concluded;
    var call := s.calls[step.id];
    AppendNeverConflicts(s, step.id);
    EndsPlainly(s.stream, call, call.point.events, call.point.next);
  }

  lemma EndsPlainly(before: seq<Event>, call: Call, events: seq<Event>, next: Next)
    requires AppendOk(before, call, events, next) && (next.ToErrorResult? ==> UnderWay(before))
    ensures !Contradicted(before + events)
  {
    hide Concluded;
    var stream := before + events;
    assert |events| == 1 || next.ToSandbox?;
    assert |events| == 1 && |before| > 0 ==> stream[|stream| - 2] == before[|before| - 1];
  }

  /**
   * A result whose append is lost is followed by a failure: the caller is told of the failure, and every later
   * call with the same request is answered with the result.
   */
  lemma LostResultIsContradicted(s: State, id: nat, message: string, later: Call)
    requires Inv(s) && id in s.calls && LosesResult(s, Lose(id, message))
    requires later.request == FirstRequest(s.stream)
    ensures var t := Do(Do(Do(s, Lose(id, message)), Proceed(id)), Proceed(id));
      var result := s.calls[id].point.next.result;
      && t.stream == s.stream + [Completed(result)] + [Failed(Recorded(message))] && Contradicted(t.stream)
      && t.calls[id].point == Releasing(ErrorResult(message))
      && AfterRead(later, t.stream).point == Settled(Result(result, true))
  {
    var result := s.calls[id].point.next.result;
    StepKeepsInv(s, Lose(id, message));
    StepKeepsInv(Do(s, Lose(id, message)), Proceed(id));
    StepKeepsInv(Do(Do(s, Lose(id, message)), Proceed(id)), Proceed(id));
    LosingIsAppending(s, id, message);
    hide Do, Inv, AfterRead, AppendOk, FirstRequest, LosesResult;
    LostThenFailed(s, id, message);
    InvShape(Do(Do(Do(s, Lose(id, message)), Proceed(id)), Proceed(id)));
    LostIsAnswered(s.stream, result, message, later);
  }

  lemma LosingIsAppending(s: State, id: nat, message: string)
    requires Inv(s) && id in s.calls && LosesResult(s, Lose(id, message))
    ensures s.calls[id].point.Appending? && s.calls[id].point.next.ToResult? && UnderWay(s.stream)
    ensures s.calls[id].point.expectedSequence == |s.stream| + 1
    ensures s.calls[id].point.events == [Completed(s.calls[id].point.next.result)]
  {
    InsideFacts(s, id);
    hide Inv, UnderWay;
  }

  lemma LostThenFailed(s: State, id: nat, message: string)
    requires id in s.calls && s.calls[id].point.Appending? && s.calls[id].point.next.ToResult?
    requires s.calls[id].point.expectedSequence == |s.stream| + 1
    requires s.calls[id].point.events == [Completed(s.calls[id].point.next.result)]
    ensures var t := Do(Do(Do(s, Lose(id, message)), Proceed(id)), Proceed(id));
      t.stream == s.stream + [Completed(s.calls[id].point.next.result)] + [Failed(Recorded(message))]
      && id in t.calls && t.calls[id].point == Releasing(ErrorResult(message))
  {
  }

  lemma LostIsAnswered(before: seq<Event>, result: string, message: string, later: Call)
    requires UnderWay(before) && later.request == FirstRequest(before)
    requires ValidStream(before + [Completed(result)] + [Failed(Recorded(message))])
    ensures var stream := before + [Completed(result)] + [Failed(Recorded(message))];
      Contradicted(stream) && AfterRead(later, stream).point == Settled(Result(result, true))
  {
    var stream := before + [Completed(result)] + [Failed(Recorded(message))];
    assert before[0] == before[..|before| - 2][0];
    assert stream[0] == before[0] && stream[0].Requested?;
    FirstsAreThere(stream);
    assert stream[|before|] == Completed(result) && stream[|stream| - 1].Failed?;
    hide UnderWay;
    OneVerdict(stream, Completed(result), Completed(FirstResult(stream).value));
  }

  lemma StepGrows(s: State, step: Step)
    ensures s.stream <= Do(s, step).stream && s.entries <= Do(s, step).entries
  {
    hide AfterThrow, AfterCapabilities, AfterDecision, AfterRead, AfterAppend, AfterAppendThrow, AfterWait, AfterAnswer;
  }

  lemma {:induction false} HistoryGrows(steps: seq<Step>, more: seq<Step>)
    ensures Run(steps).stream <= Run(steps + more).stream && Run(steps).entries <= Run(steps + more).entries
  {
    hide Do;
    if more == [] {
      assert steps + more == steps;
    } else {
      var all := steps + more;
      assert all[..|all| - 1] == steps + more[..|more| - 1];
      HistoryGrows(steps, more[..|more| - 1]);
      StepGrows(Run(all[..|all| - 1]), all[|all| - 1]);
    }
  }

  /** What a caller was told stays what the stream says, whatever happens later. */
  lemma AnswersAreDurable(steps: seq<Step>, more: seq<Step>, id: nat)
    requires id in Run(steps).calls && Run(steps).calls[id].point.Finished?
    ensures Honest(Run(steps).calls[id].point.outcome, Run(steps + more).stream)
  {
    RunKeepsInv(steps);
    HistoryGrows(steps, more);
    HonestGrows(Run(steps).calls[id].point.outcome, Run(steps).stream, Run(steps + more).stream);
  }

  /** A denial is final: the sandbox is never entered for this key, before or after. */
  lemma DenialIsFinal(steps: seq<Step>, more: seq<Step>, reason: string)
    requires Denied(reason) in Run(steps).stream
    ensures Run(steps + more).entries == []
  {
    RunKeepsInv(steps + more);
    HistoryGrows(steps, more);
    var stream := Run(steps + more).stream;
    assert Denied(reason) in stream;
    DeniedNeverStarted(stream, reason);
  }

  lemma DeniedNeverStarted(stream: seq<Event>, reason: string)
    requires ValidStream(stream) && Denied(reason) in stream
    ensures Started !in stream
  {
    var i :| 0 <= i < |stream| && stream[i] == Denied(reason);
    assert i >= 2;
    var rest := if stream[2].ApprovalRequired? then stream[3..] else stream[2..];
    assert rest[i - (|stream| - |rest|)].Denied?;
  }

  /** How a call that reads the stream is answered: from what is stored, without touching anything. */
  lemma StoredVerdictAnswers(s: State, id: nat)
    requires Inv(s) && id in s.calls && s.calls[id].point.Reading? && s.stream != []
    ensures var t := Do(s, Proceed(id)); var same := s.stream[0] == Requested(s.calls[id].request);
      && t.stream == s.stream && t.entries == s.entries
      && (!same ==> t.calls[id].point == Settled(KeyCollision))
      && (same ==>
            forall result :: Completed(result) in s.stream ==> t.calls[id].point == Settled(Result(result, true)))
      && (same ==> forall reason :: Denied(reason) in s.stream ==> t.calls[id].point == Settled(Refused(reason)))
      && (same && Started in s.stream && (forall result :: Completed(result) !in s.stream) ==>
            t.calls[id].point == Settled(NeedsReconciliation))
      && (same && Undecided(s.stream) ==> t.calls[id].point == AskingCapabilities)
  {
    InvShape(s);
    StoredVerdicts(s.stream);
    assert s.stream[0].Requested?;
    if Undecided(s.stream) {
      NothingDecided(s.stream);
    }
    hide Inv, ValidStream, FirstResult, FirstDenial;
  }

  lemma NothingDecided(stream: seq<Event>)
    requires Undecided(stream)
    ensures Started !in stream && FirstResult(stream).None? && FirstDenial(stream).None?
  {
    FirstsAreThere(stream);
    assert forall e :: e in stream ==> e.Requested? || e.PermissionSnapshot? || e.ApprovalRequired?;
  }

  /** The first result, and the first denial, are the only ones. */
  lemma StoredVerdicts(stream: seq<Event>)
    requires ValidStream(stream)
    ensures forall result :: Completed(result) in stream <==> FirstResult(stream) == Some(result)
    ensures forall reason :: Denied(reason) in stream ==>
      Started !in stream && FirstResult(stream).None? && FirstDenial(stream) == Some(reason)
    ensures FirstDenial(stream).Some? ==> Started !in stream && Denied(FirstDenial(stream).value) in stream
  {
    FirstsAreThere(stream);
    hide ValidStream, FirstResult, FirstDenial;
    forall result | Completed(result) in stream ensures FirstResult(stream) == Some(result) {
      OneVerdict(stream, Completed(result), Completed(FirstResult(stream).value));
      OneResult(stream, result, FirstResult(stream).value);
    }
    forall reason | Denied(reason) in stream
      ensures Started !in stream && FirstResult(stream).None? && FirstDenial(stream) == Some(reason)
    {
      OneDenial(stream, reason, Denied(FirstDenial(stream).value));
      DeniedNeverStarted(stream, reason);
      if FirstResult(stream).Some? {
        OneDenial(stream, reason, Completed(FirstResult(stream).value));
      }
    }
  }

  lemma OneResult(stream: seq<Event>, a: string, b: string)
    requires ValidStream(stream) && Completed(a) in stream && Completed(b) in stream
    ensures a == b
  {
    OneVerdict(stream, Completed(a), Completed(b));
    if Contradicted(stream) { LastTwo(stream); }
  }

  lemma OneDenial(stream: seq<Event>, reason: string, e: Event)
    requires ValidStream(stream) && Denied(reason) in stream && e in stream && (e.Denied? || e.Completed?)
    ensures e == Denied(reason)
  {
    OneVerdict(stream, Denied(reason), e);
    if Contradicted(stream) { LastTwo(stream); }
  }

  lemma LastTwo(stream: seq<Event>)
    requires ValidStream(stream) && Contradicted(stream)
    ensures stream[|stream| - 1].Failed?
  {
  }

  /** A stream holds one verdict, but for a result that a failure contradicts. */
  lemma OneVerdict(stream: seq<Event>, a: Event, b: Event)
    requires ValidStream(stream) && a in stream && b in stream
    requires (a.Completed? || a.Denied? || a.Failed?) && (b.Completed? || b.Denied? || b.Failed?)
    ensures a != b ==> Contradicted(stream) && {a, b} == {stream[|stream| - 2], stream[|stream| - 1]}
  {
    var i :| 0 <= i < |stream| && stream[i] == a;
    var j :| 0 <= j < |stream| && stream[j] == b;
    assert i >= 2 && j >= 2;
    var rest := if stream[2].ApprovalRequired? then stream[3..] else stream[2..];
    var skipped := |stream| - |rest|;
    assert rest[i - skipped] == a && rest[j - skipped] == b;
  }

  /** Once started, no run that begins without a call inside enters the sandbox again. */
  lemma {:induction false} NoReplayAfterCrash(steps: seq<Step>, more: seq<Step>)
    requires Started in Run(steps).stream
    ensures Run(steps + [Crash] + more).entries == Run(steps).entries
  {
    Frozen(steps, more);
  }

  lemma CrashFreezes(s: State)
    requires Inv(s) && Started in s.stream
    ensures IsFrozen(Do(s, Crash)) && Do(s, Crash).entries == s.entries
  {
  }

  predicate IsFrozen(s: State) {
    && Inv(s)
    && Started in s.stream
    && (s.inflight.Some? ==> !BeforeEntry(s.calls[s.inflight.value].point))
  }

  lemma {:induction false} Frozen(steps: seq<Step>, more: seq<Step>)
    requires Started in Run(steps).stream
    ensures IsFrozen(Run(steps + [Crash] + more))
    ensures Run(steps + [Crash] + more).entries == Run(steps).entries
  {
    var all := steps + [Crash] + more;
    if more == [] {
      assert all[..|all| - 1] == steps && all[|all| - 1] == Crash;
      RunKeepsInv(steps);
      CrashFreezes(Run(steps));
    } else {
      hide Do, IsFrozen;
      assert all[..|all| - 1] == steps + [Crash] + more[..|more| - 1];
      Frozen(steps, more[..|more| - 1]);
      FrozenStep(Run(all[..|all| - 1]), all[|all| - 1]);
    }
  }

  /** The only way to the sandbox leads through the append of `started`. */
  lemma EntryPath(s: State, step: Step, id: nat)
    requires id in Do(s, step).calls && BeforeEntry(Do(s, step).calls[id].point)
    ensures id in s.calls
    ensures BeforeEntry(s.calls[id].point) || (s.calls[id].point.Appending? && s.calls[id].point.next.ToSandbox?)
  {
    hide FirstRequest, FirstResult, FirstDenial, HasSnapshot, HasApprovalRequest, Unsupported;
  }

  lemma EntryStep(s: State, step: Step)
    ensures Do(s, step).entries == s.entries ||
      (step.Answer? && step.id in s.calls && s.calls[step.id].point.SnapshotBefore?)
  {
    hide AfterThrow, AfterCapabilities, AfterDecision, AfterRead, AfterAppend, AfterAppendThrow, AfterWait, AfterAnswer;
  }

  lemma FrozenStep(s: State, step: Step)
    requires IsFrozen(s)
    ensures IsFrozen(Do(s, step)) && Do(s, step).entries == s.entries
  {
    hide Inv, Do, Run;
    var t := Do(s, step);
    StepKeepsInv(s, step);
    StepGrows(s, step);
    EntryStep(s, step);
    if step.Answer? && step.id in s.calls {
      NobodyEnters(s, step.id);
    }
    InflightIsThere(t);
    if t.inflight.Some? && BeforeEntry(t.calls[t.inflight.value].point) {
      EntryPath(s, step, t.inflight.value);
      NobodyEnters(s, t.inflight.value);
      assert false;
    }
  }

  lemma InflightIsThere(s: State)
    requires Inv(s)
    ensures s.inflight.Some? ==> s.inflight.value in s.calls
  {
  }

  /** Once started, with nobody about to enter, no call gets there. */
  lemma NobodyEnters(s: State, id: nat)
    requires IsFrozen(s) && id in s.calls
    ensures !BeforeEntry(s.calls[id].point) && !(s.calls[id].point.Appending? && s.calls[id].point.next.ToSandbox?)
  {
    if !Outside(s.calls[id].point) {
      InsideFacts(s, id);
    }
    hide ValidStream, Honest, EntryOk, Undecided, UnderWay;
  }

  /* ---------- the policy the decision comes from ---------- */

  datatype Rule = Rule(capability: string, decision: Decision)

  datatype Layer = Layer(id: string, rules: seq<Rule>)

  predicate Matches(rule: Rule, capability: string) {
    rule.capability == capability || rule.capability == "*"
  }

  function Matching(rules: seq<Rule>, capability: string): seq<Rule> {
    if rules == [] then []
    else (if Matches(rules[0], capability) then [rules[0]] else []) + Matching(rules[1..], capability)
  }

  function FirstWith(rules: seq<Rule>, decision: Decision): Option<Rule> {
    if rules == [] then None
    else if rules[0].decision == decision then Some(rules[0]) else FirstWith(rules[1..], decision)
  }

  /** Within a layer a deny wins, then an ask, then the first match; no match denies. */
  function LayerDecision(layer: Layer, capability: string): Decision {
    var matches := Matching(layer.rules, capability);
    if FirstWith(matches, Deny).Some? then Deny
    else if FirstWith(matches, Ask).Some? then Ask
    else if matches != [] then matches[0].decision
    else Deny
  }

  function Decisions(layers: seq<Layer>, capability: string): seq<Decision> {
    seq(|layers|, i requires 0 <= i < |layers| => LayerDecision(layers[i], capability))
  }

  function Snapshot(layers: seq<Layer>, capability: string): Decision {
    var decisions := Decisions(layers, capability);
    if Deny in decisions then Deny else if Ask in decisions then Ask else Allow
  }

  /** The rule that decides lies in some layer: a grant or a denial for this capability, or for all. */
  predicate Says(layer: Layer, capability: string, decision: Decision) {
    exists i :: 0 <= i < |layer.rules| && Matches(layer.rules[i], capability) && layer.rules[i].decision == decision
  }

  lemma MatchingMeans(rules: seq<Rule>, capability: string)
    ensures forall r :: r in Matching(rules, capability) <==> r in rules && Matches(r, capability)
  {
    if rules != [] {
      MatchingMeans(rules[1..], capability);
      assert rules == [rules[0]] + rules[1..];
    }
  }

  lemma FirstWithMeans(rules: seq<Rule>, decision: Decision)
    ensures FirstWith(rules, decision).Some? <==> exists r :: r in rules && r.decision == decision
  {
    if rules != [] {
      FirstWithMeans(rules[1..], decision);
      assert rules == [rules[0]] + rules[1..];
    }
  }

  lemma LayerMeans(layer: Layer, capability: string)
    ensures LayerDecision(layer, capability) == Allow <==>
      Says(layer, capability, Allow) && !Says(layer, capability, Ask) && !Says(layer, capability, Deny)
    ensures LayerDecision(layer, capability) == Ask <==>
      Says(layer, capability, Ask) && !Says(layer, capability, Deny)
  {
    var matches := Matching(layer.rules, capability);
    MatchingMeans(layer.rules, capability);
    forall d ensures FirstWith(matches, d).Some? <==> Says(layer, capability, d) {
      FirstWithMeans(matches, d);
      if FirstWith(matches, d).Some? {
        var r :| r in matches && r.decision == d;
        var i :| 0 <= i < |layer.rules| && layer.rules[i] == r;
      }
      if Says(layer, capability, d) {
        var i :| 0 <= i < |layer.rules| && Matches(layer.rules[i], capability) && layer.rules[i].decision == d;
        assert layer.rules[i] in matches;
      }
    }
    if matches != [] {
      FirstWithMeans(matches, matches[0].decision);
    }
  }

  /**
   * The intersection of the layers: allowed exactly when every layer grants and none asks or denies, asked
   * exactly when every layer grants or asks, none denies, and some asks.
   */
  lemma IntersectionMeans(layers: seq<Layer>, capability: string)
    ensures Snapshot(layers, capability) == Allow <==>
      forall i :: 0 <= i < |layers| ==>
        Says(layers[i], capability, Allow) && !Says(layers[i], capability, Ask) && !Says(layers[i], capability, Deny)
    ensures Snapshot(layers, capability) != Deny <==>
      forall i :: 0 <= i < |layers| ==>
        (Says(layers[i], capability, Allow) || Says(layers[i], capability, Ask)) && !Says(layers[i], capability, Deny)
  {
    forall i | 0 <= i < |layers|
      ensures Decisions(layers, capability)[i] == LayerDecision(layers[i], capability)
      ensures LayerDecision(layers[i], capability) == Allow <==>
        Says(layers[i], capability, Allow) && !Says(layers[i], capability, Ask) && !Says(layers[i], capability, Deny)
      ensures LayerDecision(layers[i], capability) == Ask <==>
        Says(layers[i], capability, Ask) && !Says(layers[i], capability, Deny)
    {
      LayerMeans(layers[i], capability);
    }
    assert forall i :: 0 <= i < |layers| ==> Decisions(layers, capability)[i] in Decisions(layers, capability);
  }

  function Strictness(d: Decision): nat { match d case Allow => 0 case Ask => 1 case Deny => 2 }

  /** Adding layers, anywhere, never relaxes a decision. */
  lemma LayersOnlyTighten(before: seq<Layer>, added: seq<Layer>, after: seq<Layer>, capability: string)
    ensures Strictness(Snapshot(before + added + after, capability)) >= Strictness(Snapshot(before + after, capability))
  {
    var few, all := Decisions(before + after, capability), Decisions(before + added + after, capability);
    forall d | d in few ensures d in all {
      var i :| 0 <= i < |few| && few[i] == d;
      var j := if i < |before| then i else i + |added|;
      assert (before + added + after)[j] == (before + after)[i];
      assert all[j] == d;
    }
  }
}
