/**
 * Kanban tasks: the status machine, the task card, its events, and the fold that rebuilds a card.
 * Texts, labels and ids are strings, times are integers; schema checks of field contents are not modelled.
 */
module KanbanTask {
  import opened Options
  import TransitionPath

  datatype Status = Inbox | Triaged | Ready | Running | Blocked | Review | Done | Failed | Cancelled | Archived

  const ALL_STATUSES := {Inbox, Triaged, Ready, Running, Blocked, Review, Done, Failed, Cancelled, Archived}

  function AllowedTransitions(from: Status): seq<Status> {
    match from
    case Inbox => [Triaged, Cancelled, Failed, Archived]
    case Triaged => [Ready, Cancelled, Failed, Archived]
    case Ready => [Running, Cancelled, Failed, Archived]
    case Running => [Ready, Blocked, Review, Done, Cancelled, Failed, Archived]
    case Blocked => [Running, Ready, Cancelled, Failed, Archived]
    case Review => [Done, Running, Cancelled, Failed, Archived]
    case Done => [Archived]
    case Failed => [Ready, Running, Cancelled, Archived]
    case Cancelled => [Archived]
    case Archived => []
  }

  predicate CanTransition(from: Status, to: Status) { to in AllowedTransitions(from) }

  predicate IsTerminal(status: Status) {
    status == Done || status == Failed || status == Cancelled || status == Archived
  }

  const TRANSITIONS: map<Status, seq<Status>> := map s | s in ALL_STATUSES :: AllowedTransitions(s)

  const TERMINALISH := {Failed, Cancelled, Archived}

  function Between(from: Status, to: Status): TransitionPath.Problem<Status> {
    TransitionPath.Problem(TRANSITIONS, TERMINALISH, from, to)
  }

  lemma TableIsTotal()
    ensures TransitionPath.Total(TRANSITIONS) && TRANSITIONS.Keys == ALL_STATUSES
    ensures forall s: Status :: s in TRANSITIONS && TRANSITIONS[s] == AllowedTransitions(s)
  {
    forall s: Status ensures s in ALL_STATUSES {
      match s case Inbox => case Triaged => case Ready => case Running => case Blocked =>
      case Review => case Done => case Failed => case Cancelled => case Archived =>
    }
  }

  /** The table read by its targets: from where each status can be entered. */
  lemma EnteredFrom(from: Status, to: Status)
    ensures CanTransition(from, to) <==>
      match to
      case Inbox => false
      case Triaged => from == Inbox
      case Ready => from in {Triaged, Running, Blocked, Failed}
      case Running => from in {Ready, Blocked, Review, Failed}
      case Blocked => from == Running
      case Review => from == Running
      case Done => from in {Running, Review}
      case Failed => from !in {Done, Failed, Cancelled, Archived}
      case Cancelled => from !in {Done, Cancelled, Archived}
      case Archived => from != Archived
  {
  }

  /**
   * The paths a task may be walked: legal moves, and never through failed, cancelled or archived, unless it
   * starts there.
   */
  lemma PathsMean(from: Status, to: Status, hops: seq<Status>)
    ensures TransitionPath.Permitted(Between(from, to), hops) <==>
      && |hops| > 0 && hops[|hops| - 1] == to && CanTransition(from, hops[0])
      && forall i :: 0 <= i < |hops| - 1 ==>
           && CanTransition(hops[i], hops[i + 1])
           && (hops[i] == Failed || hops[i] == Cancelled || hops[i] == Archived ==> hops[i] == from)
  {
    TableIsTotal();
    var p, walk := Between(from, to), [from] + hops;
    hide AllowedTransitions;
    if |hops| > 0 && CanTransition(from, hops[0])
      && (forall i :: 0 <= i < |hops| - 1 ==> CanTransition(hops[i], hops[i + 1])) {
      forall i | 0 <= i < |walk| - 1 ensures TransitionPath.Hop(p, walk[i], walk[i + 1]) {
        assert i > 0 ==> CanTransition(hops[i - 1], hops[i]);
      }
    }
    if TransitionPath.Walk(p, walk) && |hops| > 0 {
      assert TransitionPath.Hop(p, walk[0], walk[1]);
      forall i | 0 <= i < |hops| - 1 ensures CanTransition(hops[i], hops[i + 1]) {
        assert TransitionPath.Hop(p, walk[i + 1], walk[i + 2]);
      }
    }
  }

  datatype Claim = Claim(claimant: string, leaseId: nat, claimedAt: int, expiresAt: int)

  datatype Comment = Comment(id: nat, author: string, body: string, at: int)

  datatype Dependency = Dependency(taskId: string, blocks: bool, satisfiedWhen: Option<Status>)

  /** The fields a plain update may set. */
  datatype Details = Details(
    title: string, goal: Option<string>, acceptanceCriteria: seq<string>, priority: nat,
    labels: seq<string>, deadline: Option<int>, scheduledAt: Option<int>)

  datatype Task = Task(
    id: string, idempotencyKey: Option<string>, details: Details, dependencies: seq<Dependency>,
    status: Status, claim: Option<Claim>, comments: seq<Comment>,
    version: nat, createdAt: int, updatedAt: int, endedAt: Option<int>)

  datatype Event =
    | Created(task: Task)
    | StatusChanged(from: Status, to: Status, task: Task)
    | Updated(task: Task)
    | Commented(comment: Comment)
    | LeaseRenewed(leaseId: nat, expiresAt: int)

  predicate HoldsLease(task: Task, leaseId: nat) {
    task.status == Running && task.claim.Some? && task.claim.value.leaseId == leaseId
  }

  /** One event folded into a card; an event that needs a card and finds none is an error, and folds to none. */
  function FoldTask(task: Option<Task>, event: Event): Option<Task> {
    match event
    case Created(t) => Some(t)
    case StatusChanged(_, _, t) => Some(t)
    case Updated(t) => Some(t)
    case Commented(comment) =>
      if task.None? then None
      else Some(task.value.(comments := task.value.comments + [comment], version := task.value.version + 1))
    case LeaseRenewed(leaseId, expiresAt) =>
      if task.None? then None
      else if !HoldsLease(task.value, leaseId) then task
      else Some(task.value.(claim := Some(task.value.claim.value.(expiresAt := expiresAt)),
            version := task.value.version + 1))
  }

  function Fold(events: seq<Event>): Option<Task> {
    if events == [] then None else FoldTask(Fold(events[..|events| - 1]), events[|events| - 1])
  }

  /* ---------- commands ---------- */

  datatype Error =
    | NotFound | VersionConflict(expected: nat, actual: nat) | InvalidTransition(from: Status, to: Status)
    | LeaseLost | SequenceConflict

  datatype Init = Init(id: string, idempotencyKey: Option<string>, details: Details, dependencies: seq<Dependency>)

  datatype Patch = Patch(
    title: Option<string>, goal: Option<string>, acceptanceCriteria: Option<seq<string>>, priority: Option<nat>,
    labels: Option<seq<string>>, deadline: Option<int>, scheduledAt: Option<int>)

  datatype Command =
    | Transition(to: Status, expectedVersion: nat, claim: Option<Claim>)
    | RenewLease(leaseId: nat, expiresAt: int)
    | Update(expectedVersion: nat, patch: Patch)
    | AddComment(author: string, body: string)

  /** What a write is about to append, and the card it will then show. */
  datatype Write = Write(taskId: string, event: Event, expectedSequence: nat, next: Task)

  datatype Prepared = Prepared(write: Write) | Rejected(error: Error)

  function NewTask(init: Init, at: int): Task {
    Task(init.id, init.idempotencyKey, init.details, init.dependencies, Inbox, None, [], 1, at, at, None)
  }

  function PrepareCreate(init: Init, at: int): Write {
    var task := NewTask(init, at);
    Write(task.id, Created(task), 1, task)
  }

  function Or<T>(value: Option<T>, otherwise: T): T { if value.Some? then value.value else otherwise }

  function Patched(details: Details, patch: Patch): Details {
    Details(
      Or(patch.title, details.title),
      if patch.goal.Some? then patch.goal else details.goal,
      Or(patch.acceptanceCriteria, details.acceptanceCriteria),
      Or(patch.priority, details.priority),
      Or(patch.labels, details.labels),
      if patch.deadline.Some? then patch.deadline else details.deadline,
      if patch.scheduledAt.Some? then patch.scheduledAt else details.scheduledAt)
  }

  function ApplyTransition(task: Task, to: Status, claim: Option<Claim>, at: int): Task {
    task.(
      status := to,
      version := task.version + 1,
      updatedAt := at,
      endedAt := if IsTerminal(to) then Some(at) else task.endedAt,
      claim := if to != Running then None else if claim.Some? then claim else task.claim)
  }

  /** Every write but a creation, from the card the writer has in front of it. */
  function Prepare(current: Task, command: Command, newId: nat, at: int): Prepared {
    match command
    case Transition(to, expectedVersion, claim) =>
      if expectedVersion != current.version then Rejected(VersionConflict(expectedVersion, current.version))
      else if !CanTransition(current.status, to) then Rejected(InvalidTransition(current.status, to))
      else
        var next := ApplyTransition(current, to, claim, at);
        Prepared(Write(current.id, StatusChanged(current.status, next.status, next), expectedVersion + 1, next))
    case RenewLease(leaseId, expiresAt) =>
      if !HoldsLease(current, leaseId) then Rejected(LeaseLost)
      else
        var next := current.(claim := Some(current.claim.value.(expiresAt := expiresAt)),
                  version := current.version + 1);
        Prepared(Write(current.id, LeaseRenewed(leaseId, expiresAt), current.version + 1, next))
    case Update(expectedVersion, patch) =>
      if expectedVersion != current.version then Rejected(VersionConflict(expectedVersion, current.version))
      else
        var next := current.(details := Patched(current.details, patch),
                  version := current.version + 1, updatedAt := at);
        Prepared(Write(current.id, Updated(next), current.version + 1, next))
    case AddComment(author, body) =>
      var comment := Comment(newId, author, body, at);
      var next := current.(comments := current.comments + [comment], version := current.version + 1, updatedAt := at);
      Prepared(Write(current.id, Commented(comment), current.version + 1, next))
  }

  /* ---------- streams ---------- */

  /** Equal but for the time of the last update, which folding a comment does not restore. */
  predicate Agrees(a: Task, b: Task) {
    a == b.(updatedAt := a.updatedAt)
  }

  /** A move changes status, version, times and claim alone; a task ends as it enters a terminal status. */
  predicate MovedOnly(before: Task, task: Task) {
    && task.id == before.id && task.idempotencyKey == before.idempotencyKey && task.details == before.details
    && task.dependencies == before.dependencies && task.comments == before.comments
    && task.createdAt == before.createdAt
    && task.endedAt == (if IsTerminal(task.status) then Some(task.updatedAt) else before.endedAt)
    && (task.status != Running ==> task.claim.None?)
  }

  /** An update changes details, version and the time of the last update alone. */
  predicate UpdatedOnly(before: Task, task: Task) {
    && task.id == before.id && task.idempotencyKey == before.idempotencyKey
    && task.dependencies == before.dependencies && task.comments == before.comments
    && task.status == before.status && task.claim == before.claim
    && task.createdAt == before.createdAt && task.endedAt == before.endedAt
  }

  /** What an event must be, given the card folded from the events before it. */
  predicate LegalNext(before: Option<Task>, event: Event) {
    match event
    case Created(task) =>
      && before.None? && task.version == 1 && task.status == Inbox && task.claim.None?
      && task.comments == [] && task.endedAt.None? && task.updatedAt == task.createdAt
    case StatusChanged(from, to, task) =>
      && before.Some? && from == before.value.status && CanTransition(from, to) && task.status == to
      && task.version == before.value.version + 1 && MovedOnly(before.value, task)
    case Updated(task) =>
      before.Some? && task.version == before.value.version + 1 && UpdatedOnly(before.value, task)
    case Commented(_) => before.Some?
    case LeaseRenewed(leaseId, _) => before.Some? && HoldsLease(before.value, leaseId)
  }

  predicate LegalStream(id: string, events: seq<Event>) {
    events == [] ||
    (LegalStream(id, events[..|events| - 1])
     && LegalNext(Fold(events[..|events| - 1]), events[|events| - 1])
     && Fold(events).Some? && Fold(events).value.id == id)
  }

  /** The version of a card is the length of its stream, and only a running card holds a claim. */
  lemma {:induction false} VersionIsLength(id: string, events: seq<Event>)
    requires LegalStream(id, events) && events != []
    ensures var task := Fold(events).value;
      && task.version == |events| && task.id == id
      && (task.claim.Some? ==> task.status == Running)
  {
    var before := events[..|events| - 1];
    if before != [] {
      VersionIsLength(id, before);
    }
  }

  lemma {:induction false} LegalPrefix(id: string, events: seq<Event>, n: nat)
    requires LegalStream(id, events) && n <= |events|
    ensures LegalStream(id, events[..n])
  {
    if n < |events| {
      assert events[..|events| - 1][..n] == events[..n];
      LegalPrefix(id, events[..|events| - 1], n);
    } else {
      assert events[..n] == events;
    }
  }

  lemma FoldAppend(events: seq<Event>, event: Event)
    ensures Fold(events + [event]) == FoldTask(Fold(events), event)
  {
    assert (events + [event])[..|events|] == events;
  }

  /**
   * A write prepared from a card that agrees with the stream is legal on that stream, and folds to a card
   * that agrees with the one the writer will show.
   */
  lemma PreparedIsLegal(id: string, events: seq<Event>, current: Task, command: Command, newId: nat, at: int)
    requires LegalStream(id, events) && events != [] && Agrees(current, Fold(events).value)
    requires Prepare(current, command, newId, at).Prepared?
    ensures var w := Prepare(current, command, newId, at).write;
      && w.taskId == id && w.expectedSequence == |events| + 1 && w.next.version == |events| + 1
      && LegalStream(id, events + [w.event]) && Agrees(w.next, Fold(events + [w.event]).value)
  {
    VersionIsLength(id, events);
    var w := Prepare(current, command, newId, at).write;
    FoldAppend(events, w.event);
    assert (events + [w.event])[..|events|] == events;
  }

  /** The card shown after a comment is exactly the folded one when the comment bears the time of the last update. */
  lemma CommentTime(current: Task, author: string, body: string, newId: nat, at: int)
    ensures var w := Prepare(current, AddComment(author, body), newId, at).write;
      FoldTask(Some(current), w.event) == Some(w.next) <==> at == current.updatedAt
  {
  }

  /** Every other write folds to exactly the card that is shown. */
  lemma OtherWritesFoldExactly(current: Task, command: Command, newId: nat, at: int)
    requires !command.AddComment? && Prepare(current, command, newId, at).Prepared?
    ensures var w := Prepare(current, command, newId, at).write; FoldTask(Some(current), w.event) == Some(w.next)
  {
  }

  /** Every recorded status change is a legal edge from the folded status before it. */
  lemma RecordedEdgesAreLegal(id: string, events: seq<Event>, i: nat)
    requires LegalStream(id, events) && i < |events| && events[i].StatusChanged?
    ensures i > 0 && Fold(events[..i]).Some?
    ensures events[i].from == Fold(events[..i]).value.status && CanTransition(events[i].from, events[i].to)
    ensures Fold(events[..i + 1]).value.status == events[i].to
  {
    LegalPrefix(id, events, i + 1);
    assert events[..i + 1][..i] == events[..i] && events[..i + 1][i] == events[i];
  }

  /* ---------- what a card says of its stream ---------- */

  /** The comments of a stream, in order. */
  function CommentsOf(events: seq<Event>): seq<Comment> {
    if events == [] then []
    else
      var e := events[|events| - 1];
      CommentsOf(events[..|events| - 1]) + if e.Commented? then [e.comment] else []
  }

  /** The last event of the stream that carries a whole card. */
  predicate LastCard(events: seq<Event>, i: int, kinds: Event -> bool) {
    0 <= i < |events| && kinds(events[i]) && forall j :: i < j < |events| ==> !kinds(events[j])
  }

  predicate Enters(e: Event) { e.Created? || e.StatusChanged? }

  predicate Describes(e: Event) { e.Created? || e.Updated? }

  predicate EndsTask(e: Event) { e.StatusChanged? && IsTerminal(e.to) }

  function CardOf(e: Event): Task
    requires e.Created? || e.StatusChanged? || e.Updated?
  {
    e.task
  }

  /**
   * The card of a stream: who it is and what it waits for as it was created, the details of the last update, the
   * status of the last move, the end of the last terminal one, and every comment in order.
   */
  ghost predicate TellsOf(events: seq<Event>, task: Task) {
    && |events| > 0 && events[0].Created?
    && task.id == events[0].task.id && task.idempotencyKey == events[0].task.idempotencyKey
    && task.createdAt == events[0].task.createdAt && task.dependencies == events[0].task.dependencies
    && task.comments == CommentsOf(events)
    && (forall i :: LastCard(events, i, Describes) ==> task.details == CardOf(events[i]).details)
    && (forall i :: LastCard(events, i, Enters) ==> task.status == CardOf(events[i]).status)
    && (forall i :: LastCard(events, i, EndsTask) ==> task.endedAt == Some(CardOf(events[i]).updatedAt))
    && ((forall i :: 0 <= i < |events| ==> !EndsTask(events[i])) ==> task.endedAt.None?)
    && (forall i :: 0 < i < |events| ==> !events[i].Created?)
  }

  lemma LastCardMore(front: seq<Event>, e: Event, i: int, kinds: Event -> bool)
    ensures LastCard(front + [e], i, kinds) <==> if kinds(e) then i == |front| else LastCard(front, i, kinds)
  {
    var events := front + [e];
    assert events[|front|] == e && forall j :: 0 <= j < |front| ==> events[j] == front[j];
  }

  lemma IsCard(events: seq<Event>, i: int, kinds: Event -> bool)
    ensures LastCard(events, i, kinds) ==> 0 <= i < |events|
  {
  }

  lemma {:induction false} FoldTells(id: string, events: seq<Event>)
    requires LegalStream(id, events) && events != []
    ensures TellsOf(events, Fold(events).value)
  {
    var front, e := events[..|events| - 1], events[|events| - 1];
    assert events == front + [e];
    if front == [] {
      OneTells(e);
    } else {
      FoldTells(id, front);
      hide LegalStream, Fold, TellsOf;
      TellsMore(front, e, Fold(front).value);
      FoldAppend(front, e);
      LegalLast(id, events);
    }
  }

  lemma LegalLast(id: string, events: seq<Event>)
    requires LegalStream(id, events) && events != []
    ensures LegalNext(Fold(events[..|events| - 1]), events[|events| - 1])
  {
  }

  lemma OneTells(e: Event)
    requires LegalNext(None, e)
    ensures FoldTask(None, e).Some? && TellsOf([e], FoldTask(None, e).value)
  {
    assert [e][..0] == [] && CommentsOf([]) == [];
  }

  lemma TellsMore(front: seq<Event>, e: Event, before: Task)
    requires TellsOf(front, before) && LegalNext(Some(before), e)
    ensures FoldTask(Some(before), e).Some? && TellsOf(front + [e], FoldTask(Some(before), e).value)
  {
    hide LastCard;
    var events := front + [e];
    assert forall i :: 0 <= i < |front| ==> events[i] == front[i];
    assert events[..|front|] == front && events[|front|] == e && events[0] == front[0];
    forall i
      ensures LastCard(events, i, Describes) <==> if Describes(e) then i == |front| else LastCard(front, i, Describes)
      ensures LastCard(events, i, Enters) <==> if Enters(e) then i == |front| else LastCard(front, i, Enters)
      ensures LastCard(events, i, EndsTask) <==> if EndsTask(e) then i == |front| else LastCard(front, i, EndsTask)
      ensures LastCard(front, i, Describes) || LastCard(front, i, Enters) || LastCard(front, i, EndsTask) ==>
        0 <= i < |front|
    {
      IsCard(front, i, Describes);
      IsCard(front, i, Enters);
      IsCard(front, i, EndsTask);
      LastCardMore(front, e, i, Describes);
      LastCardMore(front, e, i, Enters);
      LastCardMore(front, e, i, EndsTask);
    }
    if EndsTask(e) { assert EndsTask(events[|front|]); }
    assert forall i :: 0 <= i < |front| ==> (EndsTask(events[i]) <==> EndsTask(front[i]));
  }

  /* ---------- what each write does ---------- */

  /** When a write is refused, and with which error. */
  lemma RefusedWhen(current: Task, command: Command, newId: nat, at: int)
    ensures var p := Prepare(current, command, newId, at);
      match command
      case Transition(to, expectedVersion, _) =>
        if expectedVersion != current.version then p == Rejected(VersionConflict(expectedVersion, current.version))
        else p.Prepared? <==> to in AllowedTransitions(current.status)
      case RenewLease(leaseId, _) =>
        if current.status == Running && current.claim.Some? && current.claim.value.leaseId == leaseId then p.Prepared?
        else p == Rejected(LeaseLost)
      case Update(expectedVersion, _) =>
        if expectedVersion != current.version then p == Rejected(VersionConflict(expectedVersion, current.version))
        else p.Prepared?
      case AddComment(_, _) => p.Prepared?
    ensures command.Transition? && command.expectedVersion == current.version ==>
      !CanTransition(current.status, command.to) ==>
        Prepare(current, command, newId, at) == Rejected(InvalidTransition(current.status, command.to))
  {
  }

  /** A value of the patch is the new one; a field it leaves out stays. */
  predicate Chosen<T(==)>(wanted: Option<T>, before: T, after: T) {
    (wanted.Some? ==> after == wanted.value) && (wanted.None? ==> after == before)
  }

  predicate ChosenOption<T(==)>(wanted: Option<T>, before: Option<T>, after: Option<T>) {
    (wanted.Some? ==> after == wanted) && (wanted.None? ==> after == before)
  }

  /** The details after a patch, field by field. */
  predicate PatchedFieldwise(patch: Patch, before: Details, after: Details) {
    && Chosen(patch.title, before.title, after.title)
    && ChosenOption(patch.goal, before.goal, after.goal)
    && Chosen(patch.acceptanceCriteria, before.acceptanceCriteria, after.acceptanceCriteria)
    && Chosen(patch.priority, before.priority, after.priority)
    && Chosen(patch.labels, before.labels, after.labels)
    && ChosenOption(patch.deadline, before.deadline, after.deadline)
    && ChosenOption(patch.scheduledAt, before.scheduledAt, after.scheduledAt)
  }

  /** What a creation starts with. */
  lemma CreatedCard(init: Init, at: int)
    ensures var w := PrepareCreate(init, at);
      && w.taskId == init.id && w.expectedSequence == 1 && w.event == Created(w.next) && LegalNext(None, w.event)
      && w.next.id == init.id && w.next.idempotencyKey == init.idempotencyKey && w.next.details == init.details
      && w.next.dependencies == init.dependencies && w.next.createdAt == at
  {
  }

  /** What a write that goes through makes of the card, field by field. */
  lemma WrittenCard(current: Task, command: Command, newId: nat, at: int)
    requires Prepare(current, command, newId, at).Prepared?
    ensures var next := Prepare(current, command, newId, at).write.next;
      next.version == current.version + 1 &&
      match command
      case Transition(to, _, claim) =>
        && next.status == to && next.updatedAt == at && MovedOnly(current, next)
        && (to == Running && claim.Some? ==> next.claim == claim)
        && (to == Running && claim.None? ==> next.claim == current.claim)
        && (to in {Done, Failed, Cancelled, Archived} ==> next.endedAt == Some(at))
        && (to !in {Done, Failed, Cancelled, Archived} ==> next.endedAt == current.endedAt)
      case RenewLease(leaseId, expiresAt) =>
        && next.claim.Some? && next.claim.value.expiresAt == expiresAt && next.claim.value.leaseId == leaseId
        && next.claim.value.claimant == current.claim.value.claimant
        && next.claim.value.claimedAt == current.claim.value.claimedAt
        && next == current.(claim := next.claim, version := next.version)
      case Update(_, patch) =>
        && next.updatedAt == at && UpdatedOnly(current, next)
        && PatchedFieldwise(patch, current.details, next.details)
      case AddComment(author, body) =>
        && next.comments == current.comments + [Comment(newId, author, body, at)]
        && next == current.(comments := next.comments, version := next.version, updatedAt := at)
  {
  }
}
