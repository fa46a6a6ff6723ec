/**
 * Any number of Kanban stores over one event log. A write reads the store's own card, appends, and then
 * shows the new card; another store, or another write of the same store, may act at every step between.
 */
module KanbanStore {
  import opened Options
  import opened Chronicle
  import opened KanbanTask

  datatype Phase = Appending | Indexing

  datatype Pending = Pending(store: nat, write: Write, phase: Phase)

  /** The shown cards, and the task each idempotency key belongs to. */
  datatype Board = Board(tasks: map<string, Task>, keys: map<string, string>)

  datatype System = System(
    log: Streams<Event>, boards: map<nat, Board>, pending: map<nat, Pending>, issued: set<nat>)

  const EMPTY_BOARD := Board(map[], map[])

  function StreamId(taskId: string): string { "kanban:" + taskId }

  function Bodies(stored: seq<Stored<Event>>): (events: seq<Event>)
    ensures |events| == |stored| && forall i :: 0 <= i < |stored| ==> events[i] == stored[i].body
  {
    seq(|stored|, i requires 0 <= i < |stored| => stored[i].body)
  }

  function EventsOf(log: Streams<Event>, taskId: string): seq<Event> {
    Bodies(Stream(log, StreamId(taskId)))
  }

  function Index(board: Board, task: Task): Board {
    Board(board.tasks[task.id := task],
          if task.idempotencyKey.Some? then board.keys[task.idempotencyKey.value := task.id] else board.keys)
  }

  function BoardOf(s: System, store: nat): Board {
    if store in s.boards then s.boards[store] else EMPTY_BOARD
  }

  /** The task that a creation with this key already made, as far as the board knows. */
  function Existing(board: Board, key: Option<string>): Option<Task> {
    if key.Some? && key.value in board.keys && board.keys[key.value] in board.tasks then
      Some(board.tasks[board.keys[key.value]])
    else None
  }

  datatype Op =
    | BeginCreate(op: nat, store: nat, init: Init, at: int)
    | BeginWrite(op: nat, store: nat, taskId: string, command: Command, newId: nat, at: int)
    | DoAppend(op: nat)
    | DoIndex(op: nat)
    | Clear(store: nat)
    | Replay(store: nat, taskId: string, count: nat)

  function Do(s: System, op: Op): System {
    match op
    case BeginCreate(id, store, init, at) =>
      if id in s.issued || Existing(BoardOf(s, store), init.idempotencyKey).Some? then s
      else s.(pending := s.pending[id := Pending(store, PrepareCreate(init, at), Appending)], issued := s.issued + {id})
    case BeginWrite(id, store, taskId, command, newId, at) =>
      if id in s.issued || taskId !in BoardOf(s, store).tasks then s
      else
        (match Prepare(BoardOf(s, store).tasks[taskId], command, newId, at)
         case Rejected(_) => s
         case Prepared(write) =>
           s.(pending := s.pending[id := Pending(store, write, Appending)], issued := s.issued + {id}))
    case DoAppend(id) =>
      if id !in s.pending || s.pending[id].phase != Appending then s
      else
        var p := s.pending[id];
        (match Land(s.log, id, p.write)
         case (log, Appended(_)) => s.(log := log, pending := s.pending[id := p.(phase := Indexing)])
         case (log, Conflict(_, _)) => s.(pending := s.pending - {id}))
    case DoIndex(id) =>
      if id !in s.pending || s.pending[id].phase != Indexing then s
      else
        var p := s.pending[id];
        s.(boards := s.boards[p.store := Index(BoardOf(s, p.store), p.write.next)], pending := s.pending - {id})
    case Clear(store) => s.(boards := s.boards[store := EMPTY_BOARD])
    case Replay(store, taskId, count) =>
      var events := EventsOf(s.log, taskId);
      if count > |events| || Fold(events[..count]).None? then s
      else s.(boards := s.boards[store := Index(BoardOf(s, store), Fold(events[..count]).value)])
  }

  function Run(ops: seq<Op>): System {
    if ops == [] then System(map[], map[], map[], {}) else Do(Run(ops[..|ops| - 1]), ops[|ops| - 1])
  }

  /** What the steps of a rebuild do to a board: it is emptied, and shows one more folded card at a time. */
  lemma RebuildSteps(s: System, store: nat, taskId: string, count: nat)
    ensures BoardOf(Do(s, Clear(store)), store) == EMPTY_BOARD
    ensures var was, now := BoardOf(s, store), BoardOf(Do(s, Replay(store, taskId, count)), store);
      var events := EventsOf(s.log, taskId);
      if count <= |events| && Fold(events[..count]).Some? then Shows(was, now, Fold(events[..count]).value)
      else now == was
    ensures forall op :: op in {Clear(store), Replay(store, taskId, count)} ==>
      && Do(s, op).log == s.log && Do(s, op).pending == s.pending && Do(s, op).issued == s.issued
      && forall other: nat :: other != store ==> BoardOf(Do(s, op), other) == BoardOf(s, other)
  {
    hide Fold, EventsOf, Land, Prepare, Existing, PrepareCreate;
  }

  /** The last step of a write shows its card, and nothing else changes on any board. */
  lemma IndexingShows(s: System, id: nat)
    requires id in s.pending && s.pending[id].phase == Indexing
    ensures var store, t := s.pending[id].store, Do(s, DoIndex(id));
      && Shows(BoardOf(s, store), BoardOf(t, store), s.pending[id].write.next)
      && t.log == s.log && t.pending == s.pending - {id}
      && forall other: nat :: other != store ==> BoardOf(t, other) == BoardOf(s, other)
  {
  }

  /** One card is shown, and found by its key if it has one; the others stay. */
  predicate Shows(was: Board, now: Board, task: Task) {
    && now.tasks.Keys == was.tasks.Keys + {task.id} && now.tasks[task.id] == task
    && (forall id :: id in was.tasks && id != task.id ==> now.tasks[id] == was.tasks[id])
    && (task.idempotencyKey.Some? ==>
          task.idempotencyKey.value in now.keys && now.keys[task.idempotencyKey.value] == task.id)
    && (forall key :: key in was.keys && Some(key) != task.idempotencyKey ==>
          key in now.keys && now.keys[key] == was.keys[key])
    && (forall key :: key in now.keys ==> key in was.keys || Some(key) == task.idempotencyKey)
  }

  /* ---------- the invariant ---------- */

  /** A card shows the first `version` events of its stream. */
  predicate Reflects(log: Streams<Event>, task: Task) {
    var events := EventsOf(log, task.id);
    && 1 <= task.version <= |events|
    && Fold(events[..task.version]).Some? && Agrees(task, Fold(events[..task.version]).value)
  }

  /** A write not yet appended fits the stream as the writer saw it. */
  predicate Based(log: Streams<Event>, w: Write) {
    var events := EventsOf(log, w.taskId);
    && 1 <= w.expectedSequence <= |events| + 1 && w.next.version == w.expectedSequence && w.next.id == w.taskId
    && Fits(w, events[..w.expectedSequence - 1])
  }

  predicate Fits(w: Write, before: seq<Event>) {
    LegalStream(w.taskId, before + [w.event])
    && Agrees(w.next, Fold(before + [w.event]).value)
  }

  ghost predicate AllLegal(log: Streams<Event>) {
    forall id: string :: LegalStream(id, EventsOf(log, id))
  }

  ghost predicate LogOk(log: Streams<Event>, issued: set<nat>) {
    && AllLegal(log)
    && (forall id, i :: id in log && 0 <= i < |log[id]| ==> log[id][i].eventId in issued)
  }

  predicate BoardOk(log: Streams<Event>, board: Board) {
    forall id :: id in board.tasks ==> board.tasks[id].id == id && Reflects(log, board.tasks[id])
  }

  predicate PendingOk(log: Streams<Event>, issued: set<nat>, id: nat, p: Pending) {
    && id in issued
    && (match p.phase
        case Appending => Based(log, p.write)
        case Indexing => p.write.next.id == p.write.taskId && Reflects(log, p.write.next))
  }

  /** An event id that waits to be appended is nowhere in the log yet. */
  predicate Unused(log: Streams<Event>, id: nat) {
    forall streamId, i :: streamId in log && 0 <= i < |log[streamId]| ==> log[streamId][i].eventId != id
  }

  ghost predicate BoardsOk(log: Streams<Event>, boards: map<nat, Board>) {
    forall store :: store in boards ==> BoardOk(log, boards[store])
  }

  ghost predicate PendingsOk(log: Streams<Event>, issued: set<nat>, pending: map<nat, Pending>) {
    && (forall id :: id in pending ==> PendingOk(log, issued, id, pending[id]))
    && (forall id :: id in pending && pending[id].phase == Appending ==> Unused(log, id))
  }

  ghost predicate Inv(s: System) {
    LogOk(s.log, s.issued) && BoardsOk(s.log, s.boards) && PendingsOk(s.log, s.issued, s.pending)
  }

  /* ---------- every step keeps it ---------- */

  lemma StreamIdsDiffer(a: string, b: string)
    requires a != b
    ensures StreamId(a) != StreamId(b)
  {
    assert StreamId(a)[7..] == a && StreamId(b)[7..] == b;
  }

  lemma EventsGrow(log: Streams<Event>, later: Streams<Event>, taskId: string)
    requires Grew(log, later)
    ensures EventsOf(log, taskId) <= EventsOf(later, taskId)
  {
    GrewStream(log, later, StreamId(taskId));
  }

  lemma ReflectsGrows(log: Streams<Event>, later: Streams<Event>, task: Task)
    requires Grew(log, later) && Reflects(log, task)
    ensures Reflects(later, task)
  {
    EventsGrow(log, later, task.id);
    assert EventsOf(later, task.id)[..task.version] == EventsOf(log, task.id)[..task.version];
  }

  lemma BasedGrows(log: Streams<Event>, later: Streams<Event>, w: Write)
    requires Grew(log, later) && Based(log, w)
    ensures Based(later, w)
  {
    EventsGrow(log, later, w.taskId);
    assert EventsOf(later, w.taskId)[..w.expectedSequence - 1] == EventsOf(log, w.taskId)[..w.expectedSequence - 1];
  }

  lemma CreateIsBased(log: Streams<Event>, init: Init, at: int)
    ensures Based(log, PrepareCreate(init, at))
  {
    var w := PrepareCreate(init, at);
    assert EventsOf(log, w.taskId)[..0] + [w.event] == [w.event];
    assert [w.event][..0] == [];
  }

  /** A write prepared from a shown card fits the stream the card shows. */
  lemma CardWriteIsBased(log: Streams<Event>, board: Board, taskId: string, command: Command, newId: nat, at: int)
    requires AllLegal(log) && BoardOk(log, board) && taskId in board.tasks
    requires Prepare(board.tasks[taskId], command, newId, at).Prepared?
    ensures var w := Prepare(board.tasks[taskId], command, newId, at).write; Based(log, w) && w.taskId == taskId
  {
    var current := board.tasks[taskId];
    var events := EventsOf(log, taskId);
    assert Reflects(log, current) && LegalStream(taskId, events);
    LegalPrefix(taskId, events, current.version);
    PreparedIsLegal(taskId, events[..current.version], current, command, newId, at);
  }

  function Land(log: Streams<Event>, id: nat, w: Write): (Streams<Event>, AppendResult<Event>) {
    Append(log, StreamId(w.taskId), [NewEvent(id, w.event)], w.expectedSequence)
  }

  /** An event with an unused id lands exactly when its place is the next one, and lands nowhere else. */
  lemma LandMeans(log: Streams<Event>, id: nat, w: Write)
    requires Unused(log, id)
    ensures var (after, result) := Land(log, id, w); var events := EventsOf(log, w.taskId);
      if w.expectedSequence == |events| + 1 then
        && result.Appended? && Grew(log, after)
        && EventsOf(after, w.taskId) == events + [w.event]
        && (forall other: string :: other != w.taskId ==> EventsOf(after, other) == EventsOf(log, other))
      else after == log && result.Conflict?
  {
    var stream := Stream(log, StreamId(w.taskId));
    var (after, result) := Land(log, id, w);
    var batch := [NewEvent(id, w.event)];
    assert 1 <= w.expectedSequence <= |stream| ==> stream[w.expectedSequence - 1 + 0].eventId != batch[0].eventId;
    if result.Appended? {
      assert EventsOf(after, w.taskId) == EventsOf(log, w.taskId) + [w.event];
      forall other: string | other != w.taskId ensures EventsOf(after, other) == EventsOf(log, other) {
        StreamIdsDiffer(other, w.taskId);
      }
    }
  }

  /** The id of a landed event is the only new one in the log. */
  lemma LandedIds(log: Streams<Event>, id: nat, w: Write)
    requires Unused(log, id)
    ensures var after := Land(log, id, w).0;
      forall streamId, i :: streamId in after && 0 <= i < |after[streamId]| ==>
        (after[streamId][i].eventId == id
         || (streamId in log && i < |log[streamId]| && after[streamId][i] == log[streamId][i]))
  {
  }

  lemma LandedUnused(log: Streams<Event>, id: nat, w: Write)
    requires Unused(log, id)
    ensures forall other: nat :: other != id && Unused(log, other) ==> Unused(Land(log, id, w).0, other)
  {
    LandedIds(log, id, w);
    hide Land;
  }

  lemma LandedLegal(log: Streams<Event>, id: nat, w: Write)
    requires AllLegal(log) && Unused(log, id) && Based(log, w)
    ensures AllLegal(Land(log, id, w).0)
  {
    LandMeans(log, id, w);
    var after, events := Land(log, id, w).0, EventsOf(log, w.taskId);
    hide Land;
    if w.expectedSequence == |events| + 1 {
      assert events[..|events|] == events;
      hide LegalStream;
      forall other: string ensures LegalStream(other, EventsOf(after, other)) {
        assert other != w.taskId ==> EventsOf(after, other) == EventsOf(log, other);
      }
    }
  }

  lemma LandedLog(log: Streams<Event>, issued: set<nat>, id: nat, w: Write)
    requires LogOk(log, issued) && id in issued && Unused(log, id) && Based(log, w)
    ensures LogOk(Land(log, id, w).0, issued)
    ensures forall other: nat :: other != id && Unused(log, other) ==> Unused(Land(log, id, w).0, other)
  {
    LandedLegal(log, id, w);
    LandedIds(log, id, w);
    LandedUnused(log, id, w);
    hide Land, AllLegal, Unused;
  }

  lemma PendingFacts(s: System, id: nat)
    requires Inv(s) && id in s.pending && s.pending[id].phase == Appending
    ensures id in s.issued && Based(s.log, s.pending[id].write) && Unused(s.log, id)
  {
    assert PendingOk(s.log, s.issued, id, s.pending[id]);
  }

  lemma LandingKeepsInv(s: System, id: nat)
    requires Inv(s) && id in s.pending && s.pending[id].phase == Appending
    requires Land(s.log, id, s.pending[id].write).1.Appended?
    ensures Inv(s.(log := Land(s.log, id, s.pending[id].write).0,
                   pending := s.pending[id := s.pending[id].(phase := Indexing)]))
  {
    PendingFacts(s, id);
    var w := s.pending[id].write;
    hide LogOk, BoardsOk, PendingsOk, Unused, Based;
    LandMeans(s.log, id, w);
    hide Land;
    LandedLog(s.log, s.issued, id, w);
    LandingKeepsBoards(s.log, s.boards, id, w);
    LandingKeepsPendings(s.log, s.issued, s.pending, id);
  }

  lemma AppendKeepsInv(s: System, id: nat)
    requires Inv(s) && id in s.pending && s.pending[id].phase == Appending
    ensures Inv(Do(s, DoAppend(id)))
  {
    PendingFacts(s, id);
    LandMeans(s.log, id, s.pending[id].write);
    hide Land, LogOk, BoardsOk, Unused, Based;
    if Land(s.log, id, s.pending[id].write).1.Appended? {
      LandingKeepsInv(s, id);
    } else {
      ConflictKeepsPendings(s.log, s.issued, s.pending, id);
    }
    hide PendingsOk;
  }

  lemma LandingKeepsBoards(log: Streams<Event>, boards: map<nat, Board>, id: nat, w: Write)
    requires BoardsOk(log, boards) && Grew(log, Land(log, id, w).0)
    ensures BoardsOk(Land(log, id, w).0, boards)
  {
    hide Land, Grew;
    forall store | store in boards ensures BoardOk(Land(log, id, w).0, boards[store]) {
      BoardGrows(log, Land(log, id, w).0, boards[store]);
    }
  }

  lemma LandingKeepsPendings(log: Streams<Event>, issued: set<nat>, pending: map<nat, Pending>, id: nat)
    requires LogOk(log, issued) && PendingsOk(log, issued, pending) && id in pending && pending[id].phase == Appending
    requires Land(log, id, pending[id].write).1.Appended?
    ensures PendingsOk(Land(log, id, pending[id].write).0, issued, pending[id := pending[id].(phase := Indexing)])
  {
    var p, later := pending[id], Land(log, id, pending[id].write).0;
    assert PendingOk(log, issued, id, p) && Unused(log, id);
    LandMeans(log, id, p.write);
    LandedLog(log, issued, id, p.write);
    LandedReflects(log, later, p.write);
    assert PendingOk(later, issued, id, p.(phase := Indexing));
    hide LogOk, Reflects, Based, Land, PendingOk, Unused;
    OthersStayOk(log, later, issued, pending, id);
  }

  lemma OthersStayOk(
    log: Streams<Event>, later: Streams<Event>, issued: set<nat>, pending: map<nat, Pending>, id: nat)
    requires PendingsOk(log, issued, pending) && id in pending && Grew(log, later)
    requires PendingOk(later, issued, id, pending[id].(phase := Indexing))
    requires forall other: nat :: other != id && Unused(log, other) ==> Unused(later, other)
    ensures PendingsOk(later, issued, pending[id := pending[id].(phase := Indexing)])
  {
    hide PendingOk, Unused, Grew;
    forall other | other in pending && other != id ensures PendingOk(later, issued, other, pending[other]) {
      PendingGrows(log, later, issued, other, pending[other]);
    }
  }

  lemma ConflictKeepsPendings(log: Streams<Event>, issued: set<nat>, pending: map<nat, Pending>, id: nat)
    requires PendingsOk(log, issued, pending)
    ensures PendingsOk(log, issued, pending - {id})
  {
    hide PendingOk, Unused;
  }

  lemma BoardGrows(log: Streams<Event>, later: Streams<Event>, board: Board)
    requires Grew(log, later) && BoardOk(log, board)
    ensures BoardOk(later, board)
  {
    forall id | id in board.tasks ensures Reflects(later, board.tasks[id]) {
      ReflectsGrows(log, later, board.tasks[id]);
    }
  }

  lemma PendingGrows(log: Streams<Event>, later: Streams<Event>, issued: set<nat>, id: nat, p: Pending)
    requires Grew(log, later) && PendingOk(log, issued, id, p)
    ensures PendingOk(later, issued, id, p)
  {
    match p.phase
    case Appending => BasedGrows(log, later, p.write);
    case Indexing => ReflectsGrows(log, later, p.write.next);
  }

  lemma LandedReflects(log: Streams<Event>, later: Streams<Event>, w: Write)
    requires Based(log, w) && w.expectedSequence == |EventsOf(log, w.taskId)| + 1
    requires EventsOf(later, w.taskId) == EventsOf(log, w.taskId) + [w.event]
    ensures w.next.id == w.taskId && Reflects(later, w.next)
  {
    var events, after := EventsOf(log, w.taskId), EventsOf(later, w.taskId);
    assert events[..|events|] == events && after[..w.next.version] == after;
  }

  lemma IndexKeepsBoard(log: Streams<Event>, board: Board, task: Task)
    requires BoardOk(log, board) && Reflects(log, task)
    ensures BoardOk(log, Index(board, task))
  {
  }

  lemma ReplayReflects(s: System, taskId: string, count: nat)
    requires Inv(s) && count <= |EventsOf(s.log, taskId)| && Fold(EventsOf(s.log, taskId)[..count]).Some?
    ensures var task := Fold(EventsOf(s.log, taskId)[..count]).value; task.id == taskId && Reflects(s.log, task)
  {
    var events := EventsOf(s.log, taskId);
    LegalPrefix(taskId, events, count);
    assert count > 0;
    VersionIsLength(taskId, events[..count]);
  }

  lemma BoardIsOk(s: System, store: nat)
    requires Inv(s)
    ensures BoardOk(s.log, BoardOf(s, store))
  {
  }

  lemma NewPendingKeepsInv(s: System, id: nat, p: Pending)
    requires Inv(s) && id !in s.issued && p.phase == Appending && Based(s.log, p.write)
    ensures Inv(s.(pending := s.pending[id := p], issued := s.issued + {id}))
  {
    hide Based, Reflects, LegalStream, BoardsOk;
    forall streamId, i | streamId in s.log && 0 <= i < |s.log[streamId]| ensures s.log[streamId][i].eventId != id {
      assert s.log[streamId][i].eventId in s.issued;
    }
    assert LogOk(s.log, s.issued + {id});
    hide LogOk;
    forall other | other in s.pending ensures PendingOk(s.log, s.issued + {id}, other, s.pending[other]) {
      assert PendingOk(s.log, s.issued, other, s.pending[other]);
    }
  }

  lemma StepKeepsInv(s: System, op: Op)
    requires Inv(s)
    ensures Inv(Do(s, op))
  {
    match op
    case BeginCreate(id, store, init, at) =>
      hide Based, PrepareCreate, LogOk, Reflects;
      if id !in s.issued && Existing(BoardOf(s, store), init.idempotencyKey).None? {
        CreateIsBased(s.log, init, at);
        NewPendingKeepsInv(s, id, Pending(store, PrepareCreate(init, at), Appending));
      }
    case BeginWrite(id, store, taskId, command, newId, at) =>
      hide Based, Prepare, LogOk, Reflects;
      if id !in s.issued && taskId in BoardOf(s, store).tasks {
        if Prepare(BoardOf(s, store).tasks[taskId], command, newId, at).Prepared? {
          BoardIsOk(s, store);
          CardWriteIsBased(s.log, BoardOf(s, store), taskId, command, newId, at);
          NewPendingKeepsInv(
            s, id, Pending(store, Prepare(BoardOf(s, store).tasks[taskId], command, newId, at).write, Appending));
        }
      }
    case DoAppend(id) =>
      if id in s.pending && s.pending[id].phase == Appending {
        AppendKeepsInv(s, id);
      }
    case DoIndex(id) =>
      if id in s.pending && s.pending[id].phase == Indexing {
        var p := s.pending[id];
        assert PendingOk(s.log, s.issued, id, p);
        ShowKeepsBoards(s, p.store, p.write.next);
        ConflictKeepsPendings(s.log, s.issued, s.pending, id);
        hide LogOk, BoardsOk, PendingsOk, Index;
      }
    case Clear(store) =>
      hide LogOk, PendingsOk, Reflects;
    case Replay(store, taskId, count) =>
      var events := EventsOf(s.log, taskId);
      if count <= |events| && Fold(events[..count]).Some? {
        ReplayReflects(s, taskId, count);
        ShowKeepsBoards(s, store, Fold(events[..count]).value);
        hide LogOk, BoardsOk, PendingsOk, Index;
      }
  }

  lemma ShowKeepsBoards(s: System, store: nat, task: Task)
    requires Inv(s) && Reflects(s.log, task)
    ensures BoardsOk(s.log, s.boards[store := Index(BoardOf(s, store), task)])
  {
    BoardIsOk(s, store);
    IndexKeepsBoard(s.log, BoardOf(s, store), task);
    hide Index, BoardOk, BoardOf;
  }

  lemma {:induction false} RunKeepsInv(ops: seq<Op>)
    ensures Inv(Run(ops))
  {
    if ops != [] {
      RunKeepsInv(ops[..|ops| - 1]);
      StepKeepsInv(Run(ops[..|ops| - 1]), ops[|ops| - 1]);
    } else {
      assert forall id: string :: EventsOf(Run(ops).log, id) == [];
    }
  }

  /**
   * For any number of stores and any interleaving: every shown card equals the fold of the first `version`
   * events of its stream, the time of the last update aside, and every stream is legal, event by event.
   */
  lemma CardsShowTheLog(ops: seq<Op>)
    ensures var s := Run(ops);
      && (forall store, id :: store in s.boards && id in s.boards[store].tasks ==>
            (s.boards[store].tasks[id].id == id && Reflects(s.log, s.boards[store].tasks[id])))
      && AllLegal(s.log)
  {
    RunKeepsInv(ops);
    hide Reflects, LegalStream;
  }

  /* ---------- several writers, one truth ---------- */

  lemma StepGrows(s: System, op: Op)
    ensures Grew(s.log, Do(s, op).log)
  {
    hide Prepare, Index;
  }

  lemma {:induction false} LogGrows(ops: seq<Op>, more: seq<Op>)
    ensures Grew(Run(ops).log, Run(ops + more).log)
  {
    if more == [] {
      assert ops + more == ops;
    } else {
      var all := ops + more;
      assert all[..|all| - 1] == ops + more[..|more| - 1];
      LogGrows(ops, more[..|more| - 1]);
      hide Do;
      StepGrows(Run(all[..|all| - 1]), all[|all| - 1]);
    }
  }

  /** A write lands exactly when the stream is still as long as the version it started from. */
  lemma WriteLandsIfCurrent(s: System, id: nat)
    requires Inv(s) && id in s.pending && s.pending[id].phase == Appending
    ensures var w, t := s.pending[id].write, Do(s, DoAppend(id));
      if |EventsOf(s.log, w.taskId)| == w.expectedSequence - 1 then
        id in t.pending && EventsOf(t.log, w.taskId) == EventsOf(s.log, w.taskId) + [w.event]
      else id !in t.pending && t.log == s.log
  {
    hide Land, EventsOf, Prepare, Index, Fold, Existing, PrepareCreate, Grew, Inv;
    PendingFacts(s, id);
    LandMeans(s.log, id, s.pending[id].write);
  }

  /** Of two writes from one version, once the first has landed the second fails, however long it waits. */
  lemma OneWriterWins(ops: seq<Op>, more: seq<Op>, first: nat, second: nat)
    requires first != second && first in Run(ops).pending && second in Run(ops).pending
    requires Run(ops).pending[first].phase == Run(ops).pending[second].phase == Appending
    requires Run(ops).pending[first].write.taskId == Run(ops).pending[second].write.taskId
    requires Run(ops).pending[first].write.expectedSequence == Run(ops).pending[second].write.expectedSequence
    requires first in Run(ops + [DoAppend(first)]).pending
    requires var later := Run(ops + [DoAppend(first)] + more);
      second in later.pending && later.pending[second] == Run(ops).pending[second]
    ensures var later := Run(ops + [DoAppend(first)] + more);
      Do(later, DoAppend(second)).log == later.log && second !in Do(later, DoAppend(second)).pending
  {
    var s, later := Run(ops), Run(ops + [DoAppend(first)] + more);
    var a, b := s.pending[first].write, s.pending[second].write;
    assert (ops + [DoAppend(first)])[..|ops|] == ops;
    assert Run(ops + [DoAppend(first)]) == Do(s, DoAppend(first));
    LogGrows(ops + [DoAppend(first)], more);
    SecondWriterConflicts(
      s.log, StreamId(a.taskId), [NewEvent(first, a.event)], [NewEvent(second, b.event)],
      a.expectedSequence, later.log);
    hide Run, Append;
  }

  /* ---------- one idempotency key, several creations ---------- */

  /** A creation lands exactly when its store shows no card under its key as it begins, and its task has no events. */
  lemma CreationLands(s: System, op: nat, store: nat, init: Init, at: int)
    requires Inv(s) && op !in s.issued && op !in s.pending
    ensures var t := Do(Do(s, BeginCreate(op, store, init, at)), DoAppend(op));
      if Existing(BoardOf(s, store), init.idempotencyKey).None? && EventsOf(s.log, init.id) == [] then
        && EventsOf(t.log, init.id) == [PrepareCreate(init, at).event]
        && op in t.pending && t.pending[op] == Pending(store, PrepareCreate(init, at), Indexing)
      else t.log == s.log
  {
    var begun := BeginCreate(op, store, init, at);
    StepKeepsInv(s, begun);
    if Existing(BoardOf(s, store), init.idempotencyKey).None? {
      CreationBegins(s, op, store, init, at);
      WriteLandsIfCurrent(Do(s, begun), op);
      AppendMeans(Do(s, begun), op);
    }
    hide Inv, Existing, EventsOf, Land;
  }

  lemma CreationBegins(s: System, op: nat, store: nat, init: Init, at: int)
    requires op !in s.issued && Existing(BoardOf(s, store), init.idempotencyKey).None?
    ensures var t := Do(s, BeginCreate(op, store, init, at)); var w := PrepareCreate(init, at);
      && t.log == s.log && t.boards == s.boards && t.issued == s.issued + {op}
      && t.pending == s.pending[op := Pending(store, w, Appending)]
      && w.taskId == init.id && w.expectedSequence == 1
  {
    hide Existing;
  }

  lemma AppendMeans(s: System, op: nat)
    requires op in s.pending && s.pending[op].phase == Appending
    ensures var t := Do(s, DoAppend(op)); var p := s.pending[op];
      && t.boards == s.boards && t.issued == s.issued
      && (op in t.pending ==> t.pending == s.pending[op := p.(phase := Indexing)])
  {
    hide Land;
  }

  /** A landed write changes the stream of its own task and no other. */
  lemma AppendTouchesOne(s: System, op: nat, other: string)
    requires Inv(s) && op in s.pending && s.pending[op].phase == Appending && other != s.pending[op].write.taskId
    ensures EventsOf(Do(s, DoAppend(op)).log, other) == EventsOf(s.log, other)
  {
    hide Land, EventsOf, Prepare, Index, Fold, Existing, PrepareCreate, Grew, Inv;
    PendingFacts(s, op);
    LandMeans(s.log, op, s.pending[op].write);
  }

  /**
   * Two creations with one key, of different tasks, that both begin before either has its card shown: both
   * tasks are created exactly when neither store shows a card under the key as they begin.
   */
  lemma OverlappingCreations(
    s: System, first: nat, second: nat, a: nat, b: nat, one: Init, two: Init, at: int, later: int)
    requires Inv(s) && first != second && {first, second} !! s.issued && {first, second} !! s.pending.Keys
    requires one.id != two.id && one.idempotencyKey == two.idempotencyKey
    requires EventsOf(s.log, one.id) == [] == EventsOf(s.log, two.id)
    ensures var begun := Do(Do(s, BeginCreate(first, a, one, at)), BeginCreate(second, b, two, later));
      var t := Do(Do(begun, DoAppend(first)), DoAppend(second));
      EventsOf(t.log, one.id) != [] && EventsOf(t.log, two.id) != [] <==>
        Existing(BoardOf(s, a), one.idempotencyKey).None? && Existing(BoardOf(s, b), one.idempotencyKey).None?
  {
    hide Inv, Existing, EventsOf, Do, PrepareCreate;
    var s1 := Do(s, BeginCreate(first, a, one, at));
    var begun := Do(s1, BeginCreate(second, b, two, later));
    var mid := Do(begun, DoAppend(first));
    BeginsOrNot(s, first, a, one, at);
    BeginsOrNot(s1, second, b, two, later);
    StepKeepsInv(s, BeginCreate(first, a, one, at));
    StepKeepsInv(s1, BeginCreate(second, b, two, later));
    StepKeepsInv(begun, DoAppend(first));
    LandsOrNot(begun, first, two.id);
    LandsOrNot(mid, second, one.id);
  }

  lemma BeginsOrNot(s: System, op: nat, store: nat, init: Init, at: int)
    requires op !in s.issued && op !in s.pending
    ensures var t := Do(s, BeginCreate(op, store, init, at));
      && t.log == s.log && t.boards == s.boards && t.issued <= s.issued + {op}
      && (if Existing(BoardOf(s, store), init.idempotencyKey).None? then
            t.pending == s.pending[op := Pending(store, PrepareCreate(init, at), Appending)]
          else t == s)
    ensures PrepareCreate(init, at).taskId == init.id && PrepareCreate(init, at).expectedSequence == 1
  {
    hide Existing;
  }

  lemma LandsOrNot(s: System, op: nat, other: string)
    requires Inv(s)
    ensures var t := Do(s, DoAppend(op));
      && t.boards == s.boards
      && (forall id :: id in s.pending && id != op ==> id in t.pending && t.pending[id] == s.pending[id])
      && (forall id :: id !in s.pending ==> id !in t.pending)
      && if op in s.pending && s.pending[op].phase == Appending then
           var w := s.pending[op].write;
           && (other != w.taskId ==> EventsOf(t.log, other) == EventsOf(s.log, other))
           && (|EventsOf(s.log, w.taskId)| == w.expectedSequence - 1 ==>
                 EventsOf(t.log, w.taskId) == EventsOf(s.log, w.taskId) + [w.event])
         else t == s
  {
    hide Inv, Land, EventsOf, Prepare, Index, Fold, Existing, PrepareCreate, Grew;
    if op in s.pending && s.pending[op].phase == Appending {
      PendingFacts(s, op);
      LandMeans(s.log, op, s.pending[op].write);
    }
  }

  /**
   * When the first of them has its card shown before the second begins, the second is created too exactly when
   * it is asked of another store, which shows no card under the key.
   */
  lemma SuccessiveCreations(
    s: System, first: nat, second: nat, a: nat, b: nat, one: Init, two: Init, at: int, later: int)
    requires Inv(s) && first != second && {first, second} !! s.issued && {first, second} !! s.pending.Keys
    requires one.id != two.id && one.idempotencyKey == two.idempotencyKey && one.idempotencyKey.Some?
    requires EventsOf(s.log, one.id) == [] == EventsOf(s.log, two.id)
    requires Existing(BoardOf(s, a), one.idempotencyKey).None?
    ensures var shown := Do(Do(Do(s, BeginCreate(first, a, one, at)), DoAppend(first)), DoIndex(first));
      var t := Do(Do(shown, BeginCreate(second, b, two, later)), DoAppend(second));
      EventsOf(t.log, two.id) != [] <==> b != a && Existing(BoardOf(s, b), one.idempotencyKey).None?
  {
    hide Inv, Existing, EventsOf, Do, PrepareCreate, Index, BoardOf;
    var s1 := Do(s, BeginCreate(first, a, one, at));
    var s2 := Do(s1, DoAppend(first));
    var shown := Do(s2, DoIndex(first));
    CreationLands(s, first, a, one, at);
    BeginsOrNot(s, first, a, one, at);
    StepKeepsInv(s, BeginCreate(first, a, one, at));
    LandsOrNot(s1, first, two.id);
    IssuedOnly(s, first, a, one, at);
    StepKeepsInv(s1, DoAppend(first));
    StepKeepsInv(s2, DoIndex(first));
    IndexMeans(s2, first);
    ShownFor(s, s2, shown, first, a, b, one, at);
    CreationLands(shown, second, b, two, later);
  }

  lemma IssuedOnly(s: System, op: nat, store: nat, init: Init, at: int)
    ensures var t := Do(Do(s, BeginCreate(op, store, init, at)), DoAppend(op));
      t.issued <= s.issued + {op} && t.boards == s.boards
  {
    hide Existing, Land;
  }

  /** Once the card of the first creation is shown, its store knows the key, and the other stores what they knew. */
  lemma ShownFor(s: System, s2: System, shown: System, op: nat, a: nat, b: nat, init: Init, at: int)
    requires s2.boards == s.boards && init.idempotencyKey.Some?
    requires shown.boards == s2.boards[a := Index(BoardOf(s2, a), PrepareCreate(init, at).next)]
    ensures Existing(BoardOf(shown, b), init.idempotencyKey).None? <==>
      b != a && Existing(BoardOf(s, b), init.idempotencyKey).None?
  {
    ShownIsFound(BoardOf(s2, a), PrepareCreate(init, at).next, init.idempotencyKey);
    hide Existing, Index;
  }

  lemma IndexMeans(s: System, op: nat)
    requires op in s.pending && s.pending[op].phase == Indexing
    ensures var t := Do(s, DoIndex(op)); var p := s.pending[op];
      && t.log == s.log && t.issued == s.issued && t.pending == s.pending - {op}
      && t.boards == s.boards[p.store := Index(BoardOf(s, p.store), p.write.next)]
  {
    hide Index;
  }

  lemma ShownIsFound(board: Board, task: Task, key: Option<string>)
    requires key.Some? && task.idempotencyKey == key
    ensures Existing(Index(board, task), key) == Some(task)
  {
  }
}
