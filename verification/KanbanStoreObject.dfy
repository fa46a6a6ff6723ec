/**
 * The Kanban store as an object over a shared Chronicle store, its rebuild, and the tool that walks a task
 * along the shortest legal path. Each method is one uninterrupted call here.
 */
module KanbanStoreObject {
  import opened Options
  import opened Chronicle
  import opened KanbanTask
  import opened KanbanStore
  import TransitionPath

  datatype Outcome = Ok(task: Task) | Err(error: Error)

  class ChronicleKanbanStore {
    const chronicle: MemoryChronicleStore<Event>
    var tasks: map<string, Task>
    var keys: map<string, string>

    constructor (chronicle: MemoryChronicleStore<Event>)
      ensures this.chronicle == chronicle && Abs() == EMPTY_BOARD
    {
      this.chronicle := chronicle;
      tasks, keys := map[], map[];
    }

    ghost function Abs(): Board
      reads this
    {
      Board(tasks, keys)
    }

    ghost predicate Valid()
      reads this, chronicle
    {
      && chronicle.Valid()
      && AllLegal(chronicle.streams)
      && BoardOk(chronicle.streams, Abs())
    }

    /** Puts a card on the board, under its id and its idempotency key. */
    method Show(task: Task)
      modifies this
      ensures Abs() == Index(old(Abs()), task)
    {
      tasks := tasks[task.id := task];
      if task.idempotencyKey.Some? {
        keys := keys[task.idempotencyKey.value := task.id];
      }
    }

    /** Appends one event and shows the new card, or leaves everything as it was. */
    method Commit(w: Write, eventId: nat) returns (landed: bool)
      requires Valid() && Unused(chronicle.streams, eventId) && Based(chronicle.streams, w)
      modifies this, chronicle
      ensures Valid() && Grew(old(chronicle.streams), chronicle.streams)
      ensures landed <==> w.expectedSequence == |EventsOf(old(chronicle.streams), w.taskId)| + 1
      ensures chronicle.streams == Land(old(chronicle.streams), eventId, w).0
      ensures Abs() == if landed then Index(old(Abs()), w.next) else old(Abs())
    {
      ghost var log, board := chronicle.streams, Abs();
      LandMeans(log, eventId, w);
      LandedLegal(log, eventId, w);
      var result := chronicle.AppendEvents(StreamId(w.taskId), [NewEvent(eventId, w.event)], w.expectedSequence);
      hide Append;
      BoardGrows(log, chronicle.streams, board);
      if result.Conflict? {
        return false;
      }
      LandedReflects(log, chronicle.streams, w);
      IndexKeepsBoard(chronicle.streams, board, w.next);
      Show(w.next);
      return true;
    }

    /** Creates a task, unless the idempotency key already has one, which is then the answer. */
    method Create(init: Init, at: int, eventId: nat) returns (r: Outcome)
      requires Valid() && Unused(chronicle.streams, eventId)
      modifies this, chronicle
      ensures Valid() && Grew(old(chronicle.streams), chronicle.streams)
      ensures var known := Existing(old(Abs()), init.idempotencyKey); var w := PrepareCreate(init, at);
        if known.Some? then r == Ok(known.value) && chronicle.streams == old(chronicle.streams) && Abs() == old(Abs())
        else if EventsOf(old(chronicle.streams), init.id) == [] then
          r == Ok(w.next) && EventsOf(chronicle.streams, init.id) == [w.event] && Abs() == Index(old(Abs()), w.next)
        else r == Err(SequenceConflict) && chronicle.streams == old(chronicle.streams) && Abs() == old(Abs())
    {
      hide AllLegal, BoardOk, Unused, Based, Grew, EventsOf, Index;
      if init.idempotencyKey.Some? && init.idempotencyKey.value in keys && keys[init.idempotencyKey.value] in tasks {
        GrewNot(chronicle.streams);
        return Ok(tasks[keys[init.idempotencyKey.value]]);
      }
      var w := PrepareCreate(init, at);
      CreateIsBased(chronicle.streams, init, at);
      var landed := CommitNext(w, eventId);
      return if landed then Ok(w.next) else Err(SequenceConflict);
    }

    /** Transitions, lease renewals, updates and comments: each starts from the shown card. */
    method Perform(taskId: string, command: Command, newId: nat, at: int, eventId: nat) returns (r: Outcome)
      requires Valid() && Unused(chronicle.streams, eventId)
      modifies this, chronicle
      ensures Valid() && Grew(old(chronicle.streams), chronicle.streams)
      ensures Performed(old(chronicle.streams), old(Abs()), taskId, command, newId, at, r, chronicle.streams, Abs())
      ensures forall other: nat :: other != eventId && Unused(old(chronicle.streams), other) ==>
        Unused(chronicle.streams, other)
    {
      ghost var log, board := chronicle.streams, Abs();
      assert Grew(log, log);
      hide *;
      if taskId !in tasks {
        RefusedIsPerformed(log, board, taskId, command, newId, at);
        return Err(NotFound);
      }
      var prepared := Prepare(tasks[taskId], command, newId, at);
      if prepared.Rejected? {
        RefusedIsPerformed(log, board, taskId, command, newId, at);
        return Err(prepared.error);
      }
      CardWriteIsBased(chronicle.streams, Abs(), taskId, command, newId, at);
      var landed := CommitNext(prepared.write, eventId);
      CommittedIsPerformed(log, board, taskId, command, newId, at, landed, chronicle.streams, Abs());
      return if landed then Ok(prepared.write.next) else Err(SequenceConflict);
    }

    /**
     * Walks the task along the shortest legal path to a status, one durable event a hop. An unreachable
     * status is refused with the error of the direct transition, and a card behind its stream conflicts.
     */
    method TransitionAlongPath(id: string, to: Status, at: int, eventIds: nat)
      returns (r: Outcome, ghost hops: seq<Status>)
      requires Valid() && forall k: nat :: eventIds <= k ==> Unused(chronicle.streams, k)
      modifies this, chronicle
      ensures Valid() && Grew(old(chronicle.streams), chronicle.streams)
      ensures id !in old(tasks) ==> r == Err(NotFound)
      ensures id in old(tasks) ==>
        var from := old(tasks)[id].status;
        var before, after := EventsOf(old(chronicle.streams), id), EventsOf(chronicle.streams, id);
        && IsShortest(from, to, hops)
        && (r.Ok? ==> Walked(old(tasks)[id], hops, before, after, r.task) && r.task.status == to)
        && (r.Ok? <==> Reachable(from, to) && (from == to || old(tasks)[id].version == |before|))
        && (!Reachable(from, to) ==> r == Err(InvalidTransition(from, to)) && after == before)
    {
      hops := [];
      if id !in tasks {
        return Err(NotFound), [];
      }
      var task := tasks[id];
      TableIsTotal();
      var path := TransitionPath.ShortestTransitionPath(Between(task.status, to));
      PathIsShortest(task.status, to, path);
      ghost var before := EventsOf(chronicle.streams, id);
      if path.None? {
        r := TakeHop(id, task, to, at, eventIds);
        return r, [];
      }
      hops := path.value;
      PathEnds(task.status, to, path.value);
      PathIsLegal(task.status, to, path.value);
      ShownOnce(chronicle.streams, Abs(), id);
      hide IsShortest, LegalHops, Grew, Unused, TransitionPath.Shortest, TransitionPath.Permitted;
      r := WalkPath(id, task, path.value, at, eventIds);
      if r.Ok? {
        WalkedStatus(task, path.value, before, EventsOf(chronicle.streams, id), r.task);
      }
      return r, path.value;
    }

    /** Takes the hops one by one; each is based on the card the one before it showed. */
    method WalkPath(id: string, task: Task, hops: seq<Status>, at: int, eventIds: nat) returns (r: Outcome)
      requires Valid() && forall k: nat :: eventIds <= k ==> Unused(chronicle.streams, k)
      requires id in tasks && tasks[id] == task && task.id == id
      requires LegalHops(task.status, hops)
      modifies this, chronicle
      ensures Valid() && Grew(old(chronicle.streams), chronicle.streams)
      ensures r.Ok? ==>
        Walked(task, hops, EventsOf(old(chronicle.streams), id), EventsOf(chronicle.streams, id), r.task)
      ensures r.Ok? <==> hops == [] || task.version == |EventsOf(old(chronicle.streams), id)|
    {
      hide AllLegal, BoardOk, Unused, Grew, Walked, LegalHops, CanTransition, EventsOf;
      var current := task;
      ghost var before := EventsOf(chronicle.streams, id);
      GrewNot(chronicle.streams);
      NoHopYet(task, before);
      for k := 0 to |hops|
        invariant Valid() && forall j: nat :: eventIds + k <= j ==> Unused(chronicle.streams, j)
        invariant Grew(old(chronicle.streams), chronicle.streams)
        invariant id in tasks && tasks[id] == current
        invariant Walked(task, hops[..k], before, EventsOf(chronicle.streams, id), current)
        invariant k > 0 ==> task.version == |before|
      {
        var hop := hops[k];
        NextHop(task, hops, k, before, EventsOf(chronicle.streams, id), current);
        ghost var log := chronicle.streams;
        r := TakeHop(id, current, hop, at, eventIds + k);
        GrewOn(old(chronicle.streams), log, chronicle.streams);
        if r.Err? {
          return;
        }
        WalkOn(task, hops, k, before, EventsOf(log, id), current, r.task);
        current := r.task;
      }
      assert hops[..|hops|] == hops;
      return Ok(current);
    }

    /** One hop from the shown card: legal and current it lands, otherwise it changes nothing. */
    method TakeHop(id: string, card: Task, hop: Status, at: int, eventId: nat) returns (r: Outcome)
      requires Valid() && Unused(chronicle.streams, eventId)
      requires id in tasks && tasks[id] == card && card.id == id
      modifies this, chronicle
      ensures Valid() && Grew(old(chronicle.streams), chronicle.streams)
      ensures forall other: nat :: other != eventId && Unused(old(chronicle.streams), other) ==>
        Unused(chronicle.streams, other)
      ensures CanTransition(card.status, hop) && card.version == |EventsOf(old(chronicle.streams), id)| ==>
        && r.Ok? && r.task.id == id && r.task.status == hop && r.task.version == card.version + 1
        && id in tasks && tasks[id] == r.task
        && EventsOf(chronicle.streams, id) ==
           EventsOf(old(chronicle.streams), id) + [StatusChanged(card.status, hop, r.task)]
      ensures !CanTransition(card.status, hop) || card.version != |EventsOf(old(chronicle.streams), id)| ==>
        && r.Err? && chronicle.streams == old(chronicle.streams) && Abs() == old(Abs())
        && (!CanTransition(card.status, hop) ==> r == Err(InvalidTransition(card.status, hop)))
    {
      ghost var log, board := chronicle.streams, Abs();
      hide Performed, AllLegal, BoardOk, Prepare, Unused, Grew;
      r := Perform(id, Transition(hop, card.version, None), 0, at, eventId);
      HopMeans(log, board, id, hop, at, r, chronicle.streams, Abs());
    }

    /** A commit, with what it does to the log spelled out. */
    method CommitNext(w: Write, eventId: nat) returns (landed: bool)
      requires Valid() && Unused(chronicle.streams, eventId) && Based(chronicle.streams, w)
      modifies this, chronicle
      ensures Valid() && Grew(old(chronicle.streams), chronicle.streams)
      ensures landed <==> w.expectedSequence == |EventsOf(old(chronicle.streams), w.taskId)| + 1
      ensures !landed ==> chronicle.streams == old(chronicle.streams) && Abs() == old(Abs())
      ensures landed ==>
        && EventsOf(chronicle.streams, w.taskId) == EventsOf(old(chronicle.streams), w.taskId) + [w.event]
        && Abs() == Index(old(Abs()), w.next)
      ensures forall other: nat :: other != eventId && Unused(old(chronicle.streams), other) ==>
        Unused(chronicle.streams, other)
    {
      LandMeans(chronicle.streams, eventId, w);
      LandedUnused(chronicle.streams, eventId, w);
      hide Land, Unused, Based, Index;
      landed := Commit(w, eventId);
    }

    /** Folds every task stream of the log into a card, whatever the board showed before. */
    method Rebuild()
      requires Valid()
      modifies this
      ensures Valid() && Rebuilt(chronicle.streams, Abs())
    {
      tasks, keys := map[], map[];
      ghost var log := chronicle.streams;
      var order := chronicle.order;
      assert order[..0] == [];
      NothingRebuilt(log);
      hide AllLegal, BoardOk, KeysOk, IsTaskStream, Fold, Index, RebuiltUpto, Rebuilt;
      for n := 0 to |order|
        invariant chronicle.streams == log && chronicle.order == order && chronicle.Valid() && AllLegal(log)
        invariant RebuiltUpto(log, Abs(), order[..n])
      {
        assert order[..n + 1] == order[..n] + [order[n]];
        if !IsTaskStream(order[n]) {
          SkipStream(log, Abs(), order[..n], order[n]);
          continue;
        }
        var task := FoldStream(chronicle.streams[order[n]]);
        AddStream(log, Abs(), order[..n], order[n]);
        Show(task.value);
      }
      assert order[..|order|] == order;
      AllRebuilt(log, Abs(), order);
    }

    method FoldStream(stream: seq<Stored<Event>>) returns (task: Option<Task>)
      ensures task == Fold(Bodies(stream))
    {
      task := None;
      for k := 0 to |stream|
        invariant task == Fold(Bodies(stream)[..k])
      {
        assert Bodies(stream)[..k + 1][..k] == Bodies(stream)[..k];
        task := FoldTask(task, stream[k].body);
      }
      assert Bodies(stream)[..|stream|] == Bodies(stream);
    }
  }

  predicate IsTaskStream(streamId: string) { |streamId| >= 7 && streamId[..7] == "kanban:" }

  /** Every key leads to a shown task that carries it, and every key a shown task carries leads somewhere. */
  predicate KeysOk(board: Board) {
    && (forall key :: key in board.keys ==>
          board.keys[key] in board.tasks && board.tasks[board.keys[key]].idempotencyKey == Some(key))
    && (forall id :: id in board.tasks && board.tasks[id].idempotencyKey.Some? ==>
          board.tasks[id].idempotencyKey.value in board.keys)
  }

  /** The board shows exactly the tasks that have events, each as the fold of all of them. */
  ghost predicate Rebuilt(log: Streams<Event>, board: Board) {
    && (forall id: string :: id in board.tasks <==> EventsOf(log, id) != [])
    && (forall id :: id in board.tasks ==> Fold(EventsOf(log, id)) == Some(board.tasks[id]))
    && KeysOk(board)
  }

  /** The board after replaying some of the streams. */
  ghost predicate RebuiltUpto(log: Streams<Event>, board: Board, ids: seq<string>) {
    && (forall id: string :: id in board.tasks <==> StreamId(id) in ids)
    && (forall id :: id in board.tasks ==> Fold(EventsOf(log, id)) == Some(board.tasks[id]))
    && KeysOk(board) && BoardOk(log, board)
  }

  lemma NothingRebuilt(log: Streams<Event>)
    ensures RebuiltUpto(log, EMPTY_BOARD, [])
  {
  }

  lemma SkipStream(log: Streams<Event>, board: Board, ids: seq<string>, streamId: string)
    requires RebuiltUpto(log, board, ids) && !IsTaskStream(streamId)
    ensures RebuiltUpto(log, board, ids + [streamId])
  {
    forall id: string ensures StreamId(id) != streamId {
      assert IsTaskStream(StreamId(id));
    }
    hide KeysOk, BoardOk;
  }

  lemma AddStream(log: Streams<Event>, board: Board, ids: seq<string>, streamId: string)
    requires RebuiltUpto(log, board, ids) && AllLegal(log) && IsTaskStream(streamId) && streamId !in ids
    requires streamId in log && log[streamId] != []
    ensures var task := Fold(Bodies(log[streamId]));
      task.Some? && RebuiltUpto(log, Index(board, task.value), ids + [streamId])
  {
    var id := streamId[7..];
    assert StreamId(id) == streamId;
    ShownFold(log, id);
    var task := Fold(EventsOf(log, id)).value;
    assert id !in board.tasks;
    IndexKeepsBoard(log, board, task);
    IndexKeepsKeys(log, board, task);
    hide KeysOk, BoardOk, Reflects, Fold, AllLegal;
    forall other: string ensures StreamId(other) == streamId <==> other == id {
      if other != id { StreamIdsDiffer(other, id); }
    }
  }

  lemma AllRebuilt(log: Streams<Event>, board: Board, ids: seq<string>)
    requires RebuiltUpto(log, board, ids)
    requires forall id :: id in ids <==> id in log
    requires forall id :: id in log ==> log[id] != []
    ensures Rebuilt(log, board) && BoardOk(log, board)
  {
    hide KeysOk, BoardOk;
    forall id: string ensures id in board.tasks <==> EventsOf(log, id) != [] {
      assert StreamId(id) in ids <==> StreamId(id) in log;
    }
  }

  lemma ShownFold(log: Streams<Event>, id: string)
    requires AllLegal(log) && EventsOf(log, id) != []
    ensures Fold(EventsOf(log, id)).Some? && Fold(EventsOf(log, id)).value.id == id
    ensures Reflects(log, Fold(EventsOf(log, id)).value)
  {
    assert LegalStream(id, EventsOf(log, id));
    VersionIsLength(id, EventsOf(log, id));
    assert EventsOf(log, id)[..|EventsOf(log, id)|] == EventsOf(log, id);
  }

  lemma IndexKeepsKeys(log: Streams<Event>, board: Board, task: Task)
    requires KeysOk(board) && task.id !in board.tasks
    ensures KeysOk(Index(board, task))
  {
  }

  ghost predicate Reachable(from: Status, to: Status) {
    from == to || exists hops :: TransitionPath.Permitted(Between(from, to), hops)
  }

  ghost predicate IsShortest(from: Status, to: Status, hops: seq<Status>) {
    if from == to || !Reachable(from, to) then hops == [] else TransitionPath.Shortest(Between(from, to), hops)
  }

  lemma PathIsShortest(from: Status, to: Status, path: Option<seq<Status>>)
    requires from == to ==> path == Some([])
    requires from != to && path.Some? ==> TransitionPath.Shortest(Between(from, to), path.value)
    requires path.None? ==> forall hops :: !TransitionPath.Permitted(Between(from, to), hops)
    ensures path.Some? <==> Reachable(from, to)
    ensures IsShortest(from, to, if path.Some? then path.value else [])
    ensures path.None? ==> !CanTransition(from, to)
  {
    if path.None? && CanTransition(from, to) {
      TableIsTotal();
      assert ([from] + [to])[1] == to;
      assert TransitionPath.Permitted(Between(from, to), [to]);
    }
  }

  /** One status change for each hop, and the version raised by their number. */
  predicate Walked(task: Task, hops: seq<Status>, before: seq<Event>, after: seq<Event>, now: Task) {
    && now.id == task.id && now.version == task.version + |hops|
    && now.status == ([task.status] + hops)[|hops|]
    && before <= after && |after| == |before| + |hops|
    && forall i :: |before| <= i < |after| ==>
         && after[i].StatusChanged? && after[i].to == hops[i - |before|]
         && after[i].from == ([task.status] + hops)[i - |before|]
  }

  lemma WalkOn(task: Task, hops: seq<Status>, k: nat, before: seq<Event>, after: seq<Event>, now: Task, next: Task)
    requires k < |hops| && Walked(task, hops[..k], before, after, now)
    requires next.id == now.id && next.version == now.version + 1 && next.status == hops[k]
    ensures Walked(task, hops[..k + 1], before, after + [StatusChanged(now.status, hops[k], next)], next)
  {
    var more := hops[..k + 1];
    assert forall i :: 0 <= i <= k ==> ([task.status] + more)[i] == ([task.status] + hops[..k])[i];
    assert ([task.status] + more)[k + 1] == hops[k];
  }

  lemma NoHopYet(task: Task, before: seq<Event>)
    ensures Walked(task, [], before, before, task)
  {
  }

  lemma GrewOn(log: Streams<Event>, later: Streams<Event>, latest: Streams<Event>)
    requires Grew(log, later) && Grew(later, latest)
    ensures Grew(log, latest)
  {
  }

  lemma GrewNot(log: Streams<Event>)
    ensures Grew(log, log)
  {
  }

  lemma WalkedStatus(task: Task, hops: seq<Status>, before: seq<Event>, after: seq<Event>, now: Task)
    requires Walked(task, hops, before, after, now)
    ensures now.status == ([task.status] + hops)[|hops|] && now.id == task.id
    ensures now.version == task.version + |hops| && |after| == |before| + |hops|
  {
  }

  /** The next hop from where the walk has come is legal. */
  lemma NextHop(task: Task, hops: seq<Status>, k: nat, before: seq<Event>, after: seq<Event>, now: Task)
    requires k < |hops| && Walked(task, hops[..k], before, after, now) && LegalHops(task.status, hops)
    ensures CanTransition(now.status, hops[k]) && now.id == task.id
    ensures now.version == task.version + k && |after| == |before| + k
  {
    hide CanTransition;
    assert ([task.status] + hops)[k] == ([task.status] + hops[..k])[k];
  }

  predicate LegalHops(from: Status, hops: seq<Status>) {
    forall k :: 0 <= k < |hops| ==> CanTransition(([from] + hops)[k], hops[k])
  }

  lemma PathIsLegal(from: Status, to: Status, hops: seq<Status>)
    requires from == to ==> hops == []
    requires from != to ==> TransitionPath.Permitted(Between(from, to), hops)
    ensures LegalHops(from, hops)
  {
    TableIsTotal();
    var walk := [from] + hops;
    assert from != to ==> TransitionPath.Walk(Between(from, to), walk);
    forall k | 0 <= k < |hops| ensures CanTransition(walk[k], hops[k]) {
      assert TransitionPath.Hop(Between(from, to), walk[k], walk[k + 1]);
    }
  }

  lemma PathEnds(from: Status, to: Status, hops: seq<Status>)
    requires from == to ==> hops == []
    requires from != to ==> TransitionPath.Permitted(Between(from, to), hops)
    ensures ([from] + hops)[|hops|] == to && (hops == [] <==> from == to)
  {
    hide TransitionPath.Walk;
  }

  lemma ShownOnce(log: Streams<Event>, board: Board, id: string)
    requires BoardOk(log, board) && id in board.tasks
    ensures board.tasks[id].id == id && board.tasks[id].version <= |EventsOf(log, id)|
  {
  }

  /** A hop from the shown card: legal and current it lands, otherwise it changes nothing. */
  lemma HopMeans(
    log: Streams<Event>, board: Board, id: string, hop: Status, at: int,
    r: Outcome, logAfter: Streams<Event>, boardAfter: Board)
    requires id in board.tasks && board.tasks[id].id == id
    requires Performed(log, board, id, Transition(hop, board.tasks[id].version, None), 0, at, r, logAfter, boardAfter)
    ensures var card := board.tasks[id];
      if CanTransition(card.status, hop) && card.version == |EventsOf(log, id)| then
        && r.Ok? && r.task.id == id && r.task.status == hop && r.task.version == card.version + 1
        && id in boardAfter.tasks && boardAfter.tasks[id] == r.task
        && EventsOf(logAfter, id) == EventsOf(log, id) + [StatusChanged(card.status, hop, r.task)]
      else
        && r.Err? && logAfter == log && boardAfter == board
        && (!CanTransition(card.status, hop) ==> r == Err(InvalidTransition(card.status, hop)))
  {
  }

  lemma RefusedIsPerformed(log: Streams<Event>, board: Board, taskId: string, command: Command, newId: nat, at: int)
    ensures taskId !in board.tasks ==>
      Performed(log, board, taskId, command, newId, at, Err(NotFound), log, board)
    ensures taskId in board.tasks && Prepare(board.tasks[taskId], command, newId, at).Rejected? ==>
      var error := Prepare(board.tasks[taskId], command, newId, at).error;
      Performed(log, board, taskId, command, newId, at, Err(error), log, board)
  {
    hide Prepare, EventsOf;
  }

  lemma CommittedIsPerformed(
    log: Streams<Event>, board: Board, taskId: string, command: Command, newId: nat, at: int,
    landed: bool, logAfter: Streams<Event>, boardAfter: Board)
    requires taskId in board.tasks && Prepare(board.tasks[taskId], command, newId, at).Prepared?
    requires var w := Prepare(board.tasks[taskId], command, newId, at).write;
      && (landed <==> w.expectedSequence == |EventsOf(log, taskId)| + 1)
      && (!landed ==> logAfter == log && boardAfter == board)
      && (landed ==>
            EventsOf(logAfter, taskId) == EventsOf(log, taskId) + [w.event] && boardAfter == Index(board, w.next))
    ensures var w := Prepare(board.tasks[taskId], command, newId, at).write;
      Performed(log, board, taskId, command, newId, at,
                if landed then Ok(w.next) else Err(SequenceConflict), logAfter, boardAfter)
  {
    hide Prepare, EventsOf, Index;
  }

  /** What a write does: rejected or in conflict it changes nothing, otherwise one event and the new card. */
  predicate Performed(
    log: Streams<Event>, board: Board, taskId: string, command: Command, newId: nat, at: int,
    r: Outcome, logAfter: Streams<Event>, boardAfter: Board)
  {
    var refusal :=
      if taskId !in board.tasks then Some(NotFound)
      else
        match Prepare(board.tasks[taskId], command, newId, at)
        case Rejected(error) => Some(error)
        case Prepared(w) =>
          if w.expectedSequence == |EventsOf(log, taskId)| + 1 then None else Some(SequenceConflict);
    if refusal.Some? then r == Err(refusal.value) && logAfter == log && boardAfter == board
    else
      var w := Prepare(board.tasks[taskId], command, newId, at).write;
      && r == Ok(w.next) && boardAfter == Index(board, w.next)
      && EventsOf(logAfter, taskId) == EventsOf(log, taskId) + [w.event]
  }
}
