/**
 * The event stream of one thread and the histories folded from it. Digests are the digested histories
 * themselves, ids are numbers, and events that no fold reads (deltas, model requests) carry no payload.
 */
module ThreadLog {
  import opened Options

  datatype Call = Call(callId: nat, toolId: nat, input: string, inputError: Option<string>)

  datatype Message =
    | User(content: string)
    | System(content: string)
    | Assistant(content: string, calls: seq<Call>)
    | Tool(callId: nat, toolId: nat, content: string, isError: Option<bool>)

  datatype Result = Result(content: string, isError: Option<bool>)

  datatype Role = UserRole | SystemRole | AssistantRole

  datatype Item =
    | MessageItem(id: nat, role: Role, content: string, calls: seq<Call>)
    | ToolItem(id: nat, call: Call, result: Result)
    | ApprovalItem(id: nat, approvalId: nat, callId: nat, pending: bool)

  /** The durable summary of a history prefix. */
  datatype Compaction = Compaction(summary: string, count: nat, digest: seq<Message>)

  datatype Status = Active | Completed | Failed | Cancelled

  datatype Event =
    | TurnStarted(turn: nat)
    | TurnEnded(turn: nat, status: Status)
    | ItemStarted(turn: nat, item: Item)
    | ItemCompleted(turn: nat, item: Item)
    | ItemFailed(turn: nat, itemId: nat)
    | Checkpoint(turn: nat, stepIndex: nat, digest: seq<Message>)
    | Compacted(turn: nat, view: Compaction)
    | ModelRequested(turn: nat, visible: seq<Message>, cap: nat)
    | RecoveryFailed(turn: nat)

  /** The message a completed item stands for, if any. */
  function ItemMessages(item: Item): seq<Message> {
    match item
    case MessageItem(_, UserRole, content, _) => [User(content)]
    case MessageItem(_, SystemRole, content, _) => [System(content)]
    case MessageItem(_, AssistantRole, content, calls) => [Assistant(content, calls)]
    case ToolItem(_, call, result) => [Tool(call.callId, call.toolId, result.content, result.isError)]
    case ApprovalItem(_, _, _, _) => []
  }

  function EventMessages(event: Event): seq<Message> {
    if event.ItemCompleted? then ItemMessages(event.item) else []
  }

  function Messages(events: seq<Event>): seq<Message> {
    if events == [] then [] else Messages(events[..|events| - 1]) + EventMessages(events[|events| - 1])
  }

  function OfTurn(events: seq<Event>, t: nat): seq<Event> {
    if events == [] then []
    else OfTurn(events[..|events| - 1], t) + if events[|events| - 1].turn == t then [events[|events| - 1]] else []
  }

  /** Where the turn started. */
  function StartIndex(log: seq<Event>, t: nat): (r: Option<nat>)
    ensures r.Some? ==> r.value < |log|
  {
    if log == [] then None
    else
      var before := StartIndex(log[..|log| - 1], t);
      if before.Some? then before
      else if log[|log| - 1] == TurnStarted(t) then Some(|log| - 1) else None
  }

  /** The last checkpoint of the turn. */
  function LastCheckpoint(log: seq<Event>, t: nat): (r: Option<nat>)
    ensures r.Some? ==> r.value < |log| && log[r.value].Checkpoint?
  {
    if log == [] then None
    else if log[|log| - 1].Checkpoint? && log[|log| - 1].turn == t then Some(|log| - 1)
    else LastCheckpoint(log[..|log| - 1], t)
  }

  function Carried(log: seq<Event>, t: nat): seq<Message> {
    var start := StartIndex(log, t);
    if start.Some? then Messages(log[..start.value]) else []
  }

  function TurnMessages(log: seq<Event>, t: nat): seq<Message> { Messages(OfTurn(log, t)) }

  /** What a rebuild makes of the whole log: the messages from before the turn, then the turn's own. */
  function Live(log: seq<Event>, t: nat): seq<Message> { Carried(log, t) + TurnMessages(log, t) }

  /** What a rebuild returns: the turn's own messages only up to its last checkpoint. */
  function Committed(log: seq<Event>, t: nat): seq<Message> {
    var last := LastCheckpoint(log, t);
    Carried(log, t) + if last.Some? then TurnMessages(log[..last.value + 1], t) else []
  }

  /** The turn's messages that are in the log but after its last checkpoint. */
  function Orphans(log: seq<Event>, t: nat): seq<Message> {
    var last := LastCheckpoint(log, t);
    TurnMessages(if last.Some? then log[last.value + 1..] else log, t)
  }

  /* ---------- how the folds grow ---------- */

  lemma {:induction false} StartMeans(log: seq<Event>, t: nat)
    ensures var r := StartIndex(log, t);
      if r.Some? then log[r.value] == TurnStarted(t) && TurnStarted(t) !in log[..r.value] else TurnStarted(t) !in log
  {
    if log != [] {
      var front := log[..|log| - 1];
      StartMeans(front, t);
      var r := StartIndex(log, t);
      assert log == front + [log[|log| - 1]];
      assert r.Some? ==> log[..r.value] == front[..r.value];
    }
  }

  lemma {:induction false} LastMeans(log: seq<Event>, t: nat)
    ensures var r := LastCheckpoint(log, t);
      && (r.Some? ==> log[r.value].turn == t)
      && forall i :: 0 <= i < |log| && log[i].Checkpoint? && log[i].turn == t ==> r.Some? && i <= r.value
  {
    if log != [] {
      LastMeans(log[..|log| - 1], t);
    }
  }

  lemma MessagesStep(events: seq<Event>, e: Event)
    ensures Messages(events + [e]) == Messages(events) + EventMessages(e)
  {
    assert (events + [e])[..|events|] == events;
  }

  lemma Associate<T>(a: seq<T>, b: seq<T>, c: seq<T>)
    ensures a + b + c == a + (b + c)
  {
  }

  lemma NoMessages()
    ensures Messages([]) == []
  {
  }

  lemma {:induction false} MessagesSplit(a: seq<Event>, b: seq<Event>)
    ensures Messages(a + b) == Messages(a) + Messages(b)
  {
    hide Messages, EventMessages;
    if b == [] {
      assert a + b == a;
      NoMessages();
    } else {
      var front, e := b[..|b| - 1], b[|b| - 1];
      MessagesSplit(a, front);
      MessagesStep(front, e);
      MessagesStep(a + front, e);
      assert b == front + [e] && a + b == a + front + [e];
      Associate(Messages(a), Messages(front), EventMessages(e));
    }
  }

  lemma {:induction false} OfTurnSplit(a: seq<Event>, b: seq<Event>, t: nat)
    ensures OfTurn(a + b, t) == OfTurn(a, t) + OfTurn(b, t)
  {
    if b == [] {
      assert a + b == a;
    } else {
      var front := b[..|b| - 1];
      OfTurnSplit(a, front, t);
      assert (a + b)[..|a + b| - 1] == a + front;
    }
  }

  lemma TurnMessagesSplit(a: seq<Event>, b: seq<Event>, t: nat)
    ensures TurnMessages(a + b, t) == TurnMessages(a, t) + TurnMessages(b, t)
  {
    OfTurnSplit(a, b, t);
    MessagesSplit(OfTurn(a, t), OfTurn(b, t));
  }

  lemma {:induction false} StartStays(a: seq<Event>, b: seq<Event>, t: nat)
    requires StartIndex(a, t).Some?
    ensures StartIndex(a + b, t) == StartIndex(a, t) && Carried(a + b, t) == Carried(a, t)
  {
    if b == [] {
      assert a + b == a;
    } else {
      var front := b[..|b| - 1];
      StartStays(a, front, t);
      assert (a + b)[..|a + b| - 1] == a + front;
      var start := StartIndex(a, t).value;
      assert (a + b)[..start] == a[..start];
    }
  }

  /** The live history of a started turn grows by what its own events say. */
  lemma LiveSplit(a: seq<Event>, b: seq<Event>, t: nat)
    requires StartIndex(a, t).Some?
    ensures Live(a + b, t) == Live(a, t) + TurnMessages(b, t)
  {
    StartStays(a, b, t);
    TurnMessagesSplit(a, b, t);
    hide StartIndex, Carried, TurnMessages;
    Associate(Carried(a, t), TurnMessages(a, t), TurnMessages(b, t));
  }

  lemma OneMessage(e: Event, t: nat)
    requires e.turn == t
    ensures TurnMessages([e], t) == EventMessages(e)
  {
    assert [e][..0] == [];
    assert OfTurn([e], t) == [] + [e];
    assert Messages([e]) == [] + EventMessages(e);
  }

  lemma LiveStep(log: seq<Event>, e: Event, t: nat)
    requires StartIndex(log, t).Some? && e.turn == t
    ensures Live(log + [e], t) == Live(log, t) + EventMessages(e)
    ensures StartIndex(log + [e], t) == StartIndex(log, t)
  {
    hide *;
    StartStays(log, [e], t);
    LiveSplit(log, [e], t);
    OneMessage(e, t);
  }

  /** The log of a turn is what a rebuild commits to, and the orphans after it. */
  lemma LiveIsCommittedAndOrphans(log: seq<Event>, t: nat)
    requires StartIndex(log, t).Some?
    ensures Live(log, t) == Committed(log, t) + Orphans(log, t)
  {
    hide Carried, TurnMessages, StartIndex, LastCheckpoint;
    var last := LastCheckpoint(log, t);
    if last.Some? {
      var until, since := log[..last.value + 1], log[last.value + 1..];
      assert log == until + since;
      TurnMessagesSplit(until, since, t);
      Associate(Carried(log, t), TurnMessages(until, t), TurnMessages(since, t));
    } else {
      Associate(Carried(log, t), [], TurnMessages(log, t));
      assert [] + TurnMessages(log, t) == TurnMessages(log, t);
    }
  }

  lemma {:induction false} NothingOfTurn(events: seq<Event>, t: nat)
    requires forall e :: e in events ==> e.turn != t
    ensures OfTurn(events, t) == []
  {
    if events != [] {
      NothingOfTurn(events[..|events| - 1], t);
    }
  }

  lemma {:induction false} AllOfTurn(events: seq<Event>, t: nat)
    requires forall e :: e in events ==> e.turn == t
    ensures OfTurn(events, t) == events
  {
    if events != [] {
      AllOfTurn(events[..|events| - 1], t);
    }
  }

  /** From its start on, the log belongs to this turn alone. */
  predicate OnlySince(log: seq<Event>, t: nat) {
    var start := StartIndex(log, t);
    start.Some?
    && (forall i :: 0 <= i < start.value ==> log[i].turn != t)
    && (forall i :: start.value <= i < |log| ==> log[i].turn == t)
  }

  /** With no other turn after its start, the live history of a turn is the fold of the whole log. */
  lemma LiveIsThread(log: seq<Event>, t: nat)
    requires OnlySince(log, t)
    ensures Live(log, t) == Messages(log)
  {
    hide Messages, OfTurn, StartIndex;
    var start := StartIndex(log, t).value;
    TurnIsRest(log, t, start);
    MessagesSplit(log[..start], log[start..]);
    assert log == log[..start] + log[start..];
    hide Messages, OfTurn, StartIndex;
  }

  lemma TurnIsRest(log: seq<Event>, t: nat, start: nat)
    requires start <= |log|
    requires forall i :: 0 <= i < start ==> log[i].turn != t
    requires forall i :: start <= i < |log| ==> log[i].turn == t
    ensures OfTurn(log, t) == log[start..]
  {
    var before, since := log[..start], log[start..];
    assert log == before + since;
    OfTurnSplit(before, since, t);
    NothingOfTurn(before, t);
    AllOfTurn(since, t);
    hide OfTurn;
    assert [] + since == since;
  }

  /* ---------- checkpoints ---------- */

  /** The digest recorded at an index is that of the history folded from the log up to it. */
  predicate Replays(log: seq<Event>, i: nat)
    requires i < |log| && log[i].Checkpoint?
  {
    log[i].digest == Live(log[..i + 1], log[i].turn)
  }

  /** Every checkpoint from an index on replays exactly when `ok` holds. */
  ghost predicate Replay(log: seq<Event>, from: nat, ok: bool) {
    forall i :: from <= i < |log| && log[i].Checkpoint? ==> (Replays(log, i) <==> ok)
  }

  lemma ReplaysLater(log: seq<Event>, e: Event, i: nat)
    requires i < |log| && log[i].Checkpoint?
    ensures Replays(log + [e], i) <==> Replays(log, i)
  {
    hide Live;
    assert (log + [e])[..i + 1] == log[..i + 1];
  }

  lemma ReplayStep(log: seq<Event>, from: nat, ok: bool, e: Event)
    requires Replay(log, from, ok)
    requires e.Checkpoint? ==> (Replays(log + [e], |log|) <==> ok)
    ensures Replay(log + [e], from, ok)
  {
    hide Replays;
    forall i | from <= i < |log| && log[i].Checkpoint? ensures Replays(log + [e], i) <==> ok {
      ReplaysLater(log, e, i);
    }
  }

  lemma LivePlain(log: seq<Event>, e: Event, t: nat)
    requires StartIndex(log, t).Some? && e.turn == t && EventMessages(e) == []
    ensures Live(log + [e], t) == Live(log, t) && StartIndex(log + [e], t) == StartIndex(log, t)
  {
    hide *;
    LiveStep(log, e, t);
  }

  lemma CheckpointAdds(log: seq<Event>, t: nat, step: nat, digest: seq<Message>)
    requires StartIndex(log, t).Some?
    ensures var e := Checkpoint(t, step, digest);
      Live(log + [e], t) == Live(log, t) && (Replays(log + [e], |log|) <==> digest == Live(log, t))
  {
    hide Live, StartIndex;
    var e := Checkpoint(t, step, digest);
    LivePlain(log, e, t);
    assert (log + [e])[..|log| + 1] == log + [e];
  }

  /** A rebuild of a turn whose last checkpoint replays finds the digest that was recorded. */
  lemma ReplayedIsCommitted(log: seq<Event>, t: nat, i: nat)
    requires LastCheckpoint(log, t) == Some(i) && StartIndex(log, t).Some? && StartIndex(log, t).value < i
    ensures Replays(log, i) <==> Committed(log, t) == log[i].digest
  {
    LastMeans(log, t);
    CarriedEarly(log, t, i + 1);
    LiveThen(log, t, i);
    hide *;
  }

  lemma LiveThen(log: seq<Event>, t: nat, i: nat)
    requires i < |log| && log[i].Checkpoint? && log[i].turn == t && LastCheckpoint(log, t) == Some(i)
    requires Carried(log[..i + 1], t) == Carried(log, t)
    ensures Replays(log, i) <==> Committed(log, t) == log[i].digest
  {
    hide Carried, TurnMessages, LastCheckpoint;
  }

  lemma CarriedEarly(log: seq<Event>, t: nat, n: nat)
    requires StartIndex(log, t).Some? && StartIndex(log, t).value < n <= |log|
    ensures Carried(log[..n], t) == Carried(log, t)
  {
    hide *;
    assert log == log[..n] + log[n..];
    StartedEarly(log, t, n);
    StartStays(log[..n], log[n..], t);
  }

  lemma StartedEarly(log: seq<Event>, t: nat, n: nat)
    requires StartIndex(log, t).Some? && StartIndex(log, t).value < n <= |log|
    ensures StartIndex(log[..n], t).Some?
  {
    StartMeans(log, t);
    StartMeans(log[..n], t);
    assert log[..n][StartIndex(log, t).value] == TurnStarted(t);
  }

  /* ---------- calls and answers ---------- */

  predicate Asking(m: Message) { m.Assistant? && m.calls != [] }

  /** The call lists of the assistant messages that call tools, in order. */
  function Asks(h: seq<Message>): seq<seq<Call>> {
    if h == [] then [] else Asks(h[..|h| - 1]) + if Asking(h[|h| - 1]) then [h[|h| - 1].calls] else []
  }

  function Answers(h: seq<Message>): set<nat> { set m | m in h && m.Tool? :: m.callId }

  /** The ids of the calls in some call lists. */
  function Ids(asks: seq<seq<Call>>): set<nat> { set calls, c | calls in asks && c in calls :: c.callId }

  function AllButLast<T>(s: seq<T>): seq<T> { if s == [] then [] else s[..|s| - 1] }

  /** The calls of a history that it holds no answer to. */
  function Open(h: seq<Message>): set<nat> { Ids(Asks(h)) - Answers(h) }

  /** Those among them that no step takes up again, because a later message calls tools. */
  function Missed(h: seq<Message>): set<nat> { Ids(AllButLast(Asks(h))) - Answers(h) }

  /** Every call is answered but for those of the last message that calls tools. */
  predicate Tidy(h: seq<Message>) { Missed(h) == {} }

  /**
   * What a log knows of a history: it gained the calls that the history gained since it was taken up, it has at
   * least its answers, and it had the calls of what was kept.
   */
  predicate Covers(kept: seq<Message>, was: seq<Message>, logged: seq<Message>, h: seq<Message>) {
    && Asks(kept) <= Asks(h) && Asks(logged) == Asks(was) + Asks(h)[|Asks(kept)|..]
    && Answers(h) + Answers(was) <= Answers(logged) && Ids(Asks(kept)) <= Ids(Asks(was))
  }

  /** The calls of a thread that a history taken up from it has passed over, or does not know of. */
  function Unknown(kept: seq<Message>, was: seq<Message>): set<nat> {
    Missed(kept) + (Ids(Asks(was)) - Ids(Asks(kept)))
  }

  /** Once another message called tools, what is missed is what was unknown, but for what was answered since. */
  predicate PassesOver(was: seq<Message>, now: seq<Message>, unknown: set<nat>) {
    Missed(now) == (if |Asks(now)| > |Asks(was)| then unknown else Missed(was)) - Answers(now)
  }

  predicate ToolsOnly(ms: seq<Message>) { forall m :: m in ms ==> m.Tool? }

  lemma AsksStep(h: seq<Message>, m: Message)
    ensures Asks(h + [m]) == Asks(h) + if Asking(m) then [m.calls] else []
    ensures Answers(h + [m]) == Answers(h) + if m.Tool? then {m.callId} else {}
  {
    assert (h + [m])[..|h|] == h;
    assert forall x :: x in h + [m] <==> x in h || x == m;
  }

  lemma NothingAsked()
    ensures Asks([]) == [] && Answers([]) == {}
  {
  }

  lemma {:induction false} ToolsAskNothing(h: seq<Message>, ms: seq<Message>)
    requires ToolsOnly(ms)
    ensures Asks(h + ms) == Asks(h) && Answers(h) <= Answers(h + ms)
    ensures forall m :: m in ms ==> m.callId in Answers(h + ms)
  {
    hide Asks, Answers;
    if ms == [] {
      assert h + ms == h;
    } else {
      var front, m := ms[..|ms| - 1], ms[|ms| - 1];
      assert m in ms && forall x :: x in front ==> x in ms;
      ToolsAskNothing(h, front);
      AsksStep(h + front, m);
      assert h + ms == h + front + [m];
      assert forall x :: x in ms ==> x in front || x == m;
    }
  }

  lemma {:induction false} AsksSplit(a: seq<Message>, b: seq<Message>)
    ensures Asks(a + b) == Asks(a) + Asks(b) && Answers(a + b) == Answers(a) + Answers(b)
  {
    hide Asks, Answers;
    if b == [] {
      NothingAsked();
      assert a + b == a;
    } else {
      var front, m := b[..|b| - 1], b[|b| - 1];
      AsksSplit(a, front);
      AsksStep(a + front, m);
      AsksStep(front, m);
      assert a + b == a + front + [m] && b == front + [m];
      Associate(Asks(a), Asks(front), if Asking(m) then [m.calls] else []);
    }
  }

  lemma IdsSplit(a: seq<seq<Call>>, b: seq<seq<Call>>)
    ensures Ids(a + b) == Ids(a) + Ids(b)
  {
    assert forall calls :: calls in a + b <==> calls in a || calls in b;
  }

  /** More answers only take calls away from those missed. */
  lemma ToolsKeepMissed(h: seq<Message>, ms: seq<Message>)
    requires ToolsOnly(ms)
    ensures Missed(h + ms) <= Missed(h)
  {
    ToolsAskNothing(h, ms);
  }

  /** A log that covers a history with nothing newly missed passes over only what was unknown. */
  lemma CoversPassesOver(kept: seq<Message>, was: seq<Message>, logged: seq<Message>, h: seq<Message>)
    requires Covers(kept, was, logged, h) && Missed(h) <= Missed(kept)
    ensures PassesOver(was, logged, Unknown(kept, was))
  {
    hide Asks, Answers, Ids;
    var more := Asks(h)[|Asks(kept)|..];
    assert Asks(h) == Asks(kept) + more;
    if more == [] {
      assert Asks(logged) == Asks(was);
    } else {
      var rest := more[..|more| - 1];
      assert AllButLast(Asks(h)) == Asks(kept) + rest;
      assert AllButLast(Asks(logged)) == Asks(was) + rest;
      IdsSplit(Asks(kept), rest);
      IdsSplit(Asks(was), rest);
      MissedAmong(Asks(kept));
      PassedSets(Ids(Asks(kept)), Ids(Asks(was)), Ids(rest), Missed(kept), Answers(h), Answers(logged));
    }
  }

  lemma PassedSets<T>(kept: set<T>, was: set<T>, rest: set<T>, missed: set<T>, lived: set<T>, logged: set<T>)
    requires missed <= kept <= was && lived <= logged && kept + rest - lived <= missed
    ensures was + rest - logged == missed + (was - kept) - logged
  {
    forall x | x in kept + rest - logged ensures x in missed {
      assert x in kept + rest - lived;
    }
  }

  lemma MissedAmong(asks: seq<seq<Call>>)
    ensures Ids(AllButLast(asks)) <= Ids(asks)
  {
  }

  /** Answers logged in another order, or more of them, still cover. */
  lemma CoversTools(
    kept: seq<Message>, was: seq<Message>, logged: seq<Message>, h: seq<Message>, added: seq<Message>,
    results: seq<Message>)
    requires Covers(kept, was, logged, h) && ToolsOnly(added) && ToolsOnly(results)
    requires multiset(results) <= multiset(added)
    ensures Covers(kept, was, logged + added, h + results)
  {
    ToolsAskNothing(logged, added);
    ToolsAskNothing(h, results);
    forall id | id in Answers(h + results) ensures id in Answers(logged + added) {
      var m :| m in h + results && m.Tool? && m.callId == id;
      if m in h {
        assert id in Answers(h);
      } else {
        assert multiset(results)[m] > 0;
        assert m in added;
      }
    }
  }

  lemma CoversSame(kept: seq<Message>, was: seq<Message>, logged: seq<Message>, h: seq<Message>, more: seq<Message>)
    requires Covers(kept, was, logged, h)
    ensures Covers(kept, was, logged + more, h + more)
  {
    AsksSplit(logged, more);
    AsksSplit(h, more);
    hide Asks, Answers, Ids;
    assert (Asks(h) + Asks(more))[|Asks(kept)|..] == Asks(h)[|Asks(kept)|..] + Asks(more);
  }

  /** A log covers what is taken up from it. */
  lemma CoversTaken(kept: seq<Message>, was: seq<Message>)
    requires forall m :: m in kept ==> m in was
    ensures Covers(kept, was, was, kept)
  {
    forall id | id in Ids(Asks(kept)) ensures id in Ids(Asks(was)) {
      AskedBy(kept);
      AskedBy(was);
      var calls, c :| calls in Asks(kept) && c in calls && c.callId == id;
      assert calls in Asks(was);
    }
    hide Asks;
    assert Asks(kept)[|Asks(kept)|..] == [];
  }

  lemma {:induction false} AskedBy(h: seq<Message>)
    ensures forall calls :: calls in Asks(h) <==> exists m :: m in h && Asking(m) && m.calls == calls
  {
    if h != [] {
      var front, last := h[..|h| - 1], h[|h| - 1];
      AskedBy(front);
      forall calls ensures calls in Asks(h) <==> exists m :: m in h && Asking(m) && m.calls == calls {
        assert h == front + [last];
        if m :| m in h && Asking(m) && m.calls == calls {
          assert m in front || m == last;
        }
        if calls in Asks(front) {
          var m :| m in front && Asking(m) && m.calls == calls;
          assert m in h;
        }
        assert last in h;
      }
    }
  }

  /** A message that calls tools leaves behind what was open; any other one misses nothing more. */
  lemma PushMisses(h: seq<Message>, m: Message)
    ensures Missed(h + [m]) <= if Asking(m) then Open(h) else Missed(h)
  {
    AsksStep(h, m);
  }

  /** The calls a step loop takes up again: those of the last asking message that have no answer. */
  function Unanswered(h: seq<Message>): seq<Call> {
    var asks := Asks(h);
    if asks == [] then [] else Without(asks[|asks| - 1], Answers(h))
  }

  function Without(calls: seq<Call>, ids: set<nat>): (r: seq<Call>)
    ensures forall c :: c in r <==> c in calls && c.callId !in ids
  {
    if calls == [] then []
    else Without(calls[..|calls| - 1], ids) + if calls[|calls| - 1].callId in ids then [] else [calls[|calls| - 1]]
  }

  /** What is left of some calls is in their order, each as often as it was there. */
  lemma {:induction false} WithoutMeans(a: seq<Call>, b: seq<Call>, ids: set<nat>)
    ensures Without(a + b, ids) == Without(a, ids) + Without(b, ids)
  {
    hide Without;
    if b == [] {
      assert a + b == a;
      WithoutOne([], ids);
    } else {
      var front, last := b[..|b| - 1], b[|b| - 1];
      WithoutMeans(a, front, ids);
      WithoutLast(a + front, last, ids);
      WithoutLast(front, last, ids);
      assert a + b == a + front + [last] && b == front + [last];
    }
  }

  lemma WithoutLast(calls: seq<Call>, last: Call, ids: set<nat>)
    ensures Without(calls + [last], ids) == Without(calls, ids) + if last.callId in ids then [] else [last]
  {
    assert (calls + [last])[..|calls|] == calls;
  }

  lemma WithoutOne(calls: seq<Call>, ids: set<nat>)
    requires |calls| <= 1
    ensures Without(calls, ids) == if calls != [] && calls[0].callId in ids then [] else calls
  {
    if calls != [] { assert calls[..0] == []; }
  }

  lemma NoneUnanswered(h: seq<Message>)
    requires Unanswered(h) == []
    ensures Open(h) == Missed(h)
  {
    OpenSplits(h);
  }

  /** What is open was missed, or is in the last message that calls tools. */
  lemma OpenSplits(h: seq<Message>)
    ensures Missed(h) <= Open(h)
    ensures forall id :: id in Open(h) - Missed(h) ==> exists c :: c in Unanswered(h) && c.callId == id
  {
    hide Without, Asks, Answers;
    var asks := Asks(h);
    if asks != [] {
      assert asks == AllButLast(asks) + [asks[|asks| - 1]];
      IdsSplit(AllButLast(asks), [asks[|asks| - 1]]);
      forall id | id in Open(h) - Missed(h) ensures exists c :: c in Unanswered(h) && c.callId == id {
        var c: Call :| c in asks[|asks| - 1] && c.callId == id;
        assert c in Unanswered(h);
      }
    }
  }

  /** Answering what was unanswered leaves nothing open but what had been missed. */
  lemma AnsweringSettles(h: seq<Message>, calls: seq<Call>, results: seq<Message>)
    requires calls == Unanswered(h) && |results| == |calls| && ToolsOnly(results)
    requires forall i :: 0 <= i < |calls| ==> results[i].callId == calls[i].callId
    ensures Open(h + results) <= Missed(h)
  {
    hide Asks, Without, Unanswered, Missed, Answers, Ids;
    ToolsAskNothing(h, results);
    OpenSplits(h);
    forall id | id in Open(h) - Missed(h) ensures id in Answers(h + results) {
      var c: Call :| c in calls && c.callId == id;
      var i :| 0 <= i < |calls| && calls[i] == c;
      assert results[i] in results;
    }
  }

  /** All calls of a message just pushed are answered by as many results. */
  lemma AnsweringAll(h: seq<Message>, m: Message, results: seq<Message>)
    requires m.Assistant? && |results| == |m.calls| && ToolsOnly(results)
    requires forall i :: 0 <= i < |m.calls| ==> results[i].callId == m.calls[i].callId
    ensures Open(h + [m] + results) <= Open(h)
  {
    AsksStep(h, m);
    ToolsAskNothing(h + [m], results);
    hide Asks, Answers;
    forall c: Call | c in m.calls ensures c.callId in Answers(h + [m] + results) {
      var i :| 0 <= i < |m.calls| && m.calls[i] == c;
      assert results[i] in results;
    }
    if Asking(m) {
      IdsSplit(Asks(h), [m.calls]);
    }
  }

  /* ---------- summaries ---------- */

  /** A summary describes a history when what it covers is the beginning of it. */
  predicate Applies(c: Compaction, h: seq<Message>) {
    c.count <= |h| && h[..c.count] == c.digest
  }

  /** The newest summary of the log that describes the history. */
  function Loaded(log: seq<Event>, h: seq<Message>): Option<Compaction> {
    if log == [] then None
    else
      var e := log[|log| - 1];
      if e.Compacted? && Applies(e.view, h) then Some(e.view) else Loaded(log[..|log| - 1], h)
  }

  function Newest(log: seq<Event>): Option<Compaction> {
    if log == [] then None
    else if log[|log| - 1].Compacted? then Some(log[|log| - 1].view) else Newest(log[..|log| - 1])
  }

  predicate AllApply(log: seq<Event>, h: seq<Message>) {
    forall i :: 0 <= i < |log| && log[i].Compacted? ==> Applies(log[i].view, h)
  }

  lemma {:induction false} LoadedIsNewest(log: seq<Event>, h: seq<Message>)
    requires AllApply(log, h)
    ensures Loaded(log, h) == Newest(log)
  {
    if log != [] && !log[|log| - 1].Compacted? {
      LoadedIsNewest(log[..|log| - 1], h);
    }
  }

  /** A summary that describes the history, and none after it does. */
  predicate LastApplying(log: seq<Event>, h: seq<Message>, i: int) {
    && 0 <= i < |log| && log[i].Compacted? && Applies(log[i].view, h)
    && forall j :: i < j < |log| && log[j].Compacted? ==> !Applies(log[j].view, h)
  }

  lemma {:induction false} LoadedMeans(log: seq<Event>, h: seq<Message>)
    ensures forall i :: LastApplying(log, h, i) ==> Loaded(log, h) == Some(log[i].view)
    ensures Loaded(log, h).None? <==> forall i :: 0 <= i < |log| && log[i].Compacted? ==> !Applies(log[i].view, h)
  {
    hide Applies;
    if log != [] {
      var front := log[..|log| - 1];
      LoadedMeans(front, h);
      assert forall i :: LastApplying(log, h, i) && i < |front| ==> LastApplying(front, h, i);
    }
  }

  lemma AppliesLonger(c: Compaction, h: seq<Message>, more: seq<Message>)
    requires Applies(c, h)
    ensures Applies(c, h + more)
  {
    assert (h + more)[..c.count] == h[..c.count];
  }
}
