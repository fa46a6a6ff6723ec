/**
 * What a rebuild reads besides messages: the status of a turn and the approval it waits for; and what a
 * whole call of the loop leaves behind in the log.
 */
module TurnRecords {
  import opened Options
  import opened ThreadLog
  import opened ParallelBatch

  datatype Pending = Pending(approvalId: nat, approvalItem: nat, toolItem: nat, call: Call)

  /** The status of a turn from its events: an end wins over the start. */
  function FoundTurn(events: seq<Event>): Option<Status> {
    if events == [] then None
    else
      var e, before := events[|events| - 1], FoundTurn(events[..|events| - 1]);
      if e.TurnEnded? then Some(e.status)
      else if e.TurnStarted? && before.None? then Some(Active)
      else before
  }

  function CompletedIds(events: seq<Event>): set<nat> {
    set e | e in events && e.ItemCompleted? :: e.item.id
  }

  /** The last tool item started for a call and not completed. */
  function OpenTool(events: seq<Event>, done: set<nat>, callId: nat): (r: Option<Item>)
    ensures r.Some? ==> r.value.ToolItem? && r.value.call.callId == callId
  {
    if events == [] then None
    else
      var e := events[|events| - 1];
      if e.ItemStarted? && e.item.ToolItem? && e.item.id !in done && e.item.call.callId == callId then Some(e.item)
      else OpenTool(events[..|events| - 1], done, callId)
  }

  /** An approval asked for and not decided, for a call whose tool item is open. */
  function Waiting(events: seq<Event>, e: Event): Option<Pending> {
    var done := CompletedIds(events);
    if e.ItemStarted? && e.item.ApprovalItem? && e.item.id !in done && e.item.pending then
      var tool := OpenTool(events, done, e.item.callId);
      if tool.Some? then
        Some(Pending(e.item.approvalId, e.item.id, tool.value.id, tool.value.call.(inputError := None)))
      else None
    else None
  }

  /** The first such approval among the first n events. */
  function FirstWaiting(events: seq<Event>, n: nat): Option<Pending>
    requires n <= |events|
  {
    if n == 0 then None
    else if FirstWaiting(events, n - 1).Some? then FirstWaiting(events, n - 1)
    else Waiting(events, events[n - 1])
  }

  /** The last event of some kind. */
  predicate LastOf(events: seq<Event>, i: int, kind: Event -> bool) {
    0 <= i < |events| && kind(events[i]) && forall j :: i < j < |events| ==> !kind(events[j])
  }

  lemma LastOfMore(front: seq<Event>, e: Event, i: int, kind: Event -> bool)
    ensures LastOf(front + [e], i, kind) <==> if kind(e) then i == |front| else LastOf(front, i, kind)
  {
    var events := front + [e];
    assert events[|front|] == e && forall j :: 0 <= j < |front| ==> events[j] == front[j];
  }

  predicate EndsTurn(e: Event) { e.TurnEnded? }

  /** The last end of a turn says how it is; one that only started is active. */
  lemma {:induction false} FoundMeans(events: seq<Event>)
    ensures forall i :: LastOf(events, i, EndsTurn) ==> FoundTurn(events) == Some(events[i].status)
    ensures (forall e :: e in events ==> !e.TurnEnded?) ==>
      FoundTurn(events) == if exists e :: e in events && e.TurnStarted? then Some(Active) else None
  {
    if events != [] {
      var front, e := events[..|events| - 1], events[|events| - 1];
      assert events == front + [e];
      FoundMeans(front);
      forall i | LastOf(events, i, EndsTurn) ensures FoundTurn(events) == Some(events[i].status) {
        LastOfMore(front, e, i, EndsTurn);
      }
    }
  }

  /** A tool item is started for the call, and it is not among the completed ones. */
  predicate OpensTool(e: Event, done: set<nat>, callId: nat) {
    e.ItemStarted? && e.item.ToolItem? && e.item.id !in done && e.item.call.callId == callId
  }

  lemma {:induction false} OpenToolMeans(events: seq<Event>, done: set<nat>, callId: nat)
    ensures forall i :: LastOf(events, i, e => OpensTool(e, done, callId)) ==>
      OpenTool(events, done, callId) == Some(events[i].item)
    ensures OpenTool(events, done, callId).Some? <==> exists e :: e in events && OpensTool(e, done, callId)
  {
    if events != [] {
      var front, e := events[..|events| - 1], events[|events| - 1];
      assert events == front + [e];
      OpenToolMeans(front, done, callId);
      if x :| x in events && OpensTool(x, done, callId) { assert x in front || x == e; }
      if x :| x in front && OpensTool(x, done, callId) { assert x in events; }
      if OpensTool(e, done, callId) { assert e in events; }
      forall i | LastOf(events, i, e => OpensTool(e, done, callId))
        ensures OpenTool(events, done, callId) == Some(events[i].item)
      {
        LastOfMore(front, e, i, e => OpensTool(e, done, callId));
      }
    }
  }

  /** An approval was asked for, and is not decided, for a call whose item is still open. */
  ghost predicate Waits(events: seq<Event>, e: Event) {
    && e.ItemStarted? && e.item.ApprovalItem? && e.item.pending
    && (forall d :: d in events && d.ItemCompleted? ==> d.item.id != e.item.id)
    && exists o :: o in events && OpensTool(o, CompletedIds(events), e.item.callId)
  }

  /**
   * A turn waits for the first such approval, with the last item that was started for its call; the call goes
   * without the input error it may have had.
   */
  lemma WaitingMeans(events: seq<Event>, i: nat, j: nat)
    requires i < |events| && Waits(events, events[i]) && forall k :: 0 <= k < i ==> !Waits(events, events[k])
    requires LastOf(events, j, e => OpensTool(e, CompletedIds(events), events[i].item.callId))
    ensures var asked, tool := events[i].item, events[j].item;
      FirstWaiting(events, |events|) ==
      Some(Pending(asked.approvalId, asked.id, tool.id, tool.call.(inputError := None)))
  {
    forall k | 0 <= k < |events| ensures Waits(events, events[k]) <==> Waiting(events, events[k]).Some? {
      WaitsMeans(events, events[k]);
    }
    OpenToolMeans(events, CompletedIds(events), events[i].item.callId);
    hide Waits, FirstWaiting, CompletedIds, OpenTool;
    FirstIsFirst(events, i, |events|);
  }

  /** And for none if there is none. */
  lemma {:induction false} NobodyWaits(events: seq<Event>, n: nat)
    requires n <= |events| && forall k :: 0 <= k < n ==> !Waits(events, events[k])
    ensures FirstWaiting(events, n).None?
  {
    hide Waits, Waiting;
    if n > 0 {
      NobodyWaits(events, n - 1);
      WaitsMeans(events, events[n - 1]);
    }
  }

  lemma WaitsMeans(events: seq<Event>, e: Event)
    ensures Waits(events, e) <==> Waiting(events, e).Some?
  {
    if e.ItemStarted? && e.item.ApprovalItem? {
      OpenToolMeans(events, CompletedIds(events), e.item.callId);
      assert e.item.id in CompletedIds(events) <==>
        exists d :: d in events && d.ItemCompleted? && d.item.id == e.item.id;
    }
    hide CompletedIds, OpenTool;
  }

  lemma {:induction false} FirstIsFirst(events: seq<Event>, i: nat, n: nat)
    requires i < n <= |events| && Waiting(events, events[i]).Some?
    requires forall k :: 0 <= k < i ==> Waiting(events, events[k]).None?
    ensures FirstWaiting(events, n) == Waiting(events, events[i])
  {
    hide Waiting;
    if i < n - 1 {
      FirstIsFirst(events, i, n - 1);
    } else {
      NoneBefore(events, i);
    }
  }

  lemma {:induction false} NoneBefore(events: seq<Event>, n: nat)
    requires n <= |events| && forall k :: 0 <= k < n ==> Waiting(events, events[k]).None?
    ensures FirstWaiting(events, n).None?
  {
    hide Waiting;
    if n > 0 { NoneBefore(events, n - 1); }
  }

  method FindTurn(events: seq<Event>) returns (status: Option<Status>)
    ensures status == FoundTurn(events)
  {
    var started, terminal := false, None;
    for n := 0 to |events|
      invariant FoundTurn(events[..n]) == if terminal.Some? then terminal else if started then Some(Active) else None
    {
      assert events[..n + 1][..n] == events[..n];
      match events[n] {
        case TurnStarted(_) => started := true;
        case TurnEnded(_, ended) => terminal := Some(ended);
        case _ =>
      }
    }
    assert events[..|events|] == events;
    return if terminal.Some? then terminal else if started then Some(Active) else None;
  }

  method FindPendingApproval(events: seq<Event>) returns (pending: Option<Pending>)
    ensures pending == FirstWaiting(events, |events|)
  {
    var done: set<nat> := {};
    for n := 0 to |events|
      invariant done == CompletedIds(events[..n])
    {
      CompletedStep(events[..n], events[n]);
      assert events[..n + 1] == events[..n] + [events[n]];
      if events[n].ItemCompleted? { done := done + {events[n].item.id}; }
    }
    assert events[..|events|] == events;
    var tools: map<nat, Item> := map[];
    for n := 0 to |events|
      invariant forall c: nat :: (c in tools <==> OpenTool(events[..n], done, c).Some?)
      invariant forall c: nat :: c in tools ==> OpenTool(events[..n], done, c) == Some(tools[c])
    {
      assert events[..n + 1][..n] == events[..n];
      var e := events[n];
      if e.ItemStarted? && e.item.ToolItem? && e.item.id !in done {
        tools := tools[e.item.call.callId := e.item];
      }
    }
    for n := 0 to |events|
      invariant FirstWaiting(events, n).None?
    {
      var e := events[n];
      if e.ItemStarted? && e.item.ApprovalItem? && e.item.id !in done && e.item.pending && e.item.callId in tools {
        var tool := tools[e.item.callId];
        FirstStays(events, n + 1, |events|);
        return Some(Pending(e.item.approvalId, e.item.id, tool.id, tool.call.(inputError := None)));
      }
    }
    return None;
  }

  lemma CompletedStep(events: seq<Event>, e: Event)
    ensures CompletedIds(events + [e]) == CompletedIds(events) + if e.ItemCompleted? then {e.item.id} else {}
  {
    assert forall x :: x in events + [e] <==> x in events || x == e;
  }

  lemma {:induction false} FirstStays(events: seq<Event>, n: nat, m: nat)
    requires n <= m <= |events| && FirstWaiting(events, n).Some?
    ensures FirstWaiting(events, m) == FirstWaiting(events, n)
  {
    if n < m { FirstStays(events, n, m - 1); }
  }

  /**
   * The approval that a turn suspends on alone is the one a rebuild waits for exactly when no other was waiting
   * and the turn itself started the tool item of the call; a resumption then runs that call.
   */
  lemma SuspendedIsResumable(
    events: seq<Event>, t: nat, id: nat, approvalId: nat, callId: nat, step: nat, h: seq<Message>)
    requires id !in CompletedIds(events)
    ensures var after := events + [ItemStarted(t, ApprovalItem(id, approvalId, callId, true)), Checkpoint(t, step, h)];
      var tool := OpenTool(events, CompletedIds(events), callId);
      FirstWaiting(after, |after|) ==
        if FirstWaiting(events, |events|).Some? then FirstWaiting(events, |events|)
        else if tool.Some? then Some(Pending(approvalId, id, tool.value.id, tool.value.call.(inputError := None)))
        else None
  {
    var asked, taken := ItemStarted(t, ApprovalItem(id, approvalId, callId, true)), Checkpoint(t, step, h);
    var after, n := events + [asked, taken], |events|;
    CompletedStep(events, asked);
    CompletedStep(events + [asked], taken);
    assert after == events + [asked] + [taken];
    forall c: nat ensures OpenTool(after, CompletedIds(events), c) == OpenTool(events, CompletedIds(events), c) {
      ToolsAsBefore(events, asked, taken, CompletedIds(events), c);
    }
    SameWaiting(events, after, n);
    assert after[n] == asked && after[n + 1] == taken;
  }

  lemma ToolsAsBefore(events: seq<Event>, asked: Event, taken: Event, done: set<nat>, callId: nat)
    requires !(asked.ItemStarted? && asked.item.ToolItem?) && !taken.ItemStarted?
    ensures OpenTool(events + [asked] + [taken], done, callId) == OpenTool(events, done, callId)
  {
    assert (events + [asked] + [taken])[..|events| + 1] == events + [asked];
    assert (events + [asked])[..|events|] == events;
  }

  lemma {:induction false} SameWaiting(events: seq<Event>, after: seq<Event>, n: nat)
    requires events <= after && CompletedIds(events) == CompletedIds(after) && n <= |events|
    requires forall c: nat :: OpenTool(after, CompletedIds(events), c) == OpenTool(events, CompletedIds(events), c)
    ensures FirstWaiting(after, n) == FirstWaiting(events, n)
  {
    hide CompletedIds, OpenTool;
    if n > 0 {
      SameWaiting(events, after, n - 1);
      assert after[n - 1] == events[n - 1];
    }
  }

  /* ---------- suspensions in a parallel batch ---------- */

  predicate Suspends(o: Outcome) { o.Stopped? && o.result.Suspended? }

  /** The k-th arrival asks for approval. */
  predicate StopsAt(b: Batch, k: nat) {
    k < |b.order| && b.order[k] in b.outcomes && Suspends(b.outcomes[b.order[k]])
  }

  /** And a resumption would find the tool item of its call. */
  predicate Opens(events: seq<Event>, b: Batch, k: nat) {
    && StopsAt(b, k) && b.order[k] < |b.intents|
    && OpenTool(events, CompletedIds(events), b.intents[b.order[k]].call.callId).Some?
  }

  predicate IsFirstStop(b: Batch, k: nat) { StopsAt(b, k) && forall j :: 0 <= j < k ==> !StopsAt(b, j) }

  predicate IsLastStop(b: Batch, k: nat) { StopsAt(b, k) && forall j :: k < j < |b.order| ==> !StopsAt(b, j) }

  /** The first of `n` outcomes, in model order, that asks for approval. */
  predicate FirstAskedOf(outcomes: map<nat, Outcome>, n: nat, i: nat) {
    && i < n && i in outcomes && Suspends(outcomes[i])
    && forall j :: 0 <= j < i && j in outcomes ==> !Suspends(outcomes[j])
  }

  /** The turn returns the approval of that intent. */
  predicate IsFirstAsked(b: Batch, i: nat) { FirstAskedOf(b.outcomes, |b.intents|, i) }

  /** The items of the approvals asked for in the batch are new. */
  predicate NewApprovals(events: seq<Event>, b: Batch) {
    forall k :: 0 <= k < |b.order| && StopsAt(b, k) && PlaceOf(b, k) < |events| ==>
      var e := events[PlaceOf(b, k)]; e.ItemStarted? ==> e.item.id !in CompletedIds(events)
  }

  /** Different calls wait for different approvals. */
  predicate DistinctApprovals(b: Batch) {
    forall i, j ::
      i in b.outcomes && j in b.outcomes && i != j && Suspends(b.outcomes[i]) && Suspends(b.outcomes[j]) ==>
        b.outcomes[i].result.approvalId != b.outcomes[j].result.approvalId
  }

  lemma PlaceStep(b: Batch, k: nat)
    requires k < |b.order| && b.order[k] in b.outcomes
    ensures b.start <= PlaceOf(b, k) && PlaceOf(b, k + 1) == PlaceOf(b, k) + Width(b.outcomes[b.order[k]])
  {
    WidthStep(b.outcomes, b.order, k);
    hide WidthOf;
  }

  /** What a suspension in a batch looks like in the log. */
  lemma SuspensionAt(log: seq<Event>, t: nat, b: Batch, k: nat)
    requires Logged(log, t, b) && StopsAt(b, k)
    ensures b.order[k] < |b.intents| && b.start <= PlaceOf(b, k) && PlaceOf(b, k) + 1 < |log|
    ensures PlaceOf(b, k + 1) == PlaceOf(b, k) + 2
    ensures var e := log[PlaceOf(b, k)];
      && e.ItemStarted? && e.turn == t && e.item.ApprovalItem? && e.item.pending && EventMessages(e) == []
      && e.item.approvalId == b.outcomes[b.order[k]].result.approvalId
      && e.item.callId == b.intents[b.order[k]].call.callId
    ensures log[PlaceOf(b, k) + 1].Checkpoint? && log[PlaceOf(b, k) + 1].turn == t
  {
    hide PlaceOf;
    PlaceStep(b, k);
    assert ArrivalAt(log, t, PlaceOf(b, k), b.intents[b.order[k]], b.outcomes[b.order[k]]);
  }

  /** An arrival that asks for nothing, or in vain, leaves what a rebuild waits for as it was. */
  lemma ArrivalIsQuiet(events: seq<Event>, t: nat, b: Batch, k: nat)
    requires LoggedUpTo(events, t, b, k + 1) && PlaceOf(b, k + 1) <= |events| && !Opens(events, b, k)
    ensures PlaceOf(b, k) <= |events| && FirstWaiting(events, PlaceOf(b, k + 1)) == FirstWaiting(events, PlaceOf(b, k))
  {
    hide OpenTool, CompletedIds, PlaceOf, ItemMessages;
    PlaceStep(b, k);
    var at := PlaceOf(b, k);
    assert ArrivalAt(events, t, at, b.intents[b.order[k]], b.outcomes[b.order[k]]);
    NextWaits(events, at);
    assert Waiting(events, events[at]).None?;
    if b.outcomes[b.order[k]].Stopped? {
      NextWaits(events, at + 1);
    }
  }

  lemma NextWaits(events: seq<Event>, n: nat)
    requires n < |events|
    ensures FirstWaiting(events, n + 1) ==
      if FirstWaiting(events, n).Some? then FirstWaiting(events, n) else Waiting(events, events[n])
  {
  }

  lemma {:induction false} NothingNewWaits(events: seq<Event>, t: nat, b: Batch, n: nat)
    requires LoggedUpTo(events, t, b, n) && PlaceOf(b, n) <= |events|
    requires forall k :: 0 <= k < n ==> !Opens(events, b, k)
    ensures b.start <= |events| && FirstWaiting(events, PlaceOf(b, n)) == FirstWaiting(events, b.start)
  {
    hide PlaceOf, ArrivalAt, Opens, FirstWaiting;
    if n == 0 {
      NothingYet(b);
    } else {
      PlaceStep(b, n - 1);
      NothingNewWaits(events, t, b, n - 1);
      ArrivalIsQuiet(events, t, b, n - 1);
    }
  }

  /** With nothing waiting before the batch, a rebuild waits for the first arrival that asked. */
  lemma BatchWaits(events: seq<Event>, t: nat, b: Batch, k: nat)
    requires Logged(events, t, b) && NewApprovals(events, b) && b.start <= |events|
    requires FirstWaiting(events, b.start).None?
    requires Opens(events, b, k) && forall j :: 0 <= j < k ==> !Opens(events, b, j)
    ensures var waits := FirstWaiting(events, |events|);
      && waits.Some? && waits.value.approvalId == b.outcomes[b.order[k]].result.approvalId
      && waits.value.call.callId == b.intents[b.order[k]].call.callId
  {
    hide OpenTool, CompletedIds, PlaceOf, ArrivalAt, FirstWaiting, Logged, LoggedUpTo, EventMessages;
    SuspensionAt(events, t, b, k);
    LoggedPart(events, t, b, k);
    NothingNewWaits(events, t, b, k);
    NextWaits(events, PlaceOf(b, k));
    SuspensionWaits(events, b, k);
    FirstStays(events, PlaceOf(b, k) + 1, |events|);
  }

  lemma SuspensionWaits(events: seq<Event>, b: Batch, k: nat)
    requires Opens(events, b, k) && PlaceOf(b, k) < |events| && NewApprovals(events, b)
    requires var e := events[PlaceOf(b, k)];
      && e.ItemStarted? && e.item.ApprovalItem? && e.item.pending
      && e.item.approvalId == b.outcomes[b.order[k]].result.approvalId
      && e.item.callId == b.intents[b.order[k]].call.callId
    ensures var waits := Waiting(events, events[PlaceOf(b, k)]);
      && waits.Some? && waits.value.approvalId == b.outcomes[b.order[k]].result.approvalId
      && waits.value.call.callId == b.intents[b.order[k]].call.callId
  {
    hide OpenTool, CompletedIds, PlaceOf;
  }

  lemma LoggedPart(log: seq<Event>, t: nat, b: Batch, n: nat)
    requires Logged(log, t, b) && n <= |b.order|
    ensures LoggedUpTo(log, t, b, n)
  {
    hide ArrivalAt, PlaceOf;
  }

  /** The history of the turn rebuilds to what its last checkpoint recorded. */
  predicate DigestPasses(log: seq<Event>, t: nat) {
    var last := LastCheckpoint(log, t);
    last.Some? ==> log[last.value].digest == Committed(log, t)
  }

  /** A resumption of the turn with this approval is not refused. */
  predicate Resumable(log: seq<Event>, t: nat, approvalId: nat) {
    var events := OfTurn(log, t);
    && DigestPasses(log, t)
    && FirstWaiting(events, |events|).Some? && FirstWaiting(events, |events|).value.approvalId == approvalId
  }

  /** The batch as it lies among the events of its turn. */
  function InTurn(b: Batch, start: nat, end: nat): Batch { b.(start := start, end := end) }

  lemma ShiftLogged(log: seq<Event>, events: seq<Event>, t: nat, b: Batch, start: nat)
    requires Logged(log, t, b) && b.end == |log| && start <= |events| && b.start <= |log|
    requires log[b.start..] == events[start..]
    ensures Logged(events, t, InTurn(b, start, |events|))
  {
    hide ArrivalAt;
    var c := InTurn(b, start, |events|);
    assert |log| - b.start == |events| - start;
    forall k | 0 <= k < |b.order|
      ensures ArrivalAt(events, t, PlaceOf(c, k), c.intents[c.order[k]], c.outcomes[c.order[k]])
    {
      ShiftArrival(log, events, t, b.start, start, PlaceOf(b, k), b.intents[b.order[k]], b.outcomes[b.order[k]]);
    }
  }

  lemma ShiftArrival(
    log: seq<Event>, events: seq<Event>, t: nat, from: nat, start: nat, at: nat, intent: Intent, o: Outcome)
    requires from <= |log| && start <= |events| && log[from..] == events[start..] && from <= at
    requires ArrivalAt(log, t, at, intent, o)
    ensures ArrivalAt(events, t, at - from + start, intent, o)
  {
    hide ItemMessages;
    assert events[start..][at - from] == log[from..][at - from];
    if o.Stopped? {
      assert events[start..][at - from + 1] == log[from..][at - from + 1];
    }
  }

  lemma TurnThenBatch(log: seq<Event>, t: nat, n: nat)
    requires n <= |log| && forall i :: n <= i < |log| ==> log[i].turn == t
    ensures OfTurn(log, t) == OfTurn(log[..n], t) + log[n..]
  {
    assert log == log[..n] + log[n..];
    OfTurnSplit(log[..n], log[n..], t);
    AllOfTurn(log[n..], t);
  }

  /** The log of a turn ends in a batch. */
  ghost predicate EndsInBatch(log: seq<Event>, t: nat, b: Batch) {
    && b.end == |log| && b.start <= |log| && WellFormed(b) && Logged(log, t, b)
    && forall i :: b.start <= i < |log| ==> log[i].turn == t
  }

  /**
   * What the rest of the log must be like for the suspensions of the batch to be found: their approvals are
   * new and differ, the turn started the tool items of their calls, and nothing waited before the batch.
   */
  ghost predicate Findable(log: seq<Event>, t: nat, b: Batch) {
    && b.start <= |log| && DistinctApprovals(b)
    && (forall k :: 0 <= k < |b.order| && StopsAt(b, k) ==> Opens(OfTurn(log, t), b, k))
    && var events, start := OfTurn(log, t), |OfTurn(log[..b.start], t)|;
       start <= |events| && FirstWaiting(events, start).None? && NewApprovals(events, InTurn(b, start, |events|))
  }

  /** The approval a rebuild waits for is the one returned exactly if the first in model order arrived first. */
  lemma ReturnedIsWaiting(log: seq<Event>, t: nat, b: Batch, first: nat, asked: nat)
    requires EndsInBatch(log, t, b) && Findable(log, t, b) && IsFirstStop(b, first) && IsFirstAsked(b, asked)
    ensures var events := OfTurn(log, t); var waits := FirstWaiting(events, |events|);
      && waits.Some? && waits.value.approvalId == b.outcomes[b.order[first]].result.approvalId
      && (waits.value.approvalId == b.outcomes[asked].result.approvalId <==> b.order[first] == asked)
  {
    hide OfTurn, FirstWaiting, OpenTool, CompletedIds, ArrivalAt, PlaceOf, NewApprovals;
    var events, start := OfTurn(log, t), |OfTurn(log[..b.start], t)|;
    TurnThenBatch(log, t, b.start);
    assert events[start..] == log[b.start..];
    ShiftLogged(log, events, t, b, start);
    var c := InTurn(b, start, |events|);
    assert forall k: nat :: Opens(events, c, k) <==> Opens(events, b, k);
    BatchWaits(events, t, c, first);
  }

  /** The last checkpoint of the turn is that of the last suspension to arrive. */
  lemma LastSuspension(log: seq<Event>, t: nat, b: Batch, m: nat)
    requires EndsInBatch(log, t, b) && IsLastStop(b, m)
    ensures PlaceOf(b, m) + 1 < |log| && LastCheckpoint(log, t) == Some(PlaceOf(b, m) + 1)
  {
    hide PlaceOf, ArrivalAt, LastCheckpoint, WellFormed;
    SuspensionAt(log, t, b, m);
    LastMeans(log, t);
    var last := LastCheckpoint(log, t).value;
    if last > PlaceOf(b, m) + 1 {
      var j := OnlyReplies(log, t, b, m + 1, last);
      assert false;
    }
  }

  /** After the last suspension every event of the batch is a reply. */
  lemma {:induction false} OnlyReplies(log: seq<Event>, t: nat, b: Batch, k: nat, i: nat) returns (j: nat)
    requires Logged(log, t, b) && k <= |b.order| && PlaceOf(b, k) <= i < b.end
    requires forall n :: k <= n < |b.order| ==> !StopsAt(b, n)
    ensures k <= j < |b.order| && i == PlaceOf(b, j) && !log[i].Checkpoint?
    decreases |b.order| - k
  {
    hide PlaceOf;
    PlaceStep(b, k);
    assert ArrivalAt(log, t, PlaceOf(b, k), b.intents[b.order[k]], b.outcomes[b.order[k]]);
    assert !StopsAt(b, k);
    if i == PlaceOf(b, k) {
      j := k;
    } else {
      j := OnlyReplies(log, t, b, k + 1, i);
    }
  }

  /**
   * What the ledger says of the checkpoints up to the last batch: orders of arrival spoil them, and all are if the
   * history was not `whole` to begin with.
   */
  ghost predicate Spoils(log: seq<Event>, t: nat, from: nat, whole: bool, bs: seq<Batch>, b: Batch) {
    && ReplayIff(log, t, from, whole, bs + [b]) && from <= b.start
    && forall k :: 0 <= k < |bs| ==> bs[k].end <= b.start
  }

  /** No sibling's result arrived before the m-th arrival. */
  predicate NoReplyBefore(b: Batch, m: nat) { forall j :: 0 <= j < m ==> StopsAt(b, j) }

  /** The last suspension replays exactly when nothing spoiled it before, nor a sibling's result in its batch. */
  lemma LastSuspensionReplays(
    log: seq<Event>, t: nat, from: nat, whole: bool, bs: seq<Batch>, b: Batch, m: nat, i: nat)
    requires i < |log| && log[i].Checkpoint?
    requires EndsInBatch(log, t, b) && Spoils(log, t, from, whole, bs, b) && IsLastStop(b, m)
    requires i == PlaceOf(b, m) + 1
    ensures Replays(log, i) <==> whole && AllAligned(bs) && NoReplyBefore(b, m)
  {
    hide TurnMessages, Replays, WellFormed, Clean, PlaceOf, ArrivalAt, AllAligned, NoReplyBefore;
    SuspensionAt(log, t, b, m);
    BeforeSuspension(log, t, b, m);
    CleanAfterAll(log, t, bs, i);
    CleanMore(log, t, bs, b, i);
    InsideBatch(log, t, b, m);
  }

  lemma InsideBatch(log: seq<Event>, t: nat, b: Batch, m: nat)
    requires EndsInBatch(log, t, b) && StopsAt(b, m)
    ensures PlaceOf(b, m) + 1 < b.end
  {
    hide PlaceOf;
    SuspensionAt(log, t, b, m);
  }

  lemma CleanAfterAll(log: seq<Event>, t: nat, bs: seq<Batch>, i: nat)
    requires i <= |log| && forall k :: 0 <= k < |bs| ==> bs[k].end < i
    ensures Clean(log, t, bs, i) <==> AllAligned(bs)
  {
    hide TurnMessages, Aligned;
  }

  /** What was logged between the start of the batch and the checkpoint of its m-th arrival. */
  lemma BeforeSuspension(log: seq<Event>, t: nat, b: Batch, m: nat)
    requires Logged(log, t, b) && StopsAt(b, m) && b.start <= PlaceOf(b, m) < |log|
    ensures TurnMessages(log[b.start..PlaceOf(b, m) + 1], t) == [] <==> NoReplyBefore(b, m)
  {
    hide TurnMessages, Picked, PlaceOf, Logged, LoggedUpTo, EventMessages, NoReplyBefore, ArrivalsKnown;
    SomeArrivals(log, t, b, m);
    NothingPickedIff(b, m);
    SuspensionAt(log, t, b, m);
    LoggedPart(log, t, b, m);
    LoggedMessages(log, t, b, m);
    UpToSuspension(log, t, b.start, PlaceOf(b, m));
  }

  lemma UpToSuspension(log: seq<Event>, t: nat, from: nat, at: nat)
    requires from <= at < |log| && log[at].turn == t && EventMessages(log[at]) == []
    ensures TurnMessages(log[from..at + 1], t) == TurnMessages(log[from..at], t)
  {
    hide TurnMessages, EventMessages;
    JoinMessages(log, t, from, at, at + 1);
    assert log[at..at + 1] == [log[at]];
    OneMessage(log[at], t);
    assert TurnMessages(log[from..at], t) + [] == TurnMessages(log[from..at], t);
  }

  lemma SomeArrivals(log: seq<Event>, t: nat, b: Batch, m: nat)
    requires Logged(log, t, b) && m <= |b.order|
    ensures ArrivalsKnown(b, m)
  {
    hide PlaceOf, ItemMessages;
    forall j | 0 <= j < m
      ensures b.order[j] in b.outcomes
      ensures b.outcomes[b.order[j]].Stopped? ==> b.outcomes[b.order[j]].result.Suspended?
    {
      assert ArrivalAt(log, t, PlaceOf(b, j), b.intents[b.order[j]], b.outcomes[b.order[j]]);
    }
  }

  /** The first `n` arrivals are replies and suspensions. */
  predicate ArrivalsKnown(b: Batch, n: nat) {
    && n <= |b.order|
    && (forall j :: 0 <= j < n ==> b.order[j] in b.outcomes)
    && (forall j :: 0 <= j < n && b.outcomes[b.order[j]].Stopped? ==> b.outcomes[b.order[j]].result.Suspended?)
  }

  lemma {:induction false} NothingPickedIff(b: Batch, n: nat)
    requires ArrivalsKnown(b, n)
    ensures Picked(b.outcomes, b.order[..n]) == [] <==> NoReplyBefore(b, n)
  {
    hide Picked;
    if n == 0 {
      NothingPicked(b.outcomes);
      assert b.order[..0] == [];
    } else {
      NothingPickedIff(b, n - 1);
      PickedStep(b.outcomes, b.order, n - 1);
      assert StopsAt(b, n - 1) <==> MessageOf(b.outcomes[b.order[n - 1]]) == [];
    }
  }

  /**
   * A turn suspended in a parallel batch can be resumed with the approval it returned exactly when it knew its
   * thread, every earlier batch of it is aligned, the first call to ask, in model order, was also the first to
   * arrive among those that asked, and no sibling's result was logged before the last suspension.
   */
  lemma BatchIsResumable(
    log: seq<Event>, t: nat, from: nat, whole: bool, bs: seq<Batch>, b: Batch, asked: nat, first: nat, last: nat)
    requires EndsInBatch(log, t, b) && Spoils(log, t, from, whole, bs, b) && Findable(log, t, b)
    requires StartIndex(log, t).Some? && StartIndex(log, t).value < b.start
    requires IsFirstAsked(b, asked) && IsFirstStop(b, first) && IsLastStop(b, last)
    ensures Resumable(log, t, b.outcomes[asked].result.approvalId) <==>
      whole && AllAligned(bs) && b.order[first] == asked && NoReplyBefore(b, last)
  {
    hide OfTurn, FirstWaiting, Replays, Committed, StartIndex, LastCheckpoint, Spoils, Findable, WellFormed,
      Logged, PlaceOf, NoReplyBefore, AllAligned;
    assert b.start <= PlaceOf(b, last) by {
      StartsBefore(b, last);
    }
    ReturnedIsWaiting(log, t, b, first, asked);
    LastSuspension(log, t, b, last);
    LastSuspensionReplays(log, t, from, whole, bs, b, last, PlaceOf(b, last) + 1);
    ReplayedIsCommitted(log, t, PlaceOf(b, last) + 1);
  }

  lemma StartsBefore(b: Batch, k: nat)
    requires k <= |b.order|
    ensures b.start <= PlaceOf(b, k)
  {
  }

  /** A batch with a suspension has a first and a last one, and a first one in model order. */
  lemma SuspensionsExist(b: Batch, i: nat) returns (asked: nat, first: nat, last: nat)
    requires WellFormed(b) && i in b.outcomes && Suspends(b.outcomes[i])
    ensures IsFirstAsked(b, asked) && IsFirstStop(b, first) && IsLastStop(b, last)
  {
    hide Suspends;
    asked := FirstAskedFrom(b, i);
    ArrivalOnce(b.order, |b.intents|);
    assert i in b.order;
    var k: nat :| k < |b.order| && b.order[k] == i;
    first := FirstStopFrom(b, k);
    last := LastStopFrom(b, k);
  }

  lemma {:induction false} FirstAskedFrom(b: Batch, i: nat) returns (asked: nat)
    requires WellFormed(b) && i in b.outcomes && Suspends(b.outcomes[i])
    ensures IsFirstAsked(b, asked)
  {
    hide Suspends;
    if j: nat :| j < i && j in b.outcomes && Suspends(b.outcomes[j]) {
      asked := FirstAskedFrom(b, j);
    } else {
      asked := i;
    }
  }

  lemma {:induction false} FirstStopFrom(b: Batch, k: nat) returns (first: nat)
    requires StopsAt(b, k)
    ensures IsFirstStop(b, first)
  {
    hide StopsAt;
    if j: nat :| j < k && StopsAt(b, j) {
      first := FirstStopFrom(b, j);
    } else {
      first := k;
    }
  }

  lemma {:induction false} LastStopFrom(b: Batch, k: nat) returns (last: nat)
    requires StopsAt(b, k)
    ensures IsLastStop(b, last)
    decreases |b.order| - k
  {
    if j: nat :| k < j < |b.order| && StopsAt(b, j) {
      last := LastStopFrom(b, j);
    } else {
      last := k;
    }
  }

  /**
   * Two calls of one batch ask for approval and the second arrives first: the turn returns the approval of the
   * first, and a rebuild waits for the other one.
   */
  lemma SecondAsksFirst(one: Call, two: Call, h: seq<Message>, log: seq<Event>, b: Batch)
    requires one.callId != two.callId
    requires log == [
      TurnStarted(0),
      ItemStarted(0, ToolItem(1, one, Result("", None))), ItemStarted(0, ToolItem(2, two, Result("", None))),
      ItemStarted(0, ApprovalItem(3, 11, two.callId, true)), Checkpoint(0, 1, h),
      ItemStarted(0, ApprovalItem(4, 10, one.callId, true)), Checkpoint(0, 1, h)]
    requires b == Batch(3, 7, 0, [Intent(one, 1), Intent(two, 2)], [1, 0],
      map[0 := Outcome.Stopped(Suspended(10)), 1 := Outcome.Stopped(Suspended(11))])
    ensures Logged(log, 0, b) && IsFirstAsked(b, 0) && b.outcomes[0].result.approvalId == 10
    ensures var events := OfTurn(log, 0); var waits := FirstWaiting(events, |events|);
      waits.Some? && waits.value.approvalId == 11
    ensures !Resumable(log, 0, 10)
  {
    hide Logged, OpenTool, CompletedIds, PlaceOf, FirstWaiting, OfTurn;
    TwoLogged(one, two, h, log, b);
    AllOfTurn(log, 0);
    NothingDone(log);
    ToolOfSecond(one, two, h, log);
    FirstFour(log);
  }

  lemma TwoLogged(one: Call, two: Call, h: seq<Message>, log: seq<Event>, b: Batch)
    requires |log| == 7 && log[3..] == [
      ItemStarted(0, ApprovalItem(3, 11, two.callId, true)), Checkpoint(0, 1, h),
      ItemStarted(0, ApprovalItem(4, 10, one.callId, true)), Checkpoint(0, 1, h)]
    requires b == Batch(3, 7, 0, [Intent(one, 1), Intent(two, 2)], [1, 0],
      map[0 := Outcome.Stopped(Suspended(10)), 1 := Outcome.Stopped(Suspended(11))])
    ensures Logged(log, 0, b)
  {
    hide PlaceOf, ItemMessages;
    TwoPlaces(b);
    assert log[3] == log[3..][0] && log[4] == log[3..][1] && log[5] == log[3..][2] && log[6] == log[3..][3];
    assert ArrivalAt(log, 0, 3, b.intents[1], b.outcomes[1]) && ArrivalAt(log, 0, 5, b.intents[0], b.outcomes[0]);
  }

  lemma TwoPlaces(b: Batch)
    requires b.order == [1, 0] && b.start == 3 && 0 in b.outcomes && 1 in b.outcomes
    requires b.outcomes[0].Stopped? && b.outcomes[1].Stopped?
    ensures PlaceOf(b, 0) == 3 && PlaceOf(b, 1) == 5 && PlaceOf(b, 2) == 7
  {
    NothingYet(b);
    WidthStep(b.outcomes, b.order, 0);
    WidthStep(b.outcomes, b.order, 1);
  }

  lemma NothingDone(log: seq<Event>)
    requires forall e :: e in log ==> !e.ItemCompleted?
    ensures CompletedIds(log) == {}
  {
  }

  lemma ToolOfSecond(one: Call, two: Call, h: seq<Message>, log: seq<Event>)
    requires |log| == 7 && log[2] == ItemStarted(0, ToolItem(2, two, Result("", None)))
    requires forall i :: 3 <= i < 7 ==> !(log[i].ItemStarted? && log[i].item.ToolItem?)
    ensures OpenTool(log, {}, two.callId) == Some(log[2].item)
  {
    hide OpenTool;
    assert log[..3][..2] == log[..2] && log[..3] == log[..2] + [log[2]];
    OpenToolStep(log[..2], log[2], {}, two.callId);
    for n := 3 to 7
      invariant OpenTool(log[..n], {}, two.callId) == Some(log[2].item)
    {
      OpenToolStep(log[..n], log[n], {}, two.callId);
      assert log[..n + 1] == log[..n] + [log[n]];
    }
    assert log[..7] == log;
  }

  lemma FirstFour(log: seq<Event>)
    requires |log| == 7 && CompletedIds(log) == {} && log[3].ItemStarted? && log[3].item.ApprovalItem?
    requires forall i :: 0 <= i < 3 ==> !(log[i].ItemStarted? && log[i].item.ApprovalItem?)
    requires log[3].item.pending && OpenTool(log, {}, log[3].item.callId).Some?
    ensures FirstWaiting(log, 7).Some? && FirstWaiting(log, 7).value.approvalId == log[3].item.approvalId
  {
    hide OpenTool, CompletedIds;
    for n := 0 to 3
      invariant FirstWaiting(log, n).None?
    {
      NextWaits(log, n);
    }
    NextWaits(log, 3);
    FirstStays(log, 4, 7);
  }

  lemma OpenToolStep(events: seq<Event>, e: Event, done: set<nat>, callId: nat)
    ensures OpenTool(events + [e], done, callId) ==
      if e.ItemStarted? && e.item.ToolItem? && e.item.id !in done && e.item.call.callId == callId then Some(e.item)
      else OpenTool(events, done, callId)
  {
    assert (events + [e])[..|events|] == events;
  }

  /**
   * A call left open by an earlier turn is dispatched again without a tool item of the new turn. If it then
   * asks for approval, the new turn is suspended with nothing to resume.
   */
  lemma CarriedCallCannotResume(call: Call, asked: Message, user: Message, log: seq<Event>)
    requires asked == Assistant("", [call]) && user == User("go on") && call.callId == 7
    requires log == [
      TurnStarted(0), ItemStarted(0, ToolItem(1, call, Result("", None))),
      ItemCompleted(0, MessageItem(0, AssistantRole, "", [call])), TurnEnded(0, Cancelled),
      TurnStarted(1), ItemCompleted(1, MessageItem(2, UserRole, "go on", [])),
      ItemStarted(1, ApprovalItem(3, 9, 7, true)), Checkpoint(1, 1, [asked, user])]
    ensures Unanswered(Messages(log[..6])) == [call]
    ensures var events := OfTurn(log, 1); FoundTurn(events) == Some(Active) && FirstWaiting(events, |events|).None?
  {
    hide Messages, FirstWaiting, Unanswered, OfTurn, FoundTurn, OpenTool;
    SixMessages(log[..6], asked, user);
    AskedOnce(asked, user, call);
    TurnIsRest(log, 1, 4);
    var begun := [log[4], log[5]];
    assert log[4..] == begun + [log[6], log[7]];
    NothingBegun(begun);
    SuspendedIsResumable(begun, 1, 3, 9, 7, 1, [asked, user]);
    FoundStep(begun, log[6]);
    FoundStep(begun + [log[6]], log[7]);
    assert log[4..] == begun + [log[6]] + [log[7]];
  }

  lemma NothingBegun(begun: seq<Event>)
    requires |begun| == 2 && begun[0] == TurnStarted(1)
    requires begun[1] == ItemCompleted(1, MessageItem(2, UserRole, "go on", []))
    ensures FirstWaiting(begun, |begun|).None? && CompletedIds(begun) == {2} && OpenTool(begun, {2}, 7).None?
    ensures FoundTurn(begun) == Some(Active)
  {
    assert begun[1] in begun;
    assert begun[..1] == [begun[0]] && [begun[0]][..0] == [];
    assert FoundTurn([]).None? && OpenTool([], {2}, 7).None?;
    assert FoundTurn([begun[0]]) == Some(Active) && OpenTool([begun[0]], {2}, 7).None?;
    NextWaits(begun, 0);
    NextWaits(begun, 1);
  }

  lemma FoundStep(events: seq<Event>, e: Event)
    requires !e.TurnStarted? && !e.TurnEnded?
    ensures FoundTurn(events + [e]) == FoundTurn(events)
  {
    assert (events + [e])[..|events|] == events;
  }

  lemma SixMessages(begun: seq<Event>, asked: Message, user: Message)
    requires |begun| == 6
    requires
      EventMessages(begun[0]) == EventMessages(begun[1]) == EventMessages(begun[3]) == EventMessages(begun[4]) == []
    requires EventMessages(begun[2]) == [asked] && EventMessages(begun[5]) == [user]
    ensures Messages(begun) == [asked, user]
  {
    hide Messages, EventMessages;
    NoMessages();
    MessagesStep([], begun[0]);
    MessagesStep([begun[0]], begun[1]);
    MessagesStep(begun[..2], begun[2]);
    MessagesStep(begun[..3], begun[3]);
    MessagesStep(begun[..4], begun[4]);
    MessagesStep(begun[..5], begun[5]);
    assert begun[..2] == [begun[0]] + [begun[1]] && [begun[0]] == [] + [begun[0]];
    assert begun[..3] == begun[..2] + [begun[2]] && begun[..4] == begun[..3] + [begun[3]];
    assert begun[..5] == begun[..4] + [begun[4]] && begun == begun[..5] + [begun[5]];
  }

  lemma AskedOnce(asked: Message, user: Message, call: Call)
    requires asked == Assistant("", [call]) && user.User?
    ensures Unanswered([asked, user]) == [call]
  {
    hide Without, Asks, Answers;
    AsksStep([], asked);
    AsksStep([asked], user);
    assert [] + [asked] == [asked] && [asked] + [user] == [asked, user];
    NothingAsked();
    WithoutNone(call);
    assert [] + [[call]] == [[call]] && [[call]] + [] == [[call]];
  }

  lemma WithoutNone(call: Call)
    ensures Without([call], {}) == [call]
  {
    assert [call][..0] == [] && Without([], {}) == [];
  }
}
