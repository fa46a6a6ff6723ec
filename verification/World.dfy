/**
 * The world projection: recording, replay with digest checks, and the rebase over a historical drift. A digest
 * is the projected state itself; times are integers; the stream has one writer.
 */
module World {
  import opened Options

  datatype Entity = Entity(
    id: string, kind: string, subtype: Option<string>, attributes: map<string, string>,
    firstSeenAt: int, lastSeenAt: int)

  datatype Relation = Relation(id: string, body: string)

  datatype World = World(entities: map<string, Entity>, relations: map<string, Relation>)

  datatype Event =
    | EntityRecorded(entity: Entity)
    | RelationProjected(relation: Relation)
    | Bumped(version: nat, digest: World)

  /** An entity as it is handed to `record`, with its time filled in. */
  datatype Input = Input(
    id: string, kind: string, subtype: Option<string>, attributes: map<string, string>, seenAt: int)

  datatype Call = Call(inputs: seq<Input>, relations: seq<Relation>)

  const EMPTY := World(map[], map[])

  function Merged(entities: map<string, Entity>, input: Input): Entity {
    if input.id in entities then
      var existing := entities[input.id];
      existing.(lastSeenAt := input.seenAt, attributes := existing.attributes + input.attributes)
    else Entity(input.id, input.kind, input.subtype, input.attributes, input.seenAt, input.seenAt)
  }

  function Put(entities: map<string, Entity>, input: Input): map<string, Entity> {
    entities[input.id := Merged(entities, input)]
  }

  function AsInput(e: Entity): Input { Input(e.id, e.kind, e.subtype, e.attributes, e.lastSeenAt) }

  function FoldEvent(w: World, e: Event): World {
    match e
    case EntityRecorded(entity) => w.(entities := Put(w.entities, AsInput(entity)))
    case RelationProjected(relation) => w.(relations := w.relations[relation.id := relation])
    case Bumped(_, _) => w
  }

  function WorldFrom(w: World, events: seq<Event>): World {
    if events == [] then w else FoldEvent(WorldFrom(w, events[..|events| - 1]), events[|events| - 1])
  }

  /** What the stream says the world is, bumps aside. */
  function WorldOf(events: seq<Event>): World { WorldFrom(EMPTY, events) }

  lemma {:induction false} WorldFromSplit(w: World, a: seq<Event>, b: seq<Event>)
    ensures WorldFrom(w, a + b) == WorldFrom(WorldFrom(w, a), b)
  {
    if b == [] {
      assert a + b == a;
    } else {
      WorldFromSplit(w, a, b[..|b| - 1]);
      assert (a + b)[..|a + b| - 1] == a + b[..|b| - 1];
    }
  }

  /* ---------- record ---------- */

  function Shadow(entities: map<string, Entity>, inputs: seq<Input>): map<string, Entity> {
    if inputs == [] then entities else Put(Shadow(entities, inputs[..|inputs| - 1]), inputs[|inputs| - 1])
  }

  function Relate(relations: map<string, Relation>, more: seq<Relation>): map<string, Relation> {
    if more == [] then relations else Relate(relations, more[..|more| - 1])[more[|more| - 1].id := more[|more| - 1]]
  }

  lemma {:induction false} ShadowHas(entities: map<string, Entity>, inputs: seq<Input>)
    ensures forall id :: id in Shadow(entities, inputs) <==>
      id in entities || exists k :: 0 <= k < |inputs| && inputs[k].id == id
  {
    if inputs != [] {
      var front := inputs[..|inputs| - 1];
      ShadowHas(entities, front);
      forall id
        ensures id in Shadow(entities, inputs) <==>
          id in entities || exists k :: 0 <= k < |inputs| && inputs[k].id == id
      {
        if k :| 0 <= k < |inputs| && inputs[k].id == id {
          assert k < |front| ==> front[k].id == id;
        } else if id in Shadow(entities, inputs) && id !in entities {
          assert id == inputs[|inputs| - 1].id || id in Shadow(entities, front);
        }
        if k :| 0 <= k < |front| && front[k].id == id { assert inputs[k].id == id; }
        assert inputs[|inputs| - 1].id in Shadow(entities, inputs);
      }
    }
  }

  lemma {:induction false} RelateHas(relations: map<string, Relation>, more: seq<Relation>)
    ensures forall k :: 0 <= k < |more| ==> more[k].id in Relate(relations, more)
    ensures forall id :: id in relations ==> id in Relate(relations, more)
  {
    if more != [] {
      RelateHas(relations, more[..|more| - 1]);
    }
  }

  function Next(w: World, call: Call): World {
    World(Shadow(w.entities, call.inputs), Relate(w.relations, call.relations))
  }

  /** The facts of a call, in the form they end up with. */
  function EntityEvents(next: map<string, Entity>, inputs: seq<Input>): (r: seq<Event>)
    requires forall k :: 0 <= k < |inputs| ==> inputs[k].id in next
    ensures |r| == |inputs|
  {
    seq(|inputs|, k requires 0 <= k < |inputs| => EntityRecorded(next[inputs[k].id]))
  }

  function RelationEvents(next: map<string, Relation>, more: seq<Relation>): (r: seq<Event>)
    requires forall k :: 0 <= k < |more| ==> more[k].id in next
    ensures |r| == |more|
  {
    seq(|more|, k requires 0 <= k < |more| => RelationProjected(next[more[k].id]))
  }

  function Facts(w: World, call: Call): seq<Event> {
    ShadowHas(w.entities, call.inputs);
    RelateHas(w.relations, call.relations);
    EntityEvents(Next(w, call).entities, call.inputs) + RelationEvents(Next(w, call).relations, call.relations)
  }

  /** The first and the last mention of one entity. */
  predicate FirstAndLast(inputs: seq<Input>, i: int, j: int) {
    && 0 <= i < |inputs| && 0 <= j < |inputs| && inputs[i].id == inputs[j].id
    && (forall k :: 0 <= k < i ==> inputs[k].id != inputs[i].id)
    && (forall k :: j < k < |inputs| ==> inputs[k].id != inputs[i].id)
  }

  /**
   * An entity new to the world is given the same seen time by its first and its last mention in the call. The
   * live projection keeps the first; what is recorded and replayed is the last.
   */
  ghost predicate Steady(w: World, call: Call) {
    forall i, j :: FirstAndLast(call.inputs, i, j) && call.inputs[i].id !in w.entities ==>
      call.inputs[i].seenAt == call.inputs[j].seenAt
  }

  predicate Keyed(w: World) { forall id :: id in w.entities ==> w.entities[id].id == id }

  /** What merging keeps of an entity that is there. */
  predicate Grown(before: Entity, after: Entity) {
    && after == before.(lastSeenAt := after.lastSeenAt, attributes := after.attributes)
    && before.attributes.Keys <= after.attributes.Keys
  }

  lemma {:induction false} ShadowGrows(m: map<string, Entity>, inputs: seq<Input>, id: string)
    requires id in m
    ensures id in Shadow(m, inputs) && Grown(m[id], Shadow(m, inputs)[id])
  {
    if inputs != [] {
      ShadowGrows(m, inputs[..|inputs| - 1], id);
    }
  }

  lemma {:induction false} ShadowKeyed(m: map<string, Entity>, inputs: seq<Input>)
    requires forall id :: id in m ==> m[id].id == id
    ensures forall id :: id in Shadow(m, inputs) ==> Shadow(m, inputs)[id].id == id
  {
    if inputs != [] {
      ShadowKeyed(m, inputs[..|inputs| - 1]);
    }
  }

  /** The times of an entity new to the world: its first and its last mention. */
  lemma {:induction false} TimesOf(m: map<string, Entity>, inputs: seq<Input>, i: nat, j: nat)
    requires FirstAndLast(inputs, i, j) && inputs[i].id !in m
    ensures inputs[i].id in Shadow(m, inputs)
    ensures Shadow(m, inputs)[inputs[i].id].firstSeenAt == inputs[i].seenAt
    ensures Shadow(m, inputs)[inputs[i].id].lastSeenAt == inputs[j].seenAt
  {
    var n := |inputs| - 1;
    var front := inputs[..n];
    if i == n {
      ShadowHas(m, front);
    } else if j < n {
      TimesOf(m, front, i, j);
    } else {
      var f, l := Mentions(front, i);
      TimesOf(m, front, i, l);
    }
  }

  lemma Mentions(inputs: seq<Input>, i: nat) returns (f: nat, l: nat)
    requires i < |inputs|
    ensures FirstAndLast(inputs, f, l) && inputs[f].id == inputs[i].id
    ensures (forall k :: 0 <= k < i ==> inputs[k].id != inputs[i].id) ==> f == i
  {
    f, l := i, i;
    for k := 0 to |inputs|
      invariant f <= i && l < |inputs| && inputs[f].id == inputs[l].id == inputs[i].id
      invariant k > i || f == i || f < k
      invariant forall j :: 0 <= j < k && j < f ==> inputs[j].id != inputs[i].id
      invariant forall j :: l < j < k ==> inputs[j].id != inputs[i].id
    {
      if inputs[k].id == inputs[i].id {
        if k < f && f == i { f := k; }
        if k > l { l := k; }
      }
    }
  }

  function Ids(inputs: seq<Input>): set<string> {
    if inputs == [] then {} else Ids(inputs[..|inputs| - 1]) + {inputs[|inputs| - 1].id}
  }

  lemma {:induction false} IdsMeans(inputs: seq<Input>)
    ensures forall i :: 0 <= i < |inputs| ==> inputs[i].id in Ids(inputs)
    ensures forall id :: id in Ids(inputs) ==> exists i :: 0 <= i < |inputs| && inputs[i].id == id
  {
    if inputs != [] {
      var front := inputs[..|inputs| - 1];
      IdsMeans(front);
      forall id | id in Ids(inputs) ensures exists i :: 0 <= i < |inputs| && inputs[i].id == id {
        if id in Ids(front) {
          var i :| 0 <= i < |front| && front[i].id == id;
          assert inputs[i].id == id;
        } else {
          assert inputs[|inputs| - 1].id == id;
        }
      }
    }
  }

  /** What the replay of a call's facts makes of an entity. */
  function Replayed(m: map<string, Entity>, next: map<string, Entity>, id: string): Entity
    requires id in next
  {
    if id in m then next[id] else next[id].(firstSeenAt := next[id].lastSeenAt)
  }

  function PartlyReplayed(m: map<string, Entity>, next: map<string, Entity>, ids: set<string>): map<string, Entity>
    requires ids <= next.Keys
  {
    map id | id in m.Keys + ids :: if id in ids then Replayed(m, next, id) else m[id]
  }

  lemma ReplayStep(m: map<string, Entity>, next: map<string, Entity>, ids: set<string>, id: string)
    requires ids <= next.Keys && id in next && next[id].id == id
    requires id in m ==> Grown(m[id], next[id])
    ensures Put(PartlyReplayed(m, next, ids), AsInput(next[id])) == PartlyReplayed(m, next, ids + {id})
  {
    var r := PartlyReplayed(m, next, ids);
    if id in m { assert m[id].attributes + next[id].attributes == next[id].attributes; }
    assert next[id].attributes + next[id].attributes == next[id].attributes;
    assert Merged(r, AsInput(next[id])) == Replayed(m, next, id);
  }

  lemma {:induction false} ReplayEntities(w: World, next: map<string, Entity>, inputs: seq<Input>)
    requires forall i :: 0 <= i < |inputs| ==> inputs[i].id in next && next[inputs[i].id].id == inputs[i].id
    requires forall i :: 0 <= i < |inputs| && inputs[i].id in w.entities ==>
      Grown(w.entities[inputs[i].id], next[inputs[i].id])
    ensures Ids(inputs) <= next.Keys
    ensures WorldFrom(w, EntityEvents(next, inputs)) == w.(entities := PartlyReplayed(w.entities, next, Ids(inputs)))
  {
    hide Put, Grown;
    if inputs == [] {
      assert PartlyReplayed(w.entities, next, {}) == w.entities;
    } else {
      var front, last := inputs[..|inputs| - 1], inputs[|inputs| - 1];
      ReplayEntities(w, next, front);
      var events := EntityEvents(next, inputs);
      assert events[..|events| - 1] == EntityEvents(next, front);
      ReplayStep(w.entities, next, Ids(front), last.id);
    }
  }

  function RelationIds(more: seq<Relation>): set<string> {
    if more == [] then {} else RelationIds(more[..|more| - 1]) + {more[|more| - 1].id}
  }

  lemma {:induction false} RelateMeans(relations: map<string, Relation>, more: seq<Relation>)
    ensures var next := Relate(relations, more);
      && next.Keys == relations.Keys + RelationIds(more)
      && (forall id :: id in RelationIds(more) ==> next[id].id == id)
      && (forall id :: id in relations && id !in RelationIds(more) ==> next[id] == relations[id])
  {
    if more != [] {
      RelateMeans(relations, more[..|more| - 1]);
    }
  }

  /** The relations after a replay: those named are as they came to be, the others as they were. */
  function Related(before: map<string, Relation>, next: map<string, Relation>, ids: set<string>): map<string, Relation>
    requires ids <= next.Keys
  {
    map id | id in before.Keys + ids :: if id in ids then next[id] else before[id]
  }

  lemma {:induction false} ReplayRelations(w: World, next: map<string, Relation>, more: seq<Relation>)
    requires forall k :: 0 <= k < |more| ==> more[k].id in next && next[more[k].id].id == more[k].id
    ensures RelationIds(more) <= next.Keys
    ensures WorldFrom(w, RelationEvents(next, more)) == w.(relations := Related(w.relations, next, RelationIds(more)))
  {
    if more == [] {
      assert Related(w.relations, next, {}) == w.relations;
    } else {
      var front, last := more[..|more| - 1], more[|more| - 1];
      ReplayRelations(w, next, front);
      var events := RelationEvents(next, more);
      assert events[..|events| - 1] == RelationEvents(next, front);
      OneRelated(w.relations, next, RelationIds(front), last.id);
      hide Related;
    }
  }

  lemma OneRelated(before: map<string, Relation>, next: map<string, Relation>, ids: set<string>, id: string)
    requires ids <= next.Keys && id in next
    ensures Related(before, next, ids)[id := next[id]] == Related(before, next, ids + {id})
  {
  }

  lemma RelationIdsAll(relations: map<string, Relation>, more: seq<Relation>)
    ensures forall k :: 0 <= k < |more| ==> more[k].id in RelationIds(more)
  {
    if more != [] { RelationIdsAll(relations, more[..|more| - 1]); }
  }

  /** The state a replay of a call's facts reaches, entity by entity. */
  lemma FactsMean(w: World, call: Call)
    requires Keyed(w)
    ensures var next := Next(w, call);
      Ids(call.inputs) <= next.entities.Keys
      && WorldFrom(w, Facts(w, call)) ==
         World(PartlyReplayed(w.entities, next.entities, Ids(call.inputs)), next.relations)
  {
    hide Shadow, Relate, Grown, PartlyReplayed, Related, EntityEvents, RelationEvents, WorldFrom;
    var next := Next(w, call);
    ShadowHas(w.entities, call.inputs);
    RelateHas(w.relations, call.relations);
    ShadowKeyed(w.entities, call.inputs);
    RelateMeans(w.relations, call.relations);
    RelationIdsAll(w.relations, call.relations);
    forall i | 0 <= i < |call.inputs| && call.inputs[i].id in w.entities
      ensures Grown(w.entities[call.inputs[i].id], next.entities[call.inputs[i].id])
    {
      ShadowGrows(w.entities, call.inputs, call.inputs[i].id);
    }
    ReplayEntities(w, next.entities, call.inputs);
    var mid := WorldFrom(w, EntityEvents(next.entities, call.inputs));
    ReplayRelations(mid, next.relations, call.relations);
    WorldFromSplit(w, EntityEvents(next.entities, call.inputs), RelationEvents(next.relations, call.relations));
    RelatedIsNext(w.relations, call.relations);
  }

  lemma RelatedIsNext(relations: map<string, Relation>, more: seq<Relation>)
    ensures RelationIds(more) <= Relate(relations, more).Keys
    ensures Related(relations, Relate(relations, more), RelationIds(more)) == Relate(relations, more)
  {
    RelateMeans(relations, more);
    hide Relate, RelationIds;
  }

  /** A call replays to the state it was recorded with exactly when it is steady. */
  lemma CallReplays(w: World, call: Call)
    requires Keyed(w)
    ensures WorldFrom(w, Facts(w, call)) == Next(w, call) <==> Steady(w, call)
  {
    hide Shadow, Relate, WorldFrom, Facts;
    FactsMean(w, call);
    ShadowHas(w.entities, call.inputs);
    IdsMeans(call.inputs);
    var next, r := Next(w, call).entities, WorldFrom(w, Facts(w, call)).entities;
    if Steady(w, call) {
      forall id | id in next ensures id in r && r[id] == next[id] {
        if id !in w.entities {
          var k :| 0 <= k < |call.inputs| && call.inputs[k].id == id;
          var f, l := Mentions(call.inputs, k);
          TimesOf(w.entities, call.inputs, f, l);
        } else if id !in Ids(call.inputs) {
          UntouchedStays(w.entities, call.inputs, id);
        }
      }
      assert r == next;
    } else {
      var i, j :| FirstAndLast(call.inputs, i, j) && call.inputs[i].id !in w.entities
        && call.inputs[i].seenAt != call.inputs[j].seenAt;
      TimesOf(w.entities, call.inputs, i, j);
      assert r[call.inputs[i].id] != next[call.inputs[i].id];
    }
  }

  lemma {:induction false} UntouchedStays(m: map<string, Entity>, inputs: seq<Input>, id: string)
    requires id in m && id !in Ids(inputs)
    ensures id in Shadow(m, inputs) && Shadow(m, inputs)[id] == m[id]
  {
    if inputs != [] { UntouchedStays(m, inputs[..|inputs| - 1], id); }
  }

  /** A call that is not steady leaves an entity whose first seen time the stream does not tell. */
  lemma UnsteadyDiffers(w: World, call: Call) returns (id: string)
    requires Keyed(w) && !Steady(w, call)
    ensures var live, told := Next(w, call).entities, WorldFrom(w, Facts(w, call)).entities;
      id in live && id in told && live[id].firstSeenAt != told[id].firstSeenAt
  {
    hide Shadow, Relate, WorldFrom, Facts;
    FactsMean(w, call);
    IdsMeans(call.inputs);
    var i, j :| FirstAndLast(call.inputs, i, j) && call.inputs[i].id !in w.entities
      && call.inputs[i].seenAt != call.inputs[j].seenAt;
    TimesOf(w.entities, call.inputs, i, j);
    id := call.inputs[i].id;
  }

  /* ---------- runs of record ---------- */

  datatype Store = Store(stream: seq<Event>, world: World, version: nat, digest: World)

  predicate Nothing(call: Call) { call.inputs == [] && call.relations == [] }

  function Record(s: Store, call: Call): Store {
    if Nothing(call) then s
    else
      var next := Next(s.world, call);
      Store(s.stream + Facts(s.world, call) + [Bumped(s.version + 1, next)], next, s.version + 1, next)
  }

  function Recorded(calls: seq<Call>): Store {
    if calls == [] then Store([], EMPTY, 0, EMPTY) else Record(Recorded(calls[..|calls| - 1]), calls[|calls| - 1])
  }

  /** No call of the run gave a new entity two seen times. */
  ghost predicate AllSteady(calls: seq<Call>) {
    forall k :: 0 <= k < |calls| ==> Steady(Recorded(calls[..k]).world, calls[k])
  }

  /** The bump at an index carries the state folded from the events before it. */
  predicate Matches(events: seq<Event>, i: nat)
    requires i < |events| && events[i].Bumped?
  {
    events[i].digest == WorldOf(events[..i])
  }

  ghost predicate AllMatch(events: seq<Event>) {
    forall i :: 0 <= i < |events| && events[i].Bumped? ==> Matches(events, i)
  }

  lemma {:induction false} RecordedKeyed(calls: seq<Call>)
    ensures Keyed(Recorded(calls).world)
  {
    if calls != [] {
      var front := calls[..|calls| - 1];
      RecordedKeyed(front);
      ShadowKeyed(Recorded(front).world.entities, calls[|calls| - 1].inputs);
    }
  }

  lemma FactsAreNoBumps(w: World, call: Call)
    ensures forall k :: 0 <= k < |Facts(w, call)| ==> !Facts(w, call)[k].Bumped?
  {
  }

  /** The last event of a stream is a bump, and it matches exactly when the live state is what the stream says. */
  lemma RecordEnds(s: Store, call: Call)
    requires !Nothing(call)
    ensures var t := Record(s, call); var n := |t.stream| - 1;
      && s.stream <= t.stream && n >= |s.stream| && t.stream[n] == Bumped(t.version, t.world)
      && (forall i :: |s.stream| <= i < n ==> !t.stream[i].Bumped?)
      && (Matches(t.stream, n) <==> WorldOf(t.stream) == t.world)
      && WorldOf(t.stream) == WorldFrom(WorldOf(s.stream), Facts(s.world, call))
  {
    hide Facts, Next;
    var facts, next := Facts(s.world, call), Next(s.world, call);
    var t, n := Record(s, call), |s.stream| + |facts|;
    FactsAreNoBumps(s.world, call);
    assert t.stream[..n] == s.stream + facts;
    WorldFromSplit(EMPTY, s.stream, facts);
    WorldFromSplit(EMPTY, s.stream + facts, [Bumped(t.version, next)]);
    BumpFoldsNothing(WorldOf(s.stream + facts), Bumped(t.version, next));
  }

  lemma BumpFoldsNothing(w: World, e: Event)
    requires e.Bumped?
    ensures WorldFrom(w, [e]) == w
  {
    assert [e][..0] == [];
    assert WorldFrom(w, []) == w;
  }

  lemma MatchesLater(events: seq<Event>, more: seq<Event>, i: nat)
    requires events <= more && i < |events| && events[i].Bumped?
    ensures Matches(more, i) <==> Matches(events, i)
  {
    assert more[..i] == events[..i];
  }

  lemma SteadyStep(s: Store, call: Call)
    requires WorldOf(s.stream) == s.world && AllMatch(s.stream) && Keyed(s.world) && Steady(s.world, call)
    ensures var t := Record(s, call); WorldOf(t.stream) == t.world && AllMatch(t.stream)
  {
    hide Matches, Steady, WorldFrom, Facts, Next, Keyed;
    if !Nothing(call) {
      var t := Record(s, call);
      CallReplays(s.world, call);
      RecordEnds(s, call);
      forall i | 0 <= i < |s.stream| && s.stream[i].Bumped? ensures Matches(t.stream, i) {
        MatchesLater(s.stream, t.stream, i);
      }
    }
  }

  lemma AllSteadyStep(calls: seq<Call>)
    requires calls != []
    ensures var n := |calls| - 1;
      AllSteady(calls) <==> AllSteady(calls[..n]) && Steady(Recorded(calls[..n]).world, calls[n])
  {
    hide Recorded, Steady;
    var n := |calls| - 1;
    assert forall k :: 0 <= k < n ==> calls[..n][..k] == calls[..k] && calls[..n][k] == calls[k];
  }

  /** In a steady run the stream always says what the live projection holds, and every bump matches. */
  lemma {:induction false} SteadyRun(calls: seq<Call>)
    requires AllSteady(calls)
    ensures var s := Recorded(calls); WorldOf(s.stream) == s.world && AllMatch(s.stream)
  {
    hide Record, Steady, WorldFrom, Keyed, AllSteady;
    if calls == [] {
      NothingRecorded();
    } else {
      var n := |calls| - 1;
      AllSteadyStep(calls);
      SteadyRun(calls[..n]);
      RecordedKeyed(calls[..n]);
      SteadyStep(Recorded(calls[..n]), calls[n]);
    }
  }

  lemma NothingRecorded()
    ensures WorldOf([]) == EMPTY && AllMatch([])
  {
  }

  /** The live projection and the stream disagree on when an entity was first seen. */
  ghost predicate Diverged(s: Store) {
    exists id :: id in s.world.entities && id in WorldOf(s.stream).entities
      && s.world.entities[id].firstSeenAt != WorldOf(s.stream).entities[id].firstSeenAt
  }

  lemma {:induction false} FoldKeepsFirst(w: World, events: seq<Event>, id: string)
    requires id in w.entities
    ensures id in WorldFrom(w, events).entities
    ensures WorldFrom(w, events).entities[id].firstSeenAt == w.entities[id].firstSeenAt
  {
    if events != [] { FoldKeepsFirst(w, events[..|events| - 1], id); }
  }

  lemma DivergedStays(s: Store, call: Call)
    requires Diverged(s) && !Nothing(call)
    ensures Diverged(Record(s, call)) && EndsBadly(Record(s, call).stream)
  {
    hide WorldFrom, Facts, Shadow, Matches;
    var id :| id in s.world.entities && id in WorldOf(s.stream).entities
      && s.world.entities[id].firstSeenAt != WorldOf(s.stream).entities[id].firstSeenAt;
    RecordEnds(s, call);
    FoldKeepsFirst(WorldOf(s.stream), Facts(s.world, call), id);
    ShadowGrows(s.world.entities, call.inputs, id);
  }

  /** The stream ends in a bump that does not match. */
  predicate EndsBadly(stream: seq<Event>) {
    |stream| > 0 && stream[|stream| - 1].Bumped? && !Matches(stream, |stream| - 1)
  }

  lemma UnsteadyStep(s: Store, call: Call)
    requires WorldOf(s.stream) == s.world && Keyed(s.world) && !Steady(s.world, call)
    ensures Diverged(Record(s, call)) && EndsBadly(Record(s, call).stream)
  {
    hide WorldFrom, Facts, Shadow, Matches, Steady, Keyed, Relate;
    CallReplays(s.world, call);
    var id := UnsteadyDiffers(s.world, call);
    SomethingUnsteady(s.world, call);
    RecordEnds(s, call);
  }

  lemma SomethingUnsteady(w: World, call: Call)
    requires !Steady(w, call)
    ensures !Nothing(call)
  {
  }

  /** A call that is not steady spoils the run for good: the last bump never matches again. */
  lemma {:induction false} UnsteadyRun(calls: seq<Call>)
    requires !AllSteady(calls)
    ensures Diverged(Recorded(calls)) && EndsBadly(Recorded(calls).stream)
  {
    hide Record, Steady, WorldFrom, Keyed, AllSteady, EndsBadly, Diverged, Nothing;
    if calls == [] {
      NoCallsSteady();
    } else {
      var n := |calls| - 1;
      AllSteadyStep(calls);
      if !AllSteady(calls[..n]) {
        UnsteadyRun(calls[..n]);
        if Nothing(calls[n]) {
          NothingKeeps(Recorded(calls[..n]), calls[n]);
        } else {
          DivergedStays(Recorded(calls[..n]), calls[n]);
        }
      } else {
        SteadyRun(calls[..n]);
        RecordedKeyed(calls[..n]);
        UnsteadyStep(Recorded(calls[..n]), calls[n]);
      }
    }
  }

  lemma NoCallsSteady()
    ensures AllSteady([])
  {
  }

  lemma NothingKeeps(s: Store, call: Call)
    requires Nothing(call)
    ensures Record(s, call) == s
  {
  }
}
