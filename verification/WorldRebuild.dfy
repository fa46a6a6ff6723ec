/**
 * Rebuilding the world projection from its stream, strictly or by rebasing, and the store as an object.
 */
module WorldRebuild {
  import opened Options
  import opened World
  import WorldContents

  datatype Pending = Pending(version: nat, expected: World)

  /** A replay under way: the folded world, the verified version and digest, and the bumps that did not match. */
  datatype Scan = Scan(
    world: World, version: nat, digest: World, pending: Option<Pending>, driftedAt: Option<nat>, last: Option<World>)

  const START := Scan(EMPTY, 0, EMPTY, None, None, None)

  function Max(a: nat, b: nat): nat { if a >= b then a else b }

  /** One event of the replay; a strict one stops at the second mismatch in a row. */
  function Step(strict: bool, x: Scan, e: Event): Option<Scan> {
    match e
    case Bumped(version, digest) =>
      var y := x.(last := Some(digest));
      if x.world == digest then Some(y.(version := version, digest := digest, pending := None))
      else if x.pending.None? then Some(y.(pending := Some(Pending(version, digest))))
      else if strict then None
      else Some(y.(driftedAt := Some(x.pending.value.version), version := Max(x.version, version), pending := None))
    case _ => Some(x.(world := FoldEvent(x.world, e)))
  }

  function ScanAll(strict: bool, events: seq<Event>): Option<Scan> {
    if events == [] then Some(START)
    else
      var x := ScanAll(strict, events[..|events| - 1]);
      if x.None? then None else Step(strict, x.value, events[|events| - 1])
  }

  function DriftOf(x: Scan): Option<nat> { if x.pending.Some? then Some(x.pending.value.version) else x.driftedAt }

  function Corrective(x: Scan, driftedAt: nat): nat {
    Max(Max(x.version, driftedAt + 1), if x.pending.Some? then x.pending.value.version else 0) + 1
  }

  /** What a rebuild leaves behind, or none when it fails on a drift. */
  function Rebuilt(strict: bool, events: seq<Event>): Option<Store> {
    var scan := ScanAll(strict, events);
    if scan.None? || (strict && scan.value.pending.Some?) then None
    else
      var x := scan.value;
      var drift := DriftOf(x);
      if drift.None? then Some(Store(events, x.world, x.version, x.digest))
      else if x.last == Some(x.world) then Some(Store(events, x.world, x.version, x.world))
      else
        var c := Corrective(x, drift.value);
        Some(Store(events + [Bumped(c, x.world)], x.world, c, x.world))
  }

  /* ---------- strict replay ---------- */

  /** Two bumps with no bump between them. */
  predicate InARow(events: seq<Event>, i: int, j: int) {
    && 0 <= i < j < |events| && events[i].Bumped? && events[j].Bumped?
    && forall k :: i < k < j ==> !events[k].Bumped?
  }

  predicate LastBump(events: seq<Event>, i: int) {
    0 <= i < |events| && events[i].Bumped? && forall k :: i < k < |events| ==> !events[k].Bumped?
  }

  /** No two bumps in a row fail to match, and the last one matches. */
  ghost predicate Verifies(events: seq<Event>) {
    && (forall i, j :: InARow(events, i, j) ==> Matches(events, i) || Matches(events, j))
    && (forall i :: LastBump(events, i) ==> Matches(events, i))
  }

  ghost predicate NoTwoBad(events: seq<Event>) {
    forall i, j :: InARow(events, i, j) ==> Matches(events, i) || Matches(events, j)
  }

  lemma {:induction false} ScanWorld(strict: bool, events: seq<Event>)
    requires ScanAll(strict, events).Some?
    ensures ScanAll(strict, events).value.world == WorldOf(events)
  {
    if events != [] { ScanWorld(strict, events[..|events| - 1]); }
  }

  function LastIndex(events: seq<Event>): (r: Option<nat>)
    ensures r.Some? ==> r.value < |events| && events[r.value].Bumped?
  {
    if events == [] then None
    else if events[|events| - 1].Bumped? then Some(|events| - 1) else LastIndex(events[..|events| - 1])
  }

  lemma {:induction false} LastIndexMeans(events: seq<Event>, i: int)
    ensures LastBump(events, i) <==> LastIndex(events) == Some(i)
  {
    if events != [] {
      LastIndexMeans(events[..|events| - 1], i);
    }
  }

  lemma InARowStep(front: seq<Event>, e: Event, i: int, j: int)
    ensures InARow(front + [e], i, j) <==> InARow(front, i, j) || (j == |front| && e.Bumped? && LastBump(front, i))
  {
    var after := front + [e];
    assert forall k :: 0 <= k < |front| ==> after[k] == front[k];
    if InARow(after, i, j) && j < |front| {
      assert forall k :: i < k < j ==> front[k] == after[k];
    }
    if InARow(after, i, j) && j == |front| {
      assert forall k :: i < k < j ==> front[k] == after[k];
    }
  }

  lemma MatchesStep(front: seq<Event>, e: Event)
    ensures forall i :: 0 <= i < |front| && front[i].Bumped? ==> (Matches(front + [e], i) <==> Matches(front, i))
    ensures e.Bumped? ==> (Matches(front + [e], |front|) <==> e.digest == WorldOf(front))
  {
    forall i | 0 <= i < |front| && front[i].Bumped? ensures Matches(front + [e], i) <==> Matches(front, i) {
      MatchesLater(front, front + [e], i);
    }
    assert (front + [e])[..|front|] == front;
  }

  lemma NoTwoBadStep(front: seq<Event>, e: Event)
    ensures NoTwoBad(front + [e]) <==>
      && NoTwoBad(front)
      && (e.Bumped? && LastIndex(front).Some? ==> Matches(front, LastIndex(front).value) || e.digest == WorldOf(front))
  {
    hide Matches, InARow, LastBump, WorldOf, LastIndex;
    var after := front + [e];
    MatchesStep(front, e);
    forall i, j
      ensures InARow(after, i, j) <==>
        InARow(front, i, j) || (j == |front| && e.Bumped? && LastIndex(front) == Some(i))
    {
      InARowStep(front, e, i, j);
      LastIndexMeans(front, i);
    }
    RowBounds(front);
    if NoTwoBad(after) && e.Bumped? && LastIndex(front).Some? {
      assert InARow(after, LastIndex(front).value, |front|);
    }
    if NoTwoBad(after) {
      forall i, j | InARow(front, i, j) ensures Matches(front, i) || Matches(front, j) {
        assert InARow(after, i, j);
      }
    }
  }

  lemma RowBounds(events: seq<Event>)
    ensures forall i, j :: InARow(events, i, j) ==>
      0 <= i < |events| && 0 <= j < |events| && events[i].Bumped? && events[j].Bumped?
  {
  }

  /** What a strict replay knows of a prefix: its last bump, if any, is verified or pending. */
  predicate Tracks(events: seq<Event>, x: Scan) {
    && x.world == WorldOf(events) && x.driftedAt.None?
    && (match LastIndex(events)
        case None => x.pending.None? && x.version == 0 && x.digest == EMPTY
        case Some(i) =>
          && (x.pending.None? <==> Matches(events, i))
          && (x.pending.None? ==> x.version == events[i].version && x.digest == events[i].digest))
  }

  lemma {:induction false} StrictTracks(events: seq<Event>)
    ensures ScanAll(true, events).Some? <==> NoTwoBad(events)
    ensures ScanAll(true, events).Some? ==> Tracks(events, ScanAll(true, events).value)
  {
    hide Tracks, NoTwoBad, Step;
    if events == [] {
      NothingTracks();
    } else {
      var front, e := events[..|events| - 1], events[|events| - 1];
      assert events == front + [e];
      StrictTracks(front);
      NoTwoBadStep(front, e);
      if ScanAll(true, front).Some? {
        StepTracks(front, e, ScanAll(true, front).value);
      }
    }
  }

  lemma NothingTracks()
    ensures Tracks([], START) && NoTwoBad([])
  {
  }

  lemma StepTracks(front: seq<Event>, e: Event, x: Scan)
    requires Tracks(front, x)
    ensures Step(true, x, e).Some? <==>
      (e.Bumped? && LastIndex(front).Some? ==> Matches(front, LastIndex(front).value) || e.digest == WorldOf(front))
    ensures Step(true, x, e).Some? ==> Tracks(front + [e], Step(true, x, e).value)
  {
    hide Matches;
    MatchesStep(front, e);
    assert (front + [e])[..|front|] == front;
    assert WorldOf(front + [e]) == FoldEvent(WorldOf(front), e);
    hide WorldFrom;
  }

  /** A strict rebuild succeeds exactly on a stream that verifies, with its world and its last bump. */
  lemma StrictMeans(events: seq<Event>)
    ensures Rebuilt(true, events).Some? <==> Verifies(events)
    ensures Rebuilt(true, events).Some? ==>
      var s := Rebuilt(true, events).value;
      && s.stream == events && s.world == WorldOf(events)
      && (match LastIndex(events)
          case None => s.version == 0 && s.digest == EMPTY
          case Some(i) => s.version == events[i].version && s.digest == events[i].digest == WorldOf(events[..i]))
  {
    hide ScanAll, WorldOf, InARow, LastBump, LastIndex;
    StrictTracks(events);
    forall i ensures LastBump(events, i) <==> LastIndex(events) == Some(i) {
      LastIndexMeans(events, i);
    }
  }

  /**
   * After any run of `record`, a strict rebuild recovers the same world, version and digest exactly when every
   * call of the run was steady; otherwise it fails.
   */
  lemma StrictRecovers(calls: seq<Call>)
    ensures Rebuilt(true, Recorded(calls).stream) == if AllSteady(calls) then Some(Recorded(calls)) else None
  {
    hide Rebuilt, Recorded, AllSteady, WorldOf;
    var s := Recorded(calls);
    StrictMeans(s.stream);
    if AllSteady(calls) {
      SteadyRun(calls);
      MatchVerifies(s.stream);
      RunEnds(calls);
    } else {
      UnsteadyRun(calls);
      BadEndFails(s.stream);
    }
  }

  lemma MatchVerifies(events: seq<Event>)
    requires AllMatch(events)
    ensures Verifies(events)
  {
    hide Matches;
  }

  lemma BadEndFails(events: seq<Event>)
    requires EndsBadly(events)
    ensures !Verifies(events)
  {
    hide Matches;
    assert LastBump(events, |events| - 1);
  }

  /** The last bump of a run carries its version and its digest. */
  lemma {:induction false} RunEnds(calls: seq<Call>)
    ensures var s := Recorded(calls);
      match LastIndex(s.stream)
      case None => s.version == 0 && s.digest == EMPTY && s.world == EMPTY
      case Some(i) => s.stream[i] == Bumped(s.version, s.digest) && s.digest == s.world
  {
    if calls != [] {
      var n := |calls| - 1;
      RunEnds(calls[..n]);
      if !Nothing(calls[n]) {
        RecordEnds(Recorded(calls[..n]), calls[n]);
      }
    }
  }

  /* ---------- rebase ---------- */

  lemma {:induction false} RebaseScans(events: seq<Event>)
    ensures ScanAll(false, events).Some?
  {
    if events != [] { RebaseScans(events[..|events| - 1]); }
  }

  /** Where a strict replay does not fail, a rebasing one does the same. */
  lemma {:induction false} RebaseFollows(events: seq<Event>)
    requires ScanAll(true, events).Some?
    ensures ScanAll(false, events) == ScanAll(true, events) && ScanAll(true, events).value.driftedAt.None?
  {
    if events != [] {
      hide FoldEvent;
      RebaseFollows(events[..|events| - 1]);
    }
  }

  /** A rebase never fails, and a second one appends nothing and leaves the same state. */
  lemma RebaseIsIdempotent(events: seq<Event>)
    ensures Rebuilt(false, events).Some? && Rebuilt(false, events).value.world == WorldOf(events)
    ensures var s := Rebuilt(false, events).value; Rebuilt(false, s.stream) == Some(s)
  {
    hide WorldOf, FoldEvent;
    RebaseScans(events);
    ScanWorld(false, events);
    var x := ScanAll(false, events).value;
    if DriftOf(x).Some? && x.last != Some(x.world) {
      var e := Bumped(Corrective(x, DriftOf(x).value), x.world);
      assert (events + [e])[..|events|] == events;
      assert ScanAll(false, events + [e]) == Step(false, x, e);
    }
  }

  predicate Increasing(events: seq<Event>) {
    forall i, j :: 0 <= i < j < |events| && events[i].Bumped? && events[j].Bumped? ==>
      events[i].version < events[j].version
  }

  /** No bump of the stream is above the verified and the pending version. */
  predicate Bounded(events: seq<Event>, x: Scan) {
    forall i :: 0 <= i < |events| && events[i].Bumped? ==>
      events[i].version <= Max(x.version, if x.pending.Some? then x.pending.value.version else 0)
  }

  lemma {:induction false} ScanBounds(events: seq<Event>)
    requires Increasing(events)
    ensures ScanAll(false, events).Some? && Bounded(events, ScanAll(false, events).value)
  {
    if events != [] {
      hide FoldEvent;
      var front := events[..|events| - 1];
      ScanBounds(front);
    }
  }

  /** On a stream with increasing bump versions the corrective version exceeds every earlier one. */
  lemma CorrectiveExceeds(events: seq<Event>)
    requires Increasing(events) && Rebuilt(false, events).Some? && Rebuilt(false, events).value.stream != events
    ensures var s := Rebuilt(false, events).value;
      && s.stream == events + [Bumped(s.version, s.world)] && s.digest == s.world
      && (forall i :: 0 <= i < |events| && events[i].Bumped? ==> events[i].version < s.version)
      && Increasing(s.stream)
  {
    ScanBounds(events);
    hide ScanAll;
  }

  /* ---------- the store as an object ---------- */

  class WorldModelStore {
    var stream: seq<Event>
    var world: World
    var version: nat
    var digest: World

    constructor (stream: seq<Event>)
      ensures Abs() == Store(stream, EMPTY, 0, EMPTY)
    {
      this.stream, world, version, digest := stream, EMPTY, 0, EMPTY;
    }

    ghost function Abs(): Store
      reads this
    {
      Store(stream, world, version, digest)
    }

    /** Records entities and relations, with the bump that seals them, and advances the projection. */
    method RecordNow(inputs: seq<Input>, relations: seq<Relation>)
      modifies this
      ensures Abs() == Record(old(Abs()), Call(inputs, relations))
      ensures WorldContents.Told(old(world), Call(inputs, relations), world)
    {
      hide WorldContents.Told;
      WorldContents.CallIsTold(world, Call(inputs, relations));
      if |inputs| == 0 && |relations| == 0 {
        return;
      }
      hide Shadow, Relate, EntityEvents, RelationEvents;
      ShadowHas(world.entities, inputs);
      RelateHas(world.relations, relations);
      var entities := Advance(world.entities, inputs);
      var related := Project(world.relations, relations);
      var events := Recorded(entities, related, inputs, relations);
      var next := World(entities, related);
      stream := stream + events + [Bumped(version + 1, next)];
      world, version, digest := next, version + 1, next;
    }

    /** The entities after the inputs, one by one, in a copy. */
    static method Advance(before: map<string, Entity>, inputs: seq<Input>) returns (entities: map<string, Entity>)
      ensures entities == Shadow(before, inputs)
    {
      entities := before;
      for k := 0 to |inputs|
        invariant entities == Shadow(before, inputs[..k])
      {
        assert inputs[..k + 1][..k] == inputs[..k];
        entities := Put(entities, inputs[k]);
      }
      assert inputs[..|inputs|] == inputs;
    }

    static method Project(before: map<string, Relation>, relations: seq<Relation>)
      returns (related: map<string, Relation>)
      ensures related == Relate(before, relations)
    {
      related := before;
      for k := 0 to |relations|
        invariant related == Relate(before, relations[..k])
      {
        assert relations[..k + 1][..k] == relations[..k];
        related := related[relations[k].id := relations[k]];
      }
      assert relations[..|relations|] == relations;
    }

    /** One event for every input and relation, each with what it came to in the end. */
    static method Recorded(
      entities: map<string, Entity>, related: map<string, Relation>, inputs: seq<Input>, relations: seq<Relation>)
      returns (events: seq<Event>)
      requires forall k :: 0 <= k < |inputs| ==> inputs[k].id in entities
      requires forall k :: 0 <= k < |relations| ==> relations[k].id in related
      ensures events == EntityEvents(entities, inputs) + RelationEvents(related, relations)
    {
      events := [];
      for k := 0 to |inputs|
        invariant events == EntityEvents(entities, inputs)[..k]
      {
        events := events + [EntityRecorded(entities[inputs[k].id])];
      }
      assert EntityEvents(entities, inputs)[..|inputs|] == EntityEvents(entities, inputs);
      for k := 0 to |relations|
        invariant events == EntityEvents(entities, inputs) + RelationEvents(related, relations)[..k]
      {
        events := events + [RelationProjected(related[relations[k].id])];
      }
      assert RelationEvents(related, relations)[..|relations|] == RelationEvents(related, relations);
    }

    /** Replays the stream from nothing; on a drift a strict rebuild fails, a rebase appends a corrective bump. */
    method Rebuild(strict: bool) returns (ok: bool)
      modifies this
      ensures ok <==> Rebuilt(strict, old(stream)).Some?
      ensures ok ==> Abs() == Rebuilt(strict, old(stream)).value
      ensures !ok ==> stream == old(stream)
    {
      world, version, digest := EMPTY, 0, EMPTY;
      var pending: Option<Pending>, driftedAt: Option<nat>, last: Option<World> := None, None, None;
      for n := 0 to |stream|
        invariant stream == old(stream)
        invariant ScanAll(strict, stream[..n]) == Some(Scan(world, version, digest, pending, driftedAt, last))
      {
        hide FoldEvent;
        assert stream[..n + 1][..n] == stream[..n];
        match stream[n] {
          case Bumped(bumpVersion, bumpDigest) =>
            last := Some(bumpDigest);
            if world == bumpDigest {
              version, digest, pending := bumpVersion, bumpDigest, None;
              continue;
            }
            if pending.None? {
              pending := Some(Pending(bumpVersion, bumpDigest));
              continue;
            }
            if strict {
              StrictStops(stream, n);
              return false;
            }
            driftedAt := Some(pending.value.version);
            version := Max(version, bumpVersion);
            pending := None;
          case EntityRecorded(_) => world := FoldEvent(world, stream[n]);
          case RelationProjected(_) => world := FoldEvent(world, stream[n]);
        }
      }
      assert stream[..|stream|] == stream;
      if pending.Some? {
        if strict {
          return false;
        }
        driftedAt := Some(pending.value.version);
      }
      if driftedAt.Some? && last != Some(world) {
        var bumped := if pending.Some? then pending.value.version else 0;
        var corrective := Max(Max(version, driftedAt.value + 1), bumped) + 1;
        stream := stream + [Bumped(corrective, world)];
        version, digest := corrective, world;
      } else if driftedAt.Some? {
        digest := world;
      }
      return true;
    }
  }

  lemma {:induction false} StrictStops(events: seq<Event>, n: nat)
    requires n <= |events| && (n < |events| ==> ScanAll(true, events[..n + 1]).None?)
    requires n == |events| ==> ScanAll(true, events).None?
    ensures ScanAll(true, events).None?
    decreases |events| - n
  {
    if n < |events| {
      if n + 1 < |events| {
        assert events[..n + 2][..n + 1] == events[..n + 1];
        StrictStops(events, n + 1);
      } else {
        assert events[..n + 1] == events;
      }
    }
  }
}
