/** Runs of the world store that record and rebase in any order, and what a strict rebuild makes of them. */
module WorldRuns {
  import opened Options
  import opened World
  import opened WorldRebuild

  datatype Op = Recording(call: Call) | Rebasing

  function Apply(s: Store, op: Op): Store {
    match op
    case Recording(call) => Record(s, call)
    case Rebasing =>
      RebaseScans(s.stream);
      Rebuilt(false, s.stream).value
  }

  function Ran(ops: seq<Op>): Store {
    if ops == [] then Store([], EMPTY, 0, EMPTY) else Apply(Ran(ops[..|ops| - 1]), ops[|ops| - 1])
  }

  /** A stream is intact, or ends in the bump of a call that was not steady, or is past repair. */
  datatype Health = Intact | Ailing | Spoilt

  /** A rebase repairs what one unsteady call did, if nothing was recorded in between. */
  ghost function After(health: Health, s: Store, op: Op): Health {
    match op
    case Rebasing => if health == Spoilt then Spoilt else Intact
    case Recording(call) =>
      if Nothing(call) then health
      else if health == Intact then (if Steady(s.world, call) then Intact else Ailing)
      else Spoilt
  }

  ghost function HealthOf(ops: seq<Op>): Health {
    if ops == [] then Intact
    else
      var front := ops[..|ops| - 1];
      After(HealthOf(front), Ran(front), ops[|ops| - 1])
  }

  /** The store holds what its stream says, and its last bump says so. */
  ghost predicate Holds(s: Store) {
    && NoTwoBad(s.stream) && WorldOf(s.stream) == s.world && Keyed(s.world)
    && match LastIndex(s.stream)
       case None => s.version == 0 && s.digest == EMPTY == s.world
       case Some(i) => s.stream[i] == Bumped(s.version, s.digest) && s.digest == s.world && Matches(s.stream, i)
  }

  ghost predicate Fits(health: Health, s: Store) {
    match health
    case Intact => Holds(s)
    case Ailing => NoTwoBad(s.stream) && Diverged(s) && EndsBadly(s.stream)
    case Spoilt => !NoTwoBad(s.stream)
  }

  /* ---------- what is recorded ---------- */

  /** Events that are no bumps change nothing about the bumps before them. */
  lemma {:induction false} FactsChangeNoBump(events: seq<Event>, facts: seq<Event>)
    requires forall k :: 0 <= k < |facts| ==> !facts[k].Bumped?
    ensures NoTwoBad(events + facts) <==> NoTwoBad(events)
    ensures LastIndex(events + facts) == LastIndex(events)
  {
    hide NoTwoBad, Matches, WorldFrom, LastIndex;
    if facts == [] {
      assert events + facts == events;
    } else {
      var n := |facts| - 1;
      FactsChangeNoBump(events, facts[..n]);
      OneFact(events + facts[..n], facts[n]);
      assert events + facts == events + facts[..n] + [facts[n]];
    }
  }

  lemma OneFact(events: seq<Event>, e: Event)
    requires !e.Bumped?
    ensures NoTwoBad(events + [e]) <==> NoTwoBad(events)
    ensures LastIndex(events + [e]) == LastIndex(events)
  {
    NoTwoBadStep(events, e);
    hide NoTwoBad, Matches, WorldFrom;
    assert (events + [e])[..|events|] == events;
  }

  /** A recorded call adds no second bad bump in a row, if the last bump or its own matches. */
  lemma RecordedBumps(s: Store, call: Call)
    requires !Nothing(call)
    ensures var t := Record(s, call);
      && LastIndex(t.stream) == Some(|t.stream| - 1)
      && (NoTwoBad(t.stream) <==>
            && NoTwoBad(s.stream)
            && (LastIndex(s.stream).Some? ==>
                  Matches(s.stream, LastIndex(s.stream).value) || WorldOf(t.stream) == t.world))
  {
    hide NoTwoBad, Matches, WorldFrom, Facts, Next;
    var facts, e := Facts(s.world, call), Bumped(s.version + 1, Next(s.world, call));
    FactsAreNoBumps(s.world, call);
    FactsChangeNoBump(s.stream, facts);
    NoTwoBadStep(s.stream + facts, e);
    var last := LastIndex(s.stream);
    if last.Some? { MatchesLater(s.stream, s.stream + facts, last.value); }
    RecordEnds(s, call);
    var t := Record(s, call);
    assert t.stream == s.stream + facts + [e];
    WorldFromSplit(EMPTY, s.stream, facts);
  }

  lemma NextKeyed(w: World, call: Call)
    requires Keyed(w)
    ensures Keyed(Next(w, call))
  {
    ShadowKeyed(w.entities, call.inputs);
  }

  lemma RecordKeepsFit(health: Health, s: Store, call: Call)
    requires Fits(health, s)
    ensures Fits(After(health, s, Recording(call)), Record(s, call))
  {
    hide NoTwoBad, Matches, WorldFrom, Facts, Next, Steady, Keyed, Diverged, LastIndex;
    if !Nothing(call) {
      RecordedBumps(s, call);
      RecordEnds(s, call);
      match health {
        case Intact =>
          CallReplays(s.world, call);
          NextKeyed(s.world, call);
          if !Steady(s.world, call) { UnsteadyStep(s, call); }
        case Ailing =>
          DivergedStays(s, call);
          LastIndexMeans(s.stream, |s.stream| - 1);
        case Spoilt =>
      }
    }
  }

  /* ---------- what a rebase makes of it ---------- */

  lemma {:induction false} LastSeen(strict: bool, events: seq<Event>)
    requires ScanAll(strict, events).Some?
    ensures ScanAll(strict, events).value.last ==
      match LastIndex(events) case None => None case Some(i) => Some(events[i].digest)
  {
    if events != [] {
      hide FoldEvent;
      LastSeen(strict, events[..|events| - 1]);
    }
  }

  lemma {:induction false} WorldKeyed(events: seq<Event>)
    ensures Keyed(WorldOf(events))
  {
    if events != [] { WorldKeyed(events[..|events| - 1]); }
  }

  lemma RebaseKeepsFit(health: Health, s: Store)
    requires Fits(health, s)
    ensures Fits(After(health, s, Rebasing), Apply(s, Rebasing))
  {
    hide ScanAll, NoTwoBad, WorldFrom, LastIndex, Keyed, Matches, Diverged;
    match health
    case Intact => IntactStays(s);
    case Ailing => AilingHeals(s);
    case Spoilt => SpoiltStays(s.stream);
  }

  lemma IntactStays(s: Store)
    requires Holds(s)
    ensures Apply(s, Rebasing) == s
  {
    hide ScanAll, NoTwoBad, WorldFrom, LastIndex, Keyed, Matches;
    StrictTracks(s.stream);
    RebaseFollows(s.stream);
  }

  lemma AilingHeals(s: Store)
    requires NoTwoBad(s.stream) && EndsBadly(s.stream)
    ensures Holds(Apply(s, Rebasing))
  {
    StrictTracks(s.stream);
    RebaseFollows(s.stream);
    LastSeen(false, s.stream);
    LastIndexMeans(s.stream, |s.stream| - 1);
    BadEndDiffers(s.stream);
    WorldKeyed(s.stream);
    hide ScanAll, NoTwoBad, WorldFrom, LastIndex, Keyed;
    var t := Apply(s, Rebasing);
    var e := t.stream[|s.stream|];
    assert t.stream == s.stream + [e];
    NoTwoBadStep(s.stream, e);
    MatchesStep(s.stream, e);
    WorldFromSplit(EMPTY, s.stream, [e]);
    BumpFoldsNothing(WorldOf(s.stream), e);
    LastIsIt(s.stream, e);
  }

  lemma BadEndDiffers(events: seq<Event>)
    requires EndsBadly(events)
    ensures events[|events| - 1].digest != WorldOf(events)
  {
  }

  lemma LastIsIt(front: seq<Event>, e: Event)
    requires e.Bumped?
    ensures LastIndex(front + [e]) == Some(|front|)
  {
  }

  lemma SpoiltStays(events: seq<Event>)
    requires !NoTwoBad(events)
    ensures !NoTwoBad(Apply(Store(events, EMPTY, 0, EMPTY), Rebasing).stream)
  {
    hide ScanAll, NoTwoBad, FoldEvent;
    RebaseScans(events);
    var t := Apply(Store(events, EMPTY, 0, EMPTY), Rebasing);
    if t.stream != events {
      NoTwoBadStep(events, t.stream[|events|]);
      assert t.stream == events + [t.stream[|events|]];
    }
  }

  /* ---------- whole runs ---------- */

  lemma {:induction false} RunFits(ops: seq<Op>)
    ensures Fits(HealthOf(ops), Ran(ops))
  {
    hide Fits, Apply, After;
    if ops == [] {
      NothingFits();
    } else {
      var front, op := ops[..|ops| - 1], ops[|ops| - 1];
      RunFits(front);
      OpKeepsFit(HealthOf(front), Ran(front), op);
    }
  }

  lemma OpKeepsFit(health: Health, s: Store, op: Op)
    requires Fits(health, s)
    ensures Fits(After(health, s, op), Apply(s, op))
  {
    hide Fits, After, Rebuilt, Record;
    match op
    case Recording(call) => RecordKeepsFit(health, s, call);
    case Rebasing => RebaseKeepsFit(health, s);
  }

  lemma NothingFits()
    ensures Fits(Intact, Store([], EMPTY, 0, EMPTY))
  {
  }

  /* ---------- which runs are intact ---------- */

  ghost predicate UnsteadyAt(ops: seq<Op>, k: nat) {
    k < |ops| && ops[k].Recording? && !Steady(Ran(ops[..k]).world, ops[k].call)
  }

  /** Nothing is recorded between the two. */
  predicate Quiet(ops: seq<Op>, k: nat, j: nat) {
    j <= |ops| && forall m :: k < m < j ==> ops[m].Recording? && Nothing(ops[m].call)
  }

  /** A rebase came before anything else was recorded. */
  predicate Repaired(ops: seq<Op>, k: nat) { exists j: nat :: k < j < |ops| && ops[j].Rebasing? && Quiet(ops, k, j) }

  ghost predicate AllRepaired(ops: seq<Op>) { forall k :: UnsteadyAt(ops, k) ==> Repaired(ops, k) }

  /** What the health of a run says of its unsteady calls. */
  ghost predicate Explains(health: Health, ops: seq<Op>) {
    match health
    case Intact => AllRepaired(ops)
    case Ailing =>
      && (exists k :: UnsteadyAt(ops, k) && Quiet(ops, k, |ops|))
      && forall k :: UnsteadyAt(ops, k) ==> Repaired(ops, k) || Quiet(ops, k, |ops|)
    case Spoilt => exists k :: UnsteadyAt(ops, k) && !Repaired(ops, k) && !Quiet(ops, k, |ops|)
  }

  /** What one more operation does to an unsteady call. */
  lemma OneMore(front: seq<Op>, op: Op, k: nat)
    requires k < |front|
    ensures var ops := front + [op];
      && (UnsteadyAt(ops, k) <==> UnsteadyAt(front, k))
      && (Quiet(ops, k, |ops|) <==> Quiet(front, k, |front|) && op.Recording? && Nothing(op.call))
      && (Repaired(ops, k) <==> Repaired(front, k) || (op.Rebasing? && Quiet(front, k, |front|)))
  {
    hide Ran, Steady;
    var ops := front + [op];
    assert ops[..k] == front[..k];
    forall j: nat | j <= |front| ensures Quiet(ops, k, j) <==> Quiet(front, k, j) {
      SameQuiet(front, op, k, j);
    }
    QuietMore(front, op, k);
    hide Quiet;
    if Repaired(front, k) {
      var j: nat :| k < j < |front| && front[j].Rebasing? && Quiet(front, k, j);
      assert ops[j].Rebasing? && Quiet(ops, k, j);
    }
    if Repaired(ops, k) {
      var j: nat :| k < j < |ops| && ops[j].Rebasing? && Quiet(ops, k, j);
      assert j < |front| ==> front[j].Rebasing? && Quiet(front, k, j);
    }
  }

  lemma SameQuiet(front: seq<Op>, op: Op, k: nat, j: nat)
    requires j <= |front|
    ensures Quiet(front + [op], k, j) <==> Quiet(front, k, j)
  {
    assert forall m :: 0 <= m < |front| ==> (front + [op])[m] == front[m];
    if Quiet(front + [op], k, j) {
      forall m | k < m < j ensures front[m].Recording? && Nothing(front[m].call) {
        assert (front + [op])[m] == front[m];
      }
    }
  }

  lemma QuietMore(front: seq<Op>, op: Op, k: nat)
    requires k < |front|
    ensures Quiet(front + [op], k, |front| + 1) <==> Quiet(front, k, |front|) && op.Recording? && Nothing(op.call)
  {
    SameQuiet(front, op, k, |front|);
    var ops := front + [op];
    assert ops[|front|] == op;
    assert Quiet(ops, k, |front| + 1) <==> Quiet(ops, k, |front|) && op.Recording? && Nothing(op.call);
  }

  lemma LastOne(front: seq<Op>, op: Op)
    ensures var ops := front + [op];
      && (UnsteadyAt(ops, |front|) <==> op.Recording? && !Steady(Ran(front).world, op.call))
      && Quiet(ops, |front|, |ops|) && !Repaired(ops, |front|)
  {
    hide Ran, Steady;
    assert (front + [op])[..|front|] == front;
  }

  lemma ExplainsMore(health: Health, front: seq<Op>, op: Op)
    requires Explains(health, front)
    ensures Explains(After(health, Ran(front), op), front + [op])
  {
    hide Ran, Steady, Quiet, Repaired, UnsteadyAt;
    var ops := front + [op];
    LastOne(front, op);
    if op.Recording? && Nothing(op.call) { SteadyNothing(Ran(front).world, op); }
    UnsteadyBounds(ops);
    UnsteadyBounds(front);
    forall k | 0 <= k < |front|
      ensures UnsteadyAt(ops, k) <==> UnsteadyAt(front, k)
      ensures Quiet(ops, k, |ops|) <==> Quiet(front, k, |front|) && op.Recording? && Nothing(op.call)
      ensures Repaired(ops, k) <==> Repaired(front, k) || (op.Rebasing? && Quiet(front, k, |front|))
    {
      OneMore(front, op, k);
    }
    match health
    case Intact =>
    case Ailing =>
      var k :| UnsteadyAt(front, k) && Quiet(front, k, |front|);
      assert UnsteadyAt(ops, k) && !Repaired(front, k) by { QuietIsNotRepaired(front, k); }
    case Spoilt =>
      var k :| UnsteadyAt(front, k) && !Repaired(front, k) && !Quiet(front, k, |front|);
      assert UnsteadyAt(ops, k) && !Repaired(ops, k);
  }

  lemma QuietIsNotRepaired(ops: seq<Op>, k: nat)
    requires Quiet(ops, k, |ops|)
    ensures !Repaired(ops, k)
  {
  }

  lemma UnsteadyBounds(ops: seq<Op>)
    ensures forall k: nat :: UnsteadyAt(ops, k) ==> k < |ops|
  {
  }

  lemma SteadyNothing(w: World, op: Op)
    requires op.Recording? && Nothing(op.call)
    ensures Steady(w, op.call)
  {
  }

  lemma {:induction false} HealthMeans(ops: seq<Op>)
    ensures Explains(HealthOf(ops), ops)
    ensures HealthOf(ops) == Intact <==> AllRepaired(ops)
  {
    hide Ran, Steady, Quiet, Repaired, UnsteadyAt, After;
    if ops == [] {
      UnsteadyBounds(ops);
    } else {
      var front, op := ops[..|ops| - 1], ops[|ops| - 1];
      HealthMeans(front);
      ExplainsMore(HealthOf(front), front, op);
      assert ops == front + [op];
    }
    if HealthOf(ops) == Ailing {
      var k :| UnsteadyAt(ops, k) && Quiet(ops, k, |ops|);
      QuietIsNotRepaired(ops, k);
    }
  }

  /**
   * After any run of `record` and rebasing rebuilds, a strict rebuild recovers the same world, version and digest
   * exactly when each call that was not steady was followed by a rebase before anything else was recorded, and
   * otherwise fails.
   */
  lemma StrictRecoversAny(ops: seq<Op>)
    ensures Rebuilt(true, Ran(ops).stream) == if AllRepaired(ops) then Some(Ran(ops)) else None
  {
    hide Rebuilt, Ran, HealthOf, NoTwoBad, WorldOf, LastIndex, Keyed, Matches, Diverged, AllRepaired, Explains;
    var s := Ran(ops);
    HealthMeans(ops);
    RunFits(ops);
    StrictMeans(s.stream);
    match HealthOf(ops)
    case Intact => HoldsVerifies(s);
    case Ailing => BadEndFails(s.stream);
    case Spoilt => TwoBadFail(s.stream);
  }

  lemma HoldsVerifies(s: Store)
    requires Holds(s)
    ensures Verifies(s.stream)
  {
    hide Matches, WorldOf;
    forall i | LastBump(s.stream, i) ensures Matches(s.stream, i) {
      LastIndexMeans(s.stream, i);
    }
  }

  lemma TwoBadFail(events: seq<Event>)
    requires !NoTwoBad(events)
    ensures !Verifies(events)
  {
    hide Matches;
  }
}
