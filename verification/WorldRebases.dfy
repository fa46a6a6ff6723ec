/** What a rebase comes to, told from the stream: when it agrees with a strict replay, and what it corrects. */
module WorldRebases {
  import opened Options
  import opened World
  import opened WorldRebuild

  /** The versions of the bumps, in order. */
  function Versions(events: seq<Event>): seq<nat> {
    if events == [] then []
    else
      var last := events[|events| - 1];
      Versions(events[..|events| - 1]) + if last.Bumped? then [last.version] else []
  }

  /** How many bumps there are since the last one that matched. */
  function BadRun(events: seq<Event>): nat {
    if events == [] then 0
    else
      var front, last := events[..|events| - 1], events[|events| - 1];
      if !last.Bumped? then BadRun(front) else if last.digest == WorldOf(front) then 0 else BadRun(front) + 1
  }

  function LastDigest(events: seq<Event>): Option<World> {
    if LastIndex(events).None? then None else Some(events[LastIndex(events).value].digest)
  }

  /** The newest bump that matches. */
  predicate LastMatching(events: seq<Event>, i: int) {
    && 0 <= i < |events| && events[i].Bumped? && Matches(events, i)
    && forall k :: i < k < |events| && events[k].Bumped? ==> !Matches(events, k)
  }

  /** Bumps that do not match go by in pairs, and the first of a pair waits for the second. */
  function Settled(events: seq<Event>): nat {
    var versions := Versions(events);
    if BadRun(events) % 2 == 0 then (if |versions| == 0 then 0 else versions[|versions| - 1])
    else (if |versions| <= 1 then 0 else versions[|versions| - 2])
  }

  /** What a rebase knows after a part of the stream. */
  ghost predicate Knows(events: seq<Event>, x: Scan) {
    && x.world == WorldOf(events) && x.last == LastDigest(events)
    && (x.pending.Some? <==> BadRun(events) % 2 == 1)
    && (x.driftedAt.Some? <==> !NoTwoBad(events))
    && (x.pending.Some? ==> |Versions(events)| > 0 && x.pending.value.version == Top(events))
    && (BadRun(events) > 0 <==> LastIndex(events).Some? && !Matches(events, LastIndex(events).value))
    && (BadRun(events) > 1 ==> !NoTwoBad(events))
  }

  /** The version of the last bump. */
  function Top(events: seq<Event>): nat {
    if Versions(events) == [] then 0 else Versions(events)[|Versions(events)| - 1]
  }

  lemma {:induction false} ScanKnows(events: seq<Event>)
    ensures ScanAll(false, events).Some? && Knows(events, ScanAll(false, events).value)
  {
    hide Knows, Step;
    if events == [] {
      NothingKnown();
    } else {
      var front, e := events[..|events| - 1], events[|events| - 1];
      assert events == front + [e];
      ScanKnows(front);
      StepKnows(front, e, ScanAll(false, front).value);
    }
  }

  lemma NothingKnown()
    ensures Knows([], START)
  {
  }

  lemma StepKnows(front: seq<Event>, e: Event, x: Scan)
    requires Knows(front, x)
    ensures Step(false, x, e).Some? && Knows(front + [e], Step(false, x, e).value)
  {
    hide Matches, NoTwoBad, Max;
    var events := front + [e];
    assert events[..|events| - 1] == front;
    MatchesStep(front, e);
    NoTwoBadStep(front, e);
    assert WorldOf(events) == FoldEvent(WorldOf(front), e);
    hide WorldFrom;
  }

  /* ---------- versions ---------- */

  lemma {:induction false} TopIsLast(events: seq<Event>)
    ensures Versions(events) == [] <==> LastIndex(events).None?
    ensures LastIndex(events).Some? ==> Top(events) == events[LastIndex(events).value].version
  {
    if events != [] { TopIsLast(events[..|events| - 1]); }
  }

  lemma IncreasingFront(front: seq<Event>, e: Event)
    requires Increasing(front + [e])
    ensures Increasing(front) && (e.Bumped? && Versions(front) != [] ==> Top(front) < e.version)
  {
    var events := front + [e];
    assert forall i :: 0 <= i < |front| ==> events[i] == front[i];
    TopIsLast(front);
    assert events[|front|] == e;
  }

  /** The version of the replay, and of the drift it noticed last, when versions only grow. */
  ghost predicate CountsUp(events: seq<Event>, x: Scan) {
    && x.version == Settled(events) <= Top(events)
    && (x.driftedAt.Some? ==>
          x.driftedAt.value <= Top(events) && (BadRun(events) % 2 == 0 ==> x.driftedAt.value < Top(events)))
  }

  lemma {:induction false} ScanCountsUp(events: seq<Event>)
    requires Increasing(events)
    ensures ScanAll(false, events).Some? && CountsUp(events, ScanAll(false, events).value)
  {
    hide Step, CountsUp, Increasing, Knows;
    if events == [] {
      NothingCounts();
    } else {
      var front, e := events[..|events| - 1], events[|events| - 1];
      assert events == front + [e];
      IncreasingFront(front, e);
      ScanCountsUp(front);
      ScanKnows(front);
      StepCountsUp(front, e, ScanAll(false, front).value);
    }
  }

  lemma NothingCounts()
    ensures CountsUp([], START)
  {
  }

  lemma StepCountsUp(front: seq<Event>, e: Event, x: Scan)
    requires Knows(front, x) && CountsUp(front, x) && (e.Bumped? && Versions(front) != [] ==> Top(front) < e.version)
    ensures Step(false, x, e).Some? && CountsUp(front + [e], Step(false, x, e).value)
  {
    hide Matches, NoTwoBad, WorldOf, FoldEvent, LastDigest, LastIndex;
    var events := front + [e];
    assert events[..|events| - 1] == front;
  }

  /** A replay never falls behind what it has verified. */
  lemma {:induction false} VerifiedCounts(events: seq<Event>, i: int)
    requires LastMatching(events, i)
    ensures ScanAll(false, events).Some? && events[i].version <= ScanAll(false, events).value.version
  {
    hide LastMatching, Knows, Step, WorldOf;
    MatchingIsThere(events, i);
    var front, e := events[..|events| - 1], events[|events| - 1];
    assert events == front + [e];
    ScanKnows(front);
    WorldIs(front, ScanAll(false, front).value);
    MatchingEarlier(front, e, i);
    if i < |front| {
      VerifiedCounts(front, i);
    }
    VerifiedStep(front, e, i, ScanAll(false, front).value);
  }

  lemma MatchingIsThere(events: seq<Event>, i: int)
    requires LastMatching(events, i)
    ensures 0 <= i < |events| && events[i].Bumped?
  {
  }

  lemma MatchingEarlier(front: seq<Event>, e: Event, i: int)
    requires LastMatching(front + [e], i)
    ensures if i == |front| then e.Bumped? && e.digest == WorldOf(front)
            else LastMatching(front, i) && (e.Bumped? ==> e.digest != WorldOf(front))
  {
    hide WorldOf, Matches;
    var events := front + [e];
    MatchesStep(front, e);
    assert forall k :: 0 <= k < |front| ==> front[k] == events[k];
    assert events[|front|] == e;
    if i < |front| && e.Bumped? { assert !Matches(events, |front|); }
  }

  lemma VerifiedStep(front: seq<Event>, e: Event, i: nat, x: Scan)
    requires x.world == WorldOf(front) && i <= |front|
    requires i < |front| ==>
      front[i].Bumped? && front[i].version <= x.version && (e.Bumped? ==> e.digest != WorldOf(front))
    requires i == |front| ==> e.Bumped? && e.digest == WorldOf(front)
    ensures Step(false, x, e).Some? && (front + [e])[i].version <= Step(false, x, e).value.version
  {
    hide WorldOf, FoldEvent;
  }

  lemma WorldIs(events: seq<Event>, x: Scan)
    requires Knows(events, x)
    ensures x.world == WorldOf(events)
  {
  }

  /* ---------- what a rebase leaves ---------- */

  /**
   * A rebase agrees with a strict rebuild wherever that one succeeds. Elsewhere it keeps the folded world under its
   * own digest, and corrects the stream by one bump unless the last one says so already. Its version is never below
   * one that was verified; and if versions only grow, it is one above the last, or two if that is the first of a
   * pair that does not match, and without a correction the last, or the one before.
   */
  lemma RebaseMeans(events: seq<Event>)
    ensures Rebuilt(false, events).Some?
    ensures Verifies(events) ==> Rebuilt(false, events) == Rebuilt(true, events)
    ensures var s := Rebuilt(false, events).value; var said := LastDigest(events) == Some(WorldOf(events));
      && s.world == WorldOf(events)
      && (!Verifies(events) ==>
            s.digest == s.world && s.stream == events + if said then [] else [Bumped(s.version, s.world)])
      && (forall i :: LastMatching(events, i) ==> events[i].version <= s.version)
      && (Increasing(events) ==>
            s.version == if Verifies(events) || said then Settled(events) else Top(events) + BadRun(events) % 2 + 1)
  {
    hide ScanAll, Matches, InARow, LastBump, WorldOf, Increasing, Settled, BadRun, Top, LastIndex;
    ScanKnows(events);
    DriftMeans(events, ScanAll(false, events).value);
    var x := ScanAll(false, events).value;
    if Verifies(events) {
      StrictTracks(events);
      AgreesWithStrict(events);
    }
    forall i | LastMatching(events, i) ensures events[i].version <= x.version { VerifiedCounts(events, i); }
    if Increasing(events) {
      ScanCountsUp(events);
      CorrectiveCounts(events, x);
    }
  }

  lemma CorrectiveCounts(events: seq<Event>, x: Scan)
    requires Knows(events, x) && CountsUp(events, x)
    ensures x.version == Settled(events)
    ensures DriftOf(x).Some? ==> Corrective(x, DriftOf(x).value) == Top(events) + BadRun(events) % 2 + 1
  {
    hide Matches, WorldOf, BadRun, LastIndex, NoTwoBad;
  }

  /** There is a drift exactly when the stream does not verify. */
  lemma DriftMeans(events: seq<Event>, x: Scan)
    requires Knows(events, x)
    ensures DriftOf(x).Some? <==> !Verifies(events)
  {
    hide Matches, WorldOf, BadRun;
    forall i ensures LastBump(events, i) <==> LastIndex(events) == Some(i) { LastIndexMeans(events, i); }
    hide LastBump, LastIndex, InARow;
  }

  lemma AgreesWithStrict(events: seq<Event>)
    requires Verifies(events)
    ensures Rebuilt(true, events).Some? && Rebuilt(false, events) == Rebuilt(true, events)
  {
    StrictMeans(events);
    hide Verifies;
    RebaseFollows(events);
  }
}
