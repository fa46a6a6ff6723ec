/**
 * How the kernel compares a desired plugin graph with the running one, and the in-place update with its
 * rollback. A descriptor digest is injective, so two plugins with one digest are one plugin here.
 */
module Reconcile {
  import opened Options
  import opened PluginOrder

  datatype ChangeKind = Added | Removed | Configured | Replaced

  datatype Change = Change(id: string, kind: ChangeKind, tier: Tier)

  datatype PlanKind = Unchanged | LiveUpdate | GenerationSwap | RestartRequired

  datatype Plan = Plan(kind: PlanKind, changes: seq<Change>)

  /** The lookup table of a plugin list; a later plugin of the same id wins. */
  function ById(plugins: seq<Plugin>): (m: map<string, Plugin>)
    ensures forall id :: id in m ==> m[id].id == id
    ensures m.Keys == Elements(Ids(plugins))
  {
    if plugins == [] then map[]
    else
      var last := plugins[|plugins| - 1];
      assert Ids(plugins) == Ids(plugins[..|plugins| - 1]) + [last.id];
      ById(plugins[..|plugins| - 1])[last.id := last]
  }

  function TierOf(plugin: Option<Plugin>): Tier {
    if plugin.Some? && plugin.value.tier.Some? then plugin.value.tier.value else B
  }

  function ReplacementTier(before: Option<Plugin>, after: Option<Plugin>): Tier {
    if TierOf(before) == C || TierOf(after) == C then C
    else if TierOf(before) == B || TierOf(after) == B then B
    else A
  }

  predicate SameTopology(before: Plugin, after: Plugin) {
    before.id == after.id && before.version == after.version
    && before.inject == after.inject && before.services == after.services
  }

  function Lookup(m: map<string, Plugin>, id: string): Option<Plugin> {
    if id in m then Some(m[id]) else None
  }

  function ChangeOf(id: string, before: Option<Plugin>, after: Option<Plugin>): Change {
    var kind := if before.None? then Added else if after.None? then Removed
                else if SameTopology(before.value, after.value) then Configured else Replaced;
    var tier := ReplacementTier(before, after);
    Change(id, kind, if kind != Configured && tier == A then B else tier)
  }

  predicate Changed(current: seq<Plugin>, incoming: seq<Plugin>, id: string) {
    Lookup(ById(current), id) != Lookup(ById(incoming), id)
  }

  function ChangeFor(current: seq<Plugin>, incoming: seq<Plugin>, id: string): Change {
    ChangeOf(id, Lookup(ById(current), id), Lookup(ById(incoming), id))
  }

  /** Each of some ids once, in the order of their first mention. */
  function OnceEach(ids: seq<string>): seq<string> {
    if ids == [] then []
    else
      var before, last := OnceEach(ids[..|ids| - 1]), ids[|ids| - 1];
      if last in before then before else before + [last]
  }

  lemma {:induction false} OnceEachMeans(ids: seq<string>)
    ensures forall id :: id in OnceEach(ids) <==> id in ids
    ensures forall i, j :: 0 <= i < j < |OnceEach(ids)| ==> OnceEach(ids)[i] != OnceEach(ids)[j]
  {
    if ids != [] {
      var front, last := ids[..|ids| - 1], ids[|ids| - 1];
      OnceEachMeans(front);
      assert ids == front + [last];
    }
  }

  /** An id mentioned before any mention of another one stands before it. */
  lemma {:induction false} MentionedBefore(ids: seq<string>, i: nat, j: nat)
    requires i < j < |ids| && forall k :: 0 <= k < j ==> ids[k] != ids[j]
    ensures Before(OnceEach(ids), ids[i], ids[j])
  {
    var front, last := ids[..|ids| - 1], ids[|ids| - 1];
    OnceEachMeans(front);
    var before, after := OnceEach(front), OnceEach(ids);
    assert before <= after;
    if j < |front| {
      MentionedBefore(front, i, j);
      var p, q :| 0 <= p < q < |before| && before[p] == ids[i] && before[q] == ids[j];
      assert after[p] == ids[i] && after[q] == ids[j];
    } else {
      assert front[i] in before && last !in front;
      var p :| 0 <= p < |before| && before[p] == ids[i];
      assert after[p] == ids[i] && after[|before|] == ids[j];
    }
  }

  /** The ids of both graphs, once each, in the order the two tables hold them. */
  method UnionOfIds(current: seq<Plugin>, incoming: seq<Plugin>) returns (ids: seq<string>)
    ensures ids == OnceEach(Ids(current) + Ids(incoming))
    ensures Elements(ids) == ById(current).Keys + ById(incoming).Keys
    ensures forall i, j :: 0 <= i < j < |ids| ==> ids[i] != ids[j]
  {
    ids := [];
    var all := Ids(current) + Ids(incoming);
    for k := 0 to |all|
      invariant ids == OnceEach(all[..k])
    {
      assert all[..k + 1][..k] == all[..k];
      if all[k] !in ids {
        ids := ids + [all[k]];
      }
    }
    assert all[..|all|] == all;
    OnceEachMeans(all);
    hide OnceEach;
  }

  /** A config-only difference between tier A plugins. */
  predicate LiveChange(current: seq<Plugin>, incoming: seq<Plugin>, id: string) {
    var before, after := Lookup(ById(current), id), Lookup(ById(incoming), id);
    before.Some? && after.Some? && SameTopology(before.value, after.value)
    && before.value.tier == Some(A) && after.value.tier == Some(A)
  }

  predicate NeedsRestart(current: seq<Plugin>, incoming: seq<Plugin>, id: string) {
    HasTier(Lookup(ById(current), id), C) || HasTier(Lookup(ById(incoming), id), C)
  }

  predicate HasTier(plugin: Option<Plugin>, tier: Tier) { plugin.Some? && plugin.value.tier == Some(tier) }

  /**
   * What kind of change it is, and of what tier: configured is what keeps all but its settings, and only that can
   * be of tier A, when both sides say so; tier C is what either side says; a plugin that says nothing is of tier B.
   */
  lemma ChangeMeans(current: seq<Plugin>, incoming: seq<Plugin>, id: string)
    requires Changed(current, incoming, id)
    ensures var c, before, after := ChangeFor(current, incoming, id), ById(current), ById(incoming);
      && c.id == id
      && (c.kind == Added <==> id !in before) && (c.kind == Removed <==> id !in after)
      && (c.kind == Configured <==>
            id in before && id in after
            && before[id].(config := after[id].config, tier := after[id].tier) == after[id])
      && (c.tier == C <==> NeedsRestart(current, incoming, id))
      && (c.tier == A <==>
            c.kind == Configured && HasTier(Lookup(before, id), A) && HasTier(Lookup(after, id), A))
  {
  }

  /** What a plan kind means, in terms of the two graphs alone. */
  ghost predicate PlanMeans(current: seq<Plugin>, incoming: seq<Plugin>, kind: PlanKind) {
    && (kind == Unchanged <==> ById(current) == ById(incoming))
    && (kind == RestartRequired <==>
          exists id :: Changed(current, incoming, id) && NeedsRestart(current, incoming, id))
    && (kind == LiveUpdate <==>
          && ById(current) != ById(incoming)
          && forall id :: Changed(current, incoming, id) ==> LiveChange(current, incoming, id))
  }

  /** The changes stand in the order of their ids, each once. */
  ghost predicate InTableOrder(changes: seq<Change>, ids: seq<string>) {
    forall i, j :: 0 <= i < j < |changes| ==>
      changes[i].id != changes[j].id && Before(ids, changes[i].id, changes[j].id)
  }

  method CreateReconcilePlan(current: seq<Plugin>, incoming: seq<Plugin>) returns (plan: Plan)
    ensures PlanMeans(current, incoming, plan.kind)
    ensures forall change :: change in plan.changes <==>
      Changed(current, incoming, change.id) && change == ChangeFor(current, incoming, change.id)
    ensures InTableOrder(plan.changes, OnceEach(Ids(current) + Ids(incoming)))
  {
    hide ChangeFor, Changed, InTableOrder, OnceEach, ById, Ids, Elements, PlanMeans;
    var ids := UnionOfIds(current, incoming);
    var changes := CompareById(current, incoming, ids);
    AllChangesFound(current, incoming, ids, changes);
    PlanFound(current, incoming, changes);
    if changes == [] {
      return Plan(Unchanged, changes);
    }
    if exists k :: 0 <= k < |changes| && changes[k].tier == C {
      return Plan(RestartRequired, changes);
    }
    if forall k :: 0 <= k < |changes| ==> changes[k].tier == A && changes[k].kind == Configured {
      return Plan(LiveUpdate, changes);
    }
    return Plan(GenerationSwap, changes);
  }

  lemma PlanFound(current: seq<Plugin>, incoming: seq<Plugin>, changes: seq<Change>)
    requires forall change :: change in changes ==>
      Changed(current, incoming, change.id) && change == ChangeFor(current, incoming, change.id)
    requires forall id :: Changed(current, incoming, id) ==> ChangeFor(current, incoming, id) in changes
    ensures
      PlanMeans(current, incoming,
                if changes == [] then Unchanged
                else if exists k :: 0 <= k < |changes| && changes[k].tier == C then RestartRequired
                else if forall k :: 0 <= k < |changes| ==> changes[k].tier == A && changes[k].kind == Configured
                then LiveUpdate else GenerationSwap)
  {
    hide ChangeFor, Changed, NeedsRestart, LiveChange, ById;
    ChangesMean(current, incoming, changes);
    if changes != [] && exists k :: 0 <= k < |changes| && changes[k].tier == C {
      assert !forall k :: 0 <= k < |changes| ==> changes[k].tier == A && changes[k].kind == Configured;
    }
    forall id | Changed(current, incoming, id)
      ensures changes != [] && ChangeFor(current, incoming, id) in changes
    {
    }
  }

  /** The comparison of the two graphs, id by id. */
  method CompareById(current: seq<Plugin>, incoming: seq<Plugin>, ids: seq<string>) returns (changes: seq<Change>)
    requires forall i, j :: 0 <= i < j < |ids| ==> ids[i] != ids[j]
    ensures forall change :: change in changes <==>
      change.id in ids && Changed(current, incoming, change.id) && change == ChangeFor(current, incoming, change.id)
    ensures InTableOrder(changes, ids)
  {
    hide ChangeOf, Changed;
    changes := [];
    ghost var at: seq<nat> := [];
    for k := 0 to |ids|
      invariant forall change :: change in changes <==>
        change.id in ids[..k] && Changed(current, incoming, change.id)
        && change == ChangeFor(current, incoming, change.id)
      invariant Places(changes, ids, at, k)
    {
      hide Places;
      assert ids[..k + 1] == ids[..k] + [ids[k]];
      PlacesLater(changes, ids, at, k);
      if Changed(current, incoming, ids[k]) {
        ChangeHasId(current, incoming, ids[k]);
        PlacesMore(changes, ids, at, k, ChangeFor(current, incoming, ids[k]));
        changes := changes + [ChangeFor(current, incoming, ids[k])];
        at := at + [k];
      }
    }
    assert ids[..|ids|] == ids;
    PlacesInOrder(changes, ids, at);
  }

  /** Where the id of each change is among the first ids. */
  predicate Places(changes: seq<Change>, ids: seq<string>, at: seq<nat>, n: nat) {
    && n <= |ids| && |at| == |changes|
    && (forall i :: 0 <= i < |at| ==> at[i] < n && ids[at[i]] == changes[i].id)
    && (forall i, j :: 0 <= i < j < |at| ==> at[i] < at[j])
  }

  lemma PlacesLater(changes: seq<Change>, ids: seq<string>, at: seq<nat>, n: nat)
    requires Places(changes, ids, at, n) && n < |ids|
    ensures Places(changes, ids, at, n + 1)
  {
  }

  lemma PlacesMore(changes: seq<Change>, ids: seq<string>, at: seq<nat>, n: nat, change: Change)
    requires Places(changes, ids, at, n) && n < |ids| && change.id == ids[n]
    ensures Places(changes + [change], ids, at + [n], n + 1)
  {
  }

  lemma PlacesInOrder(changes: seq<Change>, ids: seq<string>, at: seq<nat>)
    requires Places(changes, ids, at, |ids|) && forall i, j :: 0 <= i < j < |ids| ==> ids[i] != ids[j]
    ensures InTableOrder(changes, ids)
  {
    forall i, j | 0 <= i < j < |changes|
      ensures changes[i].id != changes[j].id && Before(ids, changes[i].id, changes[j].id)
    {
      assert ids[at[i]] == changes[i].id && ids[at[j]] == changes[j].id;
    }
  }

  lemma ChangeHasId(current: seq<Plugin>, incoming: seq<Plugin>, id: string)
    ensures ChangeFor(current, incoming, id).id == id
  {
  }

  lemma AllChangesFound(current: seq<Plugin>, incoming: seq<Plugin>, ids: seq<string>, changes: seq<Change>)
    requires Elements(ids) == ById(current).Keys + ById(incoming).Keys
    requires forall change :: change in changes <==>
      change.id in ids && Changed(current, incoming, change.id) && change == ChangeFor(current, incoming, change.id)
    ensures forall change :: change in changes <==>
      Changed(current, incoming, change.id) && change == ChangeFor(current, incoming, change.id)
    ensures forall id :: Changed(current, incoming, id) ==> ChangeFor(current, incoming, id) in changes
  {
    hide ChangeOf, ById;
    forall id | Changed(current, incoming, id) ensures id in ids && ChangeFor(current, incoming, id) in changes {
      assert id in Elements(ids);
      ChangeHasId(current, incoming, id);
    }
  }

  lemma ChangesMean(current: seq<Plugin>, incoming: seq<Plugin>, changes: seq<Change>)
    requires forall change :: change in changes ==>
      Changed(current, incoming, change.id) && change == ChangeFor(current, incoming, change.id)
    requires forall id :: Changed(current, incoming, id) ==> ChangeFor(current, incoming, id) in changes
    ensures changes == [] <==> ById(current) == ById(incoming)
    ensures (exists k :: 0 <= k < |changes| && changes[k].tier == C) <==>
      exists id :: Changed(current, incoming, id) && NeedsRestart(current, incoming, id)
    ensures (forall k :: 0 <= k < |changes| ==> changes[k].tier == A && changes[k].kind == Configured) <==>
      forall id :: Changed(current, incoming, id) ==> LiveChange(current, incoming, id)
  {
    forall id | Changed(current, incoming, id)
      ensures ChangeFor(current, incoming, id).tier == C <==> NeedsRestart(current, incoming, id)
      ensures var c := ChangeFor(current, incoming, id);
        c.tier == A && c.kind == Configured <==> LiveChange(current, incoming, id)
    {
      OneChange(current, incoming, id);
    }
    forall k | 0 <= k < |changes|
      ensures Changed(current, incoming, changes[k].id)
      ensures changes[k] == ChangeFor(current, incoming, changes[k].id)
    {
      assert changes[k] in changes;
    }
    hide Changed, ChangeFor, NeedsRestart, LiveChange;
    forall id | Changed(current, incoming, id)
      ensures exists k :: 0 <= k < |changes| && changes[k] == ChangeFor(current, incoming, id)
    {
      assert ChangeFor(current, incoming, id) in changes;
    }
    if changes == [] {
      SameTables(current, incoming);
    } else {
      DifferentTables(current, incoming, changes[0].id);
    }
    if id :| Changed(current, incoming, id) && NeedsRestart(current, incoming, id) {
      var k :| 0 <= k < |changes| && changes[k] == ChangeFor(current, incoming, id);
      assert changes[k].tier == C;
    }
    if forall k :: 0 <= k < |changes| ==> changes[k].tier == A && changes[k].kind == Configured {
      forall id | Changed(current, incoming, id) ensures LiveChange(current, incoming, id) {
        var k :| 0 <= k < |changes| && changes[k] == ChangeFor(current, incoming, id);
      }
    }
  }

  lemma OneChange(current: seq<Plugin>, incoming: seq<Plugin>, id: string)
    requires Changed(current, incoming, id)
    ensures ChangeFor(current, incoming, id).tier == C <==> NeedsRestart(current, incoming, id)
    ensures var c := ChangeFor(current, incoming, id);
      c.tier == A && c.kind == Configured <==> LiveChange(current, incoming, id)
  {
  }

  lemma DifferentTables(current: seq<Plugin>, incoming: seq<Plugin>, id: string)
    requires Changed(current, incoming, id)
    ensures ById(current) != ById(incoming)
  {
  }

  lemma SameTables(current: seq<Plugin>, incoming: seq<Plugin>)
    requires forall id :: !Changed(current, incoming, id)
    ensures ById(current) == ById(incoming)
  {
    var a, b := ById(current), ById(incoming);
    forall id ensures id in a <==> id in b {
      assert !Changed(current, incoming, id);
    }
    forall id | id in a ensures a[id] == b[id] {
      assert !Changed(current, incoming, id);
    }
  }

  /* ---------- the update in place ---------- */

  /** The fibers that refuse their update, that come back unhealthy, and that refuse the rollback. */
  datatype Weather = Weather(refuseUpdate: set<nat>, unhealthy: set<nat>, refuseRollback: set<nat>)

  predicate Differs(mounted: seq<Plugin>, incoming: map<string, Plugin>, i: nat)
    requires i < |mounted|
  {
    mounted[i].id in incoming && incoming[mounted[i].id] != mounted[i]
  }

  function Target(plugin: Plugin, incoming: map<string, Plugin>): Plugin {
    if plugin.id in incoming then incoming[plugin.id] else plugin
  }

  /** No fiber before `n` refuses its update. */
  predicate Unrefused(before: seq<Plugin>, incoming: map<string, Plugin>, w: Weather, n: nat)
    requires n <= |before|
  {
    forall j :: 0 <= j < n && Differs(before, incoming, j) ==> j !in w.refuseUpdate
  }

  /** The update of the fiber is begun. */
  predicate Touched(before: seq<Plugin>, incoming: map<string, Plugin>, w: Weather, i: nat)
    requires i < |before|
  {
    Differs(before, incoming, i) && Unrefused(before, incoming, w, i)
  }

  /** The fiber accepts its update. */
  predicate Moved(before: seq<Plugin>, incoming: map<string, Plugin>, w: Weather, i: nat)
    requires i < |before|
  {
    Touched(before, incoming, w, i) && i !in w.refuseUpdate
  }

  predicate AllWell(mounted: seq<Plugin>, incoming: map<string, Plugin>, w: Weather) {
    Unrefused(mounted, incoming, w, |mounted|) && forall i :: 0 <= i < |mounted| ==> i !in w.unhealthy
  }

  /** What is mounted after the update: a fiber that moved stays moved if all went well or it will not go back. */
  function UpdatedMounts(before: seq<Plugin>, incoming: map<string, Plugin>, w: Weather): (after: seq<Plugin>)
    ensures |after| == |before|
    ensures forall i :: 0 <= i < |before| ==>
      after[i] == if Moved(before, incoming, w, i) && (AllWell(before, incoming, w) || i in w.refuseRollback)
                  then Target(before[i], incoming) else before[i]
  {
    seq(|before|, i requires 0 <= i < |before| =>
      if Moved(before, incoming, w, i) && (AllWell(before, incoming, w) || i in w.refuseRollback)
      then Target(before[i], incoming) else before[i])
  }

  lemma AllReachTheirTarget(before: seq<Plugin>, incoming: map<string, Plugin>, w: Weather)
    requires AllWell(before, incoming, w)
    ensures forall i :: 0 <= i < |before| ==> UpdatedMounts(before, incoming, w)[i] == Target(before[i], incoming)
  {
    forall i | 0 <= i < |before| ensures UpdatedMounts(before, incoming, w)[i] == Target(before[i], incoming) {
      if Differs(before, incoming, i) {
        assert Moved(before, incoming, w, i);
      }
    }
  }

  /** An update goes well exactly when no fiber that changes refuses, and no fiber is unhealthy after it. */
  lemma AllWellMeans(mounted: seq<Plugin>, incoming: map<string, Plugin>, w: Weather)
    ensures AllWell(mounted, incoming, w) <==>
      forall i :: 0 <= i < |mounted| ==>
        && i !in w.unhealthy
        && (mounted[i].id in incoming && incoming[mounted[i].id] != mounted[i] ==> i !in w.refuseUpdate)
  {
  }

  /**
   * What every fiber runs then: what the new graph has for its id, if all went well; and else what it ran before,
   * unless it had moved before the first refusal and refuses to go back.
   */
  lemma MountsMean(before: seq<Plugin>, incoming: map<string, Plugin>, w: Weather, i: nat)
    requires i < |before|
    ensures var after := UpdatedMounts(before, incoming, w)[i];
      after == before[i] || (before[i].id in incoming && after == incoming[before[i].id])
    ensures before[i].id in incoming && incoming[before[i].id] != before[i] ==>
      (UpdatedMounts(before, incoming, w)[i] != before[i] <==>
        || AllWell(before, incoming, w)
        || (i in w.refuseRollback && i !in w.refuseUpdate && Unrefused(before, incoming, w, i)))
  {
  }

  /** Every fiber that moved accepts its rollback. */
  predicate RollsBack(before: seq<Plugin>, incoming: map<string, Plugin>, w: Weather) {
    forall i :: 0 <= i < |before| && Moved(before, incoming, w, i) ==> i !in w.refuseRollback
  }

  /** A failed update leaves everything mounted as it was exactly when every fiber that moved rolls back. */
  lemma FailedUpdateIsUndone(before: seq<Plugin>, incoming: map<string, Plugin>, w: Weather)
    requires !AllWell(before, incoming, w)
    ensures UpdatedMounts(before, incoming, w) == before <==> RollsBack(before, incoming, w)
  {
    var after := UpdatedMounts(before, incoming, w);
    if i :| 0 <= i < |before| && Moved(before, incoming, w, i) && i in w.refuseRollback {
      assert after[i] != before[i];
    } else {
      assert after == before;
    }
  }

  /** A fiber whose update was begun, with its plugin before. */
  datatype Move = Move(index: nat, spec: Plugin)

  /** What the first loop leaves: the fibers before the one that refused moved, and nothing else did. */
  ghost predicate Applied(
    before: seq<Plugin>, incoming: map<string, Plugin>, w: Weather, touched: seq<Move>, n: nat, now: seq<Plugin>)
    requires n <= |before| == |now|
  {
    && touched == Moves(before, incoming, n)
    && forall i :: 0 <= i < |before| ==>
         (now[i] == if i < n && Differs(before, incoming, i) && i !in w.refuseUpdate
                    then incoming[before[i].id] else before[i])
  }

  method ApplyUpdates(mounted: array<Plugin>, incoming: map<string, Plugin>, w: Weather)
    returns (ok: bool, touched: seq<Move>, ghost reached: nat)
    modifies mounted
    ensures reached <= mounted.Length && Applied(old(mounted[..]), incoming, w, touched, reached, mounted[..])
    ensures ok <==> Unrefused(old(mounted[..]), incoming, w, mounted.Length)
    ensures ok ==> reached == mounted.Length
    ensures !ok ==>
      0 < reached && reached - 1 in w.refuseUpdate && Touched(old(mounted[..]), incoming, w, reached - 1)
  {
    ghost var before := mounted[..];
    ok, touched := true, [];
    var n := 0;
    while n < mounted.Length && ok
      invariant 0 <= n <= mounted.Length
      invariant Applied(before, incoming, w, touched, n, mounted[..])
      invariant ok ==> Unrefused(before, incoming, w, n)
      invariant !ok ==> 0 < n && n - 1 in w.refuseUpdate && Touched(before, incoming, w, n - 1)
    {
      var spec := mounted[n];
      assert spec == before[n];
      if spec.id in incoming && incoming[spec.id] != spec {
        touched := touched + [Move(n, spec)];
        if n !in w.refuseUpdate {
          mounted[n] := incoming[spec.id];
        } else {
          ok := false;
        }
      }
      n := n + 1;
    }
    reached := n;
  }

  /** What rolling back the given moves leaves. */
  ghost predicate RolledBack(
    before: seq<Plugin>, touched: seq<Move>, w: Weather, stuck: set<nat>, now: seq<Plugin>)
    requires |before| == |now|
  {
    && (forall i: nat :: i in stuck <==> WasTouched(touched, i) && i in w.refuseRollback)
    && (forall j :: 0 <= j < |touched| && touched[j].index < |now| && touched[j].index !in w.refuseRollback ==>
          now[touched[j].index] == touched[j].spec)
    && (forall i: nat :: i < |now| && (i in w.refuseRollback || !WasTouched(touched, i)) ==> now[i] == before[i])
  }

  method Rollback(mounted: array<Plugin>, touched: seq<Move>, w: Weather) returns (stuck: set<nat>)
    requires forall j :: 0 <= j < |touched| ==> touched[j].index < mounted.Length
    requires forall j, k :: 0 <= j < k < |touched| ==> touched[j].index < touched[k].index
    modifies mounted
    ensures RolledBack(old(mounted[..]), touched, w, stuck, mounted[..])
  {
    ghost var before := mounted[..];
    stuck := {};
    var k := |touched|;
    while k > 0
      invariant 0 <= k <= |touched|
      invariant RolledBack(before, touched[k..], w, stuck, mounted[..])
    {
      k := k - 1;
      var i, spec := touched[k].index, touched[k].spec;
      ghost var now, was := mounted[..], stuck;
      if i !in w.refuseRollback {
        mounted[i] := spec;
        assert mounted[..] == now[i := spec];
      } else {
        stuck := stuck + {i};
        assert mounted[..] == now;
      }
      assert touched[k..] == [touched[k]] + touched[k + 1..];
      RollBackOne(before, touched[k], touched[k + 1..], w, was, now);
    }
    assert touched[0..] == touched;
  }

  lemma RollBackOne(
    before: seq<Plugin>, move: Move, later: seq<Move>, w: Weather, stuck: set<nat>, now: seq<Plugin>)
    requires |before| == |now| && move.index < |now| && RolledBack(before, later, w, stuck, now)
    requires forall j :: 0 <= j < |later| ==> move.index < later[j].index
    ensures if move.index in w.refuseRollback then RolledBack(before, [move] + later, w, stuck + {move.index}, now)
            else RolledBack(before, [move] + later, w, stuck, now[move.index := move.spec])
  {
    forall i: nat ensures WasTouched([move] + later, i) <==> i == move.index || WasTouched(later, i) {
      TouchedMore(move, later, i);
    }
    hide WasTouched;
  }

  lemma TouchedMore(move: Move, later: seq<Move>, i: nat)
    ensures WasTouched([move] + later, i) <==> i == move.index || WasTouched(later, i)
  {
    var moves := [move] + later;
    assert moves[0].index == move.index;
    if WasTouched(later, i) {
      var j :| 0 <= j < |later| && later[j].index == i;
      assert moves[j + 1].index == i;
    }
  }

  /**
   * All mounted plugins move to the incoming graph, or else each of them is what it was before, except
   * those that moved and whose rollback was refused too, and these are reported.
   */
  method UpdateInPlace(mounted: array<Plugin>, incoming: map<string, Plugin>, w: Weather)
    returns (ok: bool, stuck: set<nat>)
    modifies mounted
    ensures ok <==> AllWell(old(mounted[..]), incoming, w)
    ensures mounted[..] == UpdatedMounts(old(mounted[..]), incoming, w)
    ensures ok ==> forall i :: 0 <= i < mounted.Length ==> mounted[i] == Target(old(mounted[i]), incoming)
    ensures forall i: nat :: i in stuck <==>
      !ok && i < mounted.Length && Touched(old(mounted[..]), incoming, w, i) && i in w.refuseRollback
  {
    ghost var before := mounted[..];
    var touched: seq<Move>;
    ghost var reached;
    ok, touched, reached := ApplyUpdates(mounted, incoming, w);
    stuck := {};
    MovesMean(before, incoming, reached);
    ReachedMeans(before, incoming, w, ok, reached);
    ghost var moved := mounted[..];
    if ok && forall i :: 0 <= i < mounted.Length ==> i !in w.unhealthy {
      AllReachTheirTarget(before, incoming, w);
      return;
    }
    ok := false;
    stuck := Rollback(mounted, touched, w);
    RollbackMeans(before, incoming, w, reached, moved, stuck, mounted[..]);
  }

  lemma RollbackMeans(
    before: seq<Plugin>, incoming: map<string, Plugin>, w: Weather, reached: nat, moved: seq<Plugin>, stuck: set<nat>,
    after: seq<Plugin>)
    requires reached <= |before| == |moved| == |after| && !AllWell(before, incoming, w)
    requires Applied(before, incoming, w, Moves(before, incoming, reached), reached, moved)
    requires InOrder(before, incoming, reached, Moves(before, incoming, reached))
    requires UpTo(before, incoming, w, reached)
    requires RolledBack(moved, Moves(before, incoming, reached), w, stuck, after)
    ensures after == UpdatedMounts(before, incoming, w)
    ensures forall i: nat :: i in stuck <==>
      i < |before| && Touched(before, incoming, w, i) && i in w.refuseRollback
  {
    hide Moves, Unrefused, AllWell;
    var touched := Moves(before, incoming, reached);
    forall i: nat | i < |before| ensures WasTouched(touched, i) <==> Touched(before, incoming, w, i) {
      if WasTouched(touched, i) {
        var j :| 0 <= j < |touched| && touched[j].index == i;
      }
    }
    forall i: nat | WasTouched(touched, i) ensures i < |before| {
      var j :| 0 <= j < |touched| && touched[j].index == i;
    }
    forall i: nat | i < |before| ensures after[i] == UpdatedMounts(before, incoming, w)[i] {
      if WasTouched(touched, i) {
        var j :| 0 <= j < |touched| && touched[j].index == i;
        assert touched[j].spec == before[i];
      }
    }
  }

  /** The fibers whose update is begun are those that differ, up to where the first loop stopped. */
  ghost predicate UpTo(before: seq<Plugin>, incoming: map<string, Plugin>, w: Weather, reached: nat) {
    forall i :: 0 <= i < |before| ==>
      (Touched(before, incoming, w, i) <==> i < reached && Differs(before, incoming, i))
  }

  lemma ReachedMeans(before: seq<Plugin>, incoming: map<string, Plugin>, w: Weather, ok: bool, reached: nat)
    requires reached <= |before| && (ok <==> Unrefused(before, incoming, w, |before|)) && (ok ==> reached == |before|)
    requires !ok ==> 0 < reached && reached - 1 in w.refuseUpdate && Touched(before, incoming, w, reached - 1)
    ensures UpTo(before, incoming, w, reached)
  {
    forall i | 0 <= i < |before|
      ensures Touched(before, incoming, w, i) <==> i < reached && Differs(before, incoming, i)
    {
      if !ok && i >= reached {
        assert Differs(before, incoming, reached - 1);
      }
    }
  }

  predicate WasTouched(touched: seq<Move>, i: nat) {
    exists j :: 0 <= j < |touched| && touched[j].index == i
  }

  /** The fibers before `n` whose update was begun, in order, each with its plugin before. */
  function Moves(before: seq<Plugin>, incoming: map<string, Plugin>, n: nat): seq<Move>
    requires n <= |before|
  {
    if n == 0 then []
    else
      Moves(before, incoming, n - 1) + (if Differs(before, incoming, n - 1) then [Move(n - 1, before[n - 1])] else [])
  }

  predicate InOrder(before: seq<Plugin>, incoming: map<string, Plugin>, n: nat, moves: seq<Move>)
    requires n <= |before|
  {
    && (forall j :: 0 <= j < |moves| ==> moves[j].index < n && moves[j].spec == before[moves[j].index])
    && (forall j, k :: 0 <= j < k < |moves| ==> moves[j].index < moves[k].index)
    && (forall i :: 0 <= i < n ==> (Differs(before, incoming, i) <==> WasTouched(moves, i)))
  }

  lemma {:induction false} MovesMean(before: seq<Plugin>, incoming: map<string, Plugin>, n: nat)
    requires n <= |before|
    ensures InOrder(before, incoming, n, Moves(before, incoming, n))
  {
    hide InOrder;
    if n == 0 {
      NoMove(before, incoming);
    } else {
      MovesMean(before, incoming, n - 1);
      NextMove(before, incoming, n - 1, Moves(before, incoming, n - 1));
    }
  }

  lemma NoMove(before: seq<Plugin>, incoming: map<string, Plugin>)
    ensures InOrder(before, incoming, 0, [])
  {
  }

  lemma NextMove(before: seq<Plugin>, incoming: map<string, Plugin>, n: nat, fewer: seq<Move>)
    requires n < |before| && InOrder(before, incoming, n, fewer)
    ensures InOrder(before, incoming, n + 1,
      fewer + (if Differs(before, incoming, n) then [Move(n, before[n])] else []))
  {
    hide Differs;
    var moves := fewer + (if Differs(before, incoming, n) then [Move(n, before[n])] else []);
    forall i | 0 <= i <= n ensures WasTouched(moves, i) <==> Differs(before, incoming, i) {
      if i < n && Differs(before, incoming, i) {
        var j :| 0 <= j < |fewer| && fewer[j].index == i;
        assert moves[j].index == i;
      } else if i == n && Differs(before, incoming, n) {
        assert moves[|fewer|].index == i;
      }
      if i < n && WasTouched(moves, i) {
        var j :| 0 <= j < |moves| && moves[j].index == i;
        assert j < |fewer| && fewer[j].index == i;
      }
    }
  }
}
