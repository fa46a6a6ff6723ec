/**
 * Resolving a bundle and what it includes into one effective structure. The loader is a finite table; budget
 * values and plugin settings are opaque strings; the digest of the result is not modelled.
 */
module Structure {
  import opened Options
  import opened Pieces

  datatype Ref = Ref(id: string, version: string)

  datatype Slot = Model | Prompt | ContextPolicy | MemoryView | Sandbox | EvalPolicy

  datatype Plugin = Plugin(id: string, ref: Ref, enabled: bool, config: string)

  datatype Bundle = Bundle(
    id: string, version: string, slots: seq<(Slot, Ref)>, skills: seq<Ref>, tools: seq<Ref>,
    plugins: seq<Plugin>, permissions: seq<string>, budgets: seq<(string, string)>, includes: seq<Ref>)

  datatype Source = Source(bundleId: string, bundleVersion: string)

  type Loader = map<Ref, Bundle>

  datatype Error =
    | IncludeCycle(key: string)
    | NotLoaded(includer: string, ref: Ref)
    | LoaderMismatch(loaded: string, ref: Ref)
    | Unpinned(slot: Slot)

  /** References are compared by this text, so a version may hide in an id that contains an `@`. */
  function RefKey(ref: Ref): string { ref.id + "@" + ref.version }

  function BundleKey(b: Bundle): string { RefKey(Ref(b.id, b.version)) }

  function Keys(bundles: seq<Bundle>): set<string> { set b | b in bundles :: BundleKey(b) }

  /* ---------- what may be in the chain ---------- */

  /** One include that the loader resolves under its own name. */
  predicate Includes(load: Loader, includer: Bundle, b: Bundle) {
    exists ref :: ref in includer.includes && ref in load && load[ref] == b && BundleKey(b) == RefKey(ref)
  }

  /** A chain of includes from the root. */
  predicate IncludePath(load: Loader, root: Bundle, path: seq<Bundle>) {
    && |path| > 0 && path[0] == root
    && forall i :: 0 <= i < |path| - 1 ==> Includes(load, path[i], path[i + 1])
  }

  ghost predicate Reached(load: Loader, root: Bundle, b: Bundle) {
    exists path :: IncludePath(load, root, path) && path[|path| - 1] == b
  }

  predicate DistinctKeys(bundles: seq<Bundle>) {
    forall i, j :: 0 <= i < j < |bundles| ==> BundleKey(bundles[i]) != BundleKey(bundles[j])
  }

  /** Every include of a bundle stands before it. */
  predicate IncludesFirst(chain: seq<Bundle>) {
    forall i, k :: 0 <= i < |chain| && 0 <= k < |chain[i].includes| ==> RefKey(chain[i].includes[k]) in Keys(chain[..i])
  }

  /** The chain lists bundles reached from the root, each key once, every include before its includer. */
  ghost predicate ChainOk(load: Loader, root: Bundle, chain: seq<Bundle>) {
    DistinctKeys(chain) && IncludesFirst(chain) && forall b :: b in chain ==> Reached(load, root, b)
  }

  /** Why a resolution stopped is real: a path of includes that closes, or an include that does not load. */
  ghost predicate Justified(load: Loader, root: Bundle, e: Error) {
    match e
    case IncludeCycle(key) =>
      exists path, i ::
        IncludePath(load, root, path) && 0 <= i < |path| - 1
        && BundleKey(path[i]) == BundleKey(path[|path| - 1]) == key
    case NotLoaded(includer, ref) =>
      exists b :: Reached(load, root, b) && BundleKey(b) == includer && ref in b.includes && ref !in load
    case LoaderMismatch(loaded, ref) =>
      exists b ::
        Reached(load, root, b) && ref in b.includes && ref in load && BundleKey(load[ref]) == loaded != RefKey(ref)
    case Unpinned(_) => false
  }

  /** The bundle that the reference loads is in the chain, not just one with its key. */
  predicate LoadedIn(load: Loader, ref: Ref, chain: seq<Bundle>) {
    ref in load && load[ref] in chain
  }

  /** Neither the bundle nor the first it includes is resolved yet. */
  predicate FirstIsNew(bundle: Bundle, resolved: set<string>) {
    BundleKey(bundle) !in resolved && bundle.includes != [] && RefKey(bundle.includes[0]) !in resolved
  }

  function AllKeys(load: Loader, root: Bundle): set<string> {
    (set ref | ref in load :: RefKey(ref)) + {BundleKey(root)}
  }

  lemma KeysStep(bundles: seq<Bundle>, b: Bundle)
    ensures Keys(bundles + [b]) == Keys(bundles) + {BundleKey(b)}
  {
    assert forall x :: x in bundles + [b] <==> x in bundles || x == b;
  }

  lemma PathExtends(load: Loader, root: Bundle, path: seq<Bundle>, b: Bundle)
    requires IncludePath(load, root, path) && Includes(load, path[|path| - 1], b)
    ensures IncludePath(load, root, path + [b])
  {
  }

  lemma PathReaches(load: Loader, root: Bundle, path: seq<Bundle>)
    requires IncludePath(load, root, path)
    ensures Reached(load, root, path[|path| - 1])
  {
  }

  /** A bundle whose includes are all in the chain may follow it. */
  lemma ChainStep(load: Loader, root: Bundle, chain: seq<Bundle>, b: Bundle)
    requires ChainOk(load, root, chain) && Reached(load, root, b) && BundleKey(b) !in Keys(chain)
    requires forall k :: 0 <= k < |b.includes| ==> RefKey(b.includes[k]) in Keys(chain)
    ensures ChainOk(load, root, chain + [b]) && Keys(chain + [b]) == Keys(chain) + {BundleKey(b)}
  {
    hide Reached, BundleKey;
    KeysStep(chain, b);
    var longer := chain + [b];
    assert longer[..|chain|] == chain;
    forall i, k | 0 <= i < |longer| && 0 <= k < |longer[i].includes|
      ensures RefKey(longer[i].includes[k]) in Keys(longer[..i])
    {
      if i < |chain| { assert longer[..i] == chain[..i]; }
    }
  }

  /* ---------- the order of the chain ---------- */

  /** The chain after an include: as it was if the key is there, and else with what a visit adds. */
  ghost predicate Included(load: Loader, ref: Ref, before: seq<Bundle>, after: seq<Bundle>)
    decreases |after| - |before|, 2
  {
    if RefKey(ref) in Keys(before) then after == before
    else
      && ref in load && BundleKey(load[ref]) == RefKey(ref)
      && |before| <= |after| && Visited(load, load[ref], before, after)
  }

  /**
   * The chain after a visit to a bundle, include by include in their order: `cuts` says where each include is
   * done with. The bundle itself comes last.
   */
  ghost predicate Visited(load: Loader, bundle: Bundle, before: seq<Bundle>, after: seq<Bundle>)
    decreases |after| - |before|, 1
  {
    if BundleKey(bundle) in Keys(before) then after == before
    else
      && |before| < |after| && before <= after && after[|after| - 1] == bundle
      && exists cuts ::
           Cuts(cuts, |bundle.includes|, |before|, |after| - 1) && EachIncluded(load, bundle, cuts, |before|, after)
  }

  ghost predicate EachIncluded(load: Loader, bundle: Bundle, cuts: seq<nat>, start: nat, after: seq<Bundle>)
    requires start < |after| && Cuts(cuts, |bundle.includes|, start, |after| - 1)
    decreases |after| - start, 0
  {
    forall k :: 0 <= k < |bundle.includes| ==>
      Included(load, bundle.includes[k], after[..cuts[k]], after[..cuts[k + 1]])
  }

  lemma VisitedAlready(load: Loader, bundle: Bundle, chain: seq<Bundle>)
    ensures BundleKey(bundle) in Keys(chain) ==> Visited(load, bundle, chain, chain)
  {
    hide BundleKey, Keys;
  }

  /** The includes of a bundle so far. */
  ghost predicate Growing(load: Loader, bundle: Bundle, cuts: seq<nat>, start: nat, chain: seq<Bundle>, n: nat) {
    && n <= |bundle.includes| && Cuts(cuts, n, start, |chain|)
    && forall k :: 0 <= k < n ==> Included(load, bundle.includes[k], chain[..cuts[k]], chain[..cuts[k + 1]])
  }

  lemma StartsGrowing(load: Loader, bundle: Bundle, chain: seq<Bundle>)
    ensures Growing(load, bundle, [|chain|], |chain|, chain, 0)
  {
  }

  lemma GrowsOn(
    load: Loader, bundle: Bundle, cuts: seq<nat>, start: nat, chain: seq<Bundle>, n: nat, longer: seq<Bundle>)
    requires Growing(load, bundle, cuts, start, chain, n) && n < |bundle.includes| && chain <= longer
    requires Included(load, bundle.includes[n], chain, longer)
    ensures Growing(load, bundle, cuts + [|longer|], start, longer, n + 1)
  {
    hide Included;
    var more := cuts + [|longer|];
    forall k | 0 <= k < n + 1
      ensures Included(load, bundle.includes[k], longer[..more[k]], longer[..more[k + 1]])
    {
      if k < n {
        assert longer[..more[k]] == chain[..cuts[k]] && longer[..more[k + 1]] == chain[..cuts[k + 1]];
      } else {
        assert longer[..more[k]] == chain && longer[..more[k + 1]] == longer;
      }
    }
  }

  lemma GrewUp(load: Loader, bundle: Bundle, cuts: seq<nat>, before: seq<Bundle>, chain: seq<Bundle>)
    requires Growing(load, bundle, cuts, |before|, chain, |bundle.includes|) && before <= chain
    requires BundleKey(bundle) !in Keys(before)
    ensures Visited(load, bundle, before, chain + [bundle])
  {
    hide Included, BundleKey;
    var after := chain + [bundle];
    forall k | 0 <= k < |bundle.includes|
      ensures Included(load, bundle.includes[k], after[..cuts[k]], after[..cuts[k + 1]])
    {
      assert after[..cuts[k]] == chain[..cuts[k]] && after[..cuts[k + 1]] == chain[..cuts[k + 1]];
    }
    assert EachIncluded(load, bundle, cuts, |before|, after);
  }

  /** There is but one chain. */
  lemma {:induction false} VisitedOnce(
    load: Loader, bundle: Bundle, before: seq<Bundle>, x: seq<Bundle>, y: seq<Bundle>)
    requires Visited(load, bundle, before, x) && Visited(load, bundle, before, y)
    ensures x == y
    decreases |x| - |before|
  {
    if BundleKey(bundle) !in Keys(before) {
      hide BundleKey, RefKey, Keys;
      var a :| Cuts(a, |bundle.includes|, |before|, |x| - 1) && EachIncluded(load, bundle, a, |before|, x);
      var b :| Cuts(b, |bundle.includes|, |before|, |y| - 1) && EachIncluded(load, bundle, b, |before|, y);
      for k := 0 to |bundle.includes|
        invariant x[..a[k]] == y[..b[k]]
      {
        assert Included(load, bundle.includes[k], x[..a[k]], x[..a[k + 1]]);
        assert Included(load, bundle.includes[k], y[..b[k]], y[..b[k + 1]]);
        if RefKey(bundle.includes[k]) !in Keys(x[..a[k]]) {
          VisitedOnce(load, load[bundle.includes[k]], x[..a[k]], x[..a[k + 1]], y[..b[k + 1]]);
        }
      }
      assert x == x[..|x| - 1] + [bundle] && y == y[..|y| - 1] + [bundle];
    }
  }

  class Resolver {
    const load: Loader
    const root: Bundle
    var chain: seq<Bundle>
    var resolved: set<string>
    var visiting: set<string>

    constructor (load: Loader, root: Bundle)
      ensures this.load == load && this.root == root && chain == [] && resolved == {} && visiting == {}
    {
      this.load, this.root, chain, resolved, visiting := load, root, [], {}, {};
    }

    ghost predicate Valid()
      reads this
    {
      ChainOk(load, root, chain) && resolved == Keys(chain) && resolved !! visiting && visiting <= AllKeys(load, root)
    }

    /** Visits a bundle after everything it includes; `path` is how it was reached. */
    method Visit(bundle: Bundle, ghost path: seq<Bundle>) returns (e: Option<Error>)
      requires Valid() && IncludePath(load, root, path) && path[|path| - 1] == bundle
      requires visiting == Keys(path[..|path| - 1]) && BundleKey(bundle) in AllKeys(load, root)
      modifies `chain, `resolved, `visiting
      ensures e.Some? ==> Justified(load, root, e.value) && !e.value.Unpinned?
      ensures e.None? ==> Valid() && visiting == old(visiting) && old(chain) <= chain && BundleKey(bundle) in resolved
      ensures e.None? ==> Visited(load, bundle, old(chain), chain)
      ensures e.None? && BundleKey(bundle) !in old(resolved) ==> chain[|chain| - 1] == bundle
      ensures e.None? && FirstIsNew(bundle, old(resolved)) ==> LoadedIn(load, bundle.includes[0], chain)
      decreases AllKeys(load, root) - visiting
    {
      hide ChainOk, IncludePath, Reached, Justified, AllKeys, BundleKey, RefKey, Keys, Visited, Growing, EachIncluded;
      var key := BundleKey(bundle);
      VisitedAlready(load, bundle, chain);
      if key in resolved {
        return None;
      }
      if key in visiting {
        CycleIsReal(load, root, path);
        return Some(IncludeCycle(key));
      }
      ghost var outer := visiting;
      visiting := visiting + {key};
      PathKeys(load, root, path);
      PathReaches(load, root, path);
      ghost var cuts: seq<nat> := [|chain|];
      StartsGrowing(load, bundle, chain);
      for k := 0 to |bundle.includes|
        invariant Growing(load, bundle, cuts, |old(chain)|, chain, k)
        invariant Valid() && visiting == outer + {key} && old(chain) <= chain
        invariant forall j :: 0 <= j < k ==> RefKey(bundle.includes[j]) in resolved
        invariant k == 0 ==> resolved == old(resolved)
        invariant k > 0 && RefKey(bundle.includes[0]) !in old(resolved) ==>
          LoadedIn(load, bundle.includes[0], chain)
      {
        var ref := bundle.includes[k];
        ghost var before := chain;
        if RefKey(ref) in resolved {
          GrowsOn(load, bundle, cuts, |old(chain)|, before, k, chain);
          cuts := cuts + [|chain|];
          continue;
        }
        if ref !in load {
          NotLoadedIsReal(load, root, bundle, ref);
          return Some(NotLoaded(key, ref));
        }
        var loaded := load[ref];
        if BundleKey(loaded) != RefKey(ref) {
          MismatchIsReal(load, root, bundle, ref);
          return Some(LoaderMismatch(BundleKey(loaded), ref));
        }
        IncludeStep(load, root, path, ref);
        e := Visit(loaded, path + [loaded]);
        if e.Some? {
          return e;
        }
        ResolvedStay(before, chain);
        GrowsOn(load, bundle, cuts, |old(chain)|, before, k, chain);
        cuts := cuts + [|chain|];
      }
      visiting := visiting - {key};
      ChainStep(load, root, chain, bundle);
      GrewUp(load, bundle, cuts, old(chain), chain);
      resolved := resolved + {key};
      chain := chain + [bundle];
      return None;
    }
  }

  lemma CycleIsReal(load: Loader, root: Bundle, path: seq<Bundle>)
    requires IncludePath(load, root, path) && BundleKey(path[|path| - 1]) in Keys(path[..|path| - 1])
    ensures Justified(load, root, IncludeCycle(BundleKey(path[|path| - 1])))
  {
    hide BundleKey, IncludePath;
    var b :| b in path[..|path| - 1] && BundleKey(b) == BundleKey(path[|path| - 1]);
    var i :| 0 <= i < |path| - 1 && path[i] == b;
  }

  lemma NotLoadedIsReal(load: Loader, root: Bundle, b: Bundle, ref: Ref)
    requires Reached(load, root, b) && ref in b.includes && ref !in load
    ensures Justified(load, root, NotLoaded(BundleKey(b), ref))
  {
    hide BundleKey, Reached;
  }

  lemma MismatchIsReal(load: Loader, root: Bundle, b: Bundle, ref: Ref)
    requires Reached(load, root, b) && ref in b.includes && ref in load && BundleKey(load[ref]) != RefKey(ref)
    ensures Justified(load, root, LoaderMismatch(BundleKey(load[ref]), ref))
  {
    hide BundleKey, Reached;
  }

  lemma PathKeys(load: Loader, root: Bundle, path: seq<Bundle>)
    requires IncludePath(load, root, path)
    ensures Keys(path) == Keys(path[..|path| - 1]) + {BundleKey(path[|path| - 1])}
  {
    KeysStep(path[..|path| - 1], path[|path| - 1]);
    assert path == path[..|path| - 1] + [path[|path| - 1]];
  }

  lemma IncludeStep(load: Loader, root: Bundle, path: seq<Bundle>, ref: Ref)
    requires IncludePath(load, root, path) && ref in path[|path| - 1].includes
    requires ref in load && BundleKey(load[ref]) == RefKey(ref)
    ensures IncludePath(load, root, path + [load[ref]]) && RefKey(ref) in AllKeys(load, root)
    ensures (path + [load[ref]])[..|path|] == path
  {
    hide BundleKey, RefKey;
    PathExtends(load, root, path, load[ref]);
  }

  lemma ResolvedStay(before: seq<Bundle>, after: seq<Bundle>)
    requires before <= after
    ensures Keys(before) <= Keys(after)
  {
    hide BundleKey;
    assert forall b :: b in before ==> b in after;
  }

  /* ---------- the whole chain ---------- */

  /** No two bundles reached from the root share a key. */
  ghost predicate KeysTellApart(load: Loader, root: Bundle) {
    forall b, c :: Reached(load, root, b) && Reached(load, root, c) && BundleKey(b) == BundleKey(c) ==> b == c
  }

  ghost predicate IsChain(load: Loader, root: Bundle, chain: seq<Bundle>) {
    ChainOk(load, root, chain) && |chain| > 0 && chain[|chain| - 1] == root
  }

  lemma ReachedNext(load: Loader, root: Bundle, a: Bundle, b: Bundle)
    requires Reached(load, root, a) && Includes(load, a, b)
    ensures Reached(load, root, b)
  {
    hide Includes;
    var path :| IncludePath(load, root, path) && path[|path| - 1] == a;
    PathExtends(load, root, path, b);
    PathReaches(load, root, path + [b]);
  }

  /** Chains of includes that start at a bundle of the chain stay in it, and go down. */
  lemma IncludesGoDown(load: Loader, root: Bundle, chain: seq<Bundle>, i: nat, b: Bundle)
    requires ChainOk(load, root, chain) && KeysTellApart(load, root) && i < |chain| && Includes(load, chain[i], b)
    ensures exists j :: 0 <= j < i && chain[j] == b
  {
    assert chain[i] in chain;
    ReachedNext(load, root, chain[i], b);
    hide BundleKey, RefKey, Reached;
    var ref :| ref in chain[i].includes && ref in load && load[ref] == b && BundleKey(b) == RefKey(ref);
    var k :| 0 <= k < |chain[i].includes| && chain[i].includes[k] == ref;
    assert RefKey(ref) in Keys(chain[..i]);
    var c :| c in chain[..i] && BundleKey(c) == RefKey(ref);
    var j :| 0 <= j < i && chain[j] == c;
    assert c in chain && Reached(load, root, c);
  }

  /** Every bundle of a path from the root is in the chain. */
  lemma {:induction false} ChainHasAll(load: Loader, root: Bundle, chain: seq<Bundle>, path: seq<Bundle>)
    returns (i: nat)
    requires IsChain(load, root, chain) && KeysTellApart(load, root) && IncludePath(load, root, path)
    ensures i < |chain| && chain[i] == path[|path| - 1] && i <= |chain| - |path|
    decreases |path|
  {
    hide ChainOk, KeysTellApart, Includes;
    if |path| == 1 {
      i := |chain| - 1;
    } else {
      var front := path[..|path| - 1];
      var k := ChainHasAll(load, root, chain, front);
      assert Includes(load, path[|path| - 2], path[|path| - 1]);
      IncludesGoDown(load, root, chain, k, path[|path| - 1]);
      i :| 0 <= i < k && chain[i] == path[|path| - 1];
    }
  }

  /** The chain of a successful resolution lists every bundle reached exactly when no two of them share a key. */
  lemma ResolvedChain(load: Loader, root: Bundle, chain: seq<Bundle>)
    requires IsChain(load, root, chain)
    ensures (forall b :: Reached(load, root, b) ==> b in chain) <==> KeysTellApart(load, root)
  {
    hide BundleKey, IncludesFirst, Includes;
    if KeysTellApart(load, root) {
      forall b | Reached(load, root, b) ensures b in chain {
        var path :| IncludePath(load, root, path) && path[|path| - 1] == b;
        var i := ChainHasAll(load, root, chain, path);
      }
    }
  }

  /** When resolution succeeds and keys tell bundles apart, no path of includes comes back to where it was. */
  lemma ResolvedIsAcyclic(load: Loader, root: Bundle, chain: seq<Bundle>, path: seq<Bundle>)
    requires IsChain(load, root, chain) && KeysTellApart(load, root) && IncludePath(load, root, path)
    ensures |path| <= |chain| && forall i :: 0 <= i < |path| - 1 ==> path[i] != path[|path| - 1]
  {
    var at := ChainHasAll(load, root, chain, path);
    forall i | 0 <= i < |path| - 1 ensures path[i] != path[|path| - 1] {
      if path[i] == path[|path| - 1] {
        GoingRound(load, root, path, i, |chain|);
        var long :| IncludePath(load, root, long) && |long| > |chain|;
        var n := ChainHasAll(load, root, chain, long);
        assert false;
      }
    }
  }

  /** At most one of the bundles reached has the key. */
  ghost predicate NamesOne(load: Loader, root: Bundle, key: string) {
    forall b, c :: Reached(load, root, b) && Reached(load, root, c) && BundleKey(b) == key == BundleKey(c) ==> b == c
  }

  /** A path of includes that comes back to a bundle it has passed, whose key is reported. */
  ghost predicate RealCycle(load: Loader, root: Bundle, key: string) {
    exists path, i ::
      IncludePath(load, root, path) && 0 <= i < |path| - 1 && path[i] == path[|path| - 1] && BundleKey(path[i]) == key
  }

  /** A reported cycle is a cycle of bundles, unless two of the bundles reached share the key it names. */
  lemma ReportedCycleIsReal(load: Loader, root: Bundle, key: string)
    requires Justified(load, root, IncludeCycle(key)) && NamesOne(load, root, key)
    ensures RealCycle(load, root, key)
  {
    var path, i :|
      IncludePath(load, root, path) && 0 <= i < |path| - 1
      && BundleKey(path[i]) == BundleKey(path[|path| - 1]) == key;
    PathReaches(load, root, path);
    PathReaches(load, root, path[..i + 1]);
    hide BundleKey, Reached;
    assert IncludePath(load, root, path) && path[i] == path[|path| - 1];
  }

  /** A path that closes can be walked round as often as one likes. */
  lemma {:induction false} GoingRound(load: Loader, root: Bundle, path: seq<Bundle>, i: nat, n: nat)
    requires IncludePath(load, root, path) && i < |path| - 1 && path[i] == path[|path| - 1]
    ensures exists long :: IncludePath(load, root, long) && |long| > n && long[|long| - 1] == path[i]
  {
    if n == 0 {
      assert |path| > n;
    } else {
      GoingRound(load, root, path, i, n - 1);
      var long :| IncludePath(load, root, long) && |long| > n - 1 && long[|long| - 1] == path[i];
      var more := long + path[i + 1..];
      forall k | 0 <= k < |more| - 1 ensures Includes(load, more[k], more[k + 1]) {
        if k < |long| - 1 {
          assert Includes(load, long[k], long[k + 1]);
        } else {
          assert Includes(load, path[i + k - |long| + 1], path[i + k - |long| + 2]);
        }
      }
      assert IncludePath(load, root, more);
    }
  }

  /**
   * Two references can share a key when an id contains an `@`. The second bundle then never gets into the
   * chain, though the root includes it.
   */
  lemma CollisionDropsABundle(
    x: string, y: string, z: string, root: Bundle, first: Bundle, second: Bundle, load: Loader)
    requires var r, q := Ref(x + "@" + y, z), Ref(x, y + "@" + z);
      && load == map[r := first, q := second] && root.includes == [r, q] && first.includes == [] && first != second
      && Ref(first.id, first.version) == r && Ref(second.id, second.version) == q
      && BundleKey(root) != RefKey(r) && root != second
    ensures Reached(load, root, second) && second !in [first, root] && IsChain(load, root, [first, root])
    ensures !KeysTellApart(load, root)
  {
    hide RefKey, ChainOk, Reached, KeysTellApart;
    var r, q := Ref(x + "@" + y, z), Ref(x, y + "@" + z);
    KeysCollide(x, y, z);
    assert root.includes[0] == r && root.includes[1] == q;
    TwoForOneKey(root, r, q, load);
  }

  /**
   * Or else a cycle is reported that is none: the root includes `first`, which includes `second`, which
   * includes nothing but has the key of `first`.
   */
  lemma CollisionFakesACycle(x: string, y: string, z: string, root: Bundle, first: Bundle, second: Bundle, load: Loader)
    requires FakesACycle(x, y, z, root, first, second, load)
    ensures Justified(load, root, IncludeCycle(BundleKey(first)))
    ensures forall path, i :: IncludePath(load, root, path) && 0 <= i < |path| - 1 ==> path[i] != path[|path| - 1]
  {
    KeysCollide(x, y, z);
    hide RefKey;
    forall path, i | IncludePath(load, root, path) && 0 <= i < |path| - 1 ensures path[i] != path[|path| - 1] {
      OnlyDown(root, first, second, load, path);
    }
    var down := [root, first, second];
    assert root.includes[0] in load && first.includes[0] in load;
    assert Includes(load, root, first) && Includes(load, first, second);
    assert IncludePath(load, root, down) && BundleKey(down[1]) == BundleKey(down[2]);
  }

  predicate FakesACycle(
    x: string, y: string, z: string, root: Bundle, first: Bundle, second: Bundle, load: Loader)
  {
    var r, q := Ref(x + "@" + y, z), Ref(x, y + "@" + z);
    && load == map[r := first, q := second] && root.includes == [r] && first.includes == [q] && second.includes == []
    && Ref(first.id, first.version) == r && Ref(second.id, second.version) == q && first != second
    && BundleKey(root) != RefKey(r)
  }

  lemma OnlyDown(root: Bundle, first: Bundle, second: Bundle, load: Loader, path: seq<Bundle>)
    requires |root.includes| == 1 && root.includes[0] in load && load[root.includes[0]] == first
    requires |first.includes| == 1 && first.includes[0] in load && load[first.includes[0]] == second
    requires second.includes == [] && root != first && IncludePath(load, root, path)
    ensures |path| <= 3 && (|path| > 1 ==> path[1] == first) && (|path| > 2 ==> path[2] == second)
  {
    hide BundleKey, RefKey;
    if |path| > 1 {
      assert Includes(load, path[0], path[1]);
    }
    if |path| > 2 {
      assert Includes(load, path[1], path[2]);
    }
    assert |path| > 3 ==> Includes(load, path[2], path[3]);
  }

  /** On such an input resolution fails, with the cycle that is none. */
  method ResolvesToAFakeCycle(
    x: string, y: string, z: string, root: Bundle, first: Bundle, second: Bundle, load: Loader)
    returns (r: Resolution)
    requires FakesACycle(x, y, z, root, first, second, load)
    ensures r == Failed(IncludeCycle(BundleKey(first)))
  {
    var chain: seq<Bundle>;
    r, chain := ResolveEffectiveStructure(root, load);
    KeysCollide(x, y, z);
    OnlyTheFakeCycle(root, first, second, load, r, chain);
  }

  /** No bundle of a chain includes its own key. */
  lemma NotItsOwnKey(chain: seq<Bundle>, i: nat, k: nat)
    requires DistinctKeys(chain) && IncludesFirst(chain) && i < |chain| && k < |chain[i].includes|
    ensures RefKey(chain[i].includes[k]) != BundleKey(chain[i])
  {
    hide BundleKey, RefKey;
    var key := RefKey(chain[i].includes[k]);
    assert key in Keys(chain[..i]);
    var b :| b in chain[..i] && BundleKey(b) == key;
    var j :| 0 <= j < i && chain[j] == b;
  }

  lemma OnlyTheFakeCycle(
    root: Bundle, first: Bundle, second: Bundle, load: Loader, r: Resolution, chain: seq<Bundle>)
    requires |root.includes| == 1 && root.includes[0] in load && load[root.includes[0]] == first
    requires |first.includes| == 1 && first.includes[0] in load && load[first.includes[0]] == second
    requires second.includes == [] && BundleKey(root) != BundleKey(first) == BundleKey(second)
    requires BundleKey(first) == RefKey(root.includes[0]) == RefKey(first.includes[0])
    requires r.Failed? && !r.error.Unpinned? ==> Justified(load, root, r.error)
    requires r.Resolved? || r.error.Unpinned? ==> IsChain(load, root, chain) && LoadedIn(load, root.includes[0], chain)
    ensures r == Failed(IncludeCycle(BundleKey(first)))
  {
    hide BundleKey, RefKey, Justified, DistinctKeys, IncludesFirst;
    if r.Resolved? || r.error.Unpinned? {
      var i :| 0 <= i < |chain| && chain[i] == first;
      NotItsOwnKey(chain, i, 0);
      assert false;
    } else {
      OnlyThatError(root, first, second, load, r.error);
    }
  }

  lemma OnlyThatError(root: Bundle, first: Bundle, second: Bundle, load: Loader, e: Error)
    requires |root.includes| == 1 && root.includes[0] in load && load[root.includes[0]] == first
    requires |first.includes| == 1 && first.includes[0] in load && load[first.includes[0]] == second
    requires second.includes == [] && BundleKey(root) != BundleKey(first) == BundleKey(second)
    requires BundleKey(first) == RefKey(root.includes[0]) == RefKey(first.includes[0])
    requires Justified(load, root, e)
    ensures e == IncludeCycle(BundleKey(first))
  {
    hide BundleKey, RefKey, IncludePath;
    if e.IncludeCycle? {
      var path, i :|
        IncludePath(load, root, path) && 0 <= i < |path| - 1
        && BundleKey(path[i]) == BundleKey(path[|path| - 1]) == e.key;
      OnlyDown(root, first, second, load, path);
      StartsAtRoot(load, root, path);
    } else if e.NotLoaded? {
      var b :| Reached(load, root, b) && e.ref in b.includes && e.ref !in load;
      OnlyThree(root, first, second, load, b);
      assert false;
    } else {
      var b :|
        Reached(load, root, b) && e.ref in b.includes && e.ref in load && BundleKey(load[e.ref]) != RefKey(e.ref);
      OnlyThree(root, first, second, load, b);
      assert false;
    }
  }

  lemma StartsAtRoot(load: Loader, root: Bundle, path: seq<Bundle>)
    requires IncludePath(load, root, path)
    ensures path[0] == root
  {
  }

  lemma OnlyThree(root: Bundle, first: Bundle, second: Bundle, load: Loader, b: Bundle)
    requires |root.includes| == 1 && root.includes[0] in load && load[root.includes[0]] == first
    requires |first.includes| == 1 && first.includes[0] in load && load[first.includes[0]] == second
    requires second.includes == [] && root != first && Reached(load, root, b)
    ensures b == root || b == first || b == second
  {
    hide BundleKey, RefKey;
    var path :| IncludePath(load, root, path) && path[|path| - 1] == b;
    OnlyDown(root, first, second, load, path);
  }

  lemma KeysCollide(x: string, y: string, z: string)
    ensures RefKey(Ref(x + "@" + y, z)) == RefKey(Ref(x, y + "@" + z))
  {
    assert x + "@" + y + "@" + z == x + "@" + (y + "@" + z);
  }

  lemma TwoForOneKey(root: Bundle, r: Ref, q: Ref, load: Loader)
    requires r in load && q in load && RefKey(r) == RefKey(q) && load[r] != load[q] && root != load[q]
    requires root.includes == [r, q] && load[r].includes == [] && BundleKey(root) != RefKey(r)
    requires BundleKey(load[r]) == RefKey(r) && BundleKey(load[q]) == RefKey(q)
    ensures Reached(load, root, load[q]) && load[q] !in [load[r], root] && IsChain(load, root, [load[r], root])
    ensures !KeysTellApart(load, root)
  {
    hide RefKey, BundleKey, ChainOk, Reached, IncludePath;
    var first, second := load[r], load[q];
    assert root.includes[0] == r && root.includes[1] == q;
    Starts(load, root);
    assert Includes(load, root, first) && Includes(load, root, second);
    PathExtends(load, root, [root], first);
    PathExtends(load, root, [root], second);
    PathReaches(load, root, [root]);
    PathReaches(load, root, [root] + [first]);
    PathReaches(load, root, [root] + [second]);
    KeysStep([], first);
    ChainStep(load, root, [], first);
    ChainStep(load, root, [] + [first], root);
    assert [] + [first] + [root] == [first, root];
  }

  /* ---------- the fold ---------- */

  /** The keys in the order of their first mention. */
  function KeyOrder<K(==), V>(entries: seq<(K, V)>): (r: seq<K>)
  {
    if entries == [] then []
    else
      var before, key := KeyOrder(entries[..|entries| - 1]), entries[|entries| - 1].0;
      if key in before then before else before + [key]
  }

  /** Each key with the value of its last mention. */
  function LastOf<K, V>(entries: seq<(K, V)>): map<K, V> {
    if entries == [] then map[]
    else LastOf(entries[..|entries| - 1])[entries[|entries| - 1].0 := entries[|entries| - 1].1]
  }

  function Entries<K, V>(chain: seq<Bundle>, of: Bundle -> seq<(K, V)>): seq<(K, V)> {
    if chain == [] then [] else Entries(chain[..|chain| - 1], of) + of(chain[|chain| - 1])
  }

  lemma {:induction false} LastMention<K, V>(entries: seq<(K, V)>, i: nat)
    requires i < |entries| && forall j :: i < j < |entries| ==> entries[j].0 != entries[i].0
    ensures entries[i].0 in LastOf(entries) && LastOf(entries)[entries[i].0] == entries[i].1
  {
    if i < |entries| - 1 {
      LastMention(entries[..|entries| - 1], i);
    }
  }

  lemma {:induction false} OrderOnce<K, V>(entries: seq<(K, V)>)
    ensures forall k: K :: k in KeyOrder(entries) <==> k in LastOf(entries)
    ensures forall i, j :: 0 <= i < j < |KeyOrder(entries)| ==> KeyOrder(entries)[i] != KeyOrder(entries)[j]
  {
    if entries != [] {
      OrderOnce(entries[..|entries| - 1]);
    }
  }

  lemma {:induction false} LastOfSplit<K, V>(a: seq<(K, V)>, b: seq<(K, V)>)
    ensures LastOf(a + b) == LastOf(a) + LastOf(b)
  {
    if b == [] {
      assert a + b == a;
    } else {
      LastOfSplit(a, b[..|b| - 1]);
      assert (a + b)[..|a + b| - 1] == a + b[..|b| - 1];
    }
  }

  /** What a key ends up with is what the last bundle of the chain that sets it gives it. */
  lemma {:induction false} LastBundleWins<K, V>(chain: seq<Bundle>, of: Bundle -> seq<(K, V)>, i: nat, key: K)
    requires i < |chain| && key in LastOf(of(chain[i]))
    requires forall j :: i < j < |chain| ==> key !in LastOf(of(chain[j]))
    ensures key in LastOf(Entries(chain, of)) && LastOf(Entries(chain, of))[key] == LastOf(of(chain[i]))[key]
  {
    var front, last := chain[..|chain| - 1], chain[|chain| - 1];
    LastOfSplit(Entries(front, of), of(last));
    if i < |chain| - 1 {
      LastBundleWins(front, of, i, key);
    }
  }

  /** A key that no bundle of the chain sets is not set. */
  lemma {:induction false} UnsetStays<K, V>(chain: seq<Bundle>, of: Bundle -> seq<(K, V)>, key: K)
    requires forall j :: 0 <= j < |chain| ==> key !in LastOf(of(chain[j]))
    ensures key !in LastOf(Entries(chain, of))
  {
    if chain != [] {
      LastOfSplit(Entries(chain[..|chain| - 1], of), of(chain[|chain| - 1]));
      UnsetStays(chain[..|chain| - 1], of, key);
    }
  }

  predicate FirstNamed<K(==), V>(entries: seq<(K, V)>, i: nat) {
    i < |entries| && forall j :: 0 <= j < i ==> entries[j].0 != entries[i].0
  }

  /** Keys stand in the order of their first mention. */
  lemma {:induction false} OrderMeans<K, V>(entries: seq<(K, V)>, i: nat, j: nat)
    requires i < j && FirstNamed(entries, i) && FirstNamed(entries, j)
    ensures exists p, q ::
      0 <= p < q < |KeyOrder(entries)| && KeyOrder(entries)[p] == entries[i].0 && KeyOrder(entries)[q] == entries[j].0
  {
    var front := entries[..|entries| - 1];
    OrderHas(front);
    if j < |front| {
      assert FirstNamed(front, i) && FirstNamed(front, j);
      OrderMeans(front, i, j);
      var p, q :| 0 <= p < q < |KeyOrder(front)|
        && KeyOrder(front)[p] == entries[i].0 && KeyOrder(front)[q] == entries[j].0;
      assert KeyOrder(entries)[p] == entries[i].0 && KeyOrder(entries)[q] == entries[j].0;
    } else {
      assert front[i].0 in KeyOrder(front);
      var p :| 0 <= p < |KeyOrder(front)| && KeyOrder(front)[p] == entries[i].0;
      assert entries[j].0 !in KeyOrder(front);
      assert KeyOrder(entries)[|KeyOrder(front)|] == entries[j].0;
      assert KeyOrder(entries)[p] == entries[i].0;
    }
  }

  lemma {:induction false} OrderHas<K, V>(entries: seq<(K, V)>)
    ensures forall i :: 0 <= i < |entries| ==> entries[i].0 in KeyOrder(entries)
    ensures forall k: K :: k in KeyOrder(entries) ==> exists i :: 0 <= i < |entries| && entries[i].0 == k
  {
    if entries != [] {
      var front := entries[..|entries| - 1];
      OrderHas(front);
      forall k: K | k in KeyOrder(front) ensures exists i :: 0 <= i < |entries| && entries[i].0 == k {
        var i :| 0 <= i < |front| && front[i].0 == k;
        assert entries[i].0 == k;
      }
    }
  }

  /* ---------- the effective structure ---------- */

  datatype Effective<T> = Effective(value: T, source: Source)

  function SourceOf(b: Bundle): Source { Source(b.id, b.version) }

  function SlotEntries(b: Bundle): seq<(Slot, Effective<Ref>)> {
    seq(|b.slots|, i requires 0 <= i < |b.slots| => (b.slots[i].0, Effective(b.slots[i].1, SourceOf(b))))
  }

  function RefEntries(refs: seq<Ref>, source: Source): seq<(string, Effective<Ref>)> {
    seq(|refs|, i requires 0 <= i < |refs| => (refs[i].id, Effective(refs[i], source)))
  }

  function SkillEntries(b: Bundle): seq<(string, Effective<Ref>)> { RefEntries(b.skills, SourceOf(b)) }

  function ToolEntries(b: Bundle): seq<(string, Effective<Ref>)> { RefEntries(b.tools, SourceOf(b)) }

  function PluginEntries(b: Bundle): seq<(string, Effective<Plugin>)> {
    seq(|b.plugins|, i requires 0 <= i < |b.plugins| => (b.plugins[i].id, Effective(b.plugins[i], SourceOf(b))))
  }

  function PermissionEntries(b: Bundle): seq<(string, Source)> {
    seq(|b.permissions|, i requires 0 <= i < |b.permissions| => (b.permissions[i], SourceOf(b)))
  }

  function BudgetEntries(b: Bundle): seq<(string, Effective<string>)> {
    seq(|b.budgets|, i requires 0 <= i < |b.budgets| => (b.budgets[i].0, Effective(b.budgets[i].1, SourceOf(b))))
  }

  /** A map that remembers the order in which its keys were first set. */
  datatype Ordered<K, V> = Ordered(order: seq<K>, values: map<K, V>)

  function Folded<K(==), V>(chain: seq<Bundle>, of: Bundle -> seq<(K, V)>): Ordered<K, V> {
    Ordered(KeyOrder(Entries(chain, of)), LastOf(Entries(chain, of)))
  }

  /* ---------- who wins ---------- */

  /** The last time the chain names something: nothing after it, in this bundle or a later one, names it again. */
  predicate LastNamed<K(==)>(names: Bundle -> seq<K>, chain: seq<Bundle>, i: nat, k: nat) {
    && i < |chain| && k < |names(chain[i])|
    && (forall j :: k < j < |names(chain[i])| ==> names(chain[i])[j] != names(chain[i])[k])
    && (forall n, j :: i < n < |chain| && 0 <= j < |names(chain[n])| ==> names(chain[n])[j] != names(chain[i])[k])
  }

  function RefNames(refs: seq<Ref>): seq<string> { seq(|refs|, j requires 0 <= j < |refs| => refs[j].id) }

  function ToolNames(b: Bundle): seq<string> { RefNames(b.tools) }

  function SkillNames(b: Bundle): seq<string> { RefNames(b.skills) }

  function PluginNames(b: Bundle): seq<string> {
    seq(|b.plugins|, j requires 0 <= j < |b.plugins| => b.plugins[j].id)
  }

  function SlotNames(b: Bundle): seq<Slot> { seq(|b.slots|, j requires 0 <= j < |b.slots| => b.slots[j].0) }

  function BudgetNames(b: Bundle): seq<string> { seq(|b.budgets|, j requires 0 <= j < |b.budgets| => b.budgets[j].0) }

  function PermissionNames(b: Bundle): seq<string> { b.permissions }

  lemma LastNamedWins<K, V>(
    chain: seq<Bundle>, of: Bundle -> seq<(K, V)>, names: Bundle -> seq<K>, i: nat, k: nat)
    requires forall b :: |names(b)| == |of(b)| && forall j :: 0 <= j < |of(b)| ==> names(b)[j] == of(b)[j].0
    requires LastNamed(names, chain, i, k)
    ensures var (key, value) := of(chain[i])[k];
      key in Folded(chain, of).values && Folded(chain, of).values[key] == value
  {
    hide LastOf, KeyOrder, Entries;
    var key := of(chain[i])[k].0;
    LastMention(of(chain[i]), k);
    forall n | i < n < |chain| ensures key !in LastOf(of(chain[n])) {
      NotNamed(of(chain[n]), names(chain[n]), key);
    }
    LastBundleWins(chain, of, i, key);
  }

  lemma NotNamed<K, V>(entries: seq<(K, V)>, names: seq<K>, key: K)
    requires |names| == |entries| && forall j :: 0 <= j < |entries| ==> names[j] == entries[j].0 && names[j] != key
    ensures key !in LastOf(entries)
  {
    hide LastOf, KeyOrder;
    OrderOnce(entries);
    OrderHas(entries);
  }

  /*
   * What the structure has for a name is what the chain says of it last, with the bundle that says so.
   */

  lemma LastToolWins(chain: seq<Bundle>, i: nat, k: nat)
    requires LastNamed(ToolNames, chain, i, k)
    ensures var b := chain[i];
      Says(Folded(chain, ToolEntries).values, b.tools[k].id, Effective(b.tools[k], Source(b.id, b.version)))
  {
    hide Folded;
    LastNamedWins(chain, ToolEntries, ToolNames, i, k);
  }

  lemma LastSkillWins(chain: seq<Bundle>, i: nat, k: nat)
    requires LastNamed(SkillNames, chain, i, k)
    ensures var b := chain[i];
      Says(Folded(chain, SkillEntries).values, b.skills[k].id, Effective(b.skills[k], Source(b.id, b.version)))
  {
    hide Folded;
    LastNamedWins(chain, SkillEntries, SkillNames, i, k);
  }

  lemma LastPluginWins(chain: seq<Bundle>, i: nat, k: nat)
    requires LastNamed(PluginNames, chain, i, k)
    ensures var b := chain[i];
      Says(Folded(chain, PluginEntries).values, b.plugins[k].id, Effective(b.plugins[k], Source(b.id, b.version)))
  {
    hide Folded;
    LastNamedWins(chain, PluginEntries, PluginNames, i, k);
  }

  lemma LastSlotWins(chain: seq<Bundle>, i: nat, k: nat)
    requires LastNamed(SlotNames, chain, i, k)
    ensures var b := chain[i];
      Says(Folded(chain, SlotEntries).values, b.slots[k].0, Effective(b.slots[k].1, Source(b.id, b.version)))
  {
    hide Folded;
    LastNamedWins(chain, SlotEntries, SlotNames, i, k);
  }

  lemma LastBudgetWins(chain: seq<Bundle>, i: nat, k: nat)
    requires LastNamed(BudgetNames, chain, i, k)
    ensures var b := chain[i];
      Says(Folded(chain, BudgetEntries).values, b.budgets[k].0, Effective(b.budgets[k].1, Source(b.id, b.version)))
  {
    hide Folded;
    LastNamedWins(chain, BudgetEntries, BudgetNames, i, k);
  }

  lemma LastPermissionWins(chain: seq<Bundle>, i: nat, k: nat)
    requires LastNamed(PermissionNames, chain, i, k)
    ensures var b := chain[i]; Says(Folded(chain, PermissionEntries).values, b.permissions[k], Source(b.id, b.version))
  {
    hide Folded;
    LastNamedWins(chain, PermissionEntries, PermissionNames, i, k);
    assert SourceOf(chain[i]) == Source(chain[i].id, chain[i].version);
  }

  predicate Says<K, V(==)>(m: map<K, V>, key: K, value: V) { key in m && m[key] == value }

  datatype EffectiveStructure = EffectiveStructure(
    bundles: seq<Source>,
    slots: map<Slot, Effective<Ref>>,
    skills: Ordered<string, Effective<Ref>>,
    tools: Ordered<string, Effective<Ref>>,
    plugins: Ordered<string, Effective<Plugin>>,
    permissions: map<string, Source>,
    budgets: map<string, Effective<string>>)

  datatype Resolution = Resolved(structure: EffectiveStructure) | Failed(error: Error)

  const SLOTS := [Model, Prompt, ContextPolicy, MemoryView, Sandbox, EvalPolicy]

  /** Sets every entry of every bundle, in order. */
  method Merge<K(==), V>(chain: seq<Bundle>, of: Bundle -> seq<(K, V)>) returns (r: Ordered<K, V>)
    ensures r == Folded(chain, of)
  {
    hide KeyOrder, LastOf, Entries;
    var order: seq<K>, values: map<K, V> := [], map[];
    ghost var done: seq<(K, V)> := [];
    NothingMerged<K, V>(chain, of);
    for n := 0 to |chain|
      invariant done == Entries(chain[..n], of)
      invariant order == KeyOrder(done) && values == LastOf(done)
    {
      NextBundle(chain, of, n);
      var entries := of(chain[n]);
      ghost var before := done;
      for k := 0 to |entries|
        invariant done == before + entries[..k]
        invariant order == KeyOrder(done) && values == LastOf(done)
      {
        OneMore(done, entries[k]);
        values := values[entries[k].0 := entries[k].1];
        if entries[k].0 !in order {
          order := order + [entries[k].0];
        }
        assert before + entries[..k + 1] == done + [entries[k]];
        done := done + [entries[k]];
      }
      assert entries[..|entries|] == entries;
    }
    assert chain[..|chain|] == chain;
    r := Ordered(order, values);
  }

  lemma NothingMerged<K, V>(chain: seq<Bundle>, of: Bundle -> seq<(K, V)>)
    ensures Entries(chain[..0], of) == [] && KeyOrder<K, V>([]) == [] && LastOf<K, V>([]) == map[]
  {
  }

  lemma NextBundle<K, V>(chain: seq<Bundle>, of: Bundle -> seq<(K, V)>, n: nat)
    requires n < |chain|
    ensures Entries(chain[..n + 1], of) == Entries(chain[..n], of) + of(chain[n])
  {
    assert chain[..n + 1][..n] == chain[..n];
  }

  lemma OneMore<K, V>(entries: seq<(K, V)>, entry: (K, V))
    ensures LastOf(entries + [entry]) == LastOf(entries)[entry.0 := entry.1]
    ensures KeyOrder(entries + [entry]) ==
      if entry.0 in KeyOrder(entries) then KeyOrder(entries) else KeyOrder(entries) + [entry.0]
  {
    assert (entries + [entry])[..|entries|] == entries;
  }

  /**
   * Resolves a bundle: the include chain, then the fold in which later bundles win. It fails when an include
   * fails, and when some scalar slot is left open.
   */
  method ResolveEffectiveStructure(root: Bundle, load: Loader) returns (r: Resolution, chain: seq<Bundle>)
    ensures r.Failed? && !r.error.Unpinned? ==> Justified(load, root, r.error)
    ensures r.Resolved? || r.error.Unpinned? ==> IsChain(load, root, chain) && Visited(load, root, [], chain)
    ensures (r.Resolved? || r.error.Unpinned?) && root.includes != [] ==> LoadedIn(load, root.includes[0], chain)
    ensures r.Failed? && r.error.Unpinned? ==> FirstOpen(Folded(chain, SlotEntries).values, r.error.slot)
    ensures r.Resolved? ==>
      && r.structure.bundles == Sources(chain)
      && r.structure.slots == Folded(chain, SlotEntries).values
      && (forall slot: Slot :: slot in r.structure.slots)
      && r.structure.skills == Folded(chain, SkillEntries)
      && r.structure.tools == Folded(chain, ToolEntries)
      && r.structure.plugins == Folded(chain, PluginEntries)
      && r.structure.permissions == Folded(chain, PermissionEntries).values
      && r.structure.budgets == Folded(chain, BudgetEntries).values
  {
    hide ChainOk, Justified, Folded, IncludePath, Visited;
    var resolver := new Resolver(load, root);
    Starts(load, root);
    var e := resolver.Visit(root, [root]);
    chain := resolver.chain;
    if e.Some? {
      return Failed(e.value), chain;
    }
    var slots := Merge(chain, SlotEntries);
    var skills := Merge(chain, SkillEntries);
    var tools := Merge(chain, ToolEntries);
    var plugins := Merge(chain, PluginEntries);
    var permissions := Merge(chain, PermissionEntries);
    var budgets := Merge(chain, BudgetEntries);
    for k := 0 to |SLOTS|
      invariant forall j :: 0 <= j < k ==> SLOTS[j] in slots.values
    {
      if SLOTS[k] !in slots.values {
        OpenFirst(slots.values, k);
        return Failed(Unpinned(SLOTS[k])), chain;
      }
    }
    forall slot: Slot ensures slot in slots.values {
      AllSlots(slot);
    }
    r := Resolved(EffectiveStructure(
      Sources(chain), slots.values, skills, tools, plugins, permissions.values, budgets.values));
  }

  /** The first scalar slot that nothing fills. */
  predicate FirstOpen(slots: map<Slot, Effective<Ref>>, slot: Slot) {
    && slot !in slots
    && match slot
       case Model => true
       case Prompt => Model in slots
       case ContextPolicy => Model in slots && Prompt in slots
       case MemoryView => Model in slots && Prompt in slots && ContextPolicy in slots
       case Sandbox => Model in slots && Prompt in slots && ContextPolicy in slots && MemoryView in slots
       case EvalPolicy =>
         Model in slots && Prompt in slots && ContextPolicy in slots && MemoryView in slots && Sandbox in slots
  }

  lemma OpenFirst(slots: map<Slot, Effective<Ref>>, k: nat)
    requires k < |SLOTS| && SLOTS[k] !in slots && forall j :: 0 <= j < k ==> SLOTS[j] in slots
    ensures FirstOpen(slots, SLOTS[k])
  {
    assert (k > 0 ==> SLOTS[0] in slots) && (k > 1 ==> SLOTS[1] in slots) && (k > 2 ==> SLOTS[2] in slots);
    assert (k > 3 ==> SLOTS[3] in slots) && (k > 4 ==> SLOTS[4] in slots);
  }

  function Sources(chain: seq<Bundle>): (r: seq<Source>)
    ensures |r| == |chain| && forall i :: 0 <= i < |r| ==> r[i] == SourceOf(chain[i])
  {
    seq(|chain|, i requires 0 <= i < |chain| => SourceOf(chain[i]))
  }

  lemma AllSlots(slot: Slot)
    ensures exists j :: 0 <= j < |SLOTS| && SLOTS[j] == slot
  {
    match slot
    case Model => assert SLOTS[0] == slot;
    case Prompt => assert SLOTS[1] == slot;
    case ContextPolicy => assert SLOTS[2] == slot;
    case MemoryView => assert SLOTS[3] == slot;
    case Sandbox => assert SLOTS[4] == slot;
    case EvalPolicy => assert SLOTS[5] == slot;
  }

  lemma Starts(load: Loader, root: Bundle)
    ensures IncludePath(load, root, [root]) && ChainOk(load, root, []) && Keys([]) == {} && [root][..0] == []
    ensures BundleKey(root) in AllKeys(load, root)
  {
  }
}
