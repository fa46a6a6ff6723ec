/**
 * The plugin graph of the kernel package: validation, and the depth-first topological order in which a
 * generation mounts its plugins.
 */
module PluginOrder {
  import opened Options
  import opened DepthFirst

  datatype Tier = A | B | C

  datatype Plugin = Plugin(
    id: string, version: string, config: string,
    inject: seq<string>, services: seq<string>, tier: Option<Tier>)

  datatype OrderError =
    | DuplicatePlugin(id: string)
    | DuplicateProvider(service: string, first: string, second: string)
    | MissingDependency(plugin: string, service: string)
    | DependencyCycle(path: seq<string>)

  datatype Order = Ordered(plugins: seq<Plugin>) | Rejected(error: OrderError)

  /* ---------- what the graph means ---------- */

  predicate UniqueIds(specs: seq<Plugin>) {
    forall i, j :: 0 <= i < j < |specs| ==> specs[i].id != specs[j].id
  }

  /** Every service has one provider, and a provider names it once. */
  predicate UniqueProviders(specs: seq<Plugin>) {
    && (forall i, j, service :: 0 <= i < j < |specs| && service in specs[i].services ==>
          service !in specs[j].services)
    && (forall i :: 0 <= i < |specs| ==> Distinct(specs[i].services))
  }

  predicate Distinct(s: seq<string>) {
    forall i, j :: 0 <= i < j < |s| ==> s[i] != s[j]
  }

  predicate Provided(specs: seq<Plugin>, service: string) {
    exists i :: 0 <= i < |specs| && service in specs[i].services
  }

  predicate NothingMissing(specs: seq<Plugin>, bootstrap: set<string>) {
    forall i, a :: 0 <= i < |specs| && 0 <= a < |specs[i].inject| ==>
      Provided(specs, specs[i].inject[a]) || specs[i].inject[a] in bootstrap
  }

  /** `a` injects a service that `b` provides. */
  predicate DependsOn(specs: seq<Plugin>, a: string, b: string) {
    exists i, j, k :: 0 <= i < |specs| && 0 <= j < |specs| && 0 <= k < |specs[i].inject|
      && specs[i].id == a && specs[j].id == b && specs[i].inject[k] in specs[j].services
  }

  predicate IsCycle(specs: seq<Plugin>, path: seq<string>) {
    && |path| >= 2 && path[0] == path[|path| - 1]
    && forall i :: 0 <= i < |path| - 1 ==> DependsOn(specs, path[i], path[i + 1])
  }

  /** Every provider stands before the plugins that depend on it. */
  ghost predicate ProvidersFirst(specs: seq<Plugin>, ordered: seq<Plugin>) {
    forall k, d :: 0 <= k < |ordered| && DependsOn(specs, ordered[k].id, d) ==>
      exists j :: 0 <= j < k && ordered[j].id == d
  }

  function Ids(specs: seq<Plugin>): (ids: seq<string>)
    ensures |ids| == |specs| && forall i :: 0 <= i < |specs| ==> ids[i] == specs[i].id
  {
    seq(|specs|, i requires 0 <= i < |specs| => specs[i].id)
  }

  /* ---------- the depth-first search ---------- */

  predicate Closed(graph: Graph) {
    forall id, k :: id in graph && 0 <= k < |graph[id]| ==> graph[id][k] in graph
  }

  predicate GraphCycle(graph: Graph, path: seq<string>) {
    && |path| >= 2 && path[0] == path[|path| - 1]
    && forall i :: 0 <= i < |path| - 1 ==> path[i] in graph && path[i + 1] in graph[path[i]]
  }

  /** A walk along the edges that meets no node twice. */
  predicate SimpleWalk(graph: Graph, path: seq<string>) {
    && Distinct(path)
    && (forall i :: 0 <= i < |path| ==> path[i] in graph)
    && (forall i :: 0 <= i < |path| - 1 ==> path[i + 1] in graph[path[i]])
  }

  function Elements(path: seq<string>): set<string> {
    set x | x in path
  }

  /** Every node comes after everything it depends on. */
  predicate DependenciesFirst(graph: Graph, ids: seq<string>) {
    forall k :: 0 <= k < |ids| ==> ids[k] in graph && forall d :: d in graph[ids[k]] ==> d in ids[..k]
  }

  /** The finished nodes are the ordered ones, once each. */
  predicate Finished(graph: Graph, permanent: set<string>, ids: seq<string>) {
    permanent == Elements(ids) && Distinct(ids) && DependenciesFirst(graph, ids)
  }

  lemma FinishNode(graph: Graph, permanent: set<string>, ids: seq<string>, id: string)
    requires Finished(graph, permanent, ids) && id in graph && id !in permanent
    requires forall d :: d in graph[id] ==> d in permanent
    ensures Finished(graph, permanent + {id}, ids + [id])
  {
    var longer := ids + [id];
    assert forall k :: 0 <= k <= |ids| ==> longer[..k] == ids[..k];
  }

  lemma FinishedAre(graph: Graph, permanent: set<string>, ids: seq<string>)
    requires Finished(graph, permanent, ids)
    ensures forall id :: id in permanent <==> id in ids
  {
    hide DependenciesFirst;
  }

  lemma ExtendWalk(graph: Graph, path: seq<string>, id: string)
    requires SimpleWalk(graph, path) && id in graph && id !in Elements(path)
    requires path != [] ==> id in graph[path[|path| - 1]]
    ensures SimpleWalk(graph, path + [id]) && Elements(path + [id]) == Elements(path) + {id}
  {
  }

  lemma CloseCycle(graph: Graph, path: seq<string>, start: nat, id: string)
    requires SimpleWalk(graph, path) && start < |path| && path[start] == id
    requires id in graph[path[|path| - 1]]
    ensures GraphCycle(graph, path[start..] + [id])
  {
  }

  class Sorter {
    const graph: Graph
    const byId: map<string, Plugin>
    var temporary: set<string>
    var permanent: set<string>
    var ordered: seq<Plugin>

    constructor (graph: Graph, byId: map<string, Plugin>)
      requires Closed(graph) && graph.Keys == byId.Keys
      requires forall id :: id in byId ==> byId[id].id == id
      ensures Valid() && temporary == {} && this.graph == graph && this.byId == byId && ordered == []
    {
      this.graph := graph;
      this.byId := byId;
      temporary, permanent, ordered := {}, {}, [];
    }

    ghost predicate Valid()
      reads this
    {
      && Closed(graph) && graph.Keys == byId.Keys
      && (forall id :: id in byId ==> byId[id].id == id)
      && (forall p :: p in ordered ==> p.id in byId && p == byId[p.id])
      && Finished(graph, permanent, Ids(ordered))
      && permanent !! temporary
    }

    /** Finishes `id` and all it depends on, or finds a cycle through the path that led here. */
    method Visit(id: string, path: seq<string>) returns (cycle: Option<seq<string>>)
      requires Valid() && id in graph
      requires SimpleWalk(graph, path) && temporary == Elements(path)
      requires path != [] ==> id in graph[path[|path| - 1]]
      modifies this
      ensures cycle.None? ==>
        Valid() && temporary == old(temporary) && id in permanent && old(permanent) <= permanent
      ensures cycle.None? ==> Visited(graph, id, Ids(old(ordered)), Ids(ordered))
      ensures cycle.Some? ==> GraphCycle(graph, cycle.value)
      decreases graph.Keys - temporary
    {
      hide Finished, SimpleWalk, GraphCycle, Visited, VisitedAll, Growing, Elements;
      FinishedAre(graph, permanent, Ids(ordered));
      if id in permanent {
        VisitedAlready(graph, id, Ids(ordered));
        return None;
      }
      if id in temporary {
        InElements(path, id);
        var start :| 0 <= start < |path| && path[start] == id;
        CloseCycle(graph, path, start, id);
        return Some(path[start..] + [id]);
      }
      ExtendWalk(graph, path, id);
      temporary := temporary + {id};
      var edges := graph[id];
      assert forall k :: 0 <= k < |edges| ==> edges[k] in graph;
      ghost var start := Ids(ordered);
      ghost var cuts: seq<nat> := [|start|];
      StartsGrowing(graph, edges, start);
      for k := 0 to |edges|
        invariant start <= Ids(ordered) && Growing(graph, edges, cuts, |start|, Ids(ordered), k)
        invariant Valid() && temporary == old(temporary) + {id} && old(permanent) <= permanent
        invariant forall i :: 0 <= i < k ==> edges[i] in permanent
      {
        ghost var now := Ids(ordered);
        cycle := Visit(edges[k], path + [id]);
        if cycle.Some? {
          return;
        }
        VisitedGrows(graph, edges[k], now, Ids(ordered));
        GrowsOn(graph, edges, cuts, |start|, now, k, Ids(ordered));
        cuts := cuts + [|ordered|];
      }
      assert id !in permanent;
      GrewUp(graph, edges, cuts, start, Ids(ordered));
      VisitedNode(graph, id, start, Ids(ordered));
      FinishNode(graph, permanent, Ids(ordered), id);
      temporary := temporary - {id};
      permanent := permanent + {id};
      assert Ids(ordered + [byId[id]]) == Ids(ordered) + [id];
      ordered := ordered + [byId[id]];
      return None;
    }
  }

  /* ---------- validation ---------- */

  /** The registered plugins and providers of the specs read so far. */
  ghost predicate Registered(specs: seq<Plugin>, byId: map<string, Plugin>, providers: map<string, string>) {
    IdsKnown(specs, byId) && ServicesKnown(specs, providers)
  }

  ghost predicate IdsKnown(specs: seq<Plugin>, byId: map<string, Plugin>) {
    && UniqueIds(specs) && byId.Keys == Elements(Ids(specs))
    && (forall i :: 0 <= i < |specs| ==> specs[i].id in byId && byId[specs[i].id] == specs[i])
  }

  ghost predicate ServicesKnown(specs: seq<Plugin>, providers: map<string, string>) {
    && UniqueProviders(specs)
    && (forall service :: service in providers ==> Provided(specs, service))
    && (forall i, service :: 0 <= i < |specs| && service in specs[i].services ==>
          service in providers && providers[service] == specs[i].id)
  }

  /** The first `count` services of a plugin are new, and are registered on top of the providers before. */
  ghost predicate Offered(before: map<string, string>, spec: Plugin, count: nat, providers: map<string, string>)
    requires count <= |spec.services|
  {
    && Distinct(spec.services[..count])
    && providers.Keys == before.Keys + Elements(spec.services[..count])
    && (forall service :: service in spec.services[..count] ==> service !in before && providers[service] == spec.id)
    && (forall service :: service in before ==> providers[service] == before[service])
  }

  lemma RegisterPlugin(
    specs: seq<Plugin>, byId: map<string, Plugin>, before: map<string, string>, spec: Plugin,
    after: map<string, string>)
    requires Registered(specs, byId, before) && spec.id !in byId && Offered(before, spec, |spec.services|, after)
    ensures Registered(specs + [spec], byId[spec.id := spec], after)
  {
    hide IdsKnown, ServicesKnown, Offered;
    RegisterId(specs, byId, spec);
    RegisterServices(specs, before, spec, after);
  }

  lemma RegisterId(specs: seq<Plugin>, byId: map<string, Plugin>, spec: Plugin)
    requires IdsKnown(specs, byId) && spec.id !in byId
    ensures IdsKnown(specs + [spec], byId[spec.id := spec])
  {
    assert Ids(specs + [spec]) == Ids(specs) + [spec.id];
    forall i | 0 <= i < |specs| ensures specs[i].id != spec.id {
      assert specs[i].id in byId;
    }
  }

  lemma RegisterServices(
    specs: seq<Plugin>, before: map<string, string>, spec: Plugin, after: map<string, string>)
    requires ServicesKnown(specs, before) && Offered(before, spec, |spec.services|, after)
    ensures ServicesKnown(specs + [spec], after)
  {
    var more := specs + [spec];
    assert spec.services[..|spec.services|] == spec.services;
    ProvidersStayUnique(specs, before, spec);
    hide UniqueProviders, Provided, Distinct;
    forall service | service in after ensures Provided(more, service) {
      MoreProvided(specs, spec, service);
    }
    forall i, service | 0 <= i <= |specs| && service in more[i].services
      ensures service in after && after[service] == more[i].id
    {
      if i < |specs| {
        assert service in before && before[service] == specs[i].id;
      }
    }
  }

  lemma MoreProvided(specs: seq<Plugin>, spec: Plugin, service: string)
    ensures Provided(specs + [spec], service) <==> Provided(specs, service) || service in spec.services
  {
    var more := specs + [spec];
    if Provided(specs, service) {
      var i :| 0 <= i < |specs| && service in specs[i].services;
      assert service in more[i].services;
    }
    assert more[|specs|] == spec;
  }

  lemma ProvidersStayUnique(specs: seq<Plugin>, before: map<string, string>, spec: Plugin)
    requires ServicesKnown(specs, before) && Distinct(spec.services)
    requires forall service :: service in spec.services ==> service !in before
    ensures UniqueProviders(specs + [spec])
  {
    forall i, service | 0 <= i < |specs| && service in specs[i].services ensures service !in spec.services {
      assert service in before;
    }
  }

  /** Two offers of one service, the second after the first. */
  predicate OfferedTwice(specs: seq<Plugin>, service: string, first: string, second: string) {
    exists i, j, a, b ::
      && 0 <= i <= j < |specs| && 0 <= a < |specs[i].services| && 0 <= b < |specs[j].services|
      && (i == j ==> a < b)
      && specs[i].services[a] == specs[j].services[b] == service
      && specs[i].id == first && specs[j].id == second
  }

  predicate AppearsTwice(specs: seq<Plugin>, id: string) {
    exists i, j :: 0 <= i < j < |specs| && specs[i].id == specs[j].id == id
  }

  /** The inner loop: the services of one plugin, up to the first that already has a provider. */
  method Offer(spec: Plugin, before: map<string, string>)
    returns (providers: map<string, string>, repeated: Option<nat>)
    ensures repeated.None? ==> Offered(before, spec, |spec.services|, providers)
    ensures repeated.Some? ==>
      && repeated.value < |spec.services| && spec.services[repeated.value] in providers
      && Offered(before, spec, repeated.value, providers)
  {
    providers := before;
    assert spec.services[..0] == [];
    for a := 0 to |spec.services|
      invariant Offered(before, spec, a, providers)
    {
      var service := spec.services[a];
      if service in providers {
        return providers, Some(a);
      }
      assert spec.services[..a + 1] == spec.services[..a] + [service];
      providers := providers[service := spec.id];
    }
    return providers, None;
  }

  method Register(specs: seq<Plugin>)
    returns (byId: map<string, Plugin>, providers: map<string, string>, error: Option<OrderError>)
    ensures error.None? ==> Registered(specs, byId, providers)
    ensures error.Some? ==>
      (error.value.DuplicatePlugin? && AppearsTwice(specs, error.value.id)) ||
      (error.value.DuplicateProvider? &&
       OfferedTwice(specs, error.value.service, error.value.first, error.value.second))
  {
    hide Registered, OfferedTwice;
    byId, providers := map[], map[];
    NothingRegistered();
    assert specs[..0] == [];
    for n := 0 to |specs|
      invariant Registered(specs[..n], byId, providers)
    {
      var spec := specs[n];
      var before := providers;
      if spec.id in byId {
        RegisteredTwice(specs, n, byId, providers);
        return byId, providers, Some(DuplicatePlugin(spec.id));
      }
      var repeated: Option<nat>;
      providers, repeated := Offer(spec, before);
      if repeated.Some? {
        var service := spec.services[repeated.value];
        ProviderExists(specs, n, byId, before, repeated.value, providers);
        return byId, providers, Some(DuplicateProvider(service, providers[service], spec.id));
      }
      RegisterPlugin(specs[..n], byId, before, spec, providers);
      assert specs[..n + 1] == specs[..n] + [spec];
      byId := byId[spec.id := spec];
    }
    assert specs[..|specs|] == specs;
    return byId, providers, None;
  }

  lemma NothingRegistered()
    ensures Registered([], map[], map[])
  {
  }

  lemma RegisteredTwice(specs: seq<Plugin>, n: nat, byId: map<string, Plugin>, providers: map<string, string>)
    requires n < |specs| && Registered(specs[..n], byId, providers) && specs[n].id in byId
    ensures AppearsTwice(specs, specs[n].id)
  {
    var i :| 0 <= i < n && Ids(specs[..n])[i] == specs[n].id;
    assert specs[i].id == specs[n].id;
  }

  lemma ProviderExists(
    specs: seq<Plugin>, n: nat, byId: map<string, Plugin>, before: map<string, string>, a: nat,
    providers: map<string, string>)
    requires n < |specs| && Registered(specs[..n], byId, before) && a < |specs[n].services|
    requires Offered(before, specs[n], a, providers) && specs[n].services[a] in providers
    ensures OfferedTwice(specs, specs[n].services[a], providers[specs[n].services[a]], specs[n].id)
  {
    var service := specs[n].services[a];
    if service in specs[n].services[..a] {
      var b :| 0 <= b < a && specs[n].services[b] == service;
    } else {
      var i :| 0 <= i < n && service in specs[..n][i].services;
      var b :| 0 <= b < |specs[i].services| && specs[i].services[b] == service;
      assert specs[..n][i] == specs[i];
    }
  }

  function EdgesOf(spec: Plugin, providers: map<string, string>): set<string> {
    set service | service in spec.inject && service in providers :: providers[service]
  }

  /** The providers of some services, in the order of the services, each once. */
  function EdgeList(inject: seq<string>, providers: map<string, string>): seq<string> {
    if inject == [] then []
    else
      var before, service := EdgeList(inject[..|inject| - 1], providers), inject[|inject| - 1];
      if service in providers && providers[service] !in before then before + [providers[service]] else before
  }

  /** The service is the first one of its provider. */
  predicate FirstOf(inject: seq<string>, providers: map<string, string>, i: nat) {
    && i < |inject| && inject[i] in providers
    && forall j :: 0 <= j < i && inject[j] in providers ==> providers[inject[j]] != providers[inject[i]]
  }

  lemma {:induction false} EdgesAreProviders(inject: seq<string>, providers: map<string, string>)
    ensures forall i :: 0 <= i < |inject| && inject[i] in providers ==>
      providers[inject[i]] in EdgeList(inject, providers)
    ensures forall b :: b in EdgeList(inject, providers) ==>
      exists i :: 0 <= i < |inject| && inject[i] in providers && providers[inject[i]] == b
    ensures Distinct(EdgeList(inject, providers))
  {
    if inject != [] {
      var front := inject[..|inject| - 1];
      EdgesAreProviders(front, providers);
      forall b | b in EdgeList(front, providers)
        ensures exists i :: 0 <= i < |inject| && inject[i] in providers && providers[inject[i]] == b
      {
        var i :| 0 <= i < |front| && front[i] in providers && providers[front[i]] == b;
        assert inject[i] == front[i];
      }
    }
  }

  predicate Before(s: seq<string>, a: string, b: string) {
    exists p, q :: 0 <= p < q < |s| && s[p] == a && s[q] == b
  }

  /** Providers come in the order in which they are first needed. */
  lemma {:induction false} EdgesInOrder(inject: seq<string>, providers: map<string, string>, i: nat, j: nat)
    requires i < j && FirstOf(inject, providers, i) && FirstOf(inject, providers, j)
    ensures Before(EdgeList(inject, providers), providers[inject[i]], providers[inject[j]])
  {
    var front, edges := inject[..|inject| - 1], EdgeList(inject, providers);
    EdgesAreProviders(front, providers);
    assert forall k :: 0 <= k < |front| ==> front[k] == inject[k];
    var before, a, b := EdgeList(front, providers), providers[inject[i]], providers[inject[j]];
    assert before <= edges;
    if j < |front| {
      assert FirstOf(front, providers, i) && FirstOf(front, providers, j);
      EdgesInOrder(front, providers, i, j);
      var p, q :| 0 <= p < q < |before| && before[p] == a && before[q] == b;
      assert edges[p] == a && edges[q] == b;
    } else {
      assert b !in before;
      assert front[i] in providers && a in before;
      var p :| 0 <= p < |before| && before[p] == a;
      assert edges == before + [b] && edges[p] == a && edges[|before|] == b;
    }
  }

  predicate Injectable(spec: Plugin, providers: map<string, string>, bootstrap: set<string>) {
    forall service :: service in spec.inject ==> service in providers || service in bootstrap
  }

  /** The edges of one plugin, in the order it injects, or the first service that nobody provides. */
  method ConnectOne(spec: Plugin, bootstrap: set<string>, providers: map<string, string>)
    returns (edges: seq<string>, missing: Option<string>)
    ensures missing.None? ==> Elements(edges) == EdgesOf(spec, providers) && Injectable(spec, providers, bootstrap)
    ensures missing.None? ==> edges == EdgeList(spec.inject, providers)
    ensures missing.Some? ==>
      missing.value in spec.inject && missing.value !in providers && missing.value !in bootstrap
  {
    hide EdgesOf, Elements;
    edges := [];
    for k := 0 to |spec.inject|
      invariant forall j :: 0 <= j < k ==> spec.inject[j] in providers || spec.inject[j] in bootstrap
      invariant edges == EdgeList(spec.inject[..k], providers)
    {
      assert spec.inject[..k + 1][..k] == spec.inject[..k];
      var service := spec.inject[k];
      if service in providers {
        var provider := providers[service];
        if provider !in edges {
          edges := edges + [provider];
        }
      } else if service !in bootstrap {
        return edges, Some(service);
      }
    }
    assert spec.inject[..|spec.inject|] == spec.inject;
    EdgesAreAll(spec, providers);
    return edges, None;
  }

  lemma EdgesAreAll(spec: Plugin, providers: map<string, string>)
    ensures Elements(EdgeList(spec.inject, providers)) == EdgesOf(spec, providers)
  {
    EdgesAreProviders(spec.inject, providers);
    hide EdgeList;
    var edges := EdgeList(spec.inject, providers);
    forall b ensures b in Elements(edges) <==> b in EdgesOf(spec, providers) {
      if b in EdgesOf(spec, providers) {
        var service :| service in spec.inject && service in providers && providers[service] == b;
        var k :| 0 <= k < |spec.inject| && spec.inject[k] == service;
      }
    }
  }

  method Connect(specs: seq<Plugin>, bootstrap: set<string>, byId: map<string, Plugin>, providers: map<string, string>)
    returns (graph: Graph, error: Option<OrderError>)
    requires Registered(specs, byId, providers)
    ensures error.None? ==>
      && NothingMissing(specs, bootstrap) && Closed(graph) && graph.Keys == byId.Keys
      && (forall a, b :: a in graph ==> (b in graph[a] <==> DependsOn(specs, a, b)))
      && EdgesGiven(specs, providers, graph)
    ensures error.Some? ==>
      && error.value.MissingDependency?
      && !Provided(specs, error.value.service) && error.value.service !in bootstrap
      && exists i :: 0 <= i < |specs| && specs[i].id == error.value.plugin && error.value.service in specs[i].inject
  {
    hide Registered, NothingMissing, DependsOn, Provided, EdgesOf, Injectable, ConnectedUpTo, Closed, EdgesGiven;
    graph := map[];
    NoneConnected(specs, bootstrap, providers);
    for n := 0 to |specs|
      invariant ConnectedUpTo(specs, n, bootstrap, providers, graph)
    {
      var edges, missing := ConnectOne(specs[n], bootstrap, providers);
      if missing.Some? {
        NoProvider(specs, byId, providers, missing.value);
        return graph, Some(MissingDependency(specs[n].id, missing.value));
      }
      ConnectNext(specs, n, bootstrap, byId, providers, graph, edges);
      graph := graph[specs[n].id := edges];
    }
    AllConnected(specs, bootstrap, byId, providers, graph);
    ConnectedMeans(specs, bootstrap, byId, providers, graph);
    return graph, None;
  }

  /** The first `n` plugins have their edges. */
  ghost predicate ConnectedUpTo(
    specs: seq<Plugin>, n: nat, bootstrap: set<string>, providers: map<string, string>, graph: Graph)
  {
    && n <= |specs| && graph.Keys == Elements(Ids(specs[..n]))
    && forall i :: 0 <= i < n ==>
         && Injectable(specs[i], providers, bootstrap) && specs[i].id in graph
         && Elements(graph[specs[i].id]) == EdgesOf(specs[i], providers)
         && graph[specs[i].id] == EdgeList(specs[i].inject, providers)
  }

  /** Every plugin leads to the providers of what it injects, in that order. */
  ghost predicate EdgesGiven(specs: seq<Plugin>, providers: map<string, string>, graph: Graph) {
    forall i :: 0 <= i < |specs| ==>
      specs[i].id in graph && graph[specs[i].id] == EdgeList(specs[i].inject, providers)
  }

  lemma NoneConnected(specs: seq<Plugin>, bootstrap: set<string>, providers: map<string, string>)
    ensures ConnectedUpTo(specs, 0, bootstrap, providers, map[])
  {
  }

  lemma ConnectNext(
    specs: seq<Plugin>, n: nat, bootstrap: set<string>, byId: map<string, Plugin>, providers: map<string, string>,
    graph: Graph, edges: seq<string>)
    requires n < |specs| && ConnectedUpTo(specs, n, bootstrap, providers, graph) && Registered(specs, byId, providers)
    requires Injectable(specs[n], providers, bootstrap) && Elements(edges) == EdgesOf(specs[n], providers)
    requires edges == EdgeList(specs[n].inject, providers)
    ensures ConnectedUpTo(specs, n + 1, bootstrap, providers, graph[specs[n].id := edges])
  {
    hide Injectable, EdgesOf, EdgeList, Registered, Elements, Ids;
    OneMoreId(specs, n);
    OtherIds(specs, byId, providers, n);
  }

  lemma OneMoreId(specs: seq<Plugin>, n: nat)
    requires n < |specs|
    ensures Elements(Ids(specs[..n + 1])) == Elements(Ids(specs[..n])) + {specs[n].id}
  {
    assert Ids(specs[..n + 1]) == Ids(specs[..n]) + [specs[n].id];
  }

  lemma OtherIds(specs: seq<Plugin>, byId: map<string, Plugin>, providers: map<string, string>, n: nat)
    requires Registered(specs, byId, providers) && n < |specs|
    ensures forall i :: 0 <= i < |specs| && i != n ==> specs[i].id != specs[n].id
  {
    hide ServicesKnown, Elements, Ids;
  }

  lemma AllConnected(
    specs: seq<Plugin>, bootstrap: set<string>, byId: map<string, Plugin>, providers: map<string, string>, graph: Graph)
    requires ConnectedUpTo(specs, |specs|, bootstrap, providers, graph) && Registered(specs, byId, providers)
    ensures graph.Keys == byId.Keys
    ensures forall i :: 0 <= i < |specs| ==> Injectable(specs[i], providers, bootstrap)
    ensures forall i :: 0 <= i < |specs| ==> Elements(graph[specs[i].id]) == EdgesOf(specs[i], providers)
    ensures EdgesGiven(specs, providers, graph)
  {
    hide Injectable, EdgesOf, EdgeList, ServicesKnown;
    assert specs[..|specs|] == specs;
  }

  lemma ConnectedMeans(
    specs: seq<Plugin>, bootstrap: set<string>, byId: map<string, Plugin>, providers: map<string, string>, graph: Graph)
    requires Registered(specs, byId, providers) && graph.Keys == byId.Keys
    requires forall i :: 0 <= i < |specs| ==> Injectable(specs[i], providers, bootstrap)
    requires forall i :: 0 <= i < |specs| ==> Elements(graph[specs[i].id]) == EdgesOf(specs[i], providers)
    ensures NothingMissing(specs, bootstrap) && Closed(graph)
    ensures forall a, b :: a in graph ==> (b in graph[a] <==> DependsOn(specs, a, b))
  {
    hide Registered, DependsOn, EdgesOf, Injectable, NothingMissing, Elements;
    forall a, b | a in graph ensures (b in graph[a] <==> DependsOn(specs, a, b)) && (b in graph[a] ==> b in graph) {
      var i := KnownId(specs, byId, providers, a);
      InElements(graph[a], b);
      EdgeMeans(specs, byId, providers, i, b);
    }
    NothingIsMissing(specs, bootstrap, byId, providers);
  }

  lemma KnownId(specs: seq<Plugin>, byId: map<string, Plugin>, providers: map<string, string>, id: string)
    returns (i: nat)
    requires Registered(specs, byId, providers) && id in byId
    ensures i < |specs| && specs[i].id == id
  {
    hide ServicesKnown;
    assert id in Elements(Ids(specs));
    i :| 0 <= i < |specs| && Ids(specs)[i] == id;
  }

  lemma InElements(path: seq<string>, x: string)
    ensures x in path <==> x in Elements(path)
  {
  }

  lemma EdgeMeans(specs: seq<Plugin>, byId: map<string, Plugin>, providers: map<string, string>, i: nat, b: string)
    requires Registered(specs, byId, providers) && i < |specs|
    ensures b in EdgesOf(specs[i], providers) <==> DependsOn(specs, specs[i].id, b)
    ensures b in EdgesOf(specs[i], providers) ==> b in byId
  {
    hide Registered, EdgesOf, DependsOn;
    if b in EdgesOf(specs[i], providers) {
      EdgeIsDependency(specs, byId, providers, i, b);
    }
    if DependsOn(specs, specs[i].id, b) {
      DependencyIsEdge(specs, byId, providers, i, b);
    }
  }

  lemma DependencyIsEdge(
    specs: seq<Plugin>, byId: map<string, Plugin>, providers: map<string, string>, i: nat, b: string)
    requires Registered(specs, byId, providers) && i < |specs| && DependsOn(specs, specs[i].id, b)
    ensures b in EdgesOf(specs[i], providers)
  {
    hide Registered, Elements, Ids;
    OtherIds(specs, byId, providers, i);
    var i', j, k :| 0 <= i' < |specs| && 0 <= j < |specs| && 0 <= k < |specs[i'].inject|
      && specs[i'].id == specs[i].id && specs[j].id == b && specs[i'].inject[k] in specs[j].services;
    assert i' == i;
    assert specs[i].inject[k] in specs[i].inject;
    ProviderIsKnown(specs, byId, providers, j, specs[i].inject[k]);
  }

  lemma ProviderIsKnown(
    specs: seq<Plugin>, byId: map<string, Plugin>, providers: map<string, string>, j: nat, service: string)
    requires Registered(specs, byId, providers) && j < |specs| && service in specs[j].services
    ensures service in providers && providers[service] == specs[j].id
  {
    hide IdsKnown, UniqueProviders, Provided;
  }

  lemma EdgeIsDependency(
    specs: seq<Plugin>, byId: map<string, Plugin>, providers: map<string, string>, i: nat, b: string)
    requires Registered(specs, byId, providers) && i < |specs| && b in EdgesOf(specs[i], providers)
    ensures DependsOn(specs, specs[i].id, b) && b in byId
  {
    hide UniqueProviders;
    var service :| service in specs[i].inject && service in providers && providers[service] == b;
    var k :| 0 <= k < |specs[i].inject| && specs[i].inject[k] == service;
    assert Provided(specs, service);
    var j :| 0 <= j < |specs| && service in specs[j].services;
    assert specs[j].id == b;
  }

  lemma NothingIsMissing(
    specs: seq<Plugin>, bootstrap: set<string>, byId: map<string, Plugin>, providers: map<string, string>)
    requires Registered(specs, byId, providers)
    requires forall i :: 0 <= i < |specs| ==> Injectable(specs[i], providers, bootstrap)
    ensures NothingMissing(specs, bootstrap)
  {
  }

  lemma NoProvider(specs: seq<Plugin>, byId: map<string, Plugin>, providers: map<string, string>, service: string)
    requires Registered(specs, byId, providers) && service !in providers
    ensures !Provided(specs, service)
  {
  }

  /* ---------- the whole of it ---------- */

  ghost predicate Acyclic(specs: seq<Plugin>) {
    forall path :: !IsCycle(specs, path)
  }

  predicate WellFormed(specs: seq<Plugin>, bootstrap: set<string>) {
    UniqueIds(specs) && UniqueProviders(specs) && NothingMissing(specs, bootstrap)
  }

  /** The order of a depth-first search: plugin by plugin as given, each after the providers of what it injects. */
  ghost predicate InSearchOrder(specs: seq<Plugin>, ordered: seq<Plugin>) {
    exists providers, graph ::
      && ServicesKnown(specs, providers) && EdgesGiven(specs, providers, graph)
      && VisitedAll(graph, Ids(specs), [], Ids(ordered))
  }

  lemma KnowsServices(specs: seq<Plugin>, byId: map<string, Plugin>, providers: map<string, string>)
    requires Registered(specs, byId, providers)
    ensures ServicesKnown(specs, providers)
  {
  }

  /**
   * With unique ids and providers and no missing service, the plugins are ordered, all of them once and
   * every provider before its dependents, exactly when no cycle exists; otherwise a real cycle is reported.
   */
  method ValidateAndOrder(specs: seq<Plugin>, bootstrap: set<string>) returns (r: Order)
    ensures r.Ordered? <==> WellFormed(specs, bootstrap) && Acyclic(specs)
    ensures r.Ordered? ==>
      multiset(r.plugins) == multiset(specs) && UniqueIds(r.plugins) && ProvidersFirst(specs, r.plugins)
    ensures r.Ordered? ==> InSearchOrder(specs, r.plugins)
    ensures r.Rejected? ==>
      match r.error
      case DuplicatePlugin(id) => AppearsTwice(specs, id)
      case DuplicateProvider(service, first, second) => OfferedTwice(specs, service, first, second)
      case MissingDependency(plugin, service) =>
        UniqueIds(specs) && UniqueProviders(specs) && !Provided(specs, service) && service !in bootstrap
        && exists i :: 0 <= i < |specs| && specs[i].id == plugin && service in specs[i].inject
      case DependencyCycle(path) => WellFormed(specs, bootstrap) && IsCycle(specs, path)
  {
    hide UniqueIds, UniqueProviders, NothingMissing, Provided, DependsOn, IsCycle, ProvidersFirst, AppearsTwice,
      OfferedTwice, GraphCycle, Finished, Closed, Visited, VisitedAll, Growing,
      EdgesGiven;
    var byId, providers, invalid := Register(specs);
    if invalid.Some? {
      RejectionMeans(specs, invalid.value);
      return Rejected(invalid.value);
    }
    var graph, missing := Connect(specs, bootstrap, byId, providers);
    if missing.Some? {
      MissingMeans(specs, bootstrap, missing.value.plugin, missing.value.service);
      return Rejected(missing.value);
    }
    var sorter := new Sorter(graph, byId);
    ghost var cuts: seq<nat> := [0];
    StartsGrowing(graph, Ids(specs), []);
    for n := 0 to |specs|
      invariant Growing(graph, Ids(specs), cuts, 0, Ids(sorter.ordered), n)
      invariant sorter.Valid() && sorter.temporary == {} && fresh(sorter)
      invariant forall i :: 0 <= i < n ==> specs[i].id in sorter.permanent
    {
      ghost var now := Ids(sorter.ordered);
      var cycle := sorter.Visit(specs[n].id, []);
      if cycle.Some? {
        CycleMeans(specs, graph, cycle.value);
        return Rejected(DependencyCycle(cycle.value));
      }
      VisitedGrows(graph, specs[n].id, now, Ids(sorter.ordered));
      GrowsOn(graph, Ids(specs), cuts, 0, now, n, Ids(sorter.ordered));
      cuts := cuts + [|sorter.ordered|];
    }
    GrewUp(graph, Ids(specs), cuts, [], Ids(sorter.ordered));
    assert InSearchOrder(specs, sorter.ordered) by { KnowsServices(specs, byId, providers); }
    OrderMeans(specs, graph, byId, sorter.permanent, sorter.ordered);
    return Ordered(sorter.ordered);
  }

  lemma MissingMeans(specs: seq<Plugin>, bootstrap: set<string>, id: string, service: string)
    requires exists i :: 0 <= i < |specs| && specs[i].id == id && service in specs[i].inject
    requires !Provided(specs, service) && service !in bootstrap
    ensures !NothingMissing(specs, bootstrap)
  {
    hide Provided;
    var i :| 0 <= i < |specs| && specs[i].id == id && service in specs[i].inject;
    var a :| 0 <= a < |specs[i].inject| && specs[i].inject[a] == service;
  }

  lemma RejectionMeans(specs: seq<Plugin>, error: OrderError)
    requires
      (error.DuplicatePlugin? && AppearsTwice(specs, error.id)) ||
      (error.DuplicateProvider? && OfferedTwice(specs, error.service, error.first, error.second))
    ensures !(UniqueIds(specs) && UniqueProviders(specs))
  {
    if error.DuplicateProvider? {
      var i, j, a, b :|
        && 0 <= i <= j < |specs| && 0 <= a < |specs[i].services| && 0 <= b < |specs[j].services|
        && (i == j ==> a < b)
        && specs[i].services[a] == specs[j].services[b] == error.service;
      assert specs[i].services[a] in specs[i].services && specs[j].services[b] in specs[j].services;
    }
  }

  lemma CycleMeans(specs: seq<Plugin>, graph: Graph, path: seq<string>)
    requires forall a, b :: a in graph ==> (b in graph[a] <==> DependsOn(specs, a, b))
    requires GraphCycle(graph, path)
    ensures IsCycle(specs, path)
  {
  }

  lemma OrderMeans(
    specs: seq<Plugin>, graph: Graph, byId: map<string, Plugin>, permanent: set<string>, ordered: seq<Plugin>)
    requires UniqueIds(specs) && byId.Keys == graph.Keys == Elements(Ids(specs))
    requires forall i :: 0 <= i < |specs| ==> specs[i].id in byId && byId[specs[i].id] == specs[i]
    requires forall a, b :: a in graph ==> (b in graph[a] <==> DependsOn(specs, a, b))
    requires Finished(graph, permanent, Ids(ordered)) && forall p :: p in ordered ==> p.id in byId && p == byId[p.id]
    requires forall i :: 0 <= i < |specs| ==> specs[i].id in permanent
    ensures multiset(ordered) == multiset(specs) && UniqueIds(ordered) && ProvidersFirst(specs, ordered)
    ensures Acyclic(specs)
  {
    hide DependsOn, Finished, Elements, IsCycle;
    FinishedIsProvidersFirst(specs, graph, permanent, ordered);
    FinishedIsDistinct(graph, permanent, ordered);
    AllFinished(specs, graph, permanent, ordered);
    hide ProvidersFirst;
    SamePlugins(specs, byId, ordered);
    forall path ensures !IsCycle(specs, path) {
      NoCycle(specs, ordered, path);
    }
  }

  lemma FinishedIsProvidersFirst(specs: seq<Plugin>, graph: Graph, permanent: set<string>, ordered: seq<Plugin>)
    requires forall a, b :: a in graph ==> (b in graph[a] <==> DependsOn(specs, a, b))
    requires Finished(graph, permanent, Ids(ordered))
    ensures ProvidersFirst(specs, ordered)
  {
    hide DependsOn;
    var ids := Ids(ordered);
    forall k, d | 0 <= k < |ordered| && DependsOn(specs, ordered[k].id, d)
      ensures exists j :: 0 <= j < k && ordered[j].id == d
    {
      assert ids[k] in graph && d in graph[ids[k]] && d in ids[..k];
      var j :| 0 <= j < k && ids[..k][j] == d;
      assert ordered[j].id == d;
    }
  }

  lemma FinishedIsDistinct(graph: Graph, permanent: set<string>, ordered: seq<Plugin>)
    requires Finished(graph, permanent, Ids(ordered))
    ensures UniqueIds(ordered) && Distinct(Ids(ordered))
  {
    hide DependenciesFirst;
    forall i, j | 0 <= i < j < |ordered| ensures ordered[i].id != ordered[j].id {
      assert Ids(ordered)[i] != Ids(ordered)[j];
    }
  }

  lemma AllFinished(specs: seq<Plugin>, graph: Graph, permanent: set<string>, ordered: seq<Plugin>)
    requires Finished(graph, permanent, Ids(ordered))
    requires forall i :: 0 <= i < |specs| ==> specs[i].id in permanent
    ensures forall i :: 0 <= i < |specs| ==> specs[i].id in Elements(Ids(ordered))
  {
    hide DependenciesFirst;
  }

  lemma SamePlugins(specs: seq<Plugin>, byId: map<string, Plugin>, ordered: seq<Plugin>)
    requires UniqueIds(specs) && byId.Keys == Elements(Ids(specs))
    requires forall i :: 0 <= i < |specs| ==> specs[i].id in byId && byId[specs[i].id] == specs[i]
    requires Distinct(Ids(ordered)) && forall p :: p in ordered ==> p.id in byId && p == byId[p.id]
    requires forall i :: 0 <= i < |specs| ==> specs[i].id in Elements(Ids(ordered))
    ensures multiset(ordered) == multiset(specs)
  {
    forall i, j | 0 <= i < j < |ordered| ensures ordered[i] != ordered[j] {
      assert Ids(ordered)[i] != Ids(ordered)[j];
    }
    forall p ensures p in ordered <==> p in specs {
      OnBothSides(specs, byId, ordered, p);
    }
    hide Elements, Ids, Distinct;
    OnceEach(ordered);
    OnceEach(specs);
    forall p ensures multiset(ordered)[p] == multiset(specs)[p] {
      assert p in multiset(ordered) <==> p in multiset(specs);
    }
  }

  lemma OnBothSides(specs: seq<Plugin>, byId: map<string, Plugin>, ordered: seq<Plugin>, p: Plugin)
    requires byId.Keys == Elements(Ids(specs))
    requires forall i :: 0 <= i < |specs| ==> specs[i].id in byId && byId[specs[i].id] == specs[i]
    requires forall q :: q in ordered ==> q.id in byId && q == byId[q.id]
    requires forall i :: 0 <= i < |specs| ==> specs[i].id in Elements(Ids(ordered))
    ensures p in ordered <==> p in specs
  {
    if p in ordered {
      var i :| 0 <= i < |specs| && Ids(specs)[i] == p.id;
      assert byId[specs[i].id] == specs[i] == p;
    }
    if p in specs {
      var i :| 0 <= i < |ordered| && Ids(ordered)[i] == p.id;
      assert ordered[i] in ordered && ordered[i] == byId[p.id] == p;
    }
  }

  lemma OnceEach(plugins: seq<Plugin>)
    requires forall i, j :: 0 <= i < j < |plugins| ==> plugins[i] != plugins[j]
    ensures forall p :: multiset(plugins)[p] == if p in plugins then 1 else 0
  {
    if plugins != [] {
      var front, last := plugins[..|plugins| - 1], plugins[|plugins| - 1];
      assert plugins == front + [last];
      OnceEach(front);
    }
  }

  /** Along a walk of dependencies in an ordered graph, positions only go down, so it never comes back. */
  lemma {:induction false} NoCycle(specs: seq<Plugin>, ordered: seq<Plugin>, path: seq<string>)
    requires ProvidersFirst(specs, ordered) && Distinct(Ids(ordered))
    requires forall i :: 0 <= i < |specs| ==> specs[i].id in Elements(Ids(ordered))
    ensures !IsCycle(specs, path)
  {
    if IsCycle(specs, path) {
      assert DependsOn(specs, path[0], path[1]);
      var i :| 0 <= i < |specs| && specs[i].id == path[0];
      assert path[0] in Ids(ordered);
      var k :| 0 <= k < |ordered| && Ids(ordered)[k] == path[0];
      Descend(specs, ordered, path, k, |path| - 1);
    }
  }

  lemma {:induction false} Descend(specs: seq<Plugin>, ordered: seq<Plugin>, path: seq<string>, k: nat, n: nat)
    requires ProvidersFirst(specs, ordered) && n < |path| && k < |ordered| && ordered[k].id == path[0]
    requires forall i :: 0 <= i < |path| - 1 ==> DependsOn(specs, path[i], path[i + 1])
    ensures exists j :: 0 <= j <= k - n && ordered[j].id == path[n]
  {
    hide DependsOn;
    if n > 0 {
      Descend(specs, ordered, path, k, n - 1);
      var j :| 0 <= j <= k - (n - 1) && ordered[j].id == path[n - 1];
      assert DependsOn(specs, path[n - 1], path[n - 1 + 1]);
      assert DependsOn(specs, ordered[j].id, path[n]);
    }
  }
}
