/**
 * A model request, the manifest and sources recorded for it, and its rebuild. A canonical JSON text is
 * represented by the value it denotes, and a digest by what it digests.
 */
module ModelRequest {
  import opened Options

  datatype Json =
    Null | Bool(b: bool) | Num(n: int) | Str(s: string) | Arr(items: seq<Json>) | Obj(fields: map<string, Json>)

  datatype Bundle = Bundle(messages: seq<Json>, tools: seq<Json>, decision: Option<Json>)

  datatype Kind = Instruction | Goal | World | Trajectory | Memory | Skill | ToolKind

  datatype Renderer = MessageJson | ToolJson | DecisionJson | Unregistered(version: string)

  /** A section before its digest is computed. */
  datatype Draft = Draft(kind: Kind, sourceIds: seq<string>, renderer: Renderer, priority: nat, content: Json)

  /** What a section digest covers. */
  datatype SectionDigest = SectionDigest(kind: Kind, sourceIds: seq<string>, renderer: Renderer, content: Json)

  datatype Section = Section(
    kind: Kind, sourceIds: seq<string>, renderer: Renderer, priority: nat, digest: SectionDigest)

  type Sources = map<string, Json>

  datatype Event =
    | ManifestRecorded(sections: seq<Section>)
    | Requested(inputDigest: Bundle, sources: Sources)
    | Finished

  datatype Error =
    Incomplete | NoRenderer | NotOneSource | SourceMissing(id: string) | SectionDrift(section: Section) | BundleDrift

  datatype Result<T> = Ok(value: T) | Err(error: Error)

  /* ---------- source ids ---------- */

  function Digit(d: nat): char
    requires d < 10
  {
    ('0' as int + d) as char
  }

  function Decimal(n: nat): string {
    if n < 10 then [Digit(n)] else Decimal(n / 10) + [Digit(n % 10)]
  }

  function ValueOf(s: string): int {
    if s == [] then 0 else ValueOf(s[..|s| - 1]) * 10 + (s[|s| - 1] as int - '0' as int)
  }

  lemma {:induction false} DecimalReads(n: nat)
    ensures ValueOf(Decimal(n)) == n
  {
    if n < 10 {
      assert [Digit(n)][..0] == [];
      assert ValueOf([]) == 0;
    } else {
      DecimalReads(n / 10);
      assert Decimal(n)[..|Decimal(n)| - 1] == Decimal(n / 10);
    }
  }

  function MessageId(i: nat): string { "message:" + Decimal(i) }

  function ToolId(i: nat): string { "tool:" + Decimal(i) }

  const DECISION_ID := "decision:0"

  lemma IdsDiffer(i: nat, j: nat)
    ensures MessageId(i) == MessageId(j) <==> i == j
    ensures ToolId(i) == ToolId(j) <==> i == j
    ensures MessageId(i) != ToolId(j) && MessageId(i) != DECISION_ID && ToolId(i) != DECISION_ID
  {
    DecimalReads(i);
    DecimalReads(j);
    assert MessageId(i)[8..] == Decimal(i) && MessageId(j)[8..] == Decimal(j);
    assert ToolId(i)[5..] == Decimal(i) && ToolId(j)[5..] == Decimal(j);
    assert MessageId(i)[0] == 'm' && ToolId(i)[0] == 't' && ToolId(j)[0] == 't' && DECISION_ID[0] == 'd';
  }

  /* ---------- describing a bundle ---------- */

  predicate IsSystem(message: Json) {
    message.Obj? && "role" in message.fields && message.fields["role"] == Str("system")
  }

  function Size(b: Bundle): nat { |b.messages| + |b.tools| + if b.decision.Some? then 1 else 0 }

  /** The section of a bundle at a position: its messages, then its tools, then the decision schema. */
  function DraftAt(b: Bundle, p: nat): Draft
    requires p < Size(b)
  {
    if p < |b.messages| then
      Draft(if IsSystem(b.messages[p]) then Instruction else Trajectory, [MessageId(p)], MessageJson, p, b.messages[p])
    else if p < |b.messages| + |b.tools| then
      Draft(ToolKind, [ToolId(p - |b.messages|)], ToolJson, p, b.tools[p - |b.messages|])
    else Draft(Goal, [DECISION_ID], DecisionJson, p, b.decision.value)
  }

  function Drafts(b: Bundle): (r: seq<Draft>)
    ensures |r| == Size(b) && forall p :: 0 <= p < |r| ==> r[p] == DraftAt(b, p)
  {
    seq(Size(b), p requires 0 <= p < Size(b) => DraftAt(b, p))
  }

  /** Every draft of the bundle finds its content under its own source id. */
  ghost predicate SourcesUpto(b: Bundle, n: nat, sources: Sources) {
    n <= Size(b) && forall p :: 0 <= p < n ==>
      DraftAt(b, p).sourceIds[0] in sources && sources[DraftAt(b, p).sourceIds[0]] == DraftAt(b, p).content
  }

  lemma DraftIdsDiffer(b: Bundle, p: nat, q: nat)
    requires p < q < Size(b)
    ensures |DraftAt(b, p).sourceIds| == 1 == |DraftAt(b, q).sourceIds|
    ensures DraftAt(b, p).sourceIds[0] != DraftAt(b, q).sourceIds[0]
  {
    hide MessageId, ToolId, DECISION_ID, IsSystem;
    var m := |b.messages|;
    if q < m {
      IdsDiffer(p, q);
    } else if p < m {
      IdsDiffer(p, if q < m + |b.tools| then q - m else 0);
    } else if q < m + |b.tools| {
      IdsDiffer(p - m, q - m);
    } else {
      IdsDiffer(p - m, 0);
    }
  }

  lemma AddSource(b: Bundle, n: nat, sources: Sources)
    requires n < Size(b) && SourcesUpto(b, n, sources)
    ensures SourcesUpto(b, n + 1, sources[DraftAt(b, n).sourceIds[0] := DraftAt(b, n).content])
  {
    hide DraftAt;
    OneSource(b, n);
    forall p | 0 <= p < n
      ensures DraftAt(b, p).sourceIds != [] && DraftAt(b, p).sourceIds[0] != DraftAt(b, n).sourceIds[0]
    {
      DraftIdsDiffer(b, p, n);
    }
  }

  lemma OneSource(b: Bundle, p: nat)
    requires p < Size(b)
    ensures |DraftAt(b, p).sourceIds| == 1
  {
  }

  method DescribeBundle(b: Bundle) returns (sources: Sources, sections: seq<Draft>)
    ensures sections == Drafts(b) && SourcesUpto(b, Size(b), sources)
  {
    hide MessageId, ToolId, DECISION_ID, IsSystem, SourcesUpto;
    sources, sections := map[], [];
    NoSources(b);
    var priority := 0;
    for i := 0 to |b.messages|
      invariant priority == i && sections == Drafts(b)[..i] && SourcesUpto(b, i, sources)
    {
      AddSource(b, priority, sources);
      sources := sources[MessageId(i) := b.messages[i]];
      var kind := if IsSystem(b.messages[i]) then Instruction else Trajectory;
      sections := sections + [Draft(kind, [MessageId(i)], MessageJson, priority, b.messages[i])];
      priority := priority + 1;
    }
    for i := 0 to |b.tools|
      invariant priority == |b.messages| + i && sections == Drafts(b)[..priority] && SourcesUpto(b, priority, sources)
    {
      AddSource(b, priority, sources);
      sources := sources[ToolId(i) := b.tools[i]];
      sections := sections + [Draft(ToolKind, [ToolId(i)], ToolJson, priority, b.tools[i])];
      priority := priority + 1;
    }
    if b.decision.Some? {
      AddSource(b, priority, sources);
      sources := sources[DECISION_ID := b.decision.value];
      sections := sections + [Draft(Goal, [DECISION_ID], DecisionJson, priority, b.decision.value)];
    }
  }

  lemma NoSources(b: Bundle)
    ensures SourcesUpto(b, 0, map[])
  {
  }

  function Sealed(d: Draft): Section {
    Section(d.kind, d.sourceIds, d.renderer, d.priority, SectionDigest(d.kind, d.sourceIds, d.renderer, d.content))
  }

  function BuildContextManifest(drafts: seq<Draft>): (r: seq<Section>)
    ensures |r| == |drafts| && forall i :: 0 <= i < |r| ==> r[i] == Sealed(drafts[i])
  {
    seq(|drafts|, i requires 0 <= i < |drafts| => Sealed(drafts[i]))
  }

  /** What a request appends before the model is called. */
  method RecordRequest(b: Bundle) returns (events: seq<Event>)
    ensures |events| == 2 && events[0] == ManifestRecorded(BuildContextManifest(Drafts(b)))
    ensures events[1].Requested? && events[1].inputDigest == b && SourcesUpto(b, Size(b), events[1].sources)
  {
    var sources, sections := DescribeBundle(b);
    events := [ManifestRecorded(BuildContextManifest(sections)), Requested(b, sources)];
  }

  /**
   * The manifest of a bundle: a section for every message, tool and decision schema, in this order and with growing
   * priorities, each sealed under its own source id; a system message is an instruction.
   */
  lemma ManifestMeans(b: Bundle)
    ensures var sections, m, t := BuildContextManifest(Drafts(b)), |b.messages|, |b.tools|;
      && |sections| == m + t + (if b.decision.Some? then 1 else 0)
      && (forall i :: 0 <= i < |sections| ==> sections[i].priority == i)
      && (forall i :: 0 <= i < m ==>
            SealedAs(sections[i], if IsSystem(b.messages[i]) then Instruction else Trajectory, MessageId(i),
                     MessageJson, b.messages[i]))
      && (forall i :: 0 <= i < t ==> SealedAs(sections[m + i], ToolKind, ToolId(i), ToolJson, b.tools[i]))
      && (b.decision.Some? ==> SealedAs(sections[m + t], Goal, DECISION_ID, DecisionJson, b.decision.value))
  {
    hide MessageId, ToolId, DECISION_ID, IsSystem;
  }

  /** The section, and its digest, are those of one source with one content. */
  predicate SealedAs(s: Section, kind: Kind, id: string, renderer: Renderer, content: Json) {
    && s.kind == s.digest.kind == kind && s.sourceIds == s.digest.sourceIds == [id]
    && s.renderer == s.digest.renderer == renderer && s.digest.content == content
  }

  lemma SystemMeans(message: Json)
    ensures IsSystem(message) <==>
      exists fields :: message == Obj(fields) && "role" in fields && fields["role"] == Str("system")
  {
    if message.Obj? { assert message == Obj(message.fields); }
  }

  /* ---------- rebuilding ---------- */

  predicate Ascending(sections: seq<Section>) {
    forall i, j :: 0 <= i < j < |sections| ==> sections[i].priority <= sections[j].priority
  }

  /** The sections of one priority, in order. */
  function OfPriority(sections: seq<Section>, priority: nat): seq<Section> {
    if sections == [] then []
    else
      var last := sections[|sections| - 1];
      OfPriority(sections[..|sections| - 1], priority) + if last.priority == priority then [last] else []
  }

  lemma {:induction false} OfPrioritySplit(a: seq<Section>, b: seq<Section>, priority: nat)
    ensures OfPriority(a + b, priority) == OfPriority(a, priority) + OfPriority(b, priority)
  {
    if b == [] {
      assert a + b == a;
    } else {
      OfPrioritySplit(a, b[..|b| - 1], priority);
      assert (a + b)[..|a + b| - 1] == a + b[..|b| - 1];
    }
  }

  lemma {:induction false} NoneOfPriority(sections: seq<Section>, priority: nat)
    requires forall i :: 0 <= i < |sections| ==> sections[i].priority != priority
    ensures OfPriority(sections, priority) == []
  {
    if sections != [] { NoneOfPriority(sections[..|sections| - 1], priority); }
  }

  /** Sections of one priority stay in the order they had. */
  ghost predicate Stable(sections: seq<Section>, sorted: seq<Section>) {
    forall priority: nat :: OfPriority(sorted, priority) == OfPriority(sections, priority)
  }

  lemma InsertIsStable(front: seq<Section>, sorted: seq<Section>, k: nat, section: Section)
    requires Stable(front, sorted) && k <= |sorted|
    requires forall j :: k <= j < |sorted| ==> section.priority < sorted[j].priority
    ensures Stable(front + [section], sorted[..k] + [section] + sorted[k..])
  {
    hide OfPriority;
    var r := sorted[..k] + [section] + sorted[k..];
    forall priority: nat ensures OfPriority(r, priority) == OfPriority(front + [section], priority) {
      OfPrioritySplit(sorted[..k] + [section], sorted[k..], priority);
      OfPrioritySplit(sorted[..k], [section], priority);
      OfPrioritySplit(sorted[..k], sorted[k..], priority);
      OfPrioritySplit(front, [section], priority);
      assert sorted[..k] + sorted[k..] == sorted;
      if priority == section.priority {
        NoneOfPriority(sorted[k..], priority);
      } else {
        NoneOfPriority([section], priority);
      }
    }
  }

  method SortByPriority(sections: seq<Section>) returns (sorted: seq<Section>)
    ensures Ascending(sorted) && multiset(sorted) == multiset(sections) && Stable(sections, sorted)
  {
    hide Ascending, Stable;
    sorted := [];
    NothingToSort();
    for n := 0 to |sections|
      invariant Ascending(sorted) && multiset(sorted) == multiset(sections[..n]) && Stable(sections[..n], sorted)
    {
      var k := PlaceFor(sorted, sections[n]);
      InsertSorted(sorted, k, sections[n]);
      InsertIsStable(sections[..n], sorted, k, sections[n]);
      assert sections[..n + 1] == sections[..n] + [sections[n]];
      sorted := sorted[..k] + [sections[n]] + sorted[k..];
    }
    assert sections[..|sections|] == sections;
  }

  lemma NothingToSort()
    ensures Ascending([]) && Stable([], [])
  {
  }

  /** The place after every section of at most the same priority. */
  method PlaceFor(sorted: seq<Section>, section: Section) returns (k: nat)
    ensures k <= |sorted| && (k > 0 ==> sorted[k - 1].priority <= section.priority)
    ensures forall j :: k <= j < |sorted| ==> section.priority < sorted[j].priority
  {
    k := |sorted|;
    while k > 0 && sorted[k - 1].priority > section.priority
      invariant 0 <= k <= |sorted| && forall j :: k <= j < |sorted| ==> section.priority < sorted[j].priority
    {
      k := k - 1;
    }
  }

  lemma InsertSorted(sorted: seq<Section>, k: nat, section: Section)
    requires Ascending(sorted) && k <= |sorted| && (k > 0 ==> sorted[k - 1].priority <= section.priority)
    requires forall j :: k <= j < |sorted| ==> section.priority <= sorted[j].priority
    ensures var r := sorted[..k] + [section] + sorted[k..];
      Ascending(r) && multiset(r) == multiset(sorted) + multiset{section}
  {
    hide Ascending;
    InsertAscends(sorted, k, section);
    assert sorted == sorted[..k] + sorted[k..];
  }

  lemma InsertAscends(sorted: seq<Section>, k: nat, section: Section)
    requires Ascending(sorted) && k <= |sorted| && (k > 0 ==> sorted[k - 1].priority <= section.priority)
    requires forall j :: k <= j < |sorted| ==> section.priority <= sorted[j].priority
    ensures Ascending(sorted[..k] + [section] + sorted[k..])
  {
  }

  predicate DistinctPriorities(sections: seq<Section>) {
    forall i, j :: 0 <= i < j < |sections| ==> sections[i].priority < sections[j].priority
  }

  /** Sections with increasing priorities come back from any order by sorting. */
  lemma {:induction false} SortedIsUnique(a: seq<Section>, b: seq<Section>)
    requires DistinctPriorities(a) && Ascending(b) && multiset(a) == multiset(b)
    ensures a == b
    decreases |a|
  {
    hide *;
    SameLength(a, b);
    if a != [] {
      var n := |a| - 1;
      LastIsSame(a, b);
      WithoutLast(a);
      WithoutLast(b);
      FrontsStay(a, b, n);
      SortedIsUnique(a[..n], b[..n]);
      Rejoin(a, b, n);
    }
  }

  lemma SameLength(a: seq<Section>, b: seq<Section>)
    requires multiset(a) == multiset(b)
    ensures |a| == |b|
  {
    assert |multiset(a)| == |multiset(b)|;
  }

  lemma Rejoin(a: seq<Section>, b: seq<Section>, n: nat)
    requires |a| == |b| == n + 1 && a[..n] == b[..n] && a[n] == b[n]
    ensures a == b
  {
    assert a == a[..n] + [a[n]] && b == b[..n] + [b[n]];
  }

  lemma WithoutLast(s: seq<Section>)
    requires s != []
    ensures multiset(s[..|s| - 1]) == multiset(s) - multiset{s[|s| - 1]}
  {
    assert s == s[..|s| - 1] + [s[|s| - 1]];
  }

  lemma FrontsStay(a: seq<Section>, b: seq<Section>, n: nat)
    requires DistinctPriorities(a) && Ascending(b) && n <= |a| && n <= |b|
    ensures DistinctPriorities(a[..n]) && Ascending(b[..n])
  {
  }

  lemma LastIsSame(a: seq<Section>, b: seq<Section>)
    requires DistinctPriorities(a) && Ascending(b) && multiset(a) == multiset(b) && |a| == |b| > 0
    ensures a[|a| - 1] == b[|a| - 1]
  {
    var n := |a| - 1;
    assert a[n] in multiset(b) && b[n] in multiset(a);
    var i :| 0 <= i <= n && b[i] == a[n];
    var j :| 0 <= j <= n && a[j] == b[n];
    LastIsGreatest(a, j);
    hide DistinctPriorities;
    assert b[i].priority <= b[n].priority;
  }

  lemma LastIsGreatest(a: seq<Section>, j: nat)
    requires DistinctPriorities(a) && j < |a|
    ensures a[j].priority <= a[|a| - 1].priority && (a[j].priority == a[|a| - 1].priority ==> j == |a| - 1)
  {
  }

  /** The content a section stands for: the one source it names, if its digest still matches. */
  function Rendered(section: Section, sources: Sources): Result<Json> {
    if section.renderer.Unregistered? then Err(NoRenderer)
    else if |section.sourceIds| != 1 then Err(NotOneSource)
    else if section.sourceIds[0] !in sources then Err(SourceMissing(section.sourceIds[0]))
    else
      var text := sources[section.sourceIds[0]];
      if SectionDigest(section.kind, section.sourceIds, section.renderer, text) != section.digest then
        Err(SectionDrift(section))
      else Ok(text)
  }

  /** The bundle read back from sections in order, or the first section that cannot be read. */
  function Assembled(sections: seq<Section>, sources: Sources): Result<Bundle> {
    if sections == [] then Ok(Bundle([], [], None))
    else
      var before, last := Assembled(sections[..|sections| - 1], sources), sections[|sections| - 1];
      if before.Err? then before
      else
        match Rendered(last, sources)
        case Err(error) => Err(error)
        case Ok(text) => Ok(Read(before.value, last.renderer, text))
  }

  function Read(b: Bundle, renderer: Renderer, text: Json): Bundle {
    match renderer
    case MessageJson => b.(messages := b.messages + [text])
    case ToolJson => b.(tools := b.tools + [text])
    case DecisionJson => b.(decision := Some(text))
    case Unregistered(_) => b
  }

  method RebuildContextInput(sections: seq<Section>, sources: Sources)
    returns (r: Result<seq<(Section, Json)>>, ghost sorted: seq<Section>)
    ensures Ascending(sorted) && multiset(sorted) == multiset(sections) && Stable(sections, sorted)
    ensures r.Ok? ==> |r.value| == |sorted|
    ensures r.Ok? ==>
      forall i :: 0 <= i < |sorted| ==> r.value[i].0 == sorted[i] && Rendered(sorted[i], sources) == Ok(r.value[i].1)
    ensures r.Err? ==> Assembled(sorted, sources) == Err(r.error)
  {
    var ordered := SortByPriority(sections);
    sorted := ordered;
    var rebuilt: seq<(Section, Json)> := [];
    for n := 0 to |ordered|
      invariant |rebuilt| == n && Assembled(ordered[..n], sources).Ok?
      invariant forall i :: 0 <= i < n ==>
        rebuilt[i].0 == ordered[i] && Rendered(ordered[i], sources) == Ok(rebuilt[i].1)
    {
      assert ordered[..n + 1][..n] == ordered[..n];
      var text := Rendered(ordered[n], sources);
      if text.Err? {
        ErrorStays(ordered, sources, n + 1);
        return Err(text.error), ordered;
      }
      rebuilt := rebuilt + [(ordered[n], text.value)];
    }
    return Ok(rebuilt), ordered;
  }

  lemma {:induction false} ErrorStays(sections: seq<Section>, sources: Sources, n: nat)
    requires n <= |sections| && Assembled(sections[..n], sources).Err?
    ensures Assembled(sections, sources) == Assembled(sections[..n], sources)
    decreases |sections| - n
  {
    if n < |sections| {
      assert sections[..n + 1][..n] == sections[..n];
      ErrorStays(sections, sources, n + 1);
    } else {
      assert sections[..n] == sections;
    }
  }

  /** Rebuilds the bundle of a historical call from what was recorded, and checks its digest. */
  method RebuildModelRequest(events: seq<Event>) returns (r: Result<Bundle>, ghost sorted: seq<Section>)
    ensures LastManifest(events).None? || LastRequested(events).None? ==> r == Err(Incomplete)
    ensures LastManifest(events).Some? && LastRequested(events).Some? ==>
      var sections, requested := LastManifest(events).value.sections, LastRequested(events).value;
      && Ascending(sorted) && multiset(sorted) == multiset(sections) && Stable(sections, sorted)
      && (r.Ok? ==> r.value == requested.inputDigest)
      && r == Checked(Assembled(sorted, requested.sources), requested.inputDigest)
  {
    var manifest: Option<Event>, requested: Option<Event> := None, None;
    for n := 0 to |events|
      invariant manifest == LastManifest(events[..n]) && requested == LastRequested(events[..n])
    {
      assert events[..n + 1][..n] == events[..n];
      match events[n] {
        case ManifestRecorded(_) => manifest := Some(events[n]);
        case Requested(_, _) => requested := Some(events[n]);
        case Finished =>
      }
    }
    assert events[..|events|] == events;
    sorted := [];
    if manifest.None? || requested.None? {
      return Err(Incomplete), [];
    }
    var sections, sources := manifest.value.sections, requested.value.sources;
    var rebuilt;
    rebuilt, sorted := RebuildContextInput(sections, sources);
    if rebuilt.Err? {
      return Err(rebuilt.error), sorted;
    }
    var bundle := Bundle([], [], None);
    for n := 0 to |rebuilt.value|
      invariant Assembled(sorted[..n], sources) == Ok(bundle)
    {
      assert sorted[..n + 1][..n] == sorted[..n];
      bundle := Read(bundle, rebuilt.value[n].0.renderer, rebuilt.value[n].1);
    }
    assert sorted[..|sorted|] == sorted;
    if bundle != requested.value.inputDigest {
      return Err(BundleDrift), sorted;
    }
    return Ok(bundle), sorted;
  }

  function Checked(r: Result<Bundle>, inputDigest: Bundle): Result<Bundle> {
    if r.Ok? && r.value != inputDigest then Err(BundleDrift) else r
  }

  function LastManifest(events: seq<Event>): (r: Option<Event>)
    ensures r.Some? ==> r.value.ManifestRecorded?
  {
    if events == [] then None
    else if events[|events| - 1].ManifestRecorded? then Some(events[|events| - 1])
    else LastManifest(events[..|events| - 1])
  }

  function LastRequested(events: seq<Event>): (r: Option<Event>)
    ensures r.Some? ==> r.value.Requested?
  {
    if events == [] then None
    else if events[|events| - 1].Requested? then Some(events[|events| - 1])
    else LastRequested(events[..|events| - 1])
  }

  /* ---------- the round trip ---------- */

  function Cut(b: Bundle, n: nat): Bundle
    requires n <= Size(b)
  {
    var m := |b.messages|;
    Bundle(b.messages[..if n < m then n else m],
           b.tools[..if n < m then 0 else if n < m + |b.tools| then n - m else |b.tools|],
           if n > m + |b.tools| then b.decision else None)
  }

  lemma {:induction false} AssemblesUpto(b: Bundle, sources: Sources, n: nat)
    requires n <= Size(b) && SourcesUpto(b, Size(b), sources)
    ensures Assembled(BuildContextManifest(Drafts(b))[..n], sources) == Ok(Cut(b, n))
  {
    hide MessageId, ToolId, DECISION_ID, IsSystem;
    var sections := BuildContextManifest(Drafts(b));
    if n > 0 {
      AssemblesUpto(b, sources, n - 1);
      assert sections[..n][..n - 1] == sections[..n - 1];
      OneSource(b, n - 1);
      RendersItself(b, sources, n - 1);
      CutStep(b, n - 1);
      hide DraftAt;
      assert sections[..n][n - 1] == Sealed(DraftAt(b, n - 1));
    }
  }

  lemma RendersItself(b: Bundle, sources: Sources, p: nat)
    requires p < Size(b) && SourcesUpto(b, Size(b), sources)
    ensures Rendered(Sealed(DraftAt(b, p)), sources) == Ok(DraftAt(b, p).content)
  {
    hide MessageId, ToolId, DECISION_ID, IsSystem;
    OneSource(b, p);
  }

  lemma CutStep(b: Bundle, p: nat)
    requires p < Size(b)
    ensures Cut(b, p + 1) == Read(Cut(b, p), DraftAt(b, p).renderer, DraftAt(b, p).content)
  {
    hide MessageId, ToolId, DECISION_ID, IsSystem;
  }

  /**
   * Whatever order the recorded sections come back in, sorting them and reading them from the recorded sources
   * gives exactly the bundle that was sent.
   */
  lemma RequestRoundTrip(b: Bundle, sources: Sources, stored: seq<Section>, sorted: seq<Section>)
    requires SourcesUpto(b, Size(b), sources)
    requires multiset(stored) == multiset(BuildContextManifest(Drafts(b)))
    requires Ascending(sorted) && multiset(sorted) == multiset(stored)
    ensures Checked(Assembled(sorted, sources), b) == Ok(b)
  {
    hide SourcesUpto, DraftAt, Assembled;
    var sections := BuildContextManifest(Drafts(b));
    forall i, j | 0 <= i < j < |sections| ensures sections[i].priority < sections[j].priority {
      PriorityIsPosition(b, i);
      PriorityIsPosition(b, j);
    }
    SortedIsUnique(sections, sorted);
    AssemblesUpto(b, sources, Size(b));
    assert sections[..Size(b)] == sections;
    assert Cut(b, Size(b)) == b;
  }

  lemma PriorityIsPosition(b: Bundle, p: nat)
    requires p < Size(b)
    ensures DraftAt(b, p).priority == p
  {
  }

  /** Reading stops at the first section, in order of priority, that cannot be read. */
  lemma {:induction false} FirstFailure(sections: seq<Section>, sources: Sources)
    ensures Assembled(sections, sources).Err? <==>
      exists i :: 0 <= i < |sections| && Rendered(sections[i], sources).Err?
    ensures forall i ::
      0 <= i < |sections| && Rendered(sections[i], sources).Err?
      && (forall j :: 0 <= j < i ==> Rendered(sections[j], sources).Ok?) ==>
        Assembled(sections, sources) == Err(Rendered(sections[i], sources).error)
  {
    if sections != [] {
      var front, last := sections[..|sections| - 1], sections[|sections| - 1];
      FirstFailure(front, sources);
      hide Rendered;
      assert forall i :: 0 <= i < |front| ==> front[i] == sections[i];
      if i :| 0 <= i < |front| && Rendered(front[i], sources).Err? { assert Rendered(sections[i], sources).Err?; }
    }
  }

  /** Why a section cannot be read, whatever was recorded. */
  lemma FailureMeans(s: Section, sources: Sources)
    ensures var r := Rendered(s, sources);
      && (r == Err(NoRenderer) <==> s.renderer.Unregistered?)
      && (r == Err(NotOneSource) <==> !s.renderer.Unregistered? && |s.sourceIds| != 1)
      && (forall id :: r == Err(SourceMissing(id)) <==>
            !s.renderer.Unregistered? && s.sourceIds == [id] && id !in sources)
      && (r.Err? && r.error.SectionDrift? ==> r.error.section == s)
      && (r.Ok? ==>
            && |s.sourceIds| == 1 && s.sourceIds[0] in sources && r.value == sources[s.sourceIds[0]]
            && s.digest == SectionDigest(s.kind, s.sourceIds, s.renderer, r.value))
  {
  }

  /** A changed, missing or swapped source is noticed: a section reads only as the content it was sealed with. */
  lemma SectionReadsOnlyItself(d: Draft, sources: Sources)
    ensures Rendered(Sealed(d), sources).Ok? <==>
      && !d.renderer.Unregistered? && |d.sourceIds| == 1
      && d.sourceIds[0] in sources && sources[d.sourceIds[0]] == d.content
    ensures Rendered(Sealed(d), sources).Ok? ==> Rendered(Sealed(d), sources).value == d.content
  {
  }

  /** What a request recorded is what its rebuild finds, whatever was recorded before, or came of it afterwards. */
  lemma {:induction false} RecordIsFound(before: seq<Event>, events: seq<Event>)
    requires |events| >= 2 && events[0].ManifestRecorded? && events[1].Requested?
    requires forall i :: 2 <= i < |events| ==> events[i].Finished?
    ensures LastManifest(before + events) == Some(events[0]) && LastRequested(before + events) == Some(events[1])
  {
    var front := events[..|events| - 1];
    assert (before + events)[..|before + events| - 1] == before + front;
    if |events| > 2 {
      RecordIsFound(before, front);
    } else {
      assert (before + front)[..|before + front| - 1] == before;
    }
  }

  /** A request is recorded after others, it finishes in some way, and its rebuild gives the bundle that was sent. */
  method SendAndRebuild(before: seq<Event>, b: Bundle, after: seq<Event>) returns (r: Result<Bundle>)
    requires forall i :: 0 <= i < |after| ==> after[i].Finished?
    ensures r == Ok(b)
  {
    hide SourcesUpto, Drafts, Assembled, Ascending, LastManifest, LastRequested;
    var recorded := RecordRequest(b);
    RecordIsFound(before, recorded + after);
    var events := before + (recorded + after);
    ghost var sorted;
    r, sorted := RebuildModelRequest(events);
    RequestRoundTrip(b, recorded[1].sources, recorded[0].sections, sorted);
  }
}
