/** What a world holds after a call and after a run, told from the inputs alone. */
module WorldContents {
  import opened World

  /** The input is one of the entity. */
  predicate Mentions(inputs: seq<Input>, k: int, id: string) { 0 <= k < |inputs| && inputs[k].id == id }

  predicate FirstMention(inputs: seq<Input>, k: int, id: string) {
    Mentions(inputs, k, id) && forall j :: 0 <= j < k ==> !Mentions(inputs, j, id)
  }

  predicate LastMention(inputs: seq<Input>, k: int, id: string) {
    Mentions(inputs, k, id) && forall j :: k < j < |inputs| ==> !Mentions(inputs, j, id)
  }

  /** The input is one of the entity, and gives the attribute a value. */
  predicate Gives(inputs: seq<Input>, k: int, id: string, name: string) {
    Mentions(inputs, k, id) && name in inputs[k].attributes
  }

  predicate LastGiving(inputs: seq<Input>, k: int, id: string, name: string) {
    Gives(inputs, k, id, name) && forall j :: k < j < |inputs| ==> !Gives(inputs, j, id, name)
  }

  /** Whether an entity is there, and what is said of it first and last. */
  ghost predicate EntityTold(before: map<string, Entity>, inputs: seq<Input>, after: map<string, Entity>, id: string) {
    && (id in after <==> id in before || exists k :: Mentions(inputs, k, id))
    && (id in before ==>
          && after[id].id == before[id].id && after[id].kind == before[id].kind
          && after[id].subtype == before[id].subtype && after[id].firstSeenAt == before[id].firstSeenAt)
    && (forall k :: id !in before && FirstMention(inputs, k, id) ==>
          && after[id].id == id && after[id].kind == inputs[k].kind
          && after[id].subtype == inputs[k].subtype && after[id].firstSeenAt == inputs[k].seenAt)
    && (forall k :: LastMention(inputs, k, id) ==> after[id].lastSeenAt == inputs[k].seenAt)
    && (id in before && (forall k :: !Mentions(inputs, k, id)) ==> after[id] == before[id])
  }

  /** One attribute of one entity: the last input that gives it, or else what it was. */
  ghost predicate AttributeTold(
    before: map<string, Entity>, inputs: seq<Input>, after: map<string, Entity>, id: string, name: string)
  {
    var had := id in before && name in before[id].attributes;
    && (id in after && name in after[id].attributes <==> had || exists k :: Gives(inputs, k, id, name))
    && (forall k :: LastGiving(inputs, k, id, name) ==> after[id].attributes[name] == inputs[k].attributes[name])
    && (had && (forall k :: !Gives(inputs, k, id, name)) ==>
          after[id].attributes[name] == before[id].attributes[name])
  }

  predicate LastRelation(relations: seq<Relation>, k: int, id: string) {
    0 <= k < |relations| && relations[k].id == id && forall j :: k < j < |relations| ==> relations[j].id != id
  }

  /** A relation is what the last input for its id says, or else what it was. */
  ghost predicate RelationsTold(before: map<string, Relation>, relations: seq<Relation>, after: map<string, Relation>) {
    && (forall id :: id in after <==> id in before || exists k :: LastRelation(relations, k, id))
    && (forall id, k :: LastRelation(relations, k, id) ==> after[id] == relations[k])
    && (forall id :: id in before && (forall k :: !LastRelation(relations, k, id)) ==> after[id] == before[id])
  }

  ghost predicate Told(before: World, call: Call, after: World) {
    && (forall id :: EntityTold(before.entities, call.inputs, after.entities, id))
    && (forall id, name :: AttributeTold(before.entities, call.inputs, after.entities, id, name))
    && RelationsTold(before.relations, call.relations, after.relations)
  }

  /* ---------- one input more ---------- */

  lemma MentionsMore(front: seq<Input>, input: Input, k: int, id: string)
    ensures Mentions(front + [input], k, id) <==> Mentions(front, k, id) || (k == |front| && input.id == id)
  {
  }

  lemma FirstMore(front: seq<Input>, input: Input, k: int, id: string)
    ensures FirstMention(front + [input], k, id) <==>
      FirstMention(front, k, id) || (k == |front| && input.id == id && forall j :: !Mentions(front, j, id))
  {
    forall j ensures Mentions(front + [input], j, id) <==> Mentions(front, j, id) || (j == |front| && input.id == id) {
      MentionsMore(front, input, j, id);
    }
    assert forall j :: Mentions(front, j, id) ==> 0 <= j < |front|;
    hide Mentions;
  }

  lemma LastMore(front: seq<Input>, input: Input, k: int, id: string)
    ensures LastMention(front + [input], k, id) <==> if input.id == id then k == |front| else LastMention(front, k, id)
  {
    forall j ensures Mentions(front + [input], j, id) <==> Mentions(front, j, id) || (j == |front| && input.id == id) {
      MentionsMore(front, input, j, id);
    }
    assert forall j :: Mentions(front, j, id) ==> 0 <= j < |front|;
    hide Mentions;
    assert input.id == id ==> Mentions(front + [input], |front|, id);
  }

  lemma GivesMore(front: seq<Input>, input: Input, k: int, id: string, name: string)
    ensures Gives(front + [input], k, id, name) <==>
      Gives(front, k, id, name) || (k == |front| && input.id == id && name in input.attributes)
  {
  }

  lemma LastGivingMore(front: seq<Input>, input: Input, k: int, id: string, name: string)
    ensures LastGiving(front + [input], k, id, name) <==>
      if input.id == id && name in input.attributes then k == |front| else LastGiving(front, k, id, name)
  {
    forall j
      ensures Gives(front + [input], j, id, name) <==>
        Gives(front, j, id, name) || (j == |front| && input.id == id && name in input.attributes)
    {
      GivesMore(front, input, j, id, name);
    }
    assert forall j :: Gives(front, j, id, name) ==> 0 <= j < |front|;
    hide Gives, Mentions;
    assert input.id == id && name in input.attributes ==> Gives(front + [input], |front|, id, name);
  }

  lemma {:induction false} EntityIsTold(before: map<string, Entity>, inputs: seq<Input>, id: string)
    ensures EntityTold(before, inputs, Shadow(before, inputs), id)
  {
    if inputs == [] {
      assert forall k :: !Mentions(inputs, k, id);
    } else {
      var front, input := inputs[..|inputs| - 1], inputs[|inputs| - 1];
      EntityIsTold(before, front, id);
      assert inputs == front + [input];
      OneEntityTold(before, front, input, Shadow(before, front), id);
    }
  }

  lemma OneEntityTold(
    before: map<string, Entity>, front: seq<Input>, input: Input, mid: map<string, Entity>, id: string)
    requires EntityTold(before, front, mid, id)
    ensures EntityTold(before, front + [input], Put(mid, input), id)
  {
    hide Mentions, FirstMention, LastMention;
    var inputs := front + [input];
    assert inputs[|front|] == input;
    forall k
      ensures Mentions(inputs, k, id) <==> Mentions(front, k, id) || (k == |front| && input.id == id)
      ensures FirstMention(inputs, k, id) <==>
        FirstMention(front, k, id) || (k == |front| && input.id == id && forall j :: !Mentions(front, j, id))
      ensures LastMention(inputs, k, id) <==> if input.id == id then k == |front| else LastMention(front, k, id)
      ensures FirstMention(front, k, id) || LastMention(front, k, id) ==> Mentions(front, k, id)
      ensures Mentions(front, k, id) ==> 0 <= k < |front| && inputs[k] == front[k]
    {
      MentionsMore(front, input, k, id);
      FirstMore(front, input, k, id);
      LastMore(front, input, k, id);
      AreMentions(front, k, id);
    }
    if input.id == id {
      assert Mentions(inputs, |front|, id);
      if k :| Mentions(front, k, id) {
        var f := FirstOf(front, k, id);
      }
    } else if k :| Mentions(front, k, id) {
      assert Mentions(inputs, k, id);
    }
  }

  lemma {:induction false} FirstOf(inputs: seq<Input>, k: int, id: string) returns (f: int)
    requires Mentions(inputs, k, id)
    ensures FirstMention(inputs, f, id)
    decreases k
  {
    if j :| 0 <= j < k && Mentions(inputs, j, id) {
      f := FirstOf(inputs, j, id);
    } else {
      f := k;
    }
  }

  lemma AreMentions(inputs: seq<Input>, k: int, id: string)
    ensures FirstMention(inputs, k, id) || LastMention(inputs, k, id) ==> Mentions(inputs, k, id)
    ensures Mentions(inputs, k, id) ==> 0 <= k < |inputs|
  {
  }

  lemma {:induction false} AttributeIsTold(before: map<string, Entity>, inputs: seq<Input>, id: string, name: string)
    ensures AttributeTold(before, inputs, Shadow(before, inputs), id, name)
  {
    if inputs == [] {
      assert forall k :: !Gives(inputs, k, id, name);
    } else {
      var front, input := inputs[..|inputs| - 1], inputs[|inputs| - 1];
      AttributeIsTold(before, front, id, name);
      assert inputs == front + [input];
      OneAttributeTold(before, front, input, Shadow(before, front), id, name);
    }
  }

  lemma OneAttributeTold(
    before: map<string, Entity>, front: seq<Input>, input: Input, mid: map<string, Entity>, id: string, name: string)
    requires AttributeTold(before, front, mid, id, name)
    ensures AttributeTold(before, front + [input], Put(mid, input), id, name)
  {
    hide Gives, LastGiving;
    var inputs := front + [input];
    assert inputs[|front|] == input;
    forall k
      ensures Gives(inputs, k, id, name) <==>
        Gives(front, k, id, name) || (k == |front| && input.id == id && name in input.attributes)
      ensures LastGiving(inputs, k, id, name) <==>
        if input.id == id && name in input.attributes then k == |front| else LastGiving(front, k, id, name)
      ensures LastGiving(front, k, id, name) ==> Gives(front, k, id, name)
      ensures Gives(front, k, id, name) ==> 0 <= k < |front| && inputs[k] == front[k] && name in front[k].attributes
    {
      GivesMore(front, input, k, id, name);
      LastGivingMore(front, input, k, id, name);
      AreGiving(front, k, id, name);
    }
    if input.id == id && name in input.attributes {
      assert Gives(inputs, |front|, id, name);
    } else if k :| Gives(front, k, id, name) {
      assert Gives(inputs, k, id, name);
    }
  }

  lemma AreGiving(inputs: seq<Input>, k: int, id: string, name: string)
    ensures LastGiving(inputs, k, id, name) ==> Gives(inputs, k, id, name)
    ensures Gives(inputs, k, id, name) ==> 0 <= k < |inputs| && name in inputs[k].attributes
  {
  }

  lemma {:induction false} RelationsAreTold(before: map<string, Relation>, relations: seq<Relation>)
    ensures RelationsTold(before, relations, Relate(before, relations))
  {
    if relations == [] {
    } else {
      var front, last := relations[..|relations| - 1], relations[|relations| - 1];
      RelationsAreTold(before, front);
      forall id, k
        ensures LastRelation(relations, k, id) <==> if last.id == id then k == |front| else LastRelation(front, k, id)
      {
        LastRelationMore(front, last, k, id);
        assert relations == front + [last];
      }
      hide LastRelation;
      assert LastRelation(relations, |front|, last.id);
    }
  }

  lemma LastRelationMore(front: seq<Relation>, last: Relation, k: int, id: string)
    ensures LastRelation(front + [last], k, id) <==> if last.id == id then k == |front| else LastRelation(front, k, id)
  {
    var relations := front + [last];
    assert relations[|front|] == last && forall j :: 0 <= j < |front| ==> relations[j] == front[j];
  }

  /* ---------- calls and runs ---------- */

  /** After a call the world holds what the inputs of the call say, and for the rest what it held before. */
  lemma CallIsTold(w: World, call: Call)
    ensures Told(w, call, Next(w, call))
  {
    hide Shadow, Relate, AttributeTold, EntityTold, RelationsTold;
    RelationsAreTold(w.relations, call.relations);
    forall id ensures EntityTold(w.entities, call.inputs, Shadow(w.entities, call.inputs), id) {
      EntityIsTold(w.entities, call.inputs, id);
    }
    forall id, name
      ensures AttributeTold(w.entities, call.inputs, Shadow(w.entities, call.inputs), id, name)
    {
      AttributeIsTold(w.entities, call.inputs, id, name);
    }
  }

  /** All inputs of a run, in order. */
  function Together(calls: seq<Call>): Call {
    if calls == [] then Call([], [])
    else
      var front, last := Together(calls[..|calls| - 1]), calls[|calls| - 1];
      Call(front.inputs + last.inputs, front.relations + last.relations)
  }

  lemma {:induction false} ShadowSplit(m: map<string, Entity>, a: seq<Input>, b: seq<Input>)
    ensures Shadow(m, a + b) == Shadow(Shadow(m, a), b)
  {
    if b == [] {
      assert a + b == a;
    } else {
      ShadowSplit(m, a, b[..|b| - 1]);
      assert (a + b)[..|a + b| - 1] == a + b[..|b| - 1];
    }
  }

  lemma {:induction false} RelateSplit(m: map<string, Relation>, a: seq<Relation>, b: seq<Relation>)
    ensures Relate(m, a + b) == Relate(Relate(m, a), b)
  {
    if b == [] {
      assert a + b == a;
    } else {
      RelateSplit(m, a, b[..|b| - 1]);
      assert (a + b)[..|a + b| - 1] == a + b[..|b| - 1];
    }
  }

  /** How many calls of a run record something. */
  function Recordings(calls: seq<Call>): nat {
    if calls == [] then 0
    else Recordings(calls[..|calls| - 1]) + if Nothing(calls[|calls| - 1]) then 0 else 1
  }

  lemma {:induction false} RunIsOneCall(calls: seq<Call>)
    ensures Recorded(calls).world == Next(EMPTY, Together(calls))
  {
    if calls != [] {
      var front, last := Together(calls[..|calls| - 1]), calls[|calls| - 1];
      RunIsOneCall(calls[..|calls| - 1]);
      ShadowSplit(EMPTY.entities, front.inputs, last.inputs);
      RelateSplit(EMPTY.relations, front.relations, last.relations);
      hide Facts;
    }
  }

  /**
   * After a run the world holds what the inputs of all its calls say, taken together; its version counts the
   * calls that recorded something.
   */
  lemma {:induction false} RunIsTold(calls: seq<Call>)
    ensures Told(EMPTY, Together(calls), Recorded(calls).world) && Recorded(calls).version == Recordings(calls)
  {
    RunIsOneCall(calls);
    CallIsTold(EMPTY, Together(calls));
    RunCounts(calls);
  }

  lemma {:induction false} RunCounts(calls: seq<Call>)
    ensures Recorded(calls).version == Recordings(calls)
  {
    if calls != [] {
      RunCounts(calls[..|calls| - 1]);
      hide Facts;
    }
  }
}
