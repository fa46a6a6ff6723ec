/**
 * The in-memory Chronicle store: append-only event streams with optimistic sequence checks and idempotent
 * retries. Event ids are fresh natural numbers; payload validation and ingest times are not modelled.
 */
module Chronicle {
  datatype NewEvent<+E> = NewEvent(eventId: nat, body: E)

  datatype Stored<+E> = Stored(eventId: nat, body: E, sequence: nat)

  datatype AppendResult<+E> = Appended(events: seq<Stored<E>>) | Conflict(expected: int, actual: nat)

  type Streams<!E> = map<string, seq<Stored<E>>>

  function Stream<E>(streams: Streams<E>, streamId: string): seq<Stored<E>> {
    if streamId in streams then streams[streamId] else []
  }

  function Stamp<E>(events: seq<NewEvent<E>>, first: nat): (stored: seq<Stored<E>>)
    ensures |stored| == |events|
    ensures forall i :: 0 <= i < |events| ==> stored[i] == Stored(events[i].eventId, events[i].body, first + i)
  {
    seq(|events|, i requires 0 <= i < |events| => Stored(events[i].eventId, events[i].body, first + i))
  }

  /** The stored events that carry exactly the ids of a batch, at the place the batch asked for. */
  predicate IsRetry<E>(stream: seq<Stored<E>>, events: seq<NewEvent<E>>, expected: int) {
    && 1 <= expected && expected - 1 + |events| <= |stream|
    && forall i :: 0 <= i < |events| ==> stream[expected - 1 + i].eventId == events[i].eventId
  }

  function Append<E>(streams: Streams<E>, streamId: string, events: seq<NewEvent<E>>, expected: int)
    : (Streams<E>, AppendResult<E>)
  {
    var stream := Stream(streams, streamId);
    if events == [] then (streams, Appended([]))
    else if expected == |stream| + 1 then
      var stored := Stamp(events, |stream| + 1);
      (streams[streamId := stream + stored], Appended(stored))
    else if IsRetry(stream, events, expected) then
      (streams, Appended(stream[expected - 1..expected - 1 + |events|]))
    else (streams, Conflict(expected, |stream| + 1))
  }

  /** Sequences count from one without a gap. */
  ghost predicate Numbered<E>(streams: Streams<E>) {
    forall id, i :: id in streams && 0 <= i < |streams[id]| ==> streams[id][i].sequence == i + 1
  }

  /** Every stream is still there, with at most more events at its end. */
  ghost predicate Grew<E>(before: Streams<E>, after: Streams<E>) {
    forall id :: id in before ==> id in after && before[id] <= after[id]
  }

  lemma GrewStream<E>(before: Streams<E>, after: Streams<E>, streamId: string)
    requires Grew(before, after)
    ensures Stream(before, streamId) <= Stream(after, streamId)
  {
  }

  lemma AppendKeeps<E>(streams: Streams<E>, streamId: string, events: seq<NewEvent<E>>, expected: int)
    requires Numbered(streams)
    ensures var (after, result) := Append(streams, streamId, events, expected);
      && Numbered(after) && Grew(streams, after)
      && (result.Conflict? ==> after == streams)
      && (forall id :: id != streamId ==> Stream(after, id) == Stream(streams, id))
  {
  }

  /**
   * A batch is taken exactly when it is empty, asks for the next place, or stands at its place already, event by
   * event; the answer has one event for each, in order, and a new batch is what was given.
   */
  lemma AppendMeans<E>(streams: Streams<E>, streamId: string, events: seq<NewEvent<E>>, expected: int)
    ensures var (after, result) := Append(streams, streamId, events, expected); var stream := Stream(streams, streamId);
      && (result.Appended? <==>
            || events == [] || expected == |stream| + 1
            || (1 <= expected <= |stream| + 1 - |events|
                && forall i :: 0 <= i < |events| ==> stream[expected - 1 + i].eventId == events[i].eventId))
      && (result.Conflict? ==> result == Conflict(expected, |stream| + 1))
      && (result.Appended? ==>
            && |result.events| == |events|
            && forall i :: 0 <= i < |events| ==> result.events[i].eventId == events[i].eventId)
      && (result.Appended? && expected == |stream| + 1 ==>
            && Stream(after, streamId) == stream + result.events
            && forall i :: 0 <= i < |events| ==>
                 result.events[i] == Stored(events[i].eventId, events[i].body, expected + i))
      && (expected != |stream| + 1 ==> after == streams)
  {
  }

  /** Appending the same batch again, at any later time, changes nothing and answers with the stored events. */
  lemma RetryIsIdempotent<E>(
    streams: Streams<E>, streamId: string, events: seq<NewEvent<E>>, expected: int, later: Streams<E>)
    requires Append(streams, streamId, events, expected).1.Appended? && events != []
    requires Grew(Append(streams, streamId, events, expected).0, later)
    ensures Append(later, streamId, events, expected) ==
            (later, Append(streams, streamId, events, expected).1)
  {
    var (after, result) := Append(streams, streamId, events, expected);
    var stream, grown := Stream(after, streamId), Stream(later, streamId);
    GrewStream(after, later, streamId);
    Landed(streams, streamId, events, expected);
    hide Append, Grew;
    assert IsRetry(stream, events, expected) && IsRetry(grown, events, expected);
    assert expected != |grown| + 1;
    assert grown[expected - 1..expected - 1 + |events|] == stream[expected - 1..expected - 1 + |events|];
    AnsweredFromStore(later, streamId, events, expected);
  }

  /** After a successful append, the batch stands at the place it asked for. */
  lemma Landed<E>(streams: Streams<E>, streamId: string, events: seq<NewEvent<E>>, expected: int)
    requires Append(streams, streamId, events, expected).1.Appended? && events != []
    ensures var (after, result) := Append(streams, streamId, events, expected);
      && IsRetry(Stream(after, streamId), events, expected)
      && result.events == Stream(after, streamId)[expected - 1..expected - 1 + |events|]
  {
    hide IsRetry, Append, Stamp;
    var stream := Stream(streams, streamId);
    if expected == |stream| + 1 {
      AppendsFresh(streams, streamId, events);
      StampedAtEnd(stream, events, Stamp(events, |stream| + 1));
    } else {
      AppendsAgain(streams, streamId, events, expected);
    }
  }

  lemma AppendsFresh<E>(streams: Streams<E>, streamId: string, events: seq<NewEvent<E>>)
    requires events != []
    ensures var stream := Stream(streams, streamId); var stored := Stamp(events, |stream| + 1);
      Append(streams, streamId, events, |stream| + 1) == (streams[streamId := stream + stored], Appended(stored))
  {
    hide IsRetry, Stamp;
  }

  lemma AppendsAgain<E>(streams: Streams<E>, streamId: string, events: seq<NewEvent<E>>, expected: int)
    requires events != [] && expected != |Stream(streams, streamId)| + 1
    requires Append(streams, streamId, events, expected).1.Appended?
    ensures var stream := Stream(streams, streamId);
      && IsRetry(stream, events, expected) && 1 <= expected && expected - 1 + |events| <= |stream|
      && Append(streams, streamId, events, expected) ==
         (streams, Appended(stream[expected - 1..expected - 1 + |events|]))
  {
    hide Stamp;
  }

  lemma StampedAtEnd<E>(stream: seq<Stored<E>>, events: seq<NewEvent<E>>, stored: seq<Stored<E>>)
    requires stored == Stamp(events, |stream| + 1)
    ensures IsRetry(stream + stored, events, |stream| + 1)
    ensures (stream + stored)[|stream|..|stream| + |events|] == stored
  {
    assert forall i :: 0 <= i < |events| ==> (stream + stored)[|stream| + i] == stored[i];
  }

  lemma AnsweredFromStore<E>(streams: Streams<E>, streamId: string, events: seq<NewEvent<E>>, expected: int)
    requires events != [] && IsRetry(Stream(streams, streamId), events, expected)
    ensures Append(streams, streamId, events, expected) ==
            (streams, Appended(Stream(streams, streamId)[expected - 1..expected - 1 + |events|]))
  {
  }

  /** Of two batches for one place, the second never lands, however the log goes on. */
  lemma SecondWriterConflicts<E>(
    streams: Streams<E>, streamId: string, first: seq<NewEvent<E>>, second: seq<NewEvent<E>>, expected: int,
    later: Streams<E>)
    requires first != [] && second != [] && first[0].eventId != second[0].eventId
    requires Append(streams, streamId, first, expected).1.Appended?
    requires Grew(Append(streams, streamId, first, expected).0, later)
    ensures Append(later, streamId, second, expected) ==
            (later, Conflict(expected, |Stream(later, streamId)| + 1))
  {
    var after := Append(streams, streamId, first, expected).0;
    GrewStream(after, later, streamId);
    assert Stream(after, streamId)[expected - 1].eventId == first[0].eventId;
  }

  class MemoryChronicleStore<E(==)> {
    var streams: Streams<E>
    /** Stream ids in the order they were first written. */
    var order: seq<string>

    constructor ()
      ensures Valid() && streams == map[] && order == []
    {
      streams, order := map[], [];
    }

    ghost predicate Valid()
      reads this
    {
      && Numbered(streams)
      && (forall id :: id in order <==> id in streams)
      && (forall i, j :: 0 <= i < j < |order| ==> order[i] != order[j])
      && (forall id :: id in streams ==> streams[id] != [])
    }

    method AppendEvents(streamId: string, events: seq<NewEvent<E>>, expectedSequence: int)
      returns (result: AppendResult<E>)
      requires Valid()
      modifies this
      ensures Valid() && Grew(old(streams), streams)
      ensures (streams, result) == Append(old(streams), streamId, events, expectedSequence)
      ensures order ==
        if streams != old(streams) && streamId !in old(streams) then old(order) + [streamId] else old(order)
    {
      AppendKeeps(streams, streamId, events, expectedSequence);
      if events == [] {
        return Appended([]);
      }
      var stream := Stream(streams, streamId);
      var nextSequence := |stream| + 1;
      if expectedSequence != nextSequence {
        if IsRetry(stream, events, expectedSequence) {
          return Appended(stream[expectedSequence - 1..expectedSequence - 1 + |events|]);
        }
        return Conflict(expectedSequence, nextSequence);
      }
      var stored := Stamp(events, nextSequence);
      if streamId !in streams {
        order := order + [streamId];
      }
      streams := streams[streamId := stream + stored];
      return Appended(stored);
    }
  }
}
