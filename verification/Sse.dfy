/**
 * The incremental Server-Sent Events parser of the client, and the wire format the host writes to it.
 * Text is a sequence of UTF-16 code units; decoding bytes is not part of this model.
 */
module Sse {
  import opened Options

  datatype Frame = Frame(id: Option<string>, event: Option<string>, data: string)

  datatype Boundary = Boundary(index: nat, end: nat)

  const UNIX := "\n\n"
  const WINDOWS := "\r\n\r\n"

  predicate OccursAt(s: string, pat: string, i: nat) {
    i + |pat| <= |s| && s[i..i + |pat|] == pat
  }

  /** The built-in string search: the first occurrence at or after `from`. */
  function IndexOf(s: string, pat: string, from: nat := 0): (r: Option<nat>)
    requires from <= |s|
    ensures r.Some? ==> from <= r.value && OccursAt(s, pat, r.value)
    ensures r.Some? ==> forall i :: from <= i < r.value ==> !OccursAt(s, pat, i)
    ensures r.None? ==> forall i :: from <= i ==> !OccursAt(s, pat, i)
    decreases |s| - from
  {
    if OccursAt(s, pat, from) then Some(from)
    else if from == |s| then None
    else IndexOf(s, pat, from + 1)
  }

  /** A frame boundary of either style starts at `i`. */
  predicate BoundaryAt(s: string, i: nat) {
    OccursAt(s, UNIX, i) || OccursAt(s, WINDOWS, i)
  }

  /** The two styles, character by character; no place starts both. */
  lemma BoundaryCharacters(s: string, i: nat)
    ensures OccursAt(s, UNIX, i) <==> i + 2 <= |s| && s[i] == s[i + 1] == '\n'
    ensures OccursAt(s, WINDOWS, i) <==>
      i + 4 <= |s| && s[i] == '\r' && s[i + 1] == '\n' && s[i + 2] == '\r' && s[i + 3] == '\n'
  {
    if i + 2 <= |s| && s[i] == s[i + 1] == '\n' {
      assert s[i..i + 2] == UNIX;
    }
    if OccursAt(s, UNIX, i) {
      assert s[i] == s[i..i + 2][0] && s[i + 1] == s[i..i + 2][1];
    }
    if OccursAt(s, WINDOWS, i) {
      var t := s[i..i + 4];
      assert s[i] == t[0] && s[i + 1] == t[1] && s[i + 2] == t[2] && s[i + 3] == t[3];
    }
  }

  function FindFrameBoundary(buffer: string): (r: Option<Boundary>)
    ensures r.None? <==> forall i: nat :: !BoundaryAt(buffer, i)
    ensures r.Some? ==>
      && BoundaryAt(buffer, r.value.index)
      && (forall i: nat :: i < r.value.index ==> !BoundaryAt(buffer, i))
      && r.value.end == r.value.index + (if OccursAt(buffer, UNIX, r.value.index) then 2 else 4)
      && r.value.end <= |buffer|
  {
    var unix, windows := IndexOf(buffer, UNIX), IndexOf(buffer, WINDOWS);
    if unix.None? && windows.None? then None
    else if unix.Some? && (windows.None? || unix.value < windows.value) then
      assert BoundaryAt(buffer, unix.value);
      Some(Boundary(unix.value, unix.value + 2))
    else
      BoundaryCharacters(buffer, windows.value);
      assert BoundaryAt(buffer, windows.value);
      Some(Boundary(windows.value, windows.value + 4))
  }

  /* ---------- one frame ---------- */

  /** Splitting at an optional carriage return followed by a line feed. */
  function SplitLines(s: string): (lines: seq<string>)
    ensures |lines| > 0
  {
    match IndexOf(s, "\n")
    case None => [s]
    case Some(i) => [WithoutCarriageReturn(s[..i])] + SplitLines(s[i + 1..])
  }

  function WithoutCarriageReturn(line: string): string {
    if line != [] && line[|line| - 1] == '\r' then line[..|line| - 1] else line
  }

  predicate Ignored(line: string) { line == [] || line[0] == ':' }

  function FieldOf(line: string): string {
    match IndexOf(line, ":") case None => line case Some(i) => line[..i]
  }

  function ValueOf(line: string): string {
    match IndexOf(line, ":")
    case None => ""
    case Some(i) =>
      var raw := line[i + 1..];
      if raw != [] && raw[0] == ' ' then raw[1..] else raw
  }

  /** The values that the lines give to one field, in order. */
  function ValuesOf(lines: seq<string>, field: string): seq<string> {
    if lines == [] then []
    else
      var front, last := lines[..|lines| - 1], lines[|lines| - 1];
      ValuesOf(front, field) + (if !Ignored(last) && FieldOf(last) == field then [ValueOf(last)] else [])
  }

  function LastOf(values: seq<string>): Option<string> {
    if values == [] then None else Some(values[|values| - 1])
  }

  function Join(values: seq<string>): string {
    if values == [] then ""
    else if |values| == 1 then values[0]
    else values[0] + "\n" + Join(values[1..])
  }

  /** What one raw frame means: the last id and event, and all data lines joined; nothing if no field is set. */
  function FrameOf(raw: string): Option<Frame> {
    var lines := SplitLines(raw);
    Assembled(ValuesOf(lines, "id"), ValuesOf(lines, "event"), ValuesOf(lines, "data"))
  }

  function Assembled(ids: seq<string>, events: seq<string>, data: seq<string>): Option<Frame> {
    if ids == [] && events == [] && data == [] then None
    else Some(Frame(LastOf(ids), LastOf(events), Join(data)))
  }

  method ParseFrame(raw: string) returns (r: Option<Frame>)
    ensures r == FrameOf(raw)
  {
    hide SplitLines, Join, ValuesOf, Ignored, FieldOf, ValueOf, LastOf;
    var id: Option<string>, event: Option<string>, data: seq<string> := None, None, [];
    var lines := SplitLines(raw);
    NoValues("id");
    NoValues("event");
    NoValues("data");
    assert lines[..0] == [];
    for k := 0 to |lines|
      invariant id == LastOf(ValuesOf(lines[..k], "id"))
      invariant event == LastOf(ValuesOf(lines[..k], "event"))
      invariant data == ValuesOf(lines[..k], "data")
    {
      var line := lines[k];
      assert lines[..k + 1] == lines[..k] + [line];
      ValuesOfLast(lines[..k], line, "id");
      ValuesOfLast(lines[..k], line, "event");
      ValuesOfLast(lines[..k], line, "data");
      if Ignored(line) {
        continue;
      }
      var field, value := FieldOf(line), ValueOf(line);
      if field == "id" {
        id := Some(value);
      } else if field == "event" {
        event := Some(value);
      } else if field == "data" {
        data := data + [value];
      }
    }
    assert lines[..|lines|] == lines;
    LastOfNone(ValuesOf(lines, "id"));
    LastOfNone(ValuesOf(lines, "event"));
    if id.None? && event.None? && data == [] {
      return None;
    }
    return Some(Frame(id, event, Join(data)));
  }

  lemma NoValues(field: string)
    ensures ValuesOf([], field) == [] && LastOf(ValuesOf([], field)) == None
  {
  }

  lemma LastOfNone(values: seq<string>)
    ensures LastOf(values).None? <==> values == []
  {
  }

  lemma ValuesOfLast(lines: seq<string>, line: string, field: string)
    ensures var own := !Ignored(line) && FieldOf(line) == field;
      && ValuesOf(lines + [line], field) == ValuesOf(lines, field) + (if own then [ValueOf(line)] else [])
      && LastOf(ValuesOf(lines + [line], field)) == if own then Some(ValueOf(line)) else LastOf(ValuesOf(lines, field))
  {
    assert (lines + [line])[..|lines|] == lines;
  }

  /* ---------- what a frame says ---------- */

  /** A line ends with a line feed, and a carriage return before that is no part of it. */
  lemma LinesMean(line: string, rest: string)
    requires '\n' !in line
    ensures var own := if line != [] && line[|line| - 1] == '\r' then line[..|line| - 1] else line;
      SplitLines(line + "\n" + rest) == [own] + SplitLines(rest) && SplitLines(line) == [line]
  {
    hide IndexOf;
    NoOccurrence(line);
    FirstCharacter(line, '\n', rest);
    var s := line + "\n" + rest;
    assert s[..|line|] == line && s[|line| + 1..] == rest;
  }

  /** What a line says: its field before the first colon, and its value after it and at most one space. */
  lemma LineMeans(field: string, value: string)
    requires ':' !in field
    ensures var line := field + ":" + value;
      && FieldOf(line) == field
      && ValueOf(line) == (if value != [] && value[0] == ' ' then value[1..] else value)
      && FieldOf(field) == field && ValueOf(field) == ""
      && (Ignored(line) <==> field == "") && (Ignored(field) <==> field == "")
  {
    hide IndexOf;
    FirstCharacter(field, ':', value);
    var line := field + ":" + value;
    assert line[..|field|] == field && line[|field| + 1..] == value;
    NoColon(field);
    if field != "" { assert field[0] in field; }
  }

  lemma NoColon(s: string)
    requires ':' !in s
    ensures IndexOf(s, ":").None?
  {
    forall i: nat ensures !OccursAt(s, ":", i) { CharacterOccurs(s, ':', i); }
  }

  /** The line is one of the field. */
  predicate Sets(lines: seq<string>, k: int, field: string) {
    0 <= k < |lines| && !Ignored(lines[k]) && FieldOf(lines[k]) == field
  }

  /** Nothing, or what the last line of the field says. */
  ghost predicate SaidLast(lines: seq<string>, field: string, value: Option<string>) {
    && (value.None? <==> forall k :: !Sets(lines, k, field))
    && forall k :: Sets(lines, k, field) && (forall j :: k < j < |lines| ==> !Sets(lines, j, field)) ==>
         value == Some(ValueOf(lines[k]))
  }

  /** The last line of a field is what counts, and without one there is nothing. */
  lemma {:induction false} LastLineCounts(lines: seq<string>, field: string)
    ensures SaidLast(lines, field, LastOf(ValuesOf(lines, field)))
    ensures ValuesOf(lines, field) == [] <==> forall k :: !Sets(lines, k, field)
  {
    hide Ignored, FieldOf, ValueOf;
    if lines != [] {
      var front, last := lines[..|lines| - 1], lines[|lines| - 1];
      LastLineCounts(front, field);
      assert lines == front + [last];
      ValuesOfLast(front, last, field);
      forall k ensures Sets(lines, k, field) <==> Sets(front, k, field) || (k == |front| && Sets(lines, k, field)) {
      }
      if Sets(lines, |front|, field) {
      } else {
        assert forall k :: Sets(lines, k, field) <==> Sets(front, k, field);
      }
    }
  }

  /** A frame is one exactly when some line sets one of its fields; it has the last id and event, and all data. */
  lemma FrameMeans(raw: string)
    ensures FrameOf(raw).Some? <==>
      exists k ::
        Sets(SplitLines(raw), k, "id") || Sets(SplitLines(raw), k, "event") || Sets(SplitLines(raw), k, "data")
    ensures FrameOf(raw).Some? ==>
      && SaidLast(SplitLines(raw), "id", FrameOf(raw).value.id)
      && SaidLast(SplitLines(raw), "event", FrameOf(raw).value.event)
      && FrameOf(raw).value.data == Join(ValuesOf(SplitLines(raw), "data"))
  {
    hide SplitLines, Join, ValuesOf, Sets, LastOf, ValueOf, Assembled;
    var lines := SplitLines(raw);
    LastLineCounts(lines, "id");
    LastLineCounts(lines, "event");
    LastLineCounts(lines, "data");
    AssembledMeans(ValuesOf(lines, "id"), ValuesOf(lines, "event"), ValuesOf(lines, "data"));
  }

  lemma AssembledMeans(ids: seq<string>, events: seq<string>, data: seq<string>)
    ensures var r := Assembled(ids, events, data);
      && (r.Some? <==> ids != [] || events != [] || data != [])
      && (r.Some? ==> r.value.id == LastOf(ids) && r.value.event == LastOf(events) && r.value.data == Join(data))
  {
  }

  /* ---------- the stream ---------- */

  function Emitted(raw: string): seq<Frame> {
    match FrameOf(raw) case None => [] case Some(frame) => [frame]
  }

  /** All frames of a complete text: cut at every first boundary, and the tail is a frame of its own. */
  function Frames(text: string): seq<Frame>
    decreases |text|
  {
    match FindFrameBoundary(text)
    case None => Emitted(text)
    case Some(b) => Emitted(text[..b.index]) + Frames(text[b.end..])
  }

  function Concat(chunks: seq<string>): string {
    if chunks == [] then "" else chunks[0] + Concat(chunks[1..])
  }

  lemma OccursInPrefix(buffer: string, rest: string, pat: string, i: nat)
    requires i + |pat| <= |buffer|
    ensures OccursAt(buffer + rest, pat, i) <==> OccursAt(buffer, pat, i)
  {
    assert (buffer + rest)[i..i + |pat|] == buffer[i..i + |pat|];
  }

  /** A `\r\n\r\n` that the buffer only begins cannot start before a complete boundary. */
  lemma NoLateWindowsBoundary(buffer: string, rest: string, i: nat, k: nat)
    requires BoundaryAt(buffer, k) && i <= k && |buffer| < i + 4
    ensures !OccursAt(buffer + rest, WINDOWS, i) && !OccursAt(buffer, WINDOWS, i)
  {
    BoundaryCharacters(buffer, k);
    BoundaryCharacters(buffer + rest, i);
    BoundaryCharacters(buffer, i);
  }

  /**
   * The boundary found in a buffer is the one found in every text the buffer begins: an incomplete
   * `\r\n\r\n` at the end of the buffer can never start before a complete boundary.
   */
  lemma BoundaryIsStable(buffer: string, rest: string)
    requires FindFrameBoundary(buffer).Some?
    ensures FindFrameBoundary(buffer + rest) == FindFrameBoundary(buffer)
  {
    var k := FindFrameBoundary(buffer).value.index;
    forall i: nat | i <= k
      ensures OccursAt(buffer + rest, UNIX, i) <==> OccursAt(buffer, UNIX, i)
      ensures BoundaryAt(buffer + rest, i) <==> BoundaryAt(buffer, i)
    {
      OccursInPrefix(buffer, rest, UNIX, i);
      if i + 4 <= |buffer| {
        OccursInPrefix(buffer, rest, WINDOWS, i);
      } else {
        NoLateWindowsBoundary(buffer, rest, i, k);
      }
    }
    FirstBoundary(buffer + rest, k);
  }

  lemma FirstBoundary(text: string, k: nat)
    requires BoundaryAt(text, k)
    requires forall i: nat :: i < k ==> !BoundaryAt(text, i)
    ensures FindFrameBoundary(text).Some? && FindFrameBoundary(text).value.index == k
  {
  }

  /** Cutting a frame off the buffer is cutting it off the whole text. */
  lemma FramesStep(buffer: string, rest: string)
    requires FindFrameBoundary(buffer).Some?
    ensures var b := FindFrameBoundary(buffer).value;
      Frames(buffer + rest) == Emitted(buffer[..b.index]) + Frames(buffer[b.end..] + rest)
  {
    var b := FindFrameBoundary(buffer).value;
    BoundaryIsStable(buffer, rest);
    assert (buffer + rest)[..b.index] == buffer[..b.index];
    assert (buffer + rest)[b.end..] == buffer[b.end..] + rest;
  }

  lemma FramesOfTail(text: string)
    requires FindFrameBoundary(text).None?
    ensures Frames(text) == Emitted(text)
  {
  }

  lemma Reassociate(a: seq<Frame>, b: seq<Frame>, c: seq<Frame>)
    ensures (a + b) + c == a + (b + c)
  {
  }

  method YieldFrame(frames: seq<Frame>, raw: string) returns (r: seq<Frame>)
    ensures r == frames + Emitted(raw)
  {
    r := frames;
    var frame := ParseFrame(raw);
    if frame.Some? {
      r := r + [frame.value];
    }
  }

  /** Reading the text in any chunks yields the frames of the whole text. */
  method ParseSseStream(chunks: seq<string>) returns (frames: seq<Frame>)
    ensures frames == Frames(Concat(chunks))
  {
    hide Frames, FindFrameBoundary, Emitted, IndexOf;
    var buffer := "";
    frames := [];
    assert chunks[0..] == chunks && "" + Concat(chunks) == Concat(chunks);
    for k := 0 to |chunks|
      invariant FindFrameBoundary(buffer).None?
      invariant frames + Frames(buffer + Concat(chunks[k..])) == Frames(Concat(chunks))
    {
      ghost var rest := Concat(chunks[k + 1..]);
      assert buffer + Concat(chunks[k..]) == (buffer + chunks[k]) + rest;
      buffer := buffer + chunks[k];
      var boundary := FindFrameBoundary(buffer);
      while boundary.Some?
        invariant boundary == FindFrameBoundary(buffer)
        invariant frames + Frames(buffer + rest) == Frames(Concat(chunks))
        decreases |buffer|
      {
        FramesStep(buffer, rest);
        var b := boundary.value;
        Reassociate(frames, Emitted(buffer[..b.index]), Frames(buffer[b.end..] + rest));
        frames := YieldFrame(frames, buffer[..b.index]);
        buffer := buffer[b.end..];
        boundary := FindFrameBoundary(buffer);
      }
    }
    assert buffer + Concat(chunks[|chunks|..]) == buffer;
    FramesOfTail(buffer);
    frames := YieldFrame(frames, buffer);
  }

  /* ---------- the host's side of the wire ---------- */

  /** What the host writes on the stream: a thread event, or a heartbeat comment. */
  datatype Write = Event(id: string, name: string, json: string) | Heartbeat

  /** Sequence numbers, event names and JSON texts contain no raw line breaks. */
  predicate OneLine(s: string) { '\n' !in s && '\r' !in s }

  predicate Writable(w: Write) { w.Event? ==> OneLine(w.id) && OneLine(w.name) && OneLine(w.json) }

  function Lines(w: Write): seq<string> {
    match w
    case Event(id, name, json) => ["id: " + id, "event: " + name, "data: " + json]
    case Heartbeat => [": heartbeat"]
  }

  function Encode(writes: seq<Write>): string {
    if writes == [] then "" else Join(Lines(writes[0])) + UNIX + Encode(writes[1..])
  }

  function Delivered(writes: seq<Write>): seq<Frame> {
    if writes == [] then []
    else
      (match writes[0]
       case Event(id, name, json) => [Frame(Some(id), Some(name), json)]
       case Heartbeat => []) + Delivered(writes[1..])
  }

  lemma SplitJoined(lines: seq<string>)
    requires lines != [] && forall k :: 0 <= k < |lines| ==> OneLine(lines[k])
    ensures SplitLines(Join(lines)) == lines
  {
    hide SplitLines;
    if |lines| == 1 {
      SplitFirst(lines[0], "");
    } else {
      SplitFirst(lines[0], Join(lines[1..]));
      SplitJoined(lines[1..]);
    }
  }

  lemma SplitFirst(line: string, rest: string)
    requires OneLine(line)
    ensures SplitLines(line) == [line]
    ensures SplitLines(line + "\n" + rest) == [line] + SplitLines(rest)
  {
    hide IndexOf;
    NoOccurrence(line);
    FirstCharacter(line, '\n', rest);
    var s := line + "\n" + rest;
    assert s[..|line|] == line && s[|line| + 1..] == rest;
    assert line != [] ==> line[|line| - 1] in line;
  }

  lemma CharacterOccurs(s: string, c: char, i: nat)
    ensures OccursAt(s, [c], i) <==> i < |s| && s[i] == c
  {
    if i < |s| {
      assert s[i..i + 1] == [s[i]];
    }
  }

  lemma NoOccurrence(s: string)
    requires '\n' !in s
    ensures IndexOf(s, "\n").None?
  {
    forall i: nat ensures !OccursAt(s, "\n", i) { CharacterOccurs(s, '\n', i); }
  }

  /** The first occurrence of a character that the text before it does not contain. */
  lemma FirstCharacter(line: string, c: char, rest: string)
    requires c !in line
    ensures IndexOf(line + [c] + rest, [c]) == Some(|line|)
  {
    var s := line + [c] + rest;
    forall i: nat | i <= |line| ensures OccursAt(s, [c], i) <==> i == |line| {
      CharacterOccurs(s, c, i);
      if i < |line| {
        assert s[i] == line[i] && line[i] in line;
      }
    }
    assert OccursAt(s, [c], |line|);
  }

  lemma LineFields(field: string, value: string)
    requires field == "id" || field == "event" || field == "data"
    ensures var line := field + ": " + value; !Ignored(line) && FieldOf(line) == field && ValueOf(line) == value
  {
    var line := field + ": " + value;
    assert line == field + [':'] + (" " + value);
    FirstCharacter(field, ':', " " + value);
    assert line[..|field|] == field && line[|field| + 1..] == " " + value;
  }

  lemma ParsedWrite(w: Write)
    requires Writable(w)
    ensures Emitted(Join(Lines(w))) ==
      match w case Event(id, name, json) => [Frame(Some(id), Some(name), json)] case Heartbeat => []
  {
    hide SplitLines, Join, ValuesOf, Assembled;
    SplitJoined(Lines(w));
    match w
    case Heartbeat =>
      HeartbeatValues("id");
      HeartbeatValues("event");
      HeartbeatValues("data");
      AssembledNone();
    case Event(id, name, json) =>
      EventValues(id, name, json, "id");
      EventValues(id, name, json, "event");
      EventValues(id, name, json, "data");
      AssembledOne(id, name, json);
  }

  lemma AssembledNone()
    ensures Assembled([], [], []) == None
  {
  }

  lemma AssembledOne(id: string, name: string, json: string)
    ensures Assembled([id], [name], [json]) == Some(Frame(Some(id), Some(name), json))
  {
  }

  lemma HeartbeatValues(field: string)
    ensures ValuesOf(Lines(Heartbeat), field) == []
  {
    assert Lines(Heartbeat)[..0] == [];
  }

  lemma EventValues(id: string, name: string, json: string, field: string)
    requires field == "id" || field == "event" || field == "data"
    ensures ValuesOf(Lines(Event(id, name, json)), field) ==
      [if field == "id" then id else if field == "event" then name else json]
  {
    hide Ignored, FieldOf, ValueOf, ValuesOf, LastOf;
    var a, b, c := "id: " + id, "event: " + name, "data: " + json;
    WrittenLine("id: ", "id", id);
    WrittenLine("event: ", "event", name);
    WrittenLine("data: ", "data", json);
    assert |"id"| == 2 && |"event"| == 5 && |"data"| == 4;
    ThreeValues(a, b, c, field);
  }

  lemma WrittenLine(prefix: string, field: string, value: string)
    requires prefix == field + ": " && (field == "id" || field == "event" || field == "data")
    ensures var line := prefix + value; !Ignored(line) && FieldOf(line) == field && ValueOf(line) == value
  {
    hide Ignored, FieldOf, ValueOf;
    LineFields(field, value);
  }

  lemma ThreeValues(a: string, b: string, c: string, field: string)
    ensures ValuesOf([a, b, c], field) == OwnValue(a, field) + OwnValue(b, field) + OwnValue(c, field)
  {
    hide Ignored, FieldOf, ValueOf, ValuesOf, LastOf;
    ValuesOfLast([], a, field);
    ValuesOfLast([a], b, field);
    ValuesOfLast([a, b], c, field);
    assert [] + [a] == [a] && [a] + [b] == [a, b] && [a, b] + [c] == [a, b, c];
    NoValues(field);
  }

  function OwnValue(line: string, field: string): seq<string> {
    if !Ignored(line) && FieldOf(line) == field then [ValueOf(line)] else []
  }

  /** A written frame ends at its own blank line: nothing inside it is a boundary. */
  lemma BoundaryOfWrite(w: Write, rest: string)
    requires Writable(w)
    ensures var raw := Join(Lines(w));
      FindFrameBoundary(raw + UNIX + rest) == Some(Boundary(|raw|, |raw| + 2))
  {
    var raw := Join(Lines(w));
    var text := raw + UNIX + rest;
    forall i: nat | i < |raw| ensures !BoundaryAt(text, i) {
      BoundaryCharacters(text, i);
      NoBreakPairs(w, i);
    }
    BoundaryCharacters(text, |raw|);
    FirstBoundary(text, |raw|);
  }

  lemma NoBreakPairs(w: Write, i: nat)
    requires Writable(w) && i < |Join(Lines(w))|
    ensures var raw := Join(Lines(w)); raw[i] != '\r' && (raw[i] == '\n' ==> i + 1 < |raw| && raw[i + 1] != '\n')
  {
    if w.Event? {
      var a, b, c := "id: " + w.id, "event: " + w.name, "data: " + w.json;
      assert Join(Lines(w)[1..]) == b + "\n" + c;
      assert Join(Lines(w)) == a + "\n" + (b + "\n" + c);
      assert OneLine(a) && OneLine(b) && OneLine(c);
      var raw := a + "\n" + (b + "\n" + c);
      assert raw[|a| + 1] == 'e' && raw[|a| + |b| + 2] == 'd';
      if i < |a| {
        assert raw[i] == a[i] && a[i] in a;
      } else if |a| < i < |a| + 1 + |b| {
        assert raw[i] == b[i - |a| - 1] && b[i - |a| - 1] in b;
      } else if |a| + 1 + |b| < i {
        assert raw[i] == c[i - |a| - |b| - 2] && c[i - |a| - |b| - 2] in c;
      }
    }
  }

  /** Every event the host writes arrives once, in order and unchanged, and heartbeats leave no trace. */
  lemma {:induction false} WireRoundTrip(writes: seq<Write>)
    requires forall w :: w in writes ==> Writable(w)
    ensures Frames(Encode(writes)) == Delivered(writes)
  {
    hide Lines, Join, Emitted, FindFrameBoundary, Writable, Frames;
    if writes == [] {
      NothingWritten();
    } else {
      var w, rest := writes[0], Encode(writes[1..]);
      BoundaryOfWrite(w, rest);
      ParsedWrite(w);
      WireRoundTrip(writes[1..]);
      FirstFrame(Join(Lines(w)), rest);
    }
  }

  lemma NothingWritten()
    ensures Frames("") == []
  {
    assert SplitLines("") == [""];
    assert [""][..0] == [];
  }

  /** A text that is cut at its own blank line is one frame and then the rest. */
  lemma FirstFrame(raw: string, rest: string)
    requires FindFrameBoundary(raw + UNIX + rest) == Some(Boundary(|raw|, |raw| + 2))
    ensures Frames(raw + UNIX + rest) == Emitted(raw) + Frames(rest)
  {
    hide Emitted, FindFrameBoundary;
    var text := raw + UNIX + rest;
    assert text[..|raw|] == raw && text[|raw| + 2..] == rest;
  }

  /** The round trip through any network chunking. */
  method Receive(writes: seq<Write>, chunks: seq<string>) returns (frames: seq<Frame>)
    requires forall w :: w in writes ==> Writable(w)
    requires Concat(chunks) == Encode(writes)
    ensures frames == Delivered(writes)
  {
    frames := ParseSseStream(chunks);
    WireRoundTrip(writes);
  }
}
