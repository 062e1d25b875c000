/** The repair script for hand-made sessions: it drops the lines that are
    blank or do not parse, puts a file-history snapshot first when the
    session has none, and adds the metadata fields Claude Code expects.
    The fresh UUIDs are parameters; the backup rename and the writing of
    the file are not modelled. */
module FixSession {
  import opened Base
  import opened Json
  import opened Seqs
  import SessionWriter

  type TextLine = SessionWriter.TextLine

  const SnapshotType := Str("file-history-snapshot")
  const DefaultTimestamp := "2025-10-29T10:00:00.000Z"

  /** The outcome of the script: `Crashed` is the `AttributeError` raised
      when a line parses as JSON that is not an object. */
  datatype Outcome = NotFound | NoMessages | Crashed | Fixed(lines: seq<Json>)

  function ParsedOf(l: TextLine): Option<Json> {
    if l.JsonLine? then Some(l.value) else None
  }

  /** The lines the script reads. */
  function Parsed(lines: seq<TextLine>): seq<Json> {
    FilterMap(lines, ParsedOf)
  }

  /** The reading loop: blank and undecodable lines are skipped. */
  method ReadLines(lines: seq<TextLine>) returns (ms: seq<Json>)
    ensures ms == Parsed(lines)
    ensures forall m :: m in ms <==> exists i :: 0 <= i < |lines| && lines[i] == SessionWriter.JsonLine(m)
  {
    ms := [];
    var i := 0;
    while i < |lines|
      invariant 0 <= i <= |lines|
      invariant ms == Parsed(lines[..i])
      invariant forall m :: m in ms <==> exists j :: 0 <= j < i && lines[j] == SessionWriter.JsonLine(m)
    {
      assert lines[..i + 1][..i] == lines[..i];
      if lines[i].JsonLine? {
        ms := ms + [lines[i].value];
      }
      i := i + 1;
    }
    assert lines[..i] == lines;
  }

  function TypeOf(m: Json): Option<Json> { Get(m, "type") }

  predicate IsSnapshot(m: Json) { TypeOf(m) == Some(SnapshotType) }

  predicate HasSnapshot(ms: seq<Json>) { exists i :: 0 <= i < |ms| && IsSnapshot(ms[i]) }

  /** The snapshot put first: it names the first line's uuid (or a fresh
      one) and takes its timestamp (or a fixed default). */
  function SnapshotFor(first: Json, freshUuid: string): (r: Json)
    ensures IsSnapshot(r)
  {
    var id := Get(first, "uuid").GetOr(Str(freshUuid));
    Obj(map["type" := SnapshotType, "messageId" := id,
            "snapshot" := Obj(map["messageId" := id, "trackedFileBackups" := Obj(map[]),
                                  "timestamp" := Get(first, "timestamp").GetOr(Str(DefaultTimestamp))]),
            "isSnapshotUpdate" := Bool(false)])
  }

  function Patch(fields: map<string, Json>, key: string, value: Json, when: bool): map<string, Json> {
    if when && key !in fields then fields[key := value] else fields
  }

  /** The fix of one line: snapshots are kept as they are; otherwise a
      present version becomes 2.0.28, and user and assistant lines get the
      git branch, the request id and the thinking metadata they lack. */
  function FixMessage(m: Json, hex: string): (r: Json)
    requires m.Obj?
    ensures r.Obj?
  {
    if IsSnapshot(m) then m
    else
      var ty := TypeOf(m);
      var isUser := ty == Some(Str("user"));
      var isAssistant := ty == Some(Str("assistant"));
      var f0 := m.fields;
      var f1 := if "version" in f0 then f0["version" := Str("2.0.28")] else f0;
      var f2 := Patch(f1, "gitBranch", Str("main"), isUser || isAssistant);
      var f3 := Patch(f2, "requestId", Str("req_" + hex), isAssistant);
      Obj(Patch(f3, "thinkingMetadata", SessionWriter.ThinkingMetadata, isUser))
  }

  predicate AllObjects(ms: seq<Json>) { forall i :: 0 <= i < |ms| ==> ms[i].Obj? }

  /** The output lines for parsed objects `ms`. */
  function FixedLines(ms: seq<Json>, freshUuid: string, hexes: nat -> string): (r: seq<Json>)
    requires |ms| > 0 && AllObjects(ms)
    ensures AllObjects(r)
    ensures |r| >= |ms|
  {
    var head := if HasSnapshot(ms) then [] else [SnapshotFor(ms[0], freshUuid)];
    var fixes := seq(|ms|, k requires 0 <= k < |ms| => FixMessage(ms[k], hexes(k)));
    assert forall i :: 0 <= i < |head| ==> head[i].Obj?;
    assert forall j :: 0 <= j < |fixes| ==> fixes[j] == FixMessage(ms[j], hexes(j)) && fixes[j].Obj?;
    assert forall i :: |head| <= i < |head + fixes| ==> (head + fixes)[i] == fixes[i - |head|];
    head + fixes
  }

  /** What `fix_session` produces. */
  function FixOf(exists_: bool, lines: seq<TextLine>, freshUuid: string, hexes: nat -> string): (r: Outcome)
    ensures r.Fixed? <==> exists_ && |Parsed(lines)| > 0 && AllObjects(Parsed(lines))
    ensures r.Fixed? ==> HasSnapshot(r.lines) && AllObjects(r.lines) && |r.lines| >= |Parsed(lines)|
  {
    var ms := Parsed(lines);
    if !exists_ then NotFound
    else if |ms| == 0 then NoMessages
    else if !AllObjects(ms) then Crashed
    else
      FixedHasSnapshot(ms, freshUuid, hexes);
      Fixed(FixedLines(ms, freshUuid, hexes))
  }

  /** `any(msg.get('type') == 'file-history-snapshot' for msg in lines)`. */
  method AnySnapshot(ms: seq<Json>) returns (found: bool)
    requires AllObjects(ms)
    ensures found == HasSnapshot(ms)
  {
    found := false;
    var i := 0;
    while i < |ms| && !found
      invariant 0 <= i <= |ms|
      invariant found ==> HasSnapshot(ms)
      invariant !found ==> forall j :: 0 <= j < i ==> !IsSnapshot(ms[j])
    {
      found := IsSnapshot(ms[i]);
      i := i + 1;
    }
  }

  /** `fix_session`. */
  method FixSessionFile(exists_: bool, lines: seq<TextLine>, freshUuid: string, hexes: nat -> string) returns (r: Outcome)
    ensures r == FixOf(exists_, lines, freshUuid, hexes)
  {
    if !exists_ {
      return NotFound;
    }
    var ms := ReadLines(lines);
    if |ms| == 0 {
      return NoMessages;
    }
    var k := 0;
    while k < |ms|
      invariant 0 <= k <= |ms|
      invariant forall j :: 0 <= j < k ==> ms[j].Obj?
    {
      if !ms[k].Obj? {
        return Crashed;
      }
      k := k + 1;
    }
    var hasSnapshot := AnySnapshot(ms);
    var fixedLines: seq<Json> := [];
    if !hasSnapshot {
      fixedLines := [SnapshotFor(ms[0], freshUuid)];
    }
    var head := fixedLines;
    var i := 0;
    while i < |ms|
      invariant 0 <= i <= |ms|
      invariant fixedLines == head + seq(i, k requires 0 <= k < i => FixMessage(ms[k], hexes(k)))
    {
      fixedLines := fixedLines + [FixMessage(ms[i], hexes(i))];
      i := i + 1;
    }
    r := Fixed(fixedLines);
  }

  // ---------------------------------------------------------------- properties

  /** A fixed line keeps every key it had, and the value of every key other
      than `version`. */
  lemma FixKeepsFields(m: Json, hex: string)
    requires m.Obj?
    ensures var r := FixMessage(m, hex);
      && m.fields.Keys <= r.fields.Keys
      && forall k :: k in m.fields && k != "version" ==> r.fields[k] == m.fields[k]
  {
  }

  /** What a fixed user or assistant line then carries. */
  lemma FixAddsMetadata(m: Json, hex: string)
    requires m.Obj? && !IsSnapshot(m)
    ensures var r := FixMessage(m, hex).fields;
      && ("version" in m.fields ==> r["version"] == Str("2.0.28"))
      && (TypeOf(m) == Some(Str("user")) || TypeOf(m) == Some(Str("assistant")) ==> "gitBranch" in r)
      && (TypeOf(m) == Some(Str("assistant")) ==> "requestId" in r)
      && (TypeOf(m) == Some(Str("user")) ==> "thinkingMetadata" in r)
      && ("requestId" !in m.fields && TypeOf(m) == Some(Str("assistant")) ==> r["requestId"] == Str("req_" + hex))
      && ("gitBranch" !in m.fields && (TypeOf(m) == Some(Str("user")) || TypeOf(m) == Some(Str("assistant"))) ==>
            r["gitBranch"] == Str("main"))
      && ("thinkingMetadata" !in m.fields && TypeOf(m) == Some(Str("user")) ==>
            r["thinkingMetadata"] == SessionWriter.ThinkingMetadata)
  {
  }

  /** Nothing else is added: a line that is neither user nor assistant
      gains no key, `version` is never added, and `requestId` only goes on
      assistant lines. */
  lemma FixAddsOnly(m: Json, hex: string)
    requires m.Obj?
    ensures var r := FixMessage(m, hex).fields;
      var isUser := TypeOf(m) == Some(Str("user"));
      var isAssistant := TypeOf(m) == Some(Str("assistant"));
      && r.Keys <= m.fields.Keys + (if isUser || isAssistant then {"gitBranch"} else {})
                   + (if isAssistant then {"requestId"} else {}) + (if isUser then {"thinkingMetadata"} else {})
      && (!isUser && !isAssistant ==> r.Keys == m.fields.Keys)
      && ("version" !in m.fields ==> "version" !in r)
      && (!isAssistant ==> ("requestId" in r <==> "requestId" in m.fields))
  {
  }

  /** Fixing a fixed line again changes nothing, whatever UUID it is given. */
  lemma FixMessageIdempotent(m: Json, hex1: string, hex2: string)
    requires m.Obj?
    ensures FixMessage(FixMessage(m, hex1), hex2) == FixMessage(m, hex1)
  {
    if !IsSnapshot(m) {
      var r := FixMessage(m, hex1);
      assert TypeOf(r) == TypeOf(m);
      assert r.fields.Keys >= m.fields.Keys;
      if "version" in r.fields {
        assert r.fields["version"] == Str("2.0.28");
        assert r.fields["version" := Str("2.0.28")] == r.fields;
      }
    }
  }

  /** The repaired session starts with a snapshot, and has one line more
      than was read exactly when the snapshot was added. */
  lemma FixedHasSnapshot(ms: seq<Json>, freshUuid: string, hexes: nat -> string)
    requires |ms| > 0 && AllObjects(ms)
    ensures var r := FixedLines(ms, freshUuid, hexes);
      && HasSnapshot(r)
      && |r| == |ms| + (if HasSnapshot(ms) then 0 else 1)
      && (!HasSnapshot(ms) ==> r[0] == SnapshotFor(ms[0], freshUuid))
  {
    var r := FixedLines(ms, freshUuid, hexes);
    if HasSnapshot(ms) {
      var i :| 0 <= i < |ms| && IsSnapshot(ms[i]);
      assert r[i] == FixMessage(ms[i], hexes(i)) == ms[i];
    } else {
      assert IsSnapshot(r[0]);
    }
  }

  /** A fixed line is a snapshot exactly when the line it came from is. */
  lemma FixKeepsSnapshots(m: Json, hex: string)
    requires m.Obj?
    ensures IsSnapshot(FixMessage(m, hex)) <==> IsSnapshot(m)
  {
  }

  /** Line `i` of the output: the added snapshot, or the fix of a line read. */
  lemma FixedLineAt(ms: seq<Json>, freshUuid: string, hexes: nat -> string, i: nat)
    requires |ms| > 0 && AllObjects(ms)
    requires i < |FixedLines(ms, freshUuid, hexes)|
    ensures var skip := if HasSnapshot(ms) then 0 else 1;
      FixedLines(ms, freshUuid, hexes)[i]
        == if i < skip then SnapshotFor(ms[0], freshUuid) else FixMessage(ms[i - skip], hexes(i - skip))
  {
  }

  /** Every output line is an object that a second fix leaves alone. */
  lemma FixedLineStable(ms: seq<Json>, freshUuid: string, hexes: nat -> string, i: nat, hex: string)
    requires |ms| > 0 && AllObjects(ms)
    requires i < |FixedLines(ms, freshUuid, hexes)|
    ensures var m := FixedLines(ms, freshUuid, hexes)[i];
      m.Obj? && FixMessage(m, hex) == m
  {
    FixedLineAt(ms, freshUuid, hexes, i);
    var skip := if HasSnapshot(ms) then 0 else 1;
    if i >= skip {
      FixMessageIdempotent(ms[i - skip], hexes(i - skip), hex);
    }
  }

  /** Running the script on its own output changes nothing more. */
  lemma FixIdempotent(ms: seq<Json>, freshUuid: string, hexes: nat -> string, freshUuid2: string, hexes2: nat -> string)
    requires |ms| > 0 && AllObjects(ms)
    ensures var once := FixedLines(ms, freshUuid, hexes);
      AllObjects(once) && FixedLines(once, freshUuid2, hexes2) == once
  {
    var once := FixedLines(ms, freshUuid, hexes);
    FixedHasSnapshot(ms, freshUuid, hexes);
    forall i | 0 <= i < |once|
      ensures once[i].Obj? && FixMessage(once[i], hexes2(i)) == once[i]
    {
      FixedLineStable(ms, freshUuid, hexes, i, hexes2(i));
    }
    var fixes := seq(|once|, k requires 0 <= k < |once| => FixMessage(once[k], hexes2(k)));
    assert FixedLines(once, freshUuid2, hexes2) == [] + fixes;
    assert fixes == once;
  }

  /** The script fails on an empty or all-blank file, and crashes on a
      line that is JSON but not an object. */
  lemma FixErrors(lines: seq<TextLine>, freshUuid: string, hexes: nat -> string)
    ensures Parsed(lines) == [] ==> FixOf(true, lines, freshUuid, hexes) == NoMessages
    ensures Parsed(lines) != [] && (exists i :: 0 <= i < |Parsed(lines)| && !Parsed(lines)[i].Obj?) ==>
      FixOf(true, lines, freshUuid, hexes) == Crashed
    ensures FixOf(false, lines, freshUuid, hexes) == NotFound
  {
  }
}
