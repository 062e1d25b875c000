/** The Codex CLI adapter: rollout file names, the event records of a rollout
    file, and their conversion to `UniversalMessage`. */
module CodexAdapter {
  import opened Base
  import opened Json
  import opened Strings
  import opened Seqs
  import opened Universal

  /** One line of a rollout file. Only `type` is required. */
  datatype CodexEvent = CodexEvent(
    id: Option<string>,
    timestamp: Option<string>,
    event_type: string,
    payload: Option<Json>,
    internal: Option<Json>,
    environment_context: Option<Json>,
    execution_context: Option<Json>)

  function DecodeCodexEvent(j: Json): (r: Option<CodexEvent>)
    ensures r.Some? ==> GetStr(j, "type") == Some(r.value.event_type)
  {
    if !j.Obj? then None
    else
      var id :- OptStr(j, "id");
      var ts :- OptStr(j, "timestamp");
      var ty :- ReqStr(j, "type");
      Some(CodexEvent(id, ts, ty, OptValue(j, "payload"), OptValue(j, "internal"),
                      OptValue(j, "environment_context"), OptValue(j, "execution_context")))
  }

  function OptJson(o: Option<string>): Json {
    match o case Some(s) => Str(s) case None => Null
  }

  function OrNull(o: Option<Json>): Json {
    match o case Some(v) => v case None => Null
  }

  /** `json!(event)`: every field is written, `None` as null. */
  function CodexEventJson(e: CodexEvent): Json {
    Obj(map["id" := OptJson(e.id), "timestamp" := OptJson(e.timestamp), "type" := Str(e.event_type),
            "payload" := OrNull(e.payload), "internal" := OrNull(e.internal),
            "environment_context" := OrNull(e.environment_context),
            "execution_context" := OrNull(e.execution_context)])
  }

  /** The optional JSON fields never hold an explicit null once decoded. */
  predicate NoNullFields(e: CodexEvent) {
    e.payload != Some(Null) && e.internal != Some(Null)
    && e.environment_context != Some(Null) && e.execution_context != Some(Null)
  }

  /** The serialised event stored in the metadata decodes back to the event. */
  lemma CodexEventRoundTrip(e: CodexEvent)
    requires NoNullFields(e)
    ensures DecodeCodexEvent(CodexEventJson(e)) == Some(e)
  {
    var j := CodexEventJson(e);
    assert OptStr(j, "id") == Some(e.id);
    assert OptStr(j, "timestamp") == Some(e.timestamp);
    assert ReqStr(j, "type") == Some(e.event_type);
    assert OptValue(j, "payload") == e.payload;
    assert OptValue(j, "internal") == e.internal;
    assert OptValue(j, "environment_context") == e.environment_context;
    assert OptValue(j, "execution_context") == e.execution_context;
  }

  /** A decoded event has no explicit null in its optional fields. */
  lemma DecodedHasNoNulls(j: Json)
    requires DecodeCodexEvent(j).Some?
    ensures NoNullFields(DecodeCodexEvent(j).value)
  {
  }

  // ---------------------------------------------------------------- file names

  /** `\d` here is an ASCII digit. */
  predicate TimestampShape(t: string) {
    |t| == 19
    && (forall i :: 0 <= i < 19 ==>
          if i == 4 || i == 7 || i == 13 || i == 16 then t[i] == '-'
          else if i == 10 then t[i] == 'T'
          else IsDigit(t[i]))
  }

  /** `[a-f0-9-]`. */
  predicate IsUuidChar(c: char) { IsDigit(c) || 'a' <= c <= 'f' || c == '-' }

  predicate IsUuidRun(u: string) { |u| > 0 && forall i :: 0 <= i < |u| ==> IsUuidChar(u[i]) }

  const RolloutPrefix := "rollout-"
  const RolloutSuffix := ".jsonl"

  /** `^rollout-(\d{4}-\d{2}-\d{2}T\d{2}-\d{2}-\d{2})-([a-f0-9-]+)\.jsonl$`.
      Every part but the uuid run has a fixed width, and the run cannot hold
      the '.' of the suffix, so the match is decided by position. */
  function ParseRolloutFilename(name: string): (r: Option<(string, string)>)
    ensures r.Some? ==> TimestampShape(r.value.0) && IsUuidRun(r.value.1)
    ensures r.Some? ==> name == RolloutPrefix + r.value.0 + "-" + r.value.1 + RolloutSuffix
  {
    if |name| >= 35 && name[..8] == RolloutPrefix && name[|name| - 6..] == RolloutSuffix
       && TimestampShape(name[8..27]) && name[27] == '-' && IsUuidRun(name[28..|name| - 6])
    then
      assert name == name[..8] + name[8..27] + "-" + name[28..|name| - 6] + name[|name| - 6..];
      Some((name[8..27], name[28..|name| - 6]))
    else None
  }

  /** Every well-formed rollout name parses back to its timestamp and uuid. */
  lemma RolloutRoundTrip(t: string, u: string)
    requires TimestampShape(t) && IsUuidRun(u)
    ensures ParseRolloutFilename(RolloutPrefix + t + "-" + u + RolloutSuffix) == Some((t, u))
  {
    var name := RolloutPrefix + t + "-" + u + RolloutSuffix;
    assert name[..8] == RolloutPrefix;
    assert name[8..27] == t;
    assert name[27] == '-';
    assert name[28..|name| - 6] == u;
    assert name[|name| - 6..] == RolloutSuffix;
  }

  /** The adapter's tests: a valid name (written in its five parts), and
      three names too short to match. */
  lemma RolloutExamples()
    ensures ParseRolloutFilename("rollout-" + "2025-01-27T14-30-45" + "-" + "a1b2c3d4-e5f6-7890-abcd-ef1234567890" + ".jsonl")
      == Some(("2025-01-27T14-30-45", "a1b2c3d4-e5f6-7890-abcd-ef1234567890"))
    ensures ParseRolloutFilename("invalid.jsonl").None?
    ensures ParseRolloutFilename("rollout-2025.jsonl").None?
    ensures ParseRolloutFilename("rollout-2025-01-27.jsonl").None?
  {
    var t := "2025-01-27T14-30-45";
    var u := "a1b2c3d4-e5f6-7890-abcd-ef1234567890";
    assert TimestampShape(t);
    assert IsUuidRun(u);
    RolloutRoundTrip(t, u);
  }

  // ---------------------------------------------------------------- session id and cwd

  /** `internal.session.id` when it is a string, else the file name's uuid. */
  function SessionIdOf(event: CodexEvent, filenameUuid: string): (r: string)
    ensures event.internal.Some? && Get(event.internal.value, "session").Some?
              && GetStr(Get(event.internal.value, "session").value, "id").Some?
            ==> r == GetStr(Get(event.internal.value, "session").value, "id").value
    ensures (event.internal.None? || Get(event.internal.value, "session").None?
             || GetStr(Get(event.internal.value, "session").value, "id").None?)
            ==> r == filenameUuid
  {
    match event.internal
    case Some(internal) =>
      (match Get(internal, "session")
       case Some(session) => GetStr(session, "id").GetOr(filenameUuid)
       case None => filenameUuid)
    case None => filenameUuid
  }

  /** `environment_context.cwd` first, then `execution_context.working_directory`. */
  function CwdOf(event: CodexEvent): (r: Option<string>)
    ensures event.environment_context.Some? && GetStr(event.environment_context.value, "cwd").Some?
            ==> r == GetStr(event.environment_context.value, "cwd")
    ensures r.None? <==> ((event.environment_context.None? || GetStr(event.environment_context.value, "cwd").None?)
                          && (event.execution_context.None?
                              || GetStr(event.execution_context.value, "working_directory").None?))
    ensures r.Some? && (event.environment_context.None? || GetStr(event.environment_context.value, "cwd").None?)
            ==> r == GetStr(event.execution_context.value, "working_directory")
  {
    var env := if event.environment_context.Some? then GetStr(event.environment_context.value, "cwd") else None;
    var exec := if event.execution_context.Some? then GetStr(event.execution_context.value, "working_directory") else None;
    env.Or(exec)
  }

  /** The adapter's session-id and cwd tests. */
  lemma SessionIdAndCwdExamples(e: CodexEvent)
    requires e.internal.None? && e.environment_context.None? && e.execution_context.None?
    ensures SessionIdOf(e.(internal := Some(Obj(map["session" := Obj(map["id" := Str("session-from-internal")])]))),
                        "fallback-uuid") == "session-from-internal"
    ensures SessionIdOf(e, "filename-uuid-123") == "filename-uuid-123"
    ensures CwdOf(e.(environment_context := Some(Obj(map["cwd" := Str("/env/path")])),
                     execution_context := Some(Obj(map["working_directory" := Str("/exec/path")]))))
      == Some("/env/path")
    ensures CwdOf(e.(execution_context := Some(Obj(map["working_directory" := Str("/exec/path")]))))
      == Some("/exec/path")
    ensures CwdOf(e).None?
  {
  }

  // ---------------------------------------------------------------- line loop

  /** A line as the reader yields it: its text, or the read error. */
  predicate IsReadError(line: Result<string>) { line.Err? }

  /** The event a line contributes: none for a read error, a blank line, or
      a line that does not decode. */
  function LineEventOf(parse: string -> Option<Json>, line: Result<string>): (r: Option<CodexEvent>)
    ensures r.Some? <==> (line.Ok? && Trim(line.value) != "" && parse(line.value).Some?
                          && DecodeCodexEvent(parse(line.value).value).Some?)
    ensures r.Some? ==> r == DecodeCodexEvent(parse(line.value).value)
  {
    if line.Err? || Trim(line.value) == "" then None
    else match parse(line.value)
      case Some(j) => DecodeCodexEvent(j)
      case None => None
  }

  function LineEvent(parse: string -> Option<Json>): Result<string> -> Option<CodexEvent> {
    (line: Result<string>) => LineEventOf(parse, line)
  }

  /** The whole file: the first read error aborts with its 1-based line number;
      otherwise the decoded events in file order. */
  function CodexEventsOf(lines: seq<Result<string>>, parse: string -> Option<Json>): Result<seq<CodexEvent>> {
    match FindIndex(lines, IsReadError)
    case Some(i) => Err("CODEX_READ_ERROR: Line " + NatToString(i + 1) + ": Read error: " + lines[i].error)
    case None => Ok(FilterMap(lines, LineEvent(parse)))
  }

  /** `parse_codex_jsonl` over the lines already read from the file. */
  method ParseCodexJsonl(lines: seq<Result<string>>, parse: string -> Option<Json>) returns (r: Result<seq<CodexEvent>>)
    ensures r == CodexEventsOf(lines, parse)
  {
    var events: seq<CodexEvent> := [];
    var i := 0;
    while i < |lines|
      invariant 0 <= i <= |lines|
      invariant forall j :: 0 <= j < i ==> !IsReadError(lines[j])
      invariant events == FilterMap(lines[..i], LineEvent(parse))
    {
      FilterMapStep(lines, LineEvent(parse), i);
      if lines[i].Err? {
        FindIndexAt(lines, IsReadError, i);
        return Err("CODEX_READ_ERROR: Line " + NatToString(i + 1) + ": Read error: " + lines[i].error);
      }
      var e := LineEvent(parse)(lines[i]);
      if e.Some? {
        events := events + [e.value];
      }
      i := i + 1;
    }
    assert lines[..i] == lines;
    r := Ok(events);
  }

  /** Blank and undecodable lines never abort the load: without a read error
      the load succeeds, every event comes from a line that yields it, in
      order, and every line that yields an event contributes it. */
  lemma CodexEventsTolerant(lines: seq<Result<string>>, parse: string -> Option<Json>)
    requires forall i :: 0 <= i < |lines| ==> lines[i].Ok?
    ensures CodexEventsOf(lines, parse).Ok?
    ensures forall k :: 0 <= k < |CodexEventsOf(lines, parse).value| ==>
      exists i :: 0 <= i < |lines| && LineEventOf(parse, lines[i]) == Some(CodexEventsOf(lines, parse).value[k])
    ensures forall i :: 0 <= i < |lines| && LineEventOf(parse, lines[i]).Some? ==>
      LineEventOf(parse, lines[i]).value in CodexEventsOf(lines, parse).value
  {
    var events := FilterMap(lines, LineEvent(parse));
    assert CodexEventsOf(lines, parse) == Ok(events);
    forall k | 0 <= k < |events|
      ensures exists i :: 0 <= i < |lines| && LineEventOf(parse, lines[i]) == Some(events[k])
    {
      FilterMapFrom(lines, LineEvent(parse), k);
    }
    forall i | 0 <= i < |lines| && LineEventOf(parse, lines[i]).Some?
      ensures LineEventOf(parse, lines[i]).value in events
    {
      FilterMapTo(lines, LineEvent(parse), i);
    }
  }

  // ---------------------------------------------------------------- role and content

  /** A string `payload.role` decides alone (unknown values are Assistant);
      without one the event type decides, defaulting to Assistant. */
  function DetermineRole(event: CodexEvent): (r: MessageRole)
    ensures PayloadRole(event).Some? ==>
      r == (match PayloadRole(event).value
            case "user" => User
            case "system" => System
            case _ => Assistant)
    ensures PayloadRole(event).None? ==> r == EventTypeRole(event.event_type)
    ensures r != Function
  {
    match PayloadRole(event)
    case Some(role) =>
      (match role
       case "user" => User
       case "assistant" => Assistant
       case "system" => System
       case _ => Assistant)
    case None => EventTypeRole(event.event_type)
  }

  function PayloadRole(event: CodexEvent): Option<string> {
    if event.payload.Some? then GetStr(event.payload.value, "role") else None
  }

  /** The event-type table. */
  function EventTypeRole(t: string): (r: MessageRole)
    ensures r == User <==> t in {"user_message", "user_input", "user"}
    ensures r == System <==> t in {"system_message", "system"}
    ensures r != Function
  {
    match t
    case "user_message" => User
    case "user_input" => User
    case "user" => User
    case "assistant_message" => Assistant
    case "assistant_response" => Assistant
    case "assistant" => Assistant
    case "system_message" => System
    case "system" => System
    case _ => Assistant
  }

  /** The adapter's role test. */
  lemma RoleExamples(e: CodexEvent)
    requires e.payload.None?
    ensures DetermineRole(e.(event_type := "user_message")) == User
    ensures DetermineRole(e.(event_type := "assistant_response")) == Assistant
    ensures DetermineRole(e.(event_type := "system")) == System
  {
  }

  /** An element of array content contributes a text item iff it has a string `text`. */
  function TextItem(item: Json): (r: Option<UniversalContent>)
    ensures r.Some? <==> GetStr(item, "text").Some?
    ensures r.Some? ==> r.value == PlainText(GetStr(item, "text").value)
  {
    match GetStr(item, "text")
    case Some(text) => Some(PlainText(text))
    case None => None
  }

  /** An array `payload.content` gives one text item per element with a
      string `text`; a string content gives one item; anything else none. */
  function CodexContentOf(event: CodexEvent): (r: seq<UniversalContent>)
    ensures event.payload.None? ==> r == []
    ensures forall c :: c in r ==> c.content_type == Text
    ensures event.payload.Some? && Get(event.payload.value, "content").Some? && Get(event.payload.value, "content").value.Str?
      ==> r == [PlainText(Get(event.payload.value, "content").value.s)]
    ensures event.payload.Some? && Get(event.payload.value, "content").Some? && Get(event.payload.value, "content").value.Arr?
      ==> r == FilterMap(Get(event.payload.value, "content").value.items, TextItem)
    ensures event.payload.Some? && (Get(event.payload.value, "content").None?
                                    || !(Get(event.payload.value, "content").value.Str? || Get(event.payload.value, "content").value.Arr?))
      ==> r == []
  {
    match event.payload
    case None => []
    case Some(payload) =>
      match Get(payload, "content")
      case Some(Arr(items)) => TextItemsAreText(items); FilterMap(items, TextItem)
      case Some(Str(text)) => [PlainText(text)]
      case _ => []
  }

  lemma TextItemsAreText(items: seq<Json>)
    ensures forall c :: c in FilterMap(items, TextItem) ==> c.content_type == Text
  {
    var r := FilterMap(items, TextItem);
    forall c | c in r ensures c.content_type == Text {
      var k :| 0 <= k < |r| && r[k] == c;
      FilterMapFrom(items, TextItem, k);
    }
  }

  /** Array content: exactly one item per element that carries text. */
  lemma ArrayContentCount(event: CodexEvent, items: seq<Json>)
    requires event.payload.Some? && Get(event.payload.value, "content") == Some(Arr(items))
    ensures |CodexContentOf(event)| == Count(items, HasText)
  {
    FilterMapLength(items, TextItem, HasText);
  }

  /** Each item of array content is the plain text of an element that
      carries text. */
  lemma ArrayContentItems(items: seq<Json>, k: nat)
    requires k < |FilterMap(items, TextItem)|
    ensures exists i :: 0 <= i < |items| && HasText(items[i]) && FilterMap(items, TextItem)[k] == PlainText(GetStr(items[i], "text").value)
  {
    FilterMapFrom(items, TextItem, k);
  }

  predicate HasText(item: Json) { GetStr(item, "text").Some? }

  /** `convert_content`: the element loop. */
  method ConvertContent(event: CodexEvent) returns (items: seq<UniversalContent>)
    ensures items == CodexContentOf(event)
  {
    items := [];
    if event.payload.Some? {
      var content := Get(event.payload.value, "content");
      if content.Some? && content.value.Arr? {
        var elements := content.value.items;
        var i := 0;
        while i < |elements|
          invariant 0 <= i <= |elements|
          invariant items == FilterMap(elements[..i], TextItem)
        {
          assert elements[..i + 1][..i] == elements[..i];
          var text := GetStr(elements[i], "text");
          if text.Some? {
            items := items + [PlainText(text.value)];
          }
          i := i + 1;
        }
        assert elements[..i] == elements;
      } else if content.Some? && content.value.Str? {
        items := [PlainText(content.value.s)];
      }
    }
  }

  // ---------------------------------------------------------------- conversion

  /** What the metadata holds under each key: the file path, the event type
      and the serialised event always; the cwd and the file size when known. */
  function CodexMetadataEntry(event: CodexEvent, filePath: string, fileSize: Option<nat>, key: string): Option<Json> {
    match key
    case "filePath" => Some(Str(filePath))
    case "eventType" => Some(Str(event.event_type))
    case "cwd" => (match CwdOf(event) case Some(c) => Some(Str(c)) case None => None)
    case "fileSizeBytes" => (match fileSize case Some(n) => Some(Int(n)) case None => None)
    case "originalEvent" => Some(CodexEventJson(event))
    case _ => None
  }

  const CodexMetadataKeys: set<string> := {"filePath", "eventType", "cwd", "fileSizeBytes", "originalEvent"}

  function CodexMetadata(event: CodexEvent, filePath: string, fileSize: Option<nat>): (m: map<string, Json>)
    ensures m.Keys <= CodexMetadataKeys
    ensures "filePath" in m && "eventType" in m && "originalEvent" in m
  {
    map k | k in CodexMetadataKeys && CodexMetadataEntry(event, filePath, fileSize, k).Some?
      :: CodexMetadataEntry(event, filePath, fileSize, k).value
  }

  /** Each key holds exactly its entry, and the keys are the camelCase ones. */
  lemma CodexMetadataEntries(event: CodexEvent, filePath: string, fileSize: Option<nat>, key: string)
    ensures key in CodexMetadata(event, filePath, fileSize) <==> CodexMetadataEntry(event, filePath, fileSize, key).Some?
    ensures key in CodexMetadata(event, filePath, fileSize)
      ==> CodexMetadata(event, filePath, fileSize)[key] == CodexMetadataEntry(event, filePath, fileSize, key).value
  {
  }

  /** The message `codex_event_to_universal` builds, as a value. */
  function CodexMessage(event: CodexEvent, projectId: string, sourceId: string, sequenceNumber: int,
                        filePath: string, fileSize: Option<nat>, now: string): UniversalMessage
  {
    UniversalMessage(
      event.id.GetOr("codex-" + IntToString(sequenceNumber)), "", projectId, sourceId, "codex",
      event.timestamp.GetOr(now), sequenceNumber,
      DetermineRole(event), Message, CodexContentOf(event),
      None, None, None, if event.payload.Some? then GetStr(event.payload.value, "model") else None,
      None, None, None, None, None,
      "codex_jsonl", CodexMetadata(event, filePath, fileSize))
  }

  /** `codex_event_to_universal`. The file size (`fs::metadata`) and the
      current time are inputs. */
  method CodexEventToUniversal(event: CodexEvent, projectId: string, sourceId: string, sequenceNumber: int,
                               filePath: string, fileSize: Option<nat>, now: string)
    returns (r: UniversalMessage)
    ensures r.id == event.id.GetOr("codex-" + IntToString(sequenceNumber))
    ensures r.session_id == "" && r.project_id == projectId && r.source_id == sourceId
    ensures r.provider_id == "codex" && r.original_format == "codex_jsonl"
    ensures r.timestamp == event.timestamp.GetOr(now) && r.sequence_number == sequenceNumber
    ensures r.role == DetermineRole(event) && r.message_type == Message
    ensures r.content == CodexContentOf(event)
    ensures r.model == (if event.payload.Some? then GetStr(event.payload.value, "model") else None)
    ensures r.parent_id.None? && r.depth.None? && r.branch_id.None? && r.tokens.None?
    ensures r.tool_calls.None? && r.thinking.None? && r.attachments.None? && r.errors.None?
    ensures r.provider_metadata == CodexMetadata(event, filePath, fileSize)
    ensures r == CodexMessage(event, projectId, sourceId, sequenceNumber, filePath, fileSize, now)
  {
    var content := ConvertContent(event);
    var model := if event.payload.Some? then GetStr(event.payload.value, "model") else None;
    r := UniversalMessage(
      event.id.GetOr("codex-" + IntToString(sequenceNumber)), "", projectId, sourceId, "codex",
      event.timestamp.GetOr(now), sequenceNumber,
      DetermineRole(event), Message, content,
      None, None, None, model, None, None, None, None, None,
      "codex_jsonl", CodexMetadata(event, filePath, fileSize));
  }
}
