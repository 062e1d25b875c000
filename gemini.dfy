/** The Gemini CLI adapter: one JSON file per session, whose `projectHash`
    (a SHA-256 of the working directory) is resolved through a table seeded
    from other providers' sessions. The hash function is a parameter and is
    not assumed injective. */
module Gemini {
  import opened Base
  import opened Json
  import opened Strings
  import opened Universal
  import Seqs
  import Paths

  // ---------------------------------------------------------------- records

  datatype GeminiSession = GeminiSession(
    session_id: Option<string>,
    project_hash: Option<string>,
    start_time: Option<string>,
    last_updated: Option<string>,
    model: Option<string>,
    messages: Option<seq<Json>>,
    history: Option<seq<Json>>)

  datatype GeminiMessage = GeminiMessage(
    message_type: Option<string>,
    role: Option<string>,
    content: Option<Json>,
    timestamp: Option<string>,
    id: Option<string>,
    uuid: Option<string>,
    parent_id: Option<string>,
    model: Option<string>,
    name: Option<string>,
    tool: Option<string>,
    input: Option<Json>,
    output: Option<Json>)

  /** An `Option<Vec<Value>>` field: absent or null is `None`, an array is
      kept, anything else fails the record. */
  function OptArray(j: Json, key: string): (r: Decoded<Option<seq<Json>>>)
    ensures r == Some(None) <==> Get(j, key).None? || Get(j, key) == Some(Null)
    ensures r.Some? && r.value.Some? <==> GetArr(j, key).Some?
  {
    match Get(j, key)
    case None => Some(None)
    case Some(Null) => Some(None)
    case Some(Arr(items)) => Some(Some(items))
    case Some(_) => None
  }

  function DecodeGeminiSession(j: Json): (r: Option<GeminiSession>)
    ensures r.Some? ==> j.Obj?
  {
    if !j.Obj? then None
    else
      var sid :- OptStr(j, "sessionId");
      var hash :- OptStr(j, "projectHash");
      var start :- OptStr(j, "startTime");
      var last :- OptStr(j, "lastUpdated");
      var model :- OptStr(j, "model");
      var messages :- OptArray(j, "messages");
      var history :- OptArray(j, "history");
      Some(GeminiSession(sid, hash, start, last, model, messages, history))
  }

  function DecodeGeminiMessage(j: Json): (r: Option<GeminiMessage>)
    ensures r.Some? ==> j.Obj? && r.value.content == OptValue(j, "content")
  {
    if !j.Obj? then None
    else
      var ty :- OptStr(j, "type");
      var role :- OptStr(j, "role");
      var ts :- OptStr(j, "timestamp");
      var id :- OptStr(j, "id");
      var uuid :- OptStr(j, "uuid");
      var parent :- OptStr(j, "parentId");
      var model :- OptStr(j, "model");
      var name :- OptStr(j, "name");
      var tool :- OptStr(j, "tool");
      Some(GeminiMessage(ty, role, OptValue(j, "content"), ts, id, uuid, parent, model, name, tool,
                         OptValue(j, "input"), OptValue(j, "output")))
  }

  /** Every field is optional: an empty object is a message with nothing set,
      and a non-object is no message. */
  lemma DecodeGeminiMessageShapes(j: Json)
    ensures DecodeGeminiMessage(Obj(map[]))
      == Some(GeminiMessage(None, None, None, None, None, None, None, None, None, None, None, None))
    ensures !j.Obj? ==> DecodeGeminiMessage(j).None?
    ensures DecodeGeminiMessage(Obj(map["role" := Int(1)])).None?
  {
    var e := Obj(map[]);
    assert OptStr(e, "type") == Some(None) && OptStr(e, "role") == Some(None);
    assert OptStr(e, "timestamp") == Some(None) && OptStr(e, "id") == Some(None);
    assert OptStr(e, "uuid") == Some(None) && OptStr(e, "parentId") == Some(None);
    assert OptStr(e, "model") == Some(None) && OptStr(e, "name") == Some(None);
    assert OptStr(e, "tool") == Some(None);
    var bad := Obj(map["role" := Int(1)]);
    assert OptStr(bad, "type") == Some(None);
    assert OptStr(bad, "role").None?;
  }

  // ---------------------------------------------------------------- hash resolver

  /** `normalize_path`: backslashes become slashes, then lowercase. */
  function NormalizePath(path: string): (r: string)
    ensures |r| == |path|
    ensures forall i :: 0 <= i < |r| ==> r[i] != '\\' && !('A' <= r[i] <= 'Z')
    ensures forall i :: 0 <= i < |r| ==> r[i] == LowerChar(if path[i] == '\\' then '/' else path[i])
  {
    Lower(ReplaceChar(path, '\\', '/'))
  }

  /** Normalising twice changes nothing more. */
  lemma NormalizeIdempotent(path: string)
    ensures NormalizePath(NormalizePath(path)) == NormalizePath(path)
  {
    var n := NormalizePath(path);
    assert forall i :: 0 <= i < |n| ==> LowerChar(if n[i] == '\\' then '/' else n[i]) == n[i];
  }

  /** A Windows spelling and a Unix spelling of one directory share a key. */
  lemma NormalizeExample()
    ensures NormalizePath("C:\\Work\\App") == NormalizePath("c:/work/app") == "c:/work/app"
  {
  }

  /** The table after `register(cwd)`: the original spelling under the hash of
      the normalised one. */
  function Registered(table: map<string, string>, hash: string -> string, cwd: string): (t: map<string, string>)
    ensures t.Keys == table.Keys + {hash(NormalizePath(cwd))}
    ensures t[hash(NormalizePath(cwd))] == cwd
    ensures forall k :: k in table && k != hash(NormalizePath(cwd)) ==> t[k] == table[k]
  {
    table[hash(NormalizePath(cwd)) := cwd]
  }

  /** A later path with the same normalised form replaces the earlier one. */
  lemma RegisterLaterWins(table: map<string, string>, hash: string -> string, p: string, q: string)
    requires NormalizePath(p) == NormalizePath(q)
    ensures Registered(Registered(table, hash, p), hash, q) == Registered(table, hash, q)
  {
  }

  /** The string `cwd` a session's metadata carries, if any. */
  function SessionCwd(s: UniversalSession): Option<string> {
    if "cwd" in s.metadata && s.metadata["cwd"].Str? then Some(s.metadata["cwd"].s) else None
  }

  /** The table after `seed_from_sessions`: each session with a string cwd,
      in order, is registered. */
  function Seeded(table: map<string, string>, hash: string -> string, sessions: seq<UniversalSession>): (r: map<string, string>)
    ensures table.Keys <= r.Keys
    ensures forall k :: k in r && (k !in table || r[k] != table[k]) ==> IsSessionCwd(sessions, r[k])
    decreases |sessions|
  {
    if |sessions| == 0 then table
    else
      var init := sessions[..|sessions| - 1];
      var before := Seeded(table, hash, init);
      CwdsOfPrefix(sessions);
      match SessionCwd(sessions[|sessions| - 1])
      case Some(cwd) =>
        assert IsSessionCwd(sessions, cwd) by { assert SessionCwd(sessions[|sessions| - 1]) == Some(cwd); }
        Registered(before, hash, cwd)
      case None => before
  }

  /** `cwd` is the cwd of one of the sessions. */
  predicate IsSessionCwd(sessions: seq<UniversalSession>, cwd: string) {
    exists i :: 0 <= i < |sessions| && SessionCwd(sessions[i]) == Some(cwd)
  }

  lemma CwdsOfPrefix(sessions: seq<UniversalSession>)
    requires |sessions| > 0
    ensures forall cwd :: IsSessionCwd(sessions[..|sessions| - 1], cwd) ==> IsSessionCwd(sessions, cwd)
  {
    forall cwd | IsSessionCwd(sessions[..|sessions| - 1], cwd)
      ensures IsSessionCwd(sessions, cwd)
    {
      var i :| 0 <= i < |sessions| - 1 && SessionCwd(sessions[..|sessions| - 1][i]) == Some(cwd);
      assert sessions[..|sessions| - 1][i] == sessions[i];
    }
  }

  /** The keys seeding adds are exactly the hashes of the sessions' cwds. */
  lemma {:induction false} SeededKeys(table: map<string, string>, hash: string -> string, sessions: seq<UniversalSession>)
    ensures Seeded(table, hash, sessions).Keys == table.Keys +
      (set i | 0 <= i < |sessions| && SessionCwd(sessions[i]).Some? :: hash(NormalizePath(SessionCwd(sessions[i]).value)))
    decreases |sessions|
  {
    if |sessions| > 0 {
      var init := sessions[..|sessions| - 1];
      SeededKeys(table, hash, init);
      assert forall i :: 0 <= i < |init| ==> init[i] == sessions[i];
    }
  }

  /** A key is held by the last session whose cwd hashes to it. */
  lemma {:induction false} SeededLastWins(table: map<string, string>, hash: string -> string,
                                           sessions: seq<UniversalSession>, i: nat)
    requires i < |sessions| && SessionCwd(sessions[i]).Some?
    requires forall j :: i < j < |sessions| && SessionCwd(sessions[j]).Some? ==>
      hash(NormalizePath(SessionCwd(sessions[j]).value)) != hash(NormalizePath(SessionCwd(sessions[i]).value))
    ensures var k := hash(NormalizePath(SessionCwd(sessions[i]).value));
      k in Seeded(table, hash, sessions) && Seeded(table, hash, sessions)[k] == SessionCwd(sessions[i]).value
    decreases |sessions|
  {
    if i < |sessions| - 1 {
      var init := sessions[..|sessions| - 1];
      assert init[i] == sessions[i];
      assert forall j :: i < j < |init| ==> init[j] == sessions[j];
      SeededLastWins(table, hash, init, i);
    }
  }

  /** A key no session's cwd hashes to keeps its earlier value. */
  lemma {:induction false} SeededUntouched(table: map<string, string>, hash: string -> string,
                                            sessions: seq<UniversalSession>, k: string)
    requires k in table
    requires forall j :: 0 <= j < |sessions| && SessionCwd(sessions[j]).Some? ==>
      hash(NormalizePath(SessionCwd(sessions[j]).value)) != k
    ensures k in Seeded(table, hash, sessions) && Seeded(table, hash, sessions)[k] == table[k]
    decreases |sessions|
  {
    if |sessions| > 0 {
      var init := sessions[..|sessions| - 1];
      assert forall j :: 0 <= j < |init| ==> init[j] == sessions[j];
      SeededUntouched(table, hash, init, k);
    }
  }

  /** `GeminiHashResolver`: hash of a normalised working directory → the
      directory as last registered (a later spelling of the same
      normalised path replaces an earlier one). */
  class GeminiHashResolver {
    var table: map<string, string>
    const hash: string -> string

    /** `new`: an empty table. */
    constructor(hash: string -> string)
      ensures table == map[] && this.hash == hash
    {
      table := map[];
      this.hash := hash;
    }

    /** `resolve`: the registered path for a hash, if any. */
    function Resolve(h: string): (r: Option<string>)
      reads this
      ensures r.Some? <==> h in table
      ensures r.Some? ==> r.value == table[h]
    {
      if h in table then Some(table[h]) else None
    }

    method Register(cwd: string)
      modifies this
      ensures table == Registered(old(table), hash, cwd)
      ensures Resolve(hash(NormalizePath(cwd))) == Some(cwd)
    {
      table := table[hash(NormalizePath(cwd)) := cwd];
    }

    method SeedFromSessions(sessions: seq<UniversalSession>)
      modifies this
      ensures table == Seeded(old(table), hash, sessions)
    {
      var i := 0;
      while i < |sessions|
        invariant 0 <= i <= |sessions|
        invariant table == Seeded(old(table), hash, sessions[..i])
      {
        assert sessions[..i + 1][..i] == sessions[..i];
        var cwd := SessionCwd(sessions[i]);
        if cwd.Some? {
          Register(cwd.value);
        }
        i := i + 1;
      }
      assert sessions[..i] == sessions;
    }
  }

  // ---------------------------------------------------------------- text

  /** `extract_text_from_content`: a string is its own text, an object its
      string "text", an array the first element (depth first) with text. */
  function ExtractText(content: Json): (r: Option<string>)
    ensures content.Str? ==> r == Some(content.s)
    ensures content.Obj? ==> r == GetStr(content, "text")
    ensures !content.Str? && !content.Obj? && !content.Arr? ==> r.None?
    decreases content
  {
    match content
    case Str(s) => Some(s)
    case Obj(_) => GetStr(content, "text")
    case Arr(items) => FirstText(items)
    case _ => None
  }

  /** The text of the first item that has one. */
  function FirstText(items: seq<Json>): (r: Option<string>)
    ensures r.Some? ==> exists i :: (0 <= i < |items| && ExtractText(items[i]) == r
                                     && forall j :: 0 <= j < i ==> ExtractText(items[j]).None?)
    ensures r.None? ==> forall i :: 0 <= i < |items| ==> ExtractText(items[i]).None?
    decreases items
  {
    if |items| == 0 then None
    else match ExtractText(items[0])
      case Some(t) => Some(t)
      case None =>
        var rest := FirstText(items[1..]);
        assert forall i :: 0 < i < |items| ==> items[1..][i - 1] == items[i];
        rest
  }

  /** Nested arrays are searched depth first. */
  lemma ExtractTextNested()
    ensures ExtractText(Arr([Int(1), Arr([Obj(map[]), Str("deep")]), Str("later")])) == Some("deep")
  {
    var inner := [Obj(map[]), Str("deep")];
    assert ExtractText(Obj(map[])).None?;
    assert FirstText(inner[1..]) == Some("deep");
    assert ExtractText(Arr(inner)) == Some("deep");
    var outer := [Int(1), Arr(inner), Str("later")];
    assert outer[1..][0] == Arr(inner);
  }

  /** The name the role and title code read: `role`, else `type`. */
  function RoleName(m: GeminiMessage): Option<string> { m.role.Or(m.message_type) }

  predicate IsUserName(s: string) { s == "user" || s == "human" }

  /** The message at which `extract_first_user_text` stops looking: the first
      decodable one that has no role name, or whose name is a user's. */
  predicate StopsSearch(j: Json) {
    match DecodeGeminiMessage(j)
    case None => false
    case Some(m) => RoleName(m).None? || IsUserName(RoleName(m).value)
  }

  /** What the search returns at the message where it stops. */
  function StopText(j: Json): Option<string> {
    match DecodeGeminiMessage(j)
    case None => None
    case Some(m) =>
      if RoleName(m).None? || m.content.None? then None else ExtractText(m.content.value)
  }

  /** `extract_first_user_text`: the loop with its early returns. */
  function FirstUserText(messages: seq<Json>): (r: Option<string>)
    ensures r.Some? ==> exists i :: 0 <= i < |messages| && UserTextAt(messages[i], r.value)
    decreases |messages|
  {
    if |messages| == 0 then None
    else match DecodeGeminiMessage(messages[0])
      case None =>
        var r := FirstUserText(messages[1..]);
        UserTextInTail(messages, r);
        r
      case Some(m) =>
        match RoleName(m)
        case None => None
        case Some(name) =>
          if IsUserName(name) then (if m.content.None? then None else ExtractText(m.content.value))
          else
            var r := FirstUserText(messages[1..]);
            UserTextInTail(messages, r);
            r
  }

  /** `j` is a user message whose content has the text `t`. */
  predicate UserTextAt(j: Json, t: string) {
    && DecodeGeminiMessage(j).Some?
    && RoleName(DecodeGeminiMessage(j).value).Some? && IsUserName(RoleName(DecodeGeminiMessage(j).value).value)
    && DecodeGeminiMessage(j).value.content.Some? && ExtractText(DecodeGeminiMessage(j).value.content.value) == Some(t)
  }

  lemma UserTextInTail(messages: seq<Json>, r: Option<string>)
    requires |messages| > 0
    requires r.Some? ==> exists i :: 0 <= i < |messages| - 1 && UserTextAt(messages[1..][i], r.value)
    ensures r.Some? ==> exists i :: 0 <= i < |messages| && UserTextAt(messages[i], r.value)
  {
    if r.Some? {
      var i :| 0 <= i < |messages| - 1 && UserTextAt(messages[1..][i], r.value);
      assert messages[1..][i] == messages[i + 1];
    }
  }

  /** The search yields the text of the first message it stops at, and
      nothing when it never stops. */
  lemma {:induction false} FirstUserTextStops(messages: seq<Json>)
    ensures FirstUserText(messages) == match FindFirst(messages) case Some(i) => StopText(messages[i]) case None => None
    decreases |messages|
  {
    if |messages| > 0 && !StopsSearch(messages[0]) {
      FirstUserTextStops(messages[1..]);
      FindFirstTail(messages);
    }
  }

  function FindFirst(messages: seq<Json>): (r: Option<nat>)
    ensures r.Some? ==> (r.value < |messages| && StopsSearch(messages[r.value])
                         && forall j :: 0 <= j < r.value ==> !StopsSearch(messages[j]))
    ensures r.None? ==> forall j :: 0 <= j < |messages| ==> !StopsSearch(messages[j])
    decreases |messages|
  {
    if |messages| == 0 then None
    else if StopsSearch(messages[0]) then Some(0)
    else match FindFirst(messages[1..])
      case Some(k) => Some(k + 1)
      case None => None
  }

  lemma FindFirstTail(messages: seq<Json>)
    requires |messages| > 0 && !StopsSearch(messages[0])
    ensures match FindFirst(messages[1..])
      case Some(k) => FindFirst(messages) == Some(k + 1) && messages[1..][k] == messages[k + 1]
      case None => FindFirst(messages).None?
  {
  }

  // ---------------------------------------------------------------- roles, types, content, tools

  /** The role table over the name `role`, else `type`, else "assistant". */
  function RoleOfName(name: string): (r: MessageRole)
    ensures r == User <==> IsUserName(name)
    ensures r == System <==> name == "system"
    ensures r == Function <==> name == "tool" || name == "tool_result"
  {
    match name
    case "user" => User
    case "human" => User
    case "gemini" => Assistant
    case "model" => Assistant
    case "assistant" => Assistant
    case "system" => System
    case "tool" => Function
    case "tool_result" => Function
    case _ => Assistant
  }

  function GeminiRole(m: GeminiMessage): (r: MessageRole)
    ensures m.role.None? && m.message_type.None? ==> r == Assistant
    ensures m.role.Some? ==> r == RoleOfName(m.role.value)
    ensures m.role.None? && m.message_type.Some? ==> r == RoleOfName(m.message_type.value)
  {
    RoleOfName(RoleName(m).GetOr("assistant"))
  }

  /** error→Error, summary→Summary, every other type (tool ones included) a
      plain message. */
  function GeminiType(m: GeminiMessage): (r: MessageType)
    ensures r == Error <==> m.message_type == Some("error")
    ensures r == Summary <==> m.message_type == Some("summary")
    ensures r == Error || r == Summary || r == Message
  {
    match m.message_type.GetOr("message")
    case "error" => Error
    case "summary" => Summary
    case _ => Message
  }

  /** Gemini's text item: no MIME type, sized by UTF-8 length. */
  function GeminiText(text: string): UniversalContent {
    UniversalContent(Text, Obj(map["text" := Str(text)]), None, None, Some(Utf8Len(text)), None)
  }

  /** `convert_gemini_content`: at most one text item, present iff the
      content yields text. */
  function GeminiContent(m: GeminiMessage): (r: seq<UniversalContent>)
    ensures |r| <= 1
    ensures |r| == 1 <==> m.content.Some? && ExtractText(m.content.value).Some?
    ensures |r| == 1 ==> (r[0].content_type == Text
                          && GetStr(r[0].data, "text") == ExtractText(m.content.value)
                          && r[0].size == Some(Utf8Len(ExtractText(m.content.value).value)))
  {
    if m.content.Some? then
      match ExtractText(m.content.value)
      case Some(text) => [GeminiText(text)]
      case None => []
    else []
  }

  predicate IsToolType(m: GeminiMessage) {
    m.message_type == Some("tool_use") || m.message_type == Some("tool_call")
  }

  /** `convert_gemini_tool_calls`: one successful call for a tool-typed
      message with a `name` (else `tool`); its input is the object given, or
      empty. `freshId` stands for the fresh uuid in its id. */
  function GeminiToolCalls(m: GeminiMessage, freshId: string): (r: Option<seq<ToolCall>>)
    ensures r.Some? <==> IsToolType(m) && m.name.Or(m.tool).Some?
    ensures r.Some? ==> (|r.value| == 1 && r.value[0].status == Success
                         && r.value[0].name == m.name.Or(m.tool).value
                         && r.value[0].id == "tool-" + freshId
                         && r.value[0].output.None? && r.value[0].error.None?
                         && r.value[0].input == (if m.input.Some? && m.input.value.Obj? then m.input.value.fields else map[]))
  {
    if IsToolType(m) then
      match m.name.Or(m.tool)
      case None => None
      case Some(name) =>
        var input := if m.input.Some? && m.input.value.Obj? then m.input.value.fields else map[];
        Some([ToolCall("tool-" + freshId, name, input, None, None, Success)])
    else None
  }

  /** A `name` is preferred over `tool`. */
  lemma ToolNamePriority(m: GeminiMessage, freshId: string)
    requires IsToolType(m) && m.name.Some? && m.tool.Some?
    ensures GeminiToolCalls(m, freshId).value[0].name == m.name.value
  {
  }

  // ---------------------------------------------------------------- message

  const MessageParseError := "Failed to parse Gemini message"

  /** `gemini_message_to_universal`. `now` and `freshId` stand for the clock
      and the fresh uuid. */
  function GeminiMessageToUniversal(value: Json, sessionId: string, projectId: string, sourceId: string,
                                    sequenceNumber: int, now: string, freshId: string): (r: Result<UniversalMessage>)
    ensures r.Err? <==> DecodeGeminiMessage(value).None?
    ensures r.Err? ==> r.error == MessageParseError
  {
    match DecodeGeminiMessage(value)
    case None => Err(MessageParseError)
    case Some(m) =>
      var originalType := match m.message_type case Some(t) => Str(t) case None => Null;
      Ok(UniversalMessage(
        m.id.Or(m.uuid).GetOr("gemini-" + IntToString(sequenceNumber)),
        sessionId, projectId, sourceId, "gemini",
        m.timestamp.GetOr(now), sequenceNumber,
        GeminiRole(m), GeminiType(m), GeminiContent(m),
        m.parent_id, None, None, m.model, None, GeminiToolCalls(m, freshId), None, None, None,
        "gemini_json",
        map["original_type" := originalType, "raw_content" := value]))
  }

  /** The id is `id`, else `uuid`, else "gemini-<seq>"; role, type, content
      and tool calls follow the rules above, and parent and model are
      copied; the metadata keeps the original type (or null) and the raw
      value; there are no tokens, thinking, errors or attachments. */
  lemma GeminiMessageFields(value: Json, sessionId: string, projectId: string, sourceId: string,
                            sequenceNumber: int, now: string, freshId: string)
    requires DecodeGeminiMessage(value).Some?
    ensures var m := DecodeGeminiMessage(value).value;
      var r := GeminiMessageToUniversal(value, sessionId, projectId, sourceId, sequenceNumber, now, freshId).value;
      && (m.id.Some? ==> r.id == m.id.value)
      && (m.id.None? && m.uuid.Some? ==> r.id == m.uuid.value)
      && (m.id.None? && m.uuid.None? ==> r.id == "gemini-" + IntToString(sequenceNumber))
      && r.timestamp == m.timestamp.GetOr(now)
      && r.session_id == sessionId && r.sequence_number == sequenceNumber
      && r.provider_id == "gemini" && r.original_format == "gemini_json"
      && r.provider_metadata.Keys == {"original_type", "raw_content"}
      && r.provider_metadata["raw_content"] == value
      && r.tokens.None? && r.thinking.None? && r.errors.None? && r.depth.None?
      && r.branch_id.None? && r.attachments.None?
      && r.parent_id == m.parent_id
      && r.project_id == projectId && r.source_id == sourceId
      && r.role == GeminiRole(m) && r.message_type == GeminiType(m)
      && r.content == GeminiContent(m) && r.tool_calls == GeminiToolCalls(m, freshId)
      && r.model == m.model
      && (m.message_type.Some? ==> r.provider_metadata["original_type"] == Str(m.message_type.value))
      && (m.message_type.None? ==> r.provider_metadata["original_type"] == Null)
  {
  }

  // ---------------------------------------------------------------- session

  const UntitledSession := "Untitled Session"

  /** The message list: `messages`, else `history`, else none. */
  function SessionMessages(s: GeminiSession): seq<Json> { s.messages.Or(s.history).GetOr([]) }

  /** What the session metadata holds under each key. */
  function SessionMetadataEntry(s: GeminiSession, filePath: string, cwd: Option<string>,
                                fileSize: Option<nat>, key: string): Option<Json> {
    match key
    case "filePath" => Some(Str(filePath))
    case "projectHash" => (match s.project_hash case Some(h) => Some(Str(h)) case None => None)
    case "cwd" => (match cwd case Some(c) => Some(Str(c)) case None => None)
    case "model" => (match s.model case Some(m) => Some(Str(m)) case None => None)
    case "fileSizeBytes" => (match fileSize case Some(n) => Some(Int(UsizeAsI32(n))) case None => None)
    case _ => None
  }

  const SessionMetadataKeys: set<string> := {"filePath", "projectHash", "cwd", "model", "fileSizeBytes"}

  function SessionMetadata(s: GeminiSession, filePath: string, cwd: Option<string>, fileSize: Option<nat>): (m: map<string, Json>)
    ensures m.Keys <= SessionMetadataKeys && "filePath" in m
    ensures forall k :: k in SessionMetadataKeys ==>
      (k in m <==> SessionMetadataEntry(s, filePath, cwd, fileSize, k).Some?)
  {
    map k | k in SessionMetadataKeys && SessionMetadataEntry(s, filePath, cwd, fileSize, k).Some?
      :: SessionMetadataEntry(s, filePath, cwd, fileSize, k).value
  }

  /** `gemini_file_to_session`. The file's text, its parse, its size, the
      clock and the hash are inputs; the resolver is read, not changed. */
  function GeminiFileToSession(read: Result<string>, parse: string -> Option<Json>, filePath: string,
                               projectId: string, sourceId: string, resolver: GeminiHashResolver,
                               fileSize: Option<nat>, now: string, hash: string -> string): (r: Result<UniversalSession>)
    reads resolver
    ensures read.Err? ==> r == Err("Failed to read Gemini session: " + read.error)
    ensures read.Ok? ==> (r.Err? <==> parse(read.value).None? || DecodeGeminiSession(parse(read.value).value).None?)
    ensures r.Ok? ==> (r.value.provider_id == "gemini" && r.value.id == hash(filePath)
                       && r.value.checksum == hash(read.value))
  {
    var content :- (if read.Err? then Err("Failed to read Gemini session: " + read.error) else Ok(read.value));
    match parse(content)
    case None => Err("Failed to parse Gemini session")
    case Some(j) =>
      match DecodeGeminiSession(j)
      case None => Err("Failed to parse Gemini session")
      case Some(s) =>
        var messages := SessionMessages(s);
        var cwd := if s.project_hash.Some? then resolver.Resolve(s.project_hash.value) else None;
        var first := s.start_time.GetOr(now);
        Ok(UniversalSession(
          hash(filePath), projectId, sourceId, "gemini",
          FirstUserText(messages).GetOr(UntitledSession), None, |messages|,
          first, s.last_updated.GetOr(first), 0, None, 0, 0,
          SessionMetadata(s, filePath, cwd, fileSize),
          hash(content)))
  }

  /** The fallbacks: `history` when there are no `messages`, with the count
      being that list's length; the first user text as title, else
      "Untitled Session"; the start time, else now; the last update, else
      the start; and the cwd
      the resolver knows for the project hash. */
  lemma SessionFallbacks(text: string, parse: string -> Option<Json>, filePath: string, projectId: string,
                         sourceId: string, resolver: GeminiHashResolver, fileSize: Option<nat>, now: string,
                         hash: string -> string)
    requires parse(text).Some? && DecodeGeminiSession(parse(text).value).Some?
    ensures var s := DecodeGeminiSession(parse(text).value).value;
      var r := GeminiFileToSession(Ok(text), parse, filePath, projectId, sourceId, resolver, fileSize, now, hash);
      && r.Ok?
      && (s.messages.None? ==> r.value.message_count == |s.history.GetOr([])|)
      && (s.messages.Some? ==> r.value.message_count == |s.messages.value|)
      && (FirstUserText(SessionMessages(s)).None? ==> r.value.title == UntitledSession)
      && (FirstUserText(SessionMessages(s)).Some? ==> r.value.title == FirstUserText(SessionMessages(s)).value)
      && r.value.first_message_at == s.start_time.GetOr(now)
      && (s.last_updated.None? ==> r.value.last_message_at == r.value.first_message_at)
      && (s.last_updated.Some? ==> r.value.last_message_at == s.last_updated.value)
      && (s.project_hash.Some? && s.project_hash.value in resolver.table
          ==> r.value.metadata["cwd"] == Str(resolver.table[s.project_hash.value]))
      && (s.project_hash.None? ==> "cwd" !in r.value.metadata)
  {
  }

  // ---------------------------------------------------------------- projects

  /** `file.parent()`, as the string the grouping keys on. */
  function ParentOf(file: string): Option<string> {
    match Paths.ParentComponents(Paths.Components(file))
    case Some(cs) => Some(Paths.Render(cs))
    case None => None
  }

  function FilePath(file: string): string { file }

  /** The directories the found session files are grouped under. */
  function Directories(files: seq<string>): set<string> {
    Seqs.KeysOf(files, ParentOf)
  }

  /** The files of one directory, in walk order. */
  function FilesIn(files: seq<string>, dir: string): seq<string> {
    Seqs.GroupFor(files, ParentOf, FilePath, dir)
  }

  /** The project of one directory: its id is the hash of the directory,
      its name the directory's last name (else "Unknown"), its session count
      the number of files in it, and `project_hash` comes from the first
      file when that file reads and decodes. */
  function GeminiProjectOf(dir: string, group: seq<string>, readSession: string -> Option<GeminiSession>,
                           hash: string -> string, sourceId: string): UniversalProject
    requires |group| > 0
  {
    var projectHash := match readSession(group[0]) case Some(s) => s.project_hash case None => None;
    UniversalProject(
      hash(dir), sourceId, "gemini", Paths.FileName(dir).GetOr("Unknown"), dir, |group|, 0, None, None,
      if projectHash.Some? then map["project_hash" := Str(projectHash.value)] else map[])
  }

  /** What a directory's project holds. */
  lemma GeminiProjectFields(dir: string, group: seq<string>, readSession: string -> Option<GeminiSession>,
                            hash: string -> string, sourceId: string)
    requires |group| > 0
    ensures var p := GeminiProjectOf(dir, group, readSession, hash, sourceId);
      && p.path == dir && p.id == hash(dir) && p.provider_id == "gemini" && p.source_id == sourceId
      && p.session_count == |group| && p.total_messages == 0
      && p.first_activity_at.None? && p.last_activity_at.None?
      && (Paths.FileName(dir).None? ==> p.name == "Unknown")
      && ("project_hash" in p.metadata <==> readSession(group[0]).Some? && readSession(group[0]).value.project_hash.Some?)
      && p.metadata.Keys <= {"project_hash"}
  {
  }

  /** `gemini_sessions_to_projects` after the walk: a failed walk is its
      error; otherwise one project per directory holding found files, each
      built from that directory's files. */
  method GeminiSessionsToProjects(walk: Result<seq<string>>, readSession: string -> Option<GeminiSession>,
                                  hash: string -> string, sourceId: string)
    returns (r: Result<seq<UniversalProject>>)
    ensures walk.Err? ==> r == Err(walk.error)
    ensures walk.Ok? ==> r.Ok? && |r.value| == |Directories(walk.value)|
    ensures walk.Ok? ==> forall p :: p in r.value ==>
      p.path in Directories(walk.value) && |FilesIn(walk.value, p.path)| > 0
      && p == GeminiProjectOf(p.path, FilesIn(walk.value, p.path), readSession, hash, sourceId)
    ensures walk.Ok? ==> forall k, l :: 0 <= k < l < |r.value| ==> r.value[k].path != r.value[l].path
  {
    if walk.Err? {
      return Err(walk.error);
    }
    var groups := Seqs.GroupInto(walk.value, ParentOf, FilePath);
    var projects := ProjectsOfDirectories(groups, readSession, hash, sourceId);
    r := Ok(projects);
  }

  /** `p` is the project of one of the directories in `groups`. */
  predicate IsProjectOf(p: UniversalProject, groups: map<string, seq<string>>,
                        readSession: string -> Option<GeminiSession>, hash: string -> string, sourceId: string)
  {
    p.path in groups && |groups[p.path]| > 0 && p == GeminiProjectOf(p.path, groups[p.path], readSession, hash, sourceId)
  }

  /** The loop over the directories, in whatever order the map yields them. */
  method ProjectsOfDirectories(groups: map<string, seq<string>>, readSession: string -> Option<GeminiSession>,
                               hash: string -> string, sourceId: string) returns (projects: seq<UniversalProject>)
    requires forall dir :: dir in groups ==> |groups[dir]| > 0
    ensures |projects| == |groups.Keys|
    ensures forall p :: p in projects ==> IsProjectOf(p, groups, readSession, hash, sourceId)
    ensures forall k, l :: 0 <= k < l < |projects| ==> projects[k].path != projects[l].path
  {
    projects := [];
    var pending := groups.Keys;
    while pending != {}
      invariant pending <= groups.Keys
      invariant |projects| + |pending| == |groups.Keys|
      invariant forall k :: 0 <= k < |projects| ==>
        projects[k].path !in pending && IsProjectOf(projects[k], groups, readSession, hash, sourceId)
      invariant forall k, l :: 0 <= k < l < |projects| ==> projects[k].path != projects[l].path
      decreases |pending|
    {
      var dir :| dir in pending;
      var p := GeminiProjectOf(dir, groups[dir], readSession, hash, sourceId);
      assert p.path == dir;
      assert IsProjectOf(p, groups, readSession, hash, sourceId);
      projects := projects + [p];
      pending := pending - {dir};
    }
  }

  /** Every found file with a parent directory is among the files of that
      directory's project. */
  lemma FileCounted(files: seq<string>, i: nat)
    requires i < |files| && ParentOf(files[i]).Some?
    ensures ParentOf(files[i]).value in Directories(files)
    ensures files[i] in FilesIn(files, ParentOf(files[i]).value)
  {
    Seqs.InOwnGroup(files, ParentOf, FilePath, i);
  }
}
