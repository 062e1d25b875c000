/** The Claude Code log records as read from a JSONL line, the normalised
    message the viewer passes around, and the aggregate records. Decoding a
    record is partial: a missing required field, or a field of the wrong JSON
    type, makes the whole line undecodable. */
module Models {
  import opened Base
  import opened Json

  /** Raw token counts; every count is an unsigned 32-bit value. */
  datatype TokenUsage = TokenUsage(
    input_tokens: Option<nat>,
    output_tokens: Option<nat>,
    cache_creation_input_tokens: Option<nat>,
    cache_read_input_tokens: Option<nat>,
    service_tier: Option<string>)

  predicate OptU32Valid(o: Option<nat>) { o.Some? ==> IsU32(o.value) }

  predicate ValidUsage(u: TokenUsage) {
    OptU32Valid(u.input_tokens) && OptU32Valid(u.output_tokens)
    && OptU32Valid(u.cache_creation_input_tokens) && OptU32Valid(u.cache_read_input_tokens)
  }

  const EmptyUsage := TokenUsage(None, None, None, None, None)

  datatype MessageContent = MessageContent(
    role: string,
    content: Json,
    id: Option<string>,
    model: Option<string>,
    stop_reason: Option<string>,
    usage: Option<TokenUsage>)

  /** One decoded line of a session file. Only `message_type` (the JSON
      `type`) is required. */
  datatype RawLogEntry = RawLogEntry(
    uuid: Option<string>,
    parent_uuid: Option<string>,
    session_id: Option<string>,
    timestamp: Option<string>,
    message_type: string,
    summary: Option<string>,
    leaf_uuid: Option<string>,
    message: Option<MessageContent>,
    tool_use: Option<Json>,
    tool_use_result: Option<Json>,
    is_sidechain: Option<bool>)

  /** The normalised message. `project_path` is set by search results. */
  datatype ClaudeMessage = ClaudeMessage(
    uuid: string,
    parent_uuid: Option<string>,
    session_id: string,
    timestamp: string,
    message_type: string,
    content: Option<Json>,
    tool_use: Option<Json>,
    tool_use_result: Option<Json>,
    is_sidechain: Option<bool>,
    usage: Option<TokenUsage>,
    role: Option<string>,
    message_id: Option<string>,
    model: Option<string>,
    stop_reason: Option<string>,
    project_path: Option<string>)

  /** One session file as the project view lists it. `session_id` is the
      file path; `actual_session_id` is the id the messages carry. */
  datatype ClaudeSession = ClaudeSession(
    session_id: string,
    actual_session_id: string,
    file_path: string,
    project_name: string,
    message_count: nat,
    first_message_time: string,
    last_message_time: string,
    last_modified: string,
    has_tool_use: bool,
    has_errors: bool,
    summary: Option<string>)

  datatype MessagePage = MessagePage(
    messages: seq<ClaudeMessage>,
    total_count: nat,
    has_more: bool,
    next_offset: nat)

  datatype DailyStats = DailyStats(
    date: string,
    total_tokens: nat,
    input_tokens: nat,
    output_tokens: nat,
    message_count: nat,
    session_count: nat,
    active_hours: nat)

  datatype TokenDistribution = TokenDistribution(input: nat, output: nat, cache_creation: nat, cache_read: nat)

  /** `#[derive(Default)]`: an empty date and zero counters. */
  function DefaultDailyStats(): (d: DailyStats)
    ensures d.date == "" && d.total_tokens == 0 && d.input_tokens == 0 && d.output_tokens == 0
    ensures d.message_count == 0 && d.session_count == 0 && d.active_hours == 0
  {
    DailyStats("", 0, 0, 0, 0, 0, 0)
  }

  function DefaultTokenDistribution(): (d: TokenDistribution)
    ensures d.input == 0 && d.output == 0 && d.cache_creation == 0 && d.cache_read == 0
  {
    TokenDistribution(0, 0, 0, 0)
  }

  // ---------------------------------------------------------------- decoding

  function DecodeTokenUsage(j: Json): (r: Option<TokenUsage>)
    ensures r.Some? ==> ValidUsage(r.value)
  {
    if !j.Obj? then None
    else
      var i :- OptU32(j, "input_tokens");
      var o :- OptU32(j, "output_tokens");
      var c :- OptU32(j, "cache_creation_input_tokens");
      var cr :- OptU32(j, "cache_read_input_tokens");
      var tier :- OptStr(j, "service_tier");
      Some(TokenUsage(i, o, c, cr, tier))
  }

  /** An `Option<TokenUsage>` field. */
  function OptUsage(j: Json, key: string): Decoded<Option<TokenUsage>> {
    match Get(j, key)
    case None => Some(None)
    case Some(Null) => Some(None)
    case Some(v) => var u :- DecodeTokenUsage(v); Some(Some(u))
  }

  function DecodeMessageContent(j: Json): (r: Option<MessageContent>)
    ensures r.Some? ==> Get(j, "content") == Some(r.value.content)
    ensures r.Some? ==> GetStr(j, "role") == Some(r.value.role)
    ensures r.Some? ==> OptUsage(j, "usage") == Some(r.value.usage)
  {
    if !j.Obj? then None
    else
      var role :- ReqStr(j, "role");
      var content :- Get(j, "content");
      var id :- OptStr(j, "id");
      var model :- OptStr(j, "model");
      var stop :- OptStr(j, "stop_reason");
      var usage :- OptUsage(j, "usage");
      Some(MessageContent(role, content, id, model, stop, usage))
  }

  /** An `Option<MessageContent>` field. */
  function OptMessage(j: Json, key: string): Decoded<Option<MessageContent>> {
    match Get(j, key)
    case None => Some(None)
    case Some(Null) => Some(None)
    case Some(v) => var m :- DecodeMessageContent(v); Some(Some(m))
  }

  /** `serde_json::from_str::<RawLogEntry>` on an already-parsed line. */
  function DecodeRawLogEntry(j: Json): (r: Option<RawLogEntry>)
    ensures r.Some? ==> && r.value.uuid == GetStr(j, "uuid") && r.value.parent_uuid == GetStr(j, "parentUuid")
                        && r.value.session_id == GetStr(j, "sessionId") && r.value.timestamp == GetStr(j, "timestamp")
                        && r.value.summary == GetStr(j, "summary") && r.value.leaf_uuid == GetStr(j, "leafUuid")
                        && r.value.is_sidechain == GetBool(j, "isSidechain")
                        && (r.value.message.Some? ==> Get(j, "message").Some?)
    ensures r.Some? ==> OptMessage(j, "message") == Some(r.value.message)
  {
    if !j.Obj? then None
    else
      var uuid :- OptStr(j, "uuid");
      var parent :- OptStr(j, "parentUuid");
      var session :- OptStr(j, "sessionId");
      var ts :- OptStr(j, "timestamp");
      var ty :- ReqStr(j, "type");
      var summary :- OptStr(j, "summary");
      var leaf :- OptStr(j, "leafUuid");
      var message :- OptMessage(j, "message");
      var sidechain :- OptBool(j, "isSidechain");
      Some(RawLogEntry(uuid, parent, session, ts, ty, summary, leaf, message,
                       OptValue(j, "toolUse"), OptValue(j, "toolUseResult"), sidechain))
  }

  /** A line decodes only if it is an object with a string `type`, and the
      decoded `message_type` is that string. */
  lemma DecodeNeedsType(j: Json)
    ensures DecodeRawLogEntry(j).Some? ==> j.Obj? && GetStr(j, "type") == Some(DecodeRawLogEntry(j).value.message_type)
  {
  }

  /** `type` is the only required field: an object holding nothing else decodes
      to an entry whose optional fields are all absent. */
  lemma TypeAloneDecodes(t: string)
    ensures DecodeRawLogEntry(Obj(map["type" := Str(t)]))
      == Some(RawLogEntry(None, None, None, None, t, None, None, None, None, None, None))
  {
    var j := Obj(map["type" := Str(t)]);
    assert OptStr(j, "uuid") == Some(None);
    assert OptStr(j, "parentUuid") == Some(None);
    assert OptStr(j, "sessionId") == Some(None);
    assert OptStr(j, "timestamp") == Some(None);
    assert OptStr(j, "summary") == Some(None);
    assert OptStr(j, "leafUuid") == Some(None);
    assert OptMessage(j, "message") == Some(None);
    assert OptBool(j, "isSidechain") == Some(None);
  }

  /** A present, non-null `message` must itself decode, so it must carry a
      string `role` and a `content` value; otherwise the line fails. */
  lemma MessageNeedsRoleAndContent(j: Json)
    requires DecodeRawLogEntry(j).Some?
    requires Get(j, "message").Some? && Get(j, "message").value != Null
    ensures var m := Get(j, "message").value;
      GetStr(m, "role").Some? && Get(m, "content").Some?
    ensures DecodeRawLogEntry(j).value.message.Some?
  {
  }

  /** Every token count of a decoded line fits in 32 bits. */
  lemma DecodedUsageIsU32(j: Json)
    requires DecodeRawLogEntry(j).Some?
    requires DecodeRawLogEntry(j).value.message.Some?
    requires DecodeRawLogEntry(j).value.message.value.usage.Some?
    ensures ValidUsage(DecodeRawLogEntry(j).value.message.value.usage.value)
  {
    var message := DecodeRawLogEntry(j).value.message.value;
    assert OptMessage(j, "message") == Some(Some(message));
    assert DecodeMessageContent(Get(j, "message").value) == Some(message);
  }
}
