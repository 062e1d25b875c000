/** The provider-independent records every adapter produces: messages, their
    content items, sessions and projects, with the closed enums that classify
    them and the wire names serde gives those enums. */
module Universal {
  import opened Base
  import opened Json
  import opened Strings

  // ---------------------------------------------------------------- enums

  datatype MessageRole = User | Assistant | System | Function

  datatype MessageType = Message | Summary | Branch | Sidechain | Error

  datatype ContentType =
    | Text | Code | Image | File | ToolUse | ToolResult | Thinking | WebSearch | Command

  datatype ToolCallStatus = Pending | Success | Failed

  datatype AttachmentType = FileAttachment | ImageAttachment | UrlAttachment

  /** Lower-case wire names (`rename_all = "lowercase"`). */
  function ParseRole(s: string): Option<MessageRole> {
    match s
    case "user" => Some(User)
    case "assistant" => Some(Assistant)
    case "system" => Some(System)
    case "function" => Some(Function)
    case _ => None
  }

  function RoleName(r: MessageRole): (s: string)
    ensures ParseRole(s) == Some(r)
  {
    match r
    case User => "user"
    case Assistant => "assistant"
    case System => "system"
    case Function => "function"
  }

  /** Only the four names parse, and each parses back to the role it names. */
  lemma ParseRoleExact(s: string)
    ensures ParseRole(s).Some? <==> s in {"user", "assistant", "system", "function"}
    ensures ParseRole(s).Some? ==> RoleName(ParseRole(s).value) == s
  {
  }

  function ParseMessageType(s: string): Option<MessageType> {
    match s
    case "message" => Some(Message)
    case "summary" => Some(Summary)
    case "branch" => Some(Branch)
    case "sidechain" => Some(Sidechain)
    case "error" => Some(Error)
    case _ => None
  }

  function MessageTypeName(t: MessageType): (s: string)
    ensures ParseMessageType(s) == Some(t)
  {
    match t
    case Message => "message"
    case Summary => "summary"
    case Branch => "branch"
    case Sidechain => "sidechain"
    case Error => "error"
  }

  /** Snake-case wire names (`rename_all = "snake_case"`). */
  function ParseContentType(s: string): Option<ContentType> {
    match s
    case "text" => Some(Text)
    case "code" => Some(Code)
    case "image" => Some(Image)
    case "file" => Some(File)
    case "tool_use" => Some(ToolUse)
    case "tool_result" => Some(ToolResult)
    case "thinking" => Some(Thinking)
    case "web_search" => Some(WebSearch)
    case "command" => Some(Command)
    case _ => None
  }

  function ContentTypeName(t: ContentType): (s: string)
    ensures ParseContentType(s) == Some(t)
  {
    match t
    case Text => "text"
    case Code => "code"
    case Image => "image"
    case File => "file"
    case ToolUse => "tool_use"
    case ToolResult => "tool_result"
    case Thinking => "thinking"
    case WebSearch => "web_search"
    case Command => "command"
  }

  function ParseToolCallStatus(s: string): Option<ToolCallStatus> {
    match s
    case "pending" => Some(Pending)
    case "success" => Some(Success)
    case "error" => Some(Failed)
    case _ => None
  }

  /** `ToolCallStatus::Error` is spelled `Failed` here (Error is a message
      type above); its wire name is still "error". */
  function ToolCallStatusName(t: ToolCallStatus): (s: string)
    ensures ParseToolCallStatus(s) == Some(t)
  {
    match t
    case Pending => "pending"
    case Success => "success"
    case Failed => "error"
  }

  // ---------------------------------------------------------------- records

  /** Token counts are `i32`; the adapters fill them from `u32` counts. */
  datatype TokenUsage = TokenUsage(
    input_tokens: int,
    output_tokens: int,
    total_tokens: int,
    cache_creation_tokens: Option<int>,
    cache_read_tokens: Option<int>,
    service_tier: Option<string>)

  datatype ToolCall = ToolCall(
    id: string,
    name: string,
    input: map<string, Json>,
    output: Option<map<string, Json>>,
    error: Option<string>,
    status: ToolCallStatus)

  datatype ThinkingBlock = ThinkingBlock(content: string, signature: Option<string>, model: Option<string>)

  datatype Attachment = Attachment(
    attachment_type: AttachmentType,
    name: string,
    path: Option<string>,
    url: Option<string>,
    size: Option<nat>,
    mime_type: Option<string>)

  datatype ErrorInfo = ErrorInfo(code: string, message: string, details: Option<Json>, timestamp: string)

  datatype UniversalContent = UniversalContent(
    content_type: ContentType,
    data: Json,
    encoding: Option<string>,
    mime_type: Option<string>,
    size: Option<nat>,
    hash: Option<string>)

  datatype UniversalMessage = UniversalMessage(
    id: string,
    session_id: string,
    project_id: string,
    source_id: string,
    provider_id: string,
    timestamp: string,
    sequence_number: int,
    role: MessageRole,
    message_type: MessageType,
    content: seq<UniversalContent>,
    parent_id: Option<string>,
    depth: Option<int>,
    branch_id: Option<string>,
    model: Option<string>,
    tokens: Option<TokenUsage>,
    tool_calls: Option<seq<ToolCall>>,
    thinking: Option<ThinkingBlock>,
    attachments: Option<seq<Attachment>>,
    errors: Option<seq<ErrorInfo>>,
    original_format: string,
    provider_metadata: map<string, Json>)

  datatype UniversalSession = UniversalSession(
    id: string,
    project_id: string,
    source_id: string,
    provider_id: string,
    title: string,
    description: Option<string>,
    message_count: nat,
    first_message_at: string,
    last_message_at: string,
    duration: int,
    total_tokens: Option<TokenUsage>,
    tool_call_count: nat,
    error_count: nat,
    metadata: map<string, Json>,
    checksum: string)

  datatype UniversalProject = UniversalProject(
    id: string,
    source_id: string,
    provider_id: string,
    name: string,
    path: string,
    session_count: nat,
    total_messages: nat,
    first_activity_at: Option<string>,
    last_activity_at: Option<string>,
    metadata: map<string, Json>)

  /** A plain-text item: `{"text": text}`, "text/plain", sized by its UTF-8
      byte length. Every adapter builds its text items this way. */
  function PlainText(text: string): (c: UniversalContent)
    ensures c.content_type == Text && GetStr(c.data, "text") == Some(text) && c.size == Some(Utf8Len(text))
  {
    UniversalContent(Text, Obj(map["text" := Str(text)]), None, Some("text/plain"), Some(Utf8Len(text)), None)
  }

  // ---------------------------------------------------------------- wire form

  /** `TokenUsage` on the wire: camelCase keys, optional counts omitted. */
  function TokenUsageJson(t: TokenUsage): (j: Json)
    ensures j.Obj? && {"inputTokens", "outputTokens", "totalTokens"} <= j.fields.Keys
    ensures "cacheCreationTokens" in j.fields <==> t.cache_creation_tokens.Some?
    ensures "cacheReadTokens" in j.fields <==> t.cache_read_tokens.Some?
    ensures "serviceTier" in j.fields <==> t.service_tier.Some?
  {
    var base := map["inputTokens" := Int(t.input_tokens), "outputTokens" := Int(t.output_tokens),
                    "totalTokens" := Int(t.total_tokens)];
    var withCreation := if t.cache_creation_tokens.Some?
      then base["cacheCreationTokens" := Int(t.cache_creation_tokens.value)] else base;
    var withRead := if t.cache_read_tokens.Some?
      then withCreation["cacheReadTokens" := Int(t.cache_read_tokens.value)] else withCreation;
    var withTier := if t.service_tier.Some?
      then withRead["serviceTier" := Str(t.service_tier.value)] else withRead;
    Obj(withTier)
  }

  /** Reading a `TokenUsage` back from its camelCase object. */
  function DecodeTokenUsage(j: Json): Option<TokenUsage> {
    match (GetInt(j, "inputTokens"), GetInt(j, "outputTokens"), GetInt(j, "totalTokens"))
    case (Some(i), Some(o), Some(tot)) =>
      var creation := match Get(j, "cacheCreationTokens") case Some(Int(n)) => Some(n) case _ => None;
      var read := match Get(j, "cacheReadTokens") case Some(Int(n)) => Some(n) case _ => None;
      var tier := GetStr(j, "serviceTier");
      Some(TokenUsage(i, o, tot, creation, read, tier))
    case _ => None
  }

  /** The serialised form reads back as the same usage record. */
  lemma TokenUsageRoundTrip(t: TokenUsage)
    ensures DecodeTokenUsage(TokenUsageJson(t)) == Some(t)
  {
    var j := TokenUsageJson(t);
    assert GetInt(j, "inputTokens") == Some(t.input_tokens);
    assert GetInt(j, "outputTokens") == Some(t.output_tokens);
    assert GetInt(j, "totalTokens") == Some(t.total_tokens);
  }
}
