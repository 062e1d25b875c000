/** The Claude Code adapter: turns a normalised `ClaudeMessage` into a
    `UniversalMessage`, keeping every original field in `provider_metadata`. */
module ClaudeCode {
  import opened Base
  import opened Json
  import opened Strings
  import opened Seqs
  import opened Universal
  import opened Paths
  import M = Models

  // ---------------------------------------------------------------- role and type

  /** Role inference: an explicit known role wins; an unknown explicit role
      falls back to `type`, where only user and assistant are honoured; with
      no role at all `type` may also give System; Assistant otherwise. */
  function DetermineRole(msg: M.ClaudeMessage): (r: MessageRole)
    ensures msg.role.Some? && ParseRole(msg.role.value).Some? ==> r == ParseRole(msg.role.value).value
    ensures r == Function <==> msg.role == Some("function")
    ensures r == System <==> msg.role == Some("system") || (msg.role.None? && msg.message_type == "system")
    ensures r == User <==> (msg.role == Some("user")
      || ((msg.role.None? || ParseRole(msg.role.value).None?) && msg.message_type == "user"))
  {
    match msg.role
    case Some(role) =>
      (match role
       case "user" => User
       case "assistant" => Assistant
       case "system" => System
       case "function" => Function
       case _ =>
         (match msg.message_type
          case "user" => User
          case "assistant" => Assistant
          case _ => Assistant))
    case None =>
      match msg.message_type
      case "user" => User
      case "assistant" => Assistant
      case "system" => System
      case _ => Assistant
  }

  /** A sidechain flag overrides the type; summary, branch and error keep
      their own kind; every other type string is a plain Message. */
  function DetermineMessageType(msg: M.ClaudeMessage): (r: MessageType)
    ensures r == Sidechain <==> msg.is_sidechain == Some(true)
    ensures msg.is_sidechain != Some(true) && msg.message_type in {"summary", "branch", "error"}
      ==> MessageTypeName(r) == msg.message_type
    ensures msg.is_sidechain != Some(true) && msg.message_type !in {"summary", "branch", "error"}
      ==> r == Message
  {
    if msg.is_sidechain == Some(true) then Sidechain
    else match msg.message_type
      case "summary" => Summary
      case "user" => Message
      case "assistant" => Message
      case "branch" => Branch
      case "error" => Error
      case _ => Message
  }

  // ---------------------------------------------------------------- content

  /** An item kept as raw JSON with the given type and mime type. */
  function RawItem(t: ContentType, data: Json, mime: Option<string>): UniversalContent {
    UniversalContent(t, data, None, mime, None, None)
  }

  /** The block types the adapter recognises inside an array. */
  const KnownBlockTypes: set<string> := {"text", "tool_use", "tool_result", "thinking", "image"}

  /** One element of array content. */
  function ConvertContentItem(item: Json): (r: Option<UniversalContent>)
    ensures r.None? <==> (GetStr(item, "type").None?
      || (GetStr(item, "type") == Some("text") && GetStr(item, "text").None?))
    ensures r.Some? && GetStr(item, "type").value in KnownBlockTypes
      ==> ContentTypeName(r.value.content_type) == GetStr(item, "type").value
    ensures r.Some? && GetStr(item, "type").value !in KnownBlockTypes
      ==> r.value.content_type == Text && r.value.data == item
    ensures r.Some? && GetStr(item, "type").value != "text" ==> r.value.data == item && r.value.size.None?
    ensures r.Some? && GetStr(item, "type").value == "text" ==> r.value == PlainText(GetStr(item, "text").value)
  {
    var t :- GetStr(item, "type");
    match t
    case "text" => var text :- GetStr(item, "text"); Some(PlainText(text))
    case "tool_use" => Some(RawItem(ToolUse, item, Some("application/json")))
    case "tool_result" => Some(RawItem(ToolResult, item, Some("application/json")))
    case "thinking" => Some(RawItem(Thinking, item, Some("application/json")))
    case "image" => Some(RawItem(Image, item, None))
    case _ => Some(RawItem(Text, item, Some("application/json")))
  }

  /** The items produced by the message body alone. */
  function BodyContent(content: Option<Json>): (r: seq<UniversalContent>)
    ensures content.None? ==> r == []
    ensures content.Some? && content.value.Str? ==> r == [PlainText(content.value.s)]
    ensures content.Some? && content.value.Arr? ==> r == FilterMap(content.value.items, ConvertContentItem)
    ensures content.Some? && !content.value.Str? && !content.value.Arr?
      ==> |r| == 1 && r[0].content_type == Text && r[0].data == content.value
  {
    match content
    case None => []
    case Some(Str(text)) => [PlainText(text)]
    case Some(Arr(items)) => FilterMap(items, ConvertContentItem)
    case Some(Obj(_)) => [RawItem(Text, content.value, Some("application/json"))]
    case Some(v) => [RawItem(Text, v, None)]
  }

  function ToolResultItem(result: Json): UniversalContent {
    RawItem(ToolResult, result, Some("application/json"))
  }

  /** The whole content list: the body's items, then one ToolResult item
      exactly when the message carries a tool result. */
  function ContentOf(msg: M.ClaudeMessage): (r: seq<UniversalContent>)
    ensures msg.tool_use_result.None? ==> r == BodyContent(msg.content)
    ensures msg.tool_use_result.Some?
      ==> (|r| == |BodyContent(msg.content)| + 1 && r[|r| - 1] == ToolResultItem(msg.tool_use_result.value)
      && r[..|r| - 1] == BodyContent(msg.content))
  {
    BodyContent(msg.content) + (if msg.tool_use_result.Some? then [ToolResultItem(msg.tool_use_result.value)] else [])
  }

  /** An array element that yields an item: one with a string type that,
      when it is "text", also has a string text. */
  predicate Converts(item: Json) {
    GetStr(item, "type").Some? && (GetStr(item, "type") == Some("text") ==> GetStr(item, "text").Some?)
  }

  /** Array content keeps exactly one item per element that converts. */
  lemma ArrayContentCount(items: seq<Json>)
    ensures |BodyContent(Some(Arr(items)))| == Count(items, Converts)
  {
    FilterMapLength(items, ConvertContentItem, Converts);
  }

  method ConvertContent(msg: M.ClaudeMessage) returns (items: seq<UniversalContent>)
    ensures items == ContentOf(msg)
  {
    items := [];
    match msg.content {
      case None =>
      case Some(Str(text)) =>
        items := items + [PlainText(text)];
      case Some(Arr(elements)) =>
        var i := 0;
        while i < |elements|
          invariant 0 <= i <= |elements|
          invariant items == FilterMap(elements[..i], ConvertContentItem)
        {
          assert elements[..i + 1][..i] == elements[..i];
          var item := ConvertContentItem(elements[i]);
          if item.Some? {
            items := items + [item.value];
          }
          i := i + 1;
        }
        assert elements[..i] == elements;
      case Some(Obj(_)) =>
        items := items + [RawItem(Text, msg.content.value, Some("application/json"))];
      case Some(v) =>
        items := items + [RawItem(Text, v, None)];
    }
    if msg.tool_use_result.Some? {
      items := items + [ToolResultItem(msg.tool_use_result.value)];
    }
  }

  // ---------------------------------------------------------------- tool calls

  /** A tool-use object needs a string id and name; its object `input` is
      copied (otherwise empty) and the call starts Pending with no output. */
  function ParseToolUseObject(obj: map<string, Json>): (r: Option<ToolCall>)
    ensures r.Some? <==> GetStr(Obj(obj), "id").Some? && GetStr(Obj(obj), "name").Some?
    ensures r.Some? ==> r.value.id == GetStr(Obj(obj), "id").value && r.value.name == GetStr(Obj(obj), "name").value
    ensures r.Some? ==> r.value.status == Pending && r.value.output.None? && r.value.error.None?
    ensures r.Some? && "input" in obj && obj["input"].Obj? ==> r.value.input == obj["input"].fields
    ensures r.Some? && !("input" in obj && obj["input"].Obj?) ==> r.value.input == map[]
  {
    var id :- GetStr(Obj(obj), "id");
    var name :- GetStr(Obj(obj), "name");
    var input := if "input" in obj && obj["input"].Obj? then obj["input"].fields else map[];
    Some(ToolCall(id, name, input, None, None, Pending))
  }

  /** Objects are parsed; any other array element is ignored. */
  function ObjectCall(j: Json): Option<ToolCall> {
    if j.Obj? then ParseToolUseObject(j.fields) else None
  }

  /** A content block contributes a call only when its type is "tool_use". */
  function BlockCall(j: Json): Option<ToolCall> {
    if GetStr(j, "type") == Some("tool_use") then ObjectCall(j) else None
  }

  /** Calls from the legacy `tool_use` field: one object or an array of them. */
  function LegacyCalls(toolUse: Option<Json>): seq<ToolCall> {
    match toolUse
    case Some(Obj(o)) => (match ParseToolUseObject(o) case Some(c) => [c] case None => [])
    case Some(Arr(a)) => FilterMap(a, ObjectCall)
    case _ => []
  }

  /** Calls from `tool_use` blocks of array content. */
  function ContentCalls(content: Option<Json>): seq<ToolCall> {
    match content
    case Some(Arr(items)) => FilterMap(items, BlockCall)
    case _ => []
  }

  /** Legacy calls first, then content calls, duplicates included. */
  function CandidateCalls(msg: M.ClaudeMessage): seq<ToolCall> {
    LegacyCalls(msg.tool_use) + ContentCalls(msg.content)
  }

  function Ids(calls: seq<ToolCall>): set<string> {
    set c | c in calls :: c.id
  }

  /** `retain(|tc| seen.insert(tc.id))`: the first call with each id survives. */
  function DedupById(calls: seq<ToolCall>): (r: seq<ToolCall>)
    ensures forall i, j :: 0 <= i < j < |r| ==> r[i].id != r[j].id
    ensures forall c :: c in r ==> c in calls
    ensures Ids(r) == Ids(calls)
  {
    if |calls| == 0 then []
    else
      var d := DedupById(calls[..|calls| - 1]);
      var c := calls[|calls| - 1];
      assert Ids(calls) == Ids(calls[..|calls| - 1]) + {c.id} by {
        assert calls == calls[..|calls| - 1] + [c];
      }
      if c.id in Ids(d) then d
      else
        assert Ids(d + [c]) == Ids(d) + {c.id};
        d + [c]
  }

  /** A call whose id has not occurred before it is kept. */
  lemma {:induction false} DedupKeepsFirst(calls: seq<ToolCall>, k: nat)
    requires k < |calls|
    requires forall j :: 0 <= j < k ==> calls[j].id != calls[k].id
    ensures calls[k] in DedupById(calls)
    decreases |calls|
  {
    var init := calls[..|calls| - 1];
    if k < |calls| - 1 {
      DedupKeepsFirst(init, k);
    } else {
      assert calls[k].id !in Ids(init) by {
        forall c | c in init ensures c.id != calls[k].id {
          var j :| 0 <= j < |init| && init[j] == c;
        }
      }
    }
  }

  /** Every kept call is the first call in the input with its id. */
  lemma {:induction false} DedupIsFirst(calls: seq<ToolCall>, x: ToolCall)
    requires x in DedupById(calls)
    ensures exists i :: 0 <= i < |calls| && calls[i] == x && forall j :: 0 <= j < i ==> calls[j].id != x.id
    decreases |calls|
  {
    var init := calls[..|calls| - 1];
    var d := DedupById(init);
    var c := calls[|calls| - 1];
    assert DedupById(calls) == if c.id in Ids(d) then d else d + [c];
    if x in d {
      DedupIsFirst(init, x);
      var i :| 0 <= i < |init| && init[i] == x && forall j :: 0 <= j < i ==> init[j].id != x.id;
      assert calls[i] == x;
      forall j | 0 <= j < i ensures calls[j].id != x.id {
        assert calls[j] == init[j];
      }
      assert 0 <= i < |calls| && calls[i] == x && forall j :: 0 <= j < i ==> calls[j].id != x.id;
    } else {
      var n := |calls| - 1;
      assert x == c && c.id !in Ids(d);
      forall j | 0 <= j < n ensures calls[j].id != x.id {
        assert init[j] in init;
        assert init[j].id in Ids(init);
      }
      assert 0 <= n < |calls| && calls[n] == x && forall j :: 0 <= j < n ==> calls[j].id != x.id;
    }
  }

  function ToolCallsOf(msg: M.ClaudeMessage): (r: Option<seq<ToolCall>>)
    ensures r.None? <==> CandidateCalls(msg) == []
    ensures r.Some? ==> r.value == DedupById(CandidateCalls(msg)) && |r.value| > 0
  {
    var cands := CandidateCalls(msg);
    if cands == [] then None else Some(DedupById(cands))
  }

  /** Every extracted call is Pending with no output, and the ids are
      pairwise distinct. */
  lemma ToolCallsArePending(msg: M.ClaudeMessage)
    requires ToolCallsOf(msg).Some?
    ensures forall c :: c in ToolCallsOf(msg).value ==> c.status == Pending && c.output.None?
    ensures forall i, j :: 0 <= i < j < |ToolCallsOf(msg).value| ==>
      ToolCallsOf(msg).value[i].id != ToolCallsOf(msg).value[j].id
  {
    forall c | c in ToolCallsOf(msg).value ensures c.status == Pending && c.output.None? {
      CandidateIsParsed(msg, c);
    }
  }

  lemma CandidateIsParsed(msg: M.ClaudeMessage, c: ToolCall)
    requires c in CandidateCalls(msg)
    ensures c.status == Pending && c.output.None?
  {
    var legacy := LegacyCalls(msg.tool_use);
    var content := ContentCalls(msg.content);
    if c in legacy {
      match msg.tool_use
      case Some(Arr(a)) =>
        var k :| 0 <= k < |legacy| && legacy[k] == c;
        FilterMapFrom(a, ObjectCall, k);
      case _ =>
    } else {
      assert c in content;
      match msg.content
      case Some(Arr(items)) =>
        var k :| 0 <= k < |content| && content[k] == c;
        FilterMapFrom(items, BlockCall, k);
      case _ =>
    }
  }

  method CollectCalls(elements: seq<Json>, f: Json -> Option<ToolCall>) returns (calls: seq<ToolCall>)
    ensures calls == FilterMap(elements, f)
  {
    calls := [];
    var i := 0;
    while i < |elements|
      invariant 0 <= i <= |elements|
      invariant calls == FilterMap(elements[..i], f)
    {
      assert elements[..i + 1][..i] == elements[..i];
      var c := f(elements[i]);
      if c.Some? {
        calls := calls + [c.value];
      }
      i := i + 1;
    }
    assert elements[..i] == elements;
  }

  method ConvertToolUse(msg: M.ClaudeMessage) returns (r: Option<seq<ToolCall>>)
    ensures r == ToolCallsOf(msg)
  {
    var calls: seq<ToolCall> := [];
    match msg.tool_use {
      case Some(Obj(o)) =>
        var c := ParseToolUseObject(o);
        if c.Some? {
          calls := calls + [c.value];
        }
      case Some(Arr(a)) =>
        calls := CollectCalls(a, ObjectCall);
      case _ =>
    }
    assert calls == LegacyCalls(msg.tool_use);
    if msg.content.Some? && msg.content.value.Arr? {
      var more := CollectCalls(msg.content.value.items, BlockCall);
      calls := calls + more;
    }
    assert calls == CandidateCalls(msg);
    if calls == [] {
      return None;
    }
    var kept := DedupCalls(calls);
    r := Some(kept);
  }

  method DedupCalls(calls: seq<ToolCall>) returns (kept: seq<ToolCall>)
    ensures kept == DedupById(calls)
  {
    kept := [];
    var seen: set<string> := {};
    var i := 0;
    while i < |calls|
      invariant 0 <= i <= |calls|
      invariant kept == DedupById(calls[..i])
      invariant seen == Ids(kept)
    {
      assert calls[..i + 1][..i] == calls[..i];
      if calls[i].id !in seen {
        assert Ids(kept + [calls[i]]) == Ids(kept) + {calls[i].id};
        seen := seen + {calls[i].id};
        kept := kept + [calls[i]];
      }
      i := i + 1;
    }
    assert calls[..i] == calls;
  }

  // ---------------------------------------------------------------- thinking

  predicate IsThinkingBlock(item: Json) {
    GetStr(item, "type") == Some("thinking") && GetStr(item, "thinking").Some?
  }

  /** The first `thinking` block that has string text, with its optional
      signature and the message's model. */
  function ThinkingOf(msg: M.ClaudeMessage): (r: Option<ThinkingBlock>)
    ensures r.Some? ==> msg.content.Some? && msg.content.value.Arr?
    ensures r.Some? ==> r.value.model == msg.model
    ensures r.None? && msg.content.Some? && msg.content.value.Arr?
      ==> forall i :: 0 <= i < |msg.content.value.items| ==> !IsThinkingBlock(msg.content.value.items[i])
    ensures r.Some? ==> exists i :: (0 <= i < |msg.content.value.items|
      && IsThinkingBlock(msg.content.value.items[i])
      && (forall j :: 0 <= j < i ==> !IsThinkingBlock(msg.content.value.items[j]))
      && r.value.content == GetStr(msg.content.value.items[i], "thinking").value
      && r.value.signature == GetStr(msg.content.value.items[i], "signature"))
  {
    match msg.content
    case Some(Arr(items)) =>
      (match FindIndex(items, IsThinkingBlock)
       case Some(i) =>
         Some(ThinkingBlock(GetStr(items[i], "thinking").value, GetStr(items[i], "signature"), msg.model))
       case None => None)
    case _ => None
  }

  method ExtractThinking(msg: M.ClaudeMessage) returns (r: Option<ThinkingBlock>)
    ensures r == ThinkingOf(msg)
  {
    if msg.content.Some? && msg.content.value.Arr? {
      var items := msg.content.value.items;
      var i := 0;
      while i < |items|
        invariant 0 <= i <= |items|
        invariant forall j :: 0 <= j < i ==> !IsThinkingBlock(items[j])
      {
        if GetStr(items[i], "type") == Some("thinking") {
          var text := GetStr(items[i], "thinking");
          if text.Some? {
            assert FindIndex(items, IsThinkingBlock) == Some(i);
            return Some(ThinkingBlock(text.value, GetStr(items[i], "signature"), msg.model));
          }
        }
        i := i + 1;
      }
      assert FindIndex(items, IsThinkingBlock).None?;
    }
    return None;
  }

  // ---------------------------------------------------------------- errors

  /** The error message of an `is_error` payload: its string content, or
      "Unknown error". */
  function ResultErrorInfo(payload: Json, timestamp: string): ErrorInfo {
    ErrorInfo("tool_result_error", GetStr(payload, "content").GetOr("Unknown error"), Some(payload), timestamp)
  }

  /** Errors found in the message's own tool result: a string that starts
      with "Error:" or contains "error" is a `tool_error` carrying that
      string; an object flagged `is_error: true` is a `tool_result_error`;
      any other result gives no error. */
  function ToolResultErrors(result: Option<Json>, timestamp: string): (r: seq<ErrorInfo>)
    ensures |r| <= 1
    ensures result.Some? && result.value.Str? ==>
      (r != [] <==> StartsWith(result.value.s, "Error:") || Contains(result.value.s, "error"))
    ensures result.Some? && result.value.Str? && r != [] ==>
      r == [ErrorInfo("tool_error", result.value.s, None, timestamp)]
    ensures result.Some? && result.value.Obj? ==>
      (r != [] <==> Get(result.value, "is_error") == Some(Bool(true)))
    ensures result.Some? && result.value.Obj? && r != [] ==>
      r[0].code == "tool_result_error" && r[0].details == result && r[0].timestamp == timestamp
      && r[0].message == GetStr(result.value, "content").GetOr("Unknown error")
    ensures result.None? || !(result.value.Str? || result.value.Obj?) ==> r == []
  {
    match result
    case Some(Str(e)) =>
      if StartsWith(e, "Error:") || Contains(e, "error") then [ErrorInfo("tool_error", e, None, timestamp)] else []
    case Some(Obj(_)) =>
      if Get(result.value, "is_error") == Some(Bool(true)) then [ResultErrorInfo(result.value, timestamp)] else []
    case _ => []
  }

  predicate IsErrorBlock(item: Json) {
    GetStr(item, "type") == Some("tool_result") && Get(item, "is_error") == Some(Bool(true))
  }

  function BlockError(timestamp: string): Json -> Option<ErrorInfo> {
    (item: Json) => if IsErrorBlock(item) then Some(ResultErrorInfo(item, timestamp)) else None
  }

  function ContentErrors(content: Option<Json>, timestamp: string): seq<ErrorInfo> {
    match content
    case Some(Arr(items)) => FilterMap(items, BlockError(timestamp))
    case _ => []
  }

  /** All errors: the tool result's first, then each erroring content block,
      every one stamped with the message time; None when there are none. */
  function ErrorsOf(msg: M.ClaudeMessage): (r: Option<seq<ErrorInfo>>)
    ensures r.None? <==> (ToolResultErrors(msg.tool_use_result, msg.timestamp) == []
                          && ContentErrors(msg.content, msg.timestamp) == [])
    ensures r.Some? ==> (r.value == ToolResultErrors(msg.tool_use_result, msg.timestamp)
                                    + ContentErrors(msg.content, msg.timestamp))
  {
    var errors := ToolResultErrors(msg.tool_use_result, msg.timestamp) + ContentErrors(msg.content, msg.timestamp);
    if errors == [] then None else Some(errors)
  }

  /** No content block yields an error exactly when none is an erroring
      `tool_result` block; each error carries the message timestamp. */
  lemma ContentErrorsShape(items: seq<Json>, timestamp: string)
    ensures ContentErrors(Some(Arr(items)), timestamp) == [] <==> forall i :: 0 <= i < |items| ==> !IsErrorBlock(items[i])
    ensures forall e :: e in ContentErrors(Some(Arr(items)), timestamp) ==>
      e.code == "tool_result_error" && e.timestamp == timestamp && e.details.Some?
  {
    FilterMapEmpty(items, BlockError(timestamp));
    forall i | 0 <= i < |items| ensures BlockError(timestamp)(items[i]).None? <==> !IsErrorBlock(items[i]) { }
    var errs := ContentErrors(Some(Arr(items)), timestamp);
    forall e | e in errs ensures e.code == "tool_result_error" && e.timestamp == timestamp && e.details.Some? {
      var k :| 0 <= k < |errs| && errs[k] == e;
      FilterMapFrom(items, BlockError(timestamp), k);
    }
  }

  /** The loop over the content blocks of `extract_errors`. */
  method CollectErrors(items: seq<Json>, timestamp: string) returns (errors: seq<ErrorInfo>)
    ensures errors == FilterMap(items, BlockError(timestamp))
  {
    ghost var f := BlockError(timestamp);
    errors := [];
    var i := 0;
    while i < |items|
      invariant 0 <= i <= |items|
      invariant errors == FilterMap(items[..i], f)
    {
      FilterMapStep(items, f, i);
      if GetStr(items[i], "type") == Some("tool_result") && Get(items[i], "is_error") == Some(Bool(true)) {
        assert f(items[i]) == Some(ResultErrorInfo(items[i], timestamp));
        errors := errors + [ResultErrorInfo(items[i], timestamp)];
      } else {
        assert f(items[i]).None?;
      }
      i := i + 1;
    }
    assert items[..i] == items;
  }

  method ExtractErrors(msg: M.ClaudeMessage) returns (r: Option<seq<ErrorInfo>>)
    ensures r == ErrorsOf(msg)
  {
    var errors := ToolResultErrors(msg.tool_use_result, msg.timestamp);
    if msg.content.Some? && msg.content.value.Arr? {
      var blockErrors := CollectErrors(msg.content.value.items, msg.timestamp);
      assert blockErrors == ContentErrors(msg.content, msg.timestamp);
      errors := errors + blockErrors;
    } else {
      assert ContentErrors(msg.content, msg.timestamp) == [];
    }
    assert errors == ToolResultErrors(msg.tool_use_result, msg.timestamp) + ContentErrors(msg.content, msg.timestamp);
    if errors == [] {
      r := None;
    } else {
      r := Some(errors);
    }
  }


  // ---------------------------------------------------------------- tokens and metadata

  /** The universal usage record: missing counts become 0, counts are cast to
      `i32`, and the total is the `u32` sum of input and output, wrapping as
      a release build does, then cast. */
  function TokensOf(u: M.TokenUsage): (t: TokenUsage)
    requires M.ValidUsage(u)
    ensures u.input_tokens.GetOr(0) < 0x8000_0000 ==> t.input_tokens == u.input_tokens.GetOr(0)
    ensures u.output_tokens.GetOr(0) < 0x8000_0000 ==> t.output_tokens == u.output_tokens.GetOr(0)
    ensures u.input_tokens.GetOr(0) + u.output_tokens.GetOr(0) < 0x8000_0000
      ==> t.total_tokens == t.input_tokens + t.output_tokens
    ensures t.cache_creation_tokens.Some? <==> u.cache_creation_input_tokens.Some?
    ensures t.cache_read_tokens.Some? <==> u.cache_read_input_tokens.Some?
    ensures u.cache_creation_input_tokens.Some? ==>
      t.cache_creation_tokens.value == U32AsI32(u.cache_creation_input_tokens.value)
      && (u.cache_creation_input_tokens.value < 0x8000_0000 ==> t.cache_creation_tokens.value == u.cache_creation_input_tokens.value)
    ensures u.cache_read_input_tokens.Some? ==>
      t.cache_read_tokens.value == U32AsI32(u.cache_read_input_tokens.value)
      && (u.cache_read_input_tokens.value < 0x8000_0000 ==> t.cache_read_tokens.value == u.cache_read_input_tokens.value)
    ensures t.service_tier == u.service_tier
  {
    var input := u.input_tokens.GetOr(0);
    var output := u.output_tokens.GetOr(0);
    TokenUsage(
      U32AsI32(input),
      U32AsI32(output),
      U32AsI32(TruncateU32(input + output)),
      match u.cache_creation_input_tokens case Some(n) => Some(U32AsI32(n)) case None => None,
      match u.cache_read_input_tokens case Some(n) => Some(U32AsI32(n)) case None => None,
      u.service_tier)
  }

  /** `key` maps to `v`'s value when `v` is present and is absent otherwise. */
  ghost predicate HasEntry(m: map<string, Json>, key: string, v: Option<Json>) {
    (key in m <==> v.Some?) && (v.Some? ==> m[key] == v.value)
  }

  function StrOpt(o: Option<string>): Option<Json> {
    match o case Some(s) => Some(Str(s)) case None => None
  }

  const MetadataKeys: set<string> := {"original_uuid", "parent_uuid", "is_sidechain", "message_id", "stop_reason",
    "original_type", "raw_content", "raw_tool_use", "raw_tool_use_result", "project_path"}

  /** What the conversion stores under each metadata key, if anything. The
      uuid and the original type are always stored; the other entries only
      when the message carries the field. */
  function MetadataEntry(msg: M.ClaudeMessage, key: string): Option<Json> {
    match key
    case "original_uuid" => Some(Str(msg.uuid))
    case "parent_uuid" => StrOpt(msg.parent_uuid)
    case "is_sidechain" => (match msg.is_sidechain case Some(b) => Some(Bool(b)) case None => None)
    case "message_id" => StrOpt(msg.message_id)
    case "stop_reason" => StrOpt(msg.stop_reason)
    case "original_type" => Some(Str(msg.message_type))
    case "raw_content" => msg.content
    case "raw_tool_use" => msg.tool_use
    case "raw_tool_use_result" => msg.tool_use_result
    case "project_path" => StrOpt(msg.project_path)
    case _ => None
  }

  /** The `provider_metadata` map. The source inserts the entries one by one
      under distinct keys, so the order of insertion does not matter. */
  function ProviderMetadata(msg: M.ClaudeMessage): (m: map<string, Json>)
    ensures m.Keys <= MetadataKeys
    ensures "original_uuid" in m && "original_type" in m
  {
    map k | k in MetadataKeys && MetadataEntry(msg, k).Some? :: MetadataEntry(msg, k).value
  }

  /** Every key holds exactly what the message carries for it, and a key the
      conversion does not know is absent. */
  lemma ProviderMetadataEntries(msg: M.ClaudeMessage, key: string)
    ensures HasEntry(ProviderMetadata(msg), key, MetadataEntry(msg, key))
  {
  }

  /** The whole conversion. Token counts of a decoded message are 32-bit. */
  method ClaudeMessageToUniversal(msg: M.ClaudeMessage, projectId: string, sourceId: string, sequenceNumber: int)
    returns (r: UniversalMessage)
    requires msg.usage.Some? ==> M.ValidUsage(msg.usage.value)
    ensures r.id == msg.uuid && r.session_id == msg.session_id && r.timestamp == msg.timestamp
    ensures r.project_id == projectId && r.source_id == sourceId && r.sequence_number == sequenceNumber
    ensures r.provider_id == "claude-code" && r.original_format == "claude_jsonl"
    ensures r.role == DetermineRole(msg) && r.message_type == DetermineMessageType(msg)
    ensures r.content == ContentOf(msg)
    ensures r.tool_calls == ToolCallsOf(msg)
    ensures r.thinking == ThinkingOf(msg)
    ensures r.errors == ErrorsOf(msg)
    ensures r.tokens == if msg.usage.Some? then Some(TokensOf(msg.usage.value)) else None
    ensures r.parent_id == msg.parent_uuid && r.model == msg.model
    ensures r.depth.None? && r.branch_id.None? && r.attachments.None?
    ensures r.provider_metadata == ProviderMetadata(msg)
  {
    var content := ConvertContent(msg);
    var toolCalls := ConvertToolUse(msg);
    var thinking := ExtractThinking(msg);
    var tokens := if msg.usage.Some? then Some(TokensOf(msg.usage.value)) else None;
    var errors := ExtractErrors(msg);
    var metadata := ProviderMetadata(msg);
    r := UniversalMessage(
      msg.uuid, msg.session_id, projectId, sourceId, "claude-code",
      msg.timestamp, sequenceNumber,
      DetermineRole(msg), DetermineMessageType(msg),
      content,
      msg.parent_uuid, None, None,
      msg.model, tokens, toolCalls, thinking, None, errors,
      "claude_jsonl", metadata);
  }

  // ---------------------------------------------------------------- project id

  predicate IsProjectsDir(c: Component) { c == Normal("projects") }

  /** The project id: the file name of an explicit project path; otherwise the
      component right after the first "projects" directory of the file path,
      if that one is a normal name; otherwise "unknown". */
  function ProjectIdOf(projectPath: Option<string>, filePath: string): (r: string)
    ensures projectPath.Some? && FileName(projectPath.value).Some? ==> r == FileName(projectPath.value).value
    ensures r != "unknown" && (projectPath.None? || FileName(projectPath.value).None?) ==>
      (exists i :: 0 <= i < |Components(filePath)| - 1
        && Components(filePath)[i] == Normal("projects") && Components(filePath)[i + 1] == Normal(r))
  {
    if projectPath.Some? && FileName(projectPath.value).Some? then FileName(projectPath.value).value
    else
      var cs := Components(filePath);
      match FindIndex(cs, IsProjectsDir)
      case Some(i) => if i + 1 < |cs| && cs[i + 1].Normal? then cs[i + 1].name else "unknown"
      case None => "unknown"
  }

  /** `extract_project_id`: walks the components until the first "projects". */
  method ExtractProjectId(projectPath: Option<string>, filePath: string) returns (r: string)
    ensures r == ProjectIdOf(projectPath, filePath)
  {
    if projectPath.Some? {
      var name := FileName(projectPath.value);
      if name.Some? {
        return name.value;
      }
    }
    var cs := Components(filePath);
    var i := 0;
    while i < |cs|
      invariant 0 <= i <= |cs|
      invariant forall j :: 0 <= j < i ==> !IsProjectsDir(cs[j])
    {
      if cs[i] == Normal("projects") {
        assert FindIndex(cs, IsProjectsDir) == Some(i);
        if i + 1 < |cs| && cs[i + 1].Normal? {
          return cs[i + 1].name;
        }
        break;
      }
      i := i + 1;
    }
    r := "unknown";
  }

  /** Under a directory without a "projects" component, the file path yields
      the name right after "projects/", whatever follows it. */
  lemma ProjectIdFromFilePath(home: string, project: string, rest: string)
    requires home != "" && IsPlainName(project)
    requires forall j :: 0 <= j < |Components(home)| ==> Components(home)[j] != Normal("projects")
    requires rest == "" || rest[0] == '/'
    ensures ProjectIdOf(None, home + "/projects/" + project + rest) == project
  {
    var rel := "projects" + "/" + project + rest;
    var path := home + "/" + rel;
    assert home + "/projects/" + project + rest == path;
    ComponentsOfJoin(home, rel);
    TwoNamesPrefix("projects", project, rest);
    var h := Components(home);
    var t := FilterMap(Split(rel, '/'), PieceComponent);
    assert IsProjectsDir(t[0]);
    FindIndexAfter(h, t, IsProjectsDir);
    assert (h + t)[|h| + 1] == t[1];
    ProjectIdAfter(path, |h|, project);
  }

  /** The id read from the file path is the name after the first "projects". */
  lemma ProjectIdAfter(filePath: string, k: nat, name: string)
    requires FindIndex(Components(filePath), IsProjectsDir) == Some(k)
    requires k + 1 < |Components(filePath)| && Components(filePath)[k + 1] == Normal(name)
    ensures ProjectIdOf(None, filePath) == name
  {
  }

  /** An explicit project path ending in a plain name gives that name,
      whatever the file path. */
  lemma ProjectPathWins(dir: string, name: string, filePath: string)
    requires IsPlainName(name)
    ensures ProjectIdOf(Some(dir + "/" + name), filePath) == name
  {
    FileNameOfJoin(dir, name);
  }

  /** The adapter's second test: an explicit project path wins. */
  lemma ProjectIdExample()
    ensures ProjectIdOf(Some("/home/user/.claude/projects" + "/" + "test-project"), "") == "test-project"
  {
    assert '/' !in "test-project";
    ProjectPathWins("/home/user/.claude/projects", "test-project", "");
  }
}
