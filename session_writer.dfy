/** Writing Claude Code sessions: the JSONL record built for each message,
    the file layout of a new session, the parent chain of created and
    appended messages, and the extraction of a message range of an existing
    session back into message inputs. Fresh UUIDs, the clock and the file
    system are parameters. */
module SessionWriter {
  import opened Base
  import opened Json
  import opened Strings
  import opened Seqs
  import opened Paths

  const I32_MIN: int := -0x8000_0000
  const I32_LIMIT: int := 0x8000_0000
  const I64_MIN: int := -0x8000_0000_0000_0000
  const I64_LIMIT: int := 0x8000_0000_0000_0000

  predicate IsI32(n: int) { I32_MIN <= n < I32_LIMIT }

  /** `as i32` on an `i64`: the low 32 bits, read as two's complement. */
  function WrapI32(n: int): (r: int)
    ensures IsI32(r)
    ensures IsI32(n) ==> r == n
  {
    (n - I32_MIN) % 0x1_0000_0000 + I32_MIN
  }

  datatype TokenUsageInput = TokenUsageInput(
    input_tokens: Option<int>,
    output_tokens: Option<int>,
    cache_creation_input_tokens: Option<int>,
    cache_read_input_tokens: Option<int>)

  predicate OptI32(o: Option<int>) { o.Some? ==> IsI32(o.value) }

  /** The counts are `i32` fields. */
  predicate ValidUsageInput(u: TokenUsageInput) {
    OptI32(u.input_tokens) && OptI32(u.output_tokens) && OptI32(u.cache_creation_input_tokens) && OptI32(u.cache_read_input_tokens)
  }

  datatype MessageInput = MessageInput(
    role: string,
    content: Json,
    parent_id: Option<string>,
    model: Option<string>,
    tool_use: Option<Json>,
    tool_use_result: Option<Json>,
    usage: Option<TokenUsageInput>)

  predicate ValidInput(m: MessageInput) { m.usage.Some? ==> ValidUsageInput(m.usage.value) }

  // ---------------------------------------------------------------- one record

  const UsageKeys: set<string> := {"input_tokens", "output_tokens", "cache_creation_input_tokens", "cache_read_input_tokens"}

  /** The count written under `key`, if any. */
  function UsageCount(u: TokenUsageInput, key: string): Option<int> {
    match key
    case "input_tokens" => u.input_tokens
    case "output_tokens" => u.output_tokens
    case "cache_creation_input_tokens" => u.cache_creation_input_tokens
    case "cache_read_input_tokens" => u.cache_read_input_tokens
    case _ => None
  }

  /** The usage object: only the counts that are present. */
  function UsageObject(u: TokenUsageInput): (m: map<string, Json>)
    ensures "input_tokens" in m <==> u.input_tokens.Some?
    ensures "output_tokens" in m <==> u.output_tokens.Some?
    ensures "cache_creation_input_tokens" in m <==> u.cache_creation_input_tokens.Some?
    ensures "cache_read_input_tokens" in m <==> u.cache_read_input_tokens.Some?
    ensures m.Keys <= UsageKeys
    ensures forall k :: k in m ==> m[k] == Int(UsageCount(u, k).value)
  {
    map k | k in UsageKeys && UsageCount(u, k).Some? :: Int(UsageCount(u, k).value)
  }

  predicate HasCount(u: TokenUsageInput) {
    u.input_tokens.Some? || u.output_tokens.Some? || u.cache_creation_input_tokens.Some? || u.cache_read_input_tokens.Some?
  }

  /** `!usage_obj.is_empty()` holds exactly when some count is present. */
  lemma UsageObjectNonEmpty(u: TokenUsageInput)
    ensures |UsageObject(u)| > 0 <==> HasCount(u)
  {
    var m := UsageObject(u);
    if HasCount(u) {
      var k :| k in UsageKeys && UsageCount(u, k).Some?;
      assert k in m;
    } else {
      assert m == map[];
    }
  }

  /** The usage is written only when it has a count. */
  predicate WritesUsage(msg: MessageInput) { msg.usage.Some? && HasCount(msg.usage.value) }

  /** What the inner `message` holds under `key`, if anything. */
  function MessageEntry(msg: MessageInput, key: string): Option<Json> {
    match key
    case "role" => Some(Str(msg.role))
    case "content" => Some(msg.content)
    case "model" => (match msg.model case Some(m) => Some(Str(m)) case None => None)
    case "usage" => if WritesUsage(msg) then Some(Obj(UsageObject(msg.usage.value))) else None
    case _ => None
  }

  /** The inner `message`: role and content as given, the model when
      present, and the usage only when it has a count. */
  function MessageObject(msg: MessageInput): (m: map<string, Json>)
    ensures "role" in m && m["role"] == Str(msg.role) && "content" in m && m["content"] == msg.content
    ensures "model" in m <==> msg.model.Some?
    ensures msg.model.Some? ==> m["model"] == Str(msg.model.value)
    ensures "usage" in m <==> WritesUsage(msg)
    ensures "usage" in m ==> m["usage"] == Obj(UsageObject(msg.usage.value))
  {
    map k | k in {"role", "content", "model", "usage"} && MessageEntry(msg, k).Some? :: MessageEntry(msg, k).value
  }

  /** The UUIDs and the time a record is written with. */
  datatype Stamp = Stamp(uuid: string, request_uuid: string, timestamp: string)

  const ThinkingMetadata := Obj(map["level" := Str("high"), "disabled" := Bool(false), "triggers" := Arr([])])

  function Insert(m: map<string, Json>, key: string, value: Option<Json>): map<string, Json> {
    match value
    case Some(v) => m[key := v]
    case None => m
  }

  /** What a record holds under `key`, if anything: the ten fixed fields,
      then the fields that depend on the role, the parent and the tools. */
  function RecordEntry(msg: MessageInput, sessionId: string, cwd: string, previous: Option<string>, stamp: Stamp,
                       key: string): Option<Json> {
    var role := Lower(msg.role);
    match key
    case "uuid" => Some(Str(stamp.uuid))
    case "sessionId" => Some(Str(sessionId))
    case "timestamp" => Some(Str(stamp.timestamp))
    case "type" => Some(Str(role))
    case "message" => Some(Obj(MessageObject(msg)))
    case "isSidechain" => Some(Bool(false))
    case "cwd" => Some(Str(cwd))
    case "userType" => Some(Str("external"))
    case "version" => Some(Str("2.0.28"))
    case "gitBranch" => Some(Str("main"))
    case "requestId" => if role == "assistant" then Some(Str("req_" + ReplaceAll(stamp.request_uuid, "-", ""))) else None
    case "thinkingMetadata" => if role == "user" then Some(ThinkingMetadata) else None
    case "parentUuid" => (match previous case Some(p) => Some(Str(p)) case None => None)
    case "toolUse" => msg.tool_use
    case "toolUseResult" => msg.tool_use_result
    case _ => None
  }

  const RecordKeys: set<string> := {"uuid", "sessionId", "timestamp", "type", "message", "isSidechain", "cwd",
    "userType", "version", "gitBranch", "requestId", "thinkingMetadata", "parentUuid", "toolUse", "toolUseResult"}

  /** `convert_to_jsonl_format`; its `Result` is never an error. The source
      builds the ten fixed fields and then inserts the others one by one
      under distinct keys, so the record is the map of the entries that
      exist. */
  function ConvertToJsonl(msg: MessageInput, sessionId: string, cwd: string, previous: Option<string>, stamp: Stamp): (r: map<string, Json>)
    ensures "uuid" in r && r["uuid"] == Str(stamp.uuid)
    ensures r.Keys <= RecordKeys
  {
    map k | k in RecordKeys && RecordEntry(msg, sessionId, cwd, previous, stamp, k).Some?
      :: RecordEntry(msg, sessionId, cwd, previous, stamp, k).value
  }

  /** Every key of a record holds exactly its entry, and a key without an
      entry is absent. */
  lemma RecordEntries(msg: MessageInput, sessionId: string, cwd: string, previous: Option<string>, stamp: Stamp, key: string)
    ensures var r, e := ConvertToJsonl(msg, sessionId, cwd, previous, stamp), RecordEntry(msg, sessionId, cwd, previous, stamp, key);
      (key in r <==> e.Some?) && (e.Some? ==> r[key] == e.value)
  {
  }

  /** A record names its session, its time, its lower-cased role as type,
      and carries the inner message. */
  lemma RecordIdentity(msg: MessageInput, sessionId: string, cwd: string, previous: Option<string>, stamp: Stamp)
    ensures var r := ConvertToJsonl(msg, sessionId, cwd, previous, stamp);
      && "sessionId" in r && r["sessionId"] == Str(sessionId)
      && "timestamp" in r && r["timestamp"] == Str(stamp.timestamp)
      && "type" in r && r["type"] == Str(Lower(msg.role))
      && "message" in r && r["message"] == Obj(MessageObject(msg))
  {
    RecordEntries(msg, sessionId, cwd, previous, stamp, "sessionId");
    RecordEntries(msg, sessionId, cwd, previous, stamp, "timestamp");
    RecordEntries(msg, sessionId, cwd, previous, stamp, "type");
    RecordEntries(msg, sessionId, cwd, previous, stamp, "message");
  }

  /** The fields written the same for every record. */
  lemma RecordConstants(msg: MessageInput, sessionId: string, cwd: string, previous: Option<string>, stamp: Stamp)
    ensures var r := ConvertToJsonl(msg, sessionId, cwd, previous, stamp);
      && "isSidechain" in r && r["isSidechain"] == Bool(false)
      && "cwd" in r && r["cwd"] == Str(cwd)
      && "userType" in r && r["userType"] == Str("external")
      && "version" in r && r["version"] == Str("2.0.28")
      && "gitBranch" in r && r["gitBranch"] == Str("main")
  {
    RecordEntries(msg, sessionId, cwd, previous, stamp, "isSidechain");
    RecordEntries(msg, sessionId, cwd, previous, stamp, "cwd");
    RecordEntries(msg, sessionId, cwd, previous, stamp, "userType");
    RecordEntries(msg, sessionId, cwd, previous, stamp, "version");
    RecordEntries(msg, sessionId, cwd, previous, stamp, "gitBranch");
  }

  /** Assistant records get a request id made of the UUID without its
      dashes; user records get the thinking metadata. */
  lemma RecordRoleFields(msg: MessageInput, sessionId: string, cwd: string, previous: Option<string>, stamp: Stamp)
    ensures var r := ConvertToJsonl(msg, sessionId, cwd, previous, stamp);
      && ("requestId" in r <==> Lower(msg.role) == "assistant")
      && ("requestId" in r ==> r["requestId"] == Str("req_" + ReplaceAll(stamp.request_uuid, "-", "")))
      && ("thinkingMetadata" in r <==> Lower(msg.role) == "user")
      && ("thinkingMetadata" in r ==> r["thinkingMetadata"] == ThinkingMetadata)
  {
    RecordEntries(msg, sessionId, cwd, previous, stamp, "requestId");
    RecordEntries(msg, sessionId, cwd, previous, stamp, "thinkingMetadata");
  }

  /** The parent and the tool fields appear exactly when given. */
  lemma RecordOptionalFields(msg: MessageInput, sessionId: string, cwd: string, previous: Option<string>, stamp: Stamp)
    ensures var r := ConvertToJsonl(msg, sessionId, cwd, previous, stamp);
      && ("parentUuid" in r <==> previous.Some?)
      && (previous.Some? ==> r["parentUuid"] == Str(previous.value))
      && ("toolUse" in r <==> msg.tool_use.Some?)
      && (msg.tool_use.Some? ==> r["toolUse"] == msg.tool_use.value)
      && ("toolUseResult" in r <==> msg.tool_use_result.Some?)
      && (msg.tool_use_result.Some? ==> r["toolUseResult"] == msg.tool_use_result.value)
  {
    RecordEntries(msg, sessionId, cwd, previous, stamp, "parentUuid");
    RecordEntries(msg, sessionId, cwd, previous, stamp, "toolUse");
    RecordEntries(msg, sessionId, cwd, previous, stamp, "toolUseResult");
  }

  /** `create_summary_message`: its leaf is itself. */
  function SummaryMessage(summary: string, sessionId: string, uuid: string, timestamp: string): (r: map<string, Json>)
    ensures "type" in r && r["type"] == Str("summary") && "summary" in r && r["summary"] == Str(summary)
    ensures "leafUuid" in r && "uuid" in r && r["leafUuid"] == r["uuid"] == Str(uuid)
    ensures "sessionId" in r && r["sessionId"] == Str(sessionId)
  {
    map["uuid" := Str(uuid), "sessionId" := Str(sessionId), "timestamp" := Str(timestamp),
        "type" := Str("summary"), "summary" := Str(summary), "leafUuid" := Str(uuid)]
  }

  /** The file-history snapshot every created session starts with. */
  function Snapshot(messageId: string, timestamp: string): (r: Json)
    ensures Get(r, "type") == Some(Str("file-history-snapshot")) && Get(r, "isSnapshotUpdate") == Some(Bool(false))
    ensures Get(r, "messageId") == Some(Str(messageId))
    ensures Get(r, "snapshot").Some? && Get(Get(r, "snapshot").value, "messageId") == Some(Str(messageId))
    ensures Get(Get(r, "snapshot").value, "timestamp") == Some(Str(timestamp))
  {
    Obj(map["type" := Str("file-history-snapshot"), "messageId" := Str(messageId),
            "snapshot" := Obj(map["messageId" := Str(messageId), "trackedFileBackups" := Obj(map[]), "timestamp" := Str(timestamp)]),
            "isSnapshotUpdate" := Bool(false)])
  }

  // ---------------------------------------------------------------- the parent chain

  /** The previous uuid of the message at index `k`: the starting one for
      the first, the uuid written just before for the others. */
  function PreviousOf(start: Option<string>, stamps: nat -> Stamp, k: nat): Option<string> {
    if k == 0 then start else Some(stamps(k - 1).uuid)
  }

  /** The record of the message at index `k`. */
  function RecordAt(msgs: seq<MessageInput>, sessionId: string, cwd: string, start: Option<string>, stamps: nat -> Stamp, k: nat): Json
    requires k < |msgs|
  {
    Obj(ConvertToJsonl(msgs[k], sessionId, cwd, PreviousOf(start, stamps, k), stamps(k)))
  }

  function Chained(msgs: seq<MessageInput>, sessionId: string, cwd: string, start: Option<string>, stamps: nat -> Stamp): seq<Json> {
    seq(|msgs|, k requires 0 <= k < |msgs| => RecordAt(msgs, sessionId, cwd, start, stamps, k))
  }

  /** The writing loop of `create_claude_session` and
      `append_to_claude_session`: each record links to the one before. */
  method WriteMessages(msgs: seq<MessageInput>, sessionId: string, cwd: string, start: Option<string>, stamps: nat -> Stamp)
    returns (lines: seq<Json>)
    ensures lines == Chained(msgs, sessionId, cwd, start, stamps)
  {
    lines := [];
    var previous := start;
    var i := 0;
    while i < |msgs|
      invariant 0 <= i <= |msgs|
      invariant previous == PreviousOf(start, stamps, i)
      invariant |lines| == i && forall k :: 0 <= k < i ==> lines[k] == RecordAt(msgs, sessionId, cwd, start, stamps, k)
    {
      var record := ConvertToJsonl(msgs[i], sessionId, cwd, previous, stamps(i));
      if "uuid" in record && record["uuid"].Str? {
        previous := Some(record["uuid"].s);
      }
      lines := lines + [Obj(record)];
      i := i + 1;
    }
    assert forall k :: 0 <= k < |msgs| ==> lines[k] == Chained(msgs, sessionId, cwd, start, stamps)[k];
  }

  /** The first record links to the start (none for a new session) and
      every later one to its predecessor's uuid. */
  lemma ChainLinks(msgs: seq<MessageInput>, sessionId: string, cwd: string, start: Option<string>, stamps: nat -> Stamp)
    ensures var lines := Chained(msgs, sessionId, cwd, start, stamps);
      && (|lines| > 0 ==> (Get(lines[0], "parentUuid") == if start.Some? then Some(Str(start.value)) else None))
      && forall k :: 0 < k < |lines| ==> Get(lines[k], "parentUuid") == Get(lines[k - 1], "uuid")
  {
    var lines := Chained(msgs, sessionId, cwd, start, stamps);
    if |lines| > 0 {
      RecordOptionalFields(msgs[0], sessionId, cwd, start, stamps(0));
    }
    forall k | 0 < k < |lines|
      ensures Get(lines[k], "parentUuid") == Get(lines[k - 1], "uuid")
    {
      RecordOptionalFields(msgs[k], sessionId, cwd, PreviousOf(start, stamps, k), stamps(k));
    }
  }

  // ---------------------------------------------------------------- creating and appending

  /** What the commands need of the file system and the fresh values. */
  datatype Disk = Disk(exists_path: string -> bool, home: Option<string>, mkdir_error: string -> Option<string>)

  datatype CreateProjectResponse = CreateProjectResponse(project_path: string, project_name: string)

  const NoHome := "Could not determine home directory"

  function DefaultProjectsDir(home: string): string {
    JoinPath(JoinPath(home, ".claude"), "projects")
  }

  /** `create_claude_project`: the parent must exist (the default one is
      created), and the project must not. */
  function CreateClaudeProject(name: string, parentPath: Option<string>, disk: Disk): (r: Result<CreateProjectResponse>)
    ensures parentPath.None? && disk.home.None? ==> r == Err(NoHome)
    ensures parentPath.Some? && !disk.exists_path(parentPath.value) ==> r == Err("Parent path does not exist: " + parentPath.value)
    ensures r.Ok? ==> !disk.exists_path(r.value.project_path) && r.value.project_name == name
    ensures r.Ok? && parentPath.Some? ==> r.value.project_path == JoinPath(parentPath.value, name) && disk.exists_path(parentPath.value)
    ensures r.Ok? && parentPath.None? ==> r.value.project_path == JoinPath(DefaultProjectsDir(disk.home.value), name)
    ensures parentPath.Some? && disk.exists_path(parentPath.value) ==>
      var project := JoinPath(parentPath.value, name);
      r == (if disk.exists_path(project) then Err("Project already exists: " + project)
            else if disk.mkdir_error(project).Some? then Err("Failed to create project directory: " + disk.mkdir_error(project).value)
            else Ok(CreateProjectResponse(project, name)))
    ensures parentPath.None? && disk.home.Some? ==>
      var dir := DefaultProjectsDir(disk.home.value);
      var project := JoinPath(dir, name);
      r == (if !disk.exists_path(dir) && disk.mkdir_error(dir).Some? then Err("Failed to create .claude/projects directory: " + disk.mkdir_error(dir).value)
            else if disk.exists_path(project) then Err("Project already exists: " + project)
            else if disk.mkdir_error(project).Some? then Err("Failed to create project directory: " + disk.mkdir_error(project).value)
            else Ok(CreateProjectResponse(project, name)))
  {
    var parent :- match parentPath
      case Some(p) => Ok(p)
      case None => if disk.home.Some? then Ok(DefaultProjectsDir(disk.home.value)) else Err(NoHome);
    var ready :- if disk.exists_path(parent) then Ok(parent)
      else if parentPath.None? then
        (match disk.mkdir_error(parent)
         case Some(e) => Err("Failed to create .claude/projects directory: " + e)
         case None => Ok(parent))
      else Err("Parent path does not exist: " + parent);
    var project := JoinPath(ready, name);
    if disk.exists_path(project) then Err("Project already exists: " + project)
    else
      match disk.mkdir_error(project)
      case Some(e) => Err("Failed to create project directory: " + e)
      case None => Ok(CreateProjectResponse(project, name))
  }

  datatype CreateSessionResponse = CreateSessionResponse(session_path: string, session_id: string, message_count: nat)

  /** The lines of a new session file. */
  function SessionLines(msgs: seq<MessageInput>, sessionId: string, summary: Option<string>, cwd: string,
                        snapshotId: string, summaryId: string, now: string, stamps: nat -> Stamp): seq<Json> {
    [Snapshot(snapshotId, now)]
    + (if summary.Some? then [Obj(SummaryMessage(summary.value, sessionId, summaryId, now))] else [])
    + Chained(msgs, sessionId, cwd, None, stamps)
  }

  /** `create_claude_session`: the file written and the response. */
  method CreateClaudeSession(projectPath: string, msgs: seq<MessageInput>, summary: Option<string>, cwd: Option<string>,
                             sessionId: string, snapshotId: string, summaryId: string, now: string,
                             stamps: nat -> Stamp, disk: Disk)
    returns (r: Result<(CreateSessionResponse, seq<Json>)>)
    ensures !disk.exists_path(projectPath) ==> r == Err("Project path does not exist: " + projectPath)
    ensures disk.exists_path(projectPath) && disk.exists_path(JoinPath(projectPath, sessionId + ".jsonl")) ==>
      r == Err("Session file already exists: " + JoinPath(projectPath, sessionId + ".jsonl"))
    ensures r.Ok? ==> && r.value.0 == CreateSessionResponse(JoinPath(projectPath, sessionId + ".jsonl"), sessionId, |msgs|)
                      && !disk.exists_path(r.value.0.session_path)
                      && r.value.1 == SessionLines(msgs, sessionId, summary, cwd.GetOr(projectPath), snapshotId, summaryId, now, stamps)
    ensures disk.exists_path(projectPath) && !disk.exists_path(JoinPath(projectPath, sessionId + ".jsonl")) ==> r.Ok?
  {
    if !disk.exists_path(projectPath) {
      return Err("Project path does not exist: " + projectPath);
    }
    var sessionPath := JoinPath(projectPath, sessionId + ".jsonl");
    if disk.exists_path(sessionPath) {
      return Err("Session file already exists: " + sessionPath);
    }
    var lines := [Snapshot(snapshotId, now)];
    if summary.Some? {
      lines := lines + [Obj(SummaryMessage(summary.value, sessionId, summaryId, now))];
    }
    var records := WriteMessages(msgs, sessionId, cwd.GetOr(projectPath), None, stamps);
    lines := lines + records;
    r := Ok((CreateSessionResponse(sessionPath, sessionId, |msgs|), lines));
  }

  /** The layout of a created file: the snapshot first, the summary (whose
      leaf is itself) next when there is one, then one record per message. */
  lemma SessionLayout(msgs: seq<MessageInput>, sessionId: string, summary: Option<string>, cwd: string,
                      snapshotId: string, summaryId: string, now: string, stamps: nat -> Stamp)
    ensures var lines := SessionLines(msgs, sessionId, summary, cwd, snapshotId, summaryId, now, stamps);
      var skip := if summary.Some? then 2 else 1;
      && |lines| == skip + |msgs|
      && Get(lines[0], "type") == Some(Str("file-history-snapshot"))
      && (summary.Some? ==> Get(lines[1], "type") == Some(Str("summary")) && Get(lines[1], "leafUuid") == Get(lines[1], "uuid"))
      && (|msgs| > 0 ==> Get(lines[skip], "parentUuid").None?)
      && forall k :: 0 <= k < |msgs| ==> Get(lines[skip + k], "type") == Some(Str(Lower(msgs[k].role)))
  {
    var head := [Snapshot(snapshotId, now)]
      + (if summary.Some? then [Obj(SummaryMessage(summary.value, sessionId, summaryId, now))] else []);
    var chain := Chained(msgs, sessionId, cwd, None, stamps);
    assert SessionLines(msgs, sessionId, summary, cwd, snapshotId, summaryId, now, stamps) == head + chain;
    ChainLinks(msgs, sessionId, cwd, None, stamps);
    ChainedTypes(msgs, sessionId, cwd, None, stamps);
  }

  /** Every record's type is the lower-cased role of its message. */
  lemma ChainedTypes(msgs: seq<MessageInput>, sessionId: string, cwd: string, start: Option<string>, stamps: nat -> Stamp)
    ensures var lines := Chained(msgs, sessionId, cwd, start, stamps);
      forall k :: 0 <= k < |lines| ==> Get(lines[k], "type") == Some(Str(Lower(msgs[k].role)))
  {
    var lines := Chained(msgs, sessionId, cwd, start, stamps);
    forall k | 0 <= k < |lines|
      ensures Get(lines[k], "type") == Some(Str(Lower(msgs[k].role)))
    {
      RecordIdentity(msgs[k], sessionId, cwd, PreviousOf(start, stamps, k), stamps(k));
    }
  }

  // ---------------------------------------------------------------- reading back

  /** A read line: blank, JSON, or text that does not parse. */
  datatype TextLine = BlankLine | JsonLine(value: Json) | BadJson(error: string)

  /** A line that fails to read or to parse. */
  predicate LineFails(line: Result<TextLine>) {
    line.Err? || line.value.BadJson?
  }

  /** The last string uuid of a file, or the first error. */
  function LastUuid(lines: seq<Result<TextLine>>): (r: Result<Option<string>>)
    ensures r.Err? <==> exists i :: 0 <= i < |lines| && LineFails(lines[i])
    ensures r.Ok? && r.value.Some? ==>
      exists i :: 0 <= i < |lines| && lines[i].Ok? && lines[i].value.JsonLine? && GetStr(lines[i].value.value, "uuid") == r.value
  {
    if |lines| == 0 then Ok(None)
    else
      var before :- LastUuid(lines[..|lines| - 1]);
      match lines[|lines| - 1]
      case Err(e) => Err("Failed to read line: " + e)
      case Ok(BlankLine) => Ok(before)
      case Ok(BadJson(e)) => Err("Failed to parse JSONL line: " + e)
      case Ok(JsonLine(v)) => Ok(GetStr(v, "uuid").Or(before))
  }

  /** `get_last_message_uuid`. */
  method GetLastMessageUuid(file: Result<seq<Result<TextLine>>>) returns (r: Result<Option<string>>)
    ensures file.Err? ==> r == Err("Failed to open session file: " + file.error)
    ensures file.Ok? ==> r == LastUuid(file.value)
  {
    if file.Err? {
      return Err("Failed to open session file: " + file.error);
    }
    var lines := file.value;
    var last: Option<string> := None;
    var i := 0;
    while i < |lines|
      invariant 0 <= i <= |lines|
      invariant LastUuid(lines[..i]) == Ok(last)
    {
      assert lines[..i + 1][..i] == lines[..i];
      match lines[i] {
        case Err(e) =>
          LastUuidStops(lines, i + 1);
          return Err("Failed to read line: " + e);
        case Ok(BlankLine) =>
        case Ok(BadJson(e)) =>
          LastUuidStops(lines, i + 1);
          return Err("Failed to parse JSONL line: " + e);
        case Ok(JsonLine(v)) =>
          var uuid := GetStr(v, "uuid");
          if uuid.Some? {
            last := uuid;
          }
      }
      i := i + 1;
    }
    assert lines[..i] == lines;
    r := Ok(last);
  }

  lemma {:induction false} LastUuidStops(lines: seq<Result<TextLine>>, k: nat)
    requires k <= |lines| && LastUuid(lines[..k]).Err?
    ensures LastUuid(lines) == LastUuid(lines[..k])
    decreases |lines| - k
  {
    if k < |lines| {
      assert lines[..k + 1][..k] == lines[..k];
      LastUuidStops(lines, k + 1);
    } else {
      assert lines[..k] == lines;
    }
  }

  /** Line `i` holds the uuid found, and no later JSON line has one. */
  predicate LastUuidAt(lines: seq<Result<TextLine>>, i: int) {
    && 0 <= i < |lines| && lines[i].Ok? && lines[i].value.JsonLine?
    && LastUuid(lines).Ok? && GetStr(lines[i].value.value, "uuid") == LastUuid(lines).value
    && forall j :: i < j < |lines| && lines[j].Ok? && lines[j].value.JsonLine? ==> GetStr(lines[j].value.value, "uuid").None?
  }

  /** The uuid found is that of a JSON line after which no line has one. */
  lemma {:induction false} LastUuidIsLast(lines: seq<Result<TextLine>>)
    requires LastUuid(lines).Ok? && LastUuid(lines).value.Some?
    ensures exists i :: LastUuidAt(lines, i)
    decreases |lines|
  {
    var init := lines[..|lines| - 1];
    var last := lines[|lines| - 1];
    if last.Ok? && last.value.JsonLine? && GetStr(last.value.value, "uuid").Some? {
      assert LastUuidAt(lines, |lines| - 1);
    } else {
      LastUuidIsLast(init);
      var i :| LastUuidAt(init, i);
      assert lines[i] == init[i];
      forall j | i < j < |lines| && lines[j].Ok? && lines[j].value.JsonLine?
        ensures GetStr(lines[j].value.value, "uuid").None?
      {
        if j < |init| {
          assert lines[j] == init[j];
        }
      }
      assert LastUuidAt(lines, i);
    }
  }

  function ParentPath(p: string): Option<string> {
    match ParentComponents(Components(p))
    case Some(cs) => Some(Render(cs))
    case None => None
  }

  /** `append_to_claude_session`: the records of the new messages, chained
      from the file's last uuid, with the file stem as session id and the
      file's directory as cwd. */
  method AppendToClaudeSession(sessionPath: string, msgs: seq<MessageInput>, file: Result<seq<Result<TextLine>>>,
                               stamps: nat -> Stamp, disk: Disk)
    returns (r: Result<(nat, seq<Json>)>)
    ensures !disk.exists_path(sessionPath) ==> r == Err("Session file does not exist: " + sessionPath)
    ensures disk.exists_path(sessionPath) && FileStem(sessionPath).None? ==> r == Err("Invalid session file name")
    ensures r.Ok? ==> && FileStem(sessionPath).Some? && ParentPath(sessionPath).Some?
                      && file.Ok? && LastUuid(file.value).Ok?
                      && r.value.0 == |msgs|
                      && r.value.1 == Chained(msgs, FileStem(sessionPath).value, ParentPath(sessionPath).value,
                                              LastUuid(file.value).value, stamps)
    ensures disk.exists_path(sessionPath) && FileStem(sessionPath).Some? && ParentPath(sessionPath).None? ==>
      r == Err("Invalid session file path")
    ensures disk.exists_path(sessionPath) && FileStem(sessionPath).Some? && ParentPath(sessionPath).Some? ==>
      && (file.Err? ==> r == Err("Failed to open session file: " + file.error))
      && (file.Ok? && LastUuid(file.value).Err? ==> r == Err(LastUuid(file.value).error))
      && (file.Ok? && LastUuid(file.value).Ok? ==> r.Ok?)
  {
    if !disk.exists_path(sessionPath) {
      return Err("Session file does not exist: " + sessionPath);
    }
    var sessionId := FileStem(sessionPath);
    if sessionId.None? {
      return Err("Invalid session file name");
    }
    var cwd := ParentPath(sessionPath);
    if cwd.None? {
      return Err("Invalid session file path");
    }
    var last := GetLastMessageUuid(file);
    if last.Err? {
      return Err(last.error);
    }
    var records := WriteMessages(msgs, sessionId.value, cwd.value, last.value, stamps);
    r := Ok((|msgs|, records));
  }

  // ---------------------------------------------------------------- extracting a range

  /** What the line loop of `extract_message_range` gathers. */
  datatype Gathered = Gathered(messages: seq<Json>, summary: Option<string>, cwd: Option<string>)

  predicate IsSummaryLine(v: Json) { GetStr(v, "type") == Some("summary") }

  predicate IsSidechainLine(v: Json) { GetBool(v, "isSidechain").GetOr(false) }

  /** A working directory that is not inside Claude's own folders. */
  function SourceCwd(v: Json): Option<string> {
    match GetStr(v, "cwd")
    case Some(c) => if !Contains(c, ".claude") && !Contains(c, "projects") then Some(c) else None
    case None => None
  }

  function LineNumber(i: nat): string { NatToString(i + 1) }

  /** One line: summaries set the summary, the first usable cwd is kept
      (from sidechain lines too), and non-sidechain records are gathered. */
  function GatherLine(g: Gathered, v: Json): Gathered {
    if IsSummaryLine(v) then g.(summary := GetStr(v, "summary"))
    else
      var cwd := if g.cwd.None? then SourceCwd(v) else g.cwd;
      if IsSidechainLine(v) then g.(cwd := cwd) else Gathered(g.messages + [v], g.summary, cwd)
  }

  function Gather(lines: seq<Result<TextLine>>): (r: Result<Gathered>)
    ensures r.Err? <==> exists i :: 0 <= i < |lines| && LineFails(lines[i])
    ensures r.Ok? ==> |r.value.messages| <= |lines|
  {
    if |lines| == 0 then Ok(Gathered([], None, None))
    else
      var g :- Gather(lines[..|lines| - 1]);
      var n := |lines| - 1;
      match lines[n]
      case Err(e) => Err("Failed to read line " + LineNumber(n) + ": " + e)
      case Ok(BlankLine) => Ok(g)
      case Ok(BadJson(e)) => Err("Failed to parse JSON at line " + LineNumber(n) + ": " + e)
      case Ok(JsonLine(v)) => Ok(GatherLine(g, v))
  }

  lemma {:induction false} GatherStops(lines: seq<Result<TextLine>>, k: nat)
    requires k <= |lines| && Gather(lines[..k]).Err?
    ensures Gather(lines) == Gather(lines[..k])
    decreases |lines| - k
  {
    if k < |lines| {
      assert lines[..k + 1][..k] == lines[..k];
      GatherStops(lines, k + 1);
    } else {
      assert lines[..k] == lines;
    }
  }

  /** The line loop of `extract_message_range`. */
  method GatherLines(lines: seq<Result<TextLine>>) returns (r: Result<Gathered>)
    ensures r == Gather(lines)
  {
    var messages: seq<Json> := [];
    var summary: Option<string> := None;
    var cwd: Option<string> := None;
    var i := 0;
    while i < |lines|
      invariant 0 <= i <= |lines|
      invariant Gather(lines[..i]) == Ok(Gathered(messages, summary, cwd))
    {
      assert lines[..i + 1][..i] == lines[..i];
      match lines[i] {
        case Err(e) =>
          GatherStops(lines, i + 1);
          return Err("Failed to read line " + LineNumber(i) + ": " + e);
        case Ok(BlankLine) =>
        case Ok(BadJson(e)) =>
          GatherStops(lines, i + 1);
          return Err("Failed to parse JSON at line " + LineNumber(i) + ": " + e);
        case Ok(JsonLine(v)) =>
          if IsSummaryLine(v) {
            summary := GetStr(v, "summary");
          } else {
            if cwd.None? {
              var c := GetStr(v, "cwd");
              if c.Some? && !Contains(c.value, ".claude") && !Contains(c.value, "projects") {
                cwd := c;
              }
            }
            if !IsSidechainLine(v) {
              messages := messages + [v];
            }
          }
      }
      i := i + 1;
    }
    assert lines[..i] == lines;
    r := Ok(Gathered(messages, summary, cwd));
  }

  /** No gathered record is a summary or a sidechain line. */
  lemma {:induction false} GatheredAreMessages(lines: seq<Result<TextLine>>)
    requires Gather(lines).Ok?
    ensures forall v :: v in Gather(lines).value.messages ==> !IsSummaryLine(v) && !IsSidechainLine(v)
    decreases |lines|
  {
    if |lines| > 0 {
      GatheredAreMessages(lines[..|lines| - 1]);
    }
  }

  /** `as_i64()` on a field. */
  function GetI64(j: Json, key: string): Option<int> {
    match GetInt(j, key)
    case Some(n) => if I64_MIN <= n < I64_LIMIT then Some(n) else None
    case None => None
  }

  function CountOf(usage: Json, key: string): Option<int> {
    match GetI64(usage, key)
    case Some(n) => Some(WrapI32(n))
    case None => None
  }

  function UsageInputOf(usage: Json): TokenUsageInput {
    TokenUsageInput(CountOf(usage, "input_tokens"), CountOf(usage, "output_tokens"),
                    CountOf(usage, "cache_creation_input_tokens"), CountOf(usage, "cache_read_input_tokens"))
  }

  /** A record as a message input, before its parent is set: it needs a
      `message` with a string role and some content. */
  function InputOf(record: Json): (r: Option<MessageInput>)
    ensures r.Some? <==> && Get(record, "message").Some? && GetStr(Get(record, "message").value, "role").Some?
                         && Get(Get(record, "message").value, "content").Some?
    ensures r.Some? ==> var message := Get(record, "message").value;
      && r.value.role == GetStr(message, "role").value && r.value.content == Get(message, "content").value
      && r.value.parent_id.None? && r.value.model == GetStr(message, "model")
      && r.value.tool_use == Get(record, "toolUse") && r.value.tool_use_result == Get(record, "toolUseResult")
      && (r.value.usage.Some? <==> Get(message, "usage").Some?)
  {
    var message :- Get(record, "message");
    var role :- GetStr(message, "role");
    var content :- Get(message, "content");
    var usage := match Get(message, "usage")
      case Some(u) => Some(UsageInputOf(u))
      case None => None;
    Some(MessageInput(role, content, None, GetStr(message, "model"), Get(record, "toolUse"), Get(record, "toolUseResult"), usage))
  }

  /** The first converted message has no parent; the others point at the
      placeholder "previous". */
  function WithPlaceholderParents(ms: seq<MessageInput>): (r: seq<MessageInput>)
    ensures |r| == |ms|
  {
    seq(|ms|, k requires 0 <= k < |ms| => ms[k].(parent_id := if k == 0 then None else Some("previous")))
  }

  function Inputs(records: seq<Json>): seq<MessageInput> {
    WithPlaceholderParents(FilterMap(records, InputOf))
  }

  /** The conversion loop of `extract_message_range`. */
  method ConvertRecords(records: seq<Json>) returns (out: seq<MessageInput>)
    ensures out == Inputs(records)
  {
    out := [];
    var i := 0;
    while i < |records|
      invariant 0 <= i <= |records|
      invariant out == Inputs(records[..i])
    {
      assert records[..i + 1][..i] == records[..i];
      var input := InputOf(records[i]);
      if input.Some? {
        var parent := if |out| == 0 then None else Some("previous");
        out := out + [input.value.(parent_id := parent)];
      }
      i := i + 1;
    }
    assert records[..i] == records;
  }

  datatype RangeResponse = RangeResponse(messages: seq<MessageInput>, summary: Option<string>, message_count: nat, cwd: Option<string>)

  predicate HasUuid(id: string, v: Json) { GetStr(v, "uuid") == Some(id) }

  function PositionOf(ms: seq<Json>, id: string): Option<nat> {
    FindIndex(ms, (v: Json) => HasUuid(id, v))
  }

  const NoValidMessages := "No valid messages found in the specified range"

  function InvalidRange(start: nat, end: nat): string {
    "Invalid range: start index (" + NatToString(start) + ") is after end index (" + NatToString(end) + ")"
  }

  /** The range and its conversion once the lines are gathered; an open end
      of an empty list is the same error as an empty range. */
  function RangeOf(g: Gathered, startId: Option<string>, endId: Option<string>): (r: Result<RangeResponse>)
    ensures r.Ok? ==> r.value.message_count == |r.value.messages| > 0 && r.value.summary == g.summary && r.value.cwd == g.cwd
    ensures startId.Some? && PositionOf(g.messages, startId.value).None? ==> r == Err("Start message ID not found: " + startId.value)
    ensures (startId.None? || PositionOf(g.messages, startId.value).Some?) && endId.Some? && PositionOf(g.messages, endId.value).None?
      ==> r == Err("End message ID not found: " + endId.value)
  {
    var ms := g.messages;
    var start :- match startId
      case Some(id) => if PositionOf(ms, id).Some? then Ok(PositionOf(ms, id).value) else Err("Start message ID not found: " + id)
      case None => Ok(0);
    var end :- match endId
      case Some(id) => if PositionOf(ms, id).Some? then Ok(PositionOf(ms, id).value as int) else Err("End message ID not found: " + id)
      case None => Ok(|ms| - 1);
    if end < 0 then Err(NoValidMessages)
    else if start > end then Err(InvalidRange(start, end))
    else
      var out := Inputs(ms[start..end + 1]);
      if |out| == 0 then Err(NoValidMessages)
      else Ok(RangeResponse(out, g.summary, |out|, g.cwd))
  }

  /** The part of `extract_message_range` after the line loop: find the
      ends, check their order and convert the records between them. */
  method SelectRange(g: Gathered, startId: Option<string>, endId: Option<string>) returns (r: Result<RangeResponse>)
    ensures r == RangeOf(g, startId, endId)
  {
    var ms := g.messages;
    var start := 0;
    if startId.Some? {
      var p := PositionOf(ms, startId.value);
      if p.None? {
        return Err("Start message ID not found: " + startId.value);
      }
      start := p.value;
    }
    var end: int := |ms| - 1;
    if endId.Some? {
      var p := PositionOf(ms, endId.value);
      if p.None? {
        return Err("End message ID not found: " + endId.value);
      }
      end := p.value;
    }
    if end < 0 {
      return Err(NoValidMessages);
    }
    if start > end {
      return Err(InvalidRange(start, end));
    }
    var out := ConvertRecords(ms[start..end + 1]);
    if |out| == 0 {
      return Err(NoValidMessages);
    }
    r := Ok(RangeResponse(out, g.summary, |out|, g.cwd));
  }

  /** `extract_message_range` with the empty-list case of the open end as
      an error. */
  method ExtractMessageRange(sessionPath: string, startId: Option<string>, endId: Option<string>,
                             file: Result<seq<Result<TextLine>>>, disk: Disk)
    returns (r: Result<RangeResponse>)
    ensures !disk.exists_path(sessionPath) ==> r == Err("Session file does not exist: " + sessionPath)
    ensures disk.exists_path(sessionPath) && file.Err? ==> r == Err("Failed to open session file: " + file.error)
    ensures disk.exists_path(sessionPath) && file.Ok? ==>
      r == (match Gather(file.value) case Err(e) => Err(e) case Ok(g) => RangeOf(g, startId, endId))
  {
    if !disk.exists_path(sessionPath) {
      return Err("Session file does not exist: " + sessionPath);
    }
    if file.Err? {
      return Err("Failed to open session file: " + file.error);
    }
    var gathered := GatherLines(file.value);
    if gathered.Err? {
      return Err(gathered.error);
    }
    r := SelectRange(gathered.value, startId, endId);
  }

  /** Where the range starts: the start id's position, or the first record
      when no start id is given. */
  function StartPosition(ms: seq<Json>, startId: Option<string>): Option<nat> {
    match startId
    case Some(id) => PositionOf(ms, id)
    case None => Some(0)
  }

  /** Where the range ends: the end id's position, or the last record when
      no end id is given (none when nothing was gathered). */
  function EndPosition(ms: seq<Json>, endId: Option<string>): Option<nat> {
    match endId
    case Some(id) => PositionOf(ms, id)
    case None => if |ms| > 0 then Some(|ms| - 1) else None
  }

  /** The range is inclusive of both ends: with the ends found in order it
      converts exactly the records from the start (the first record without
      a start id) to the end (the last record without an end id). */
  lemma RangeInclusive(g: Gathered, startId: Option<string>, endId: Option<string>)
    requires StartPosition(g.messages, startId).Some? && EndPosition(g.messages, endId).Some?
    requires StartPosition(g.messages, startId).value <= EndPosition(g.messages, endId).value
    ensures EndPosition(g.messages, endId).value < |g.messages|
    ensures var s, e := StartPosition(g.messages, startId).value, EndPosition(g.messages, endId).value;
      var out := Inputs(g.messages[s..e + 1]);
      RangeOf(g, startId, endId) == if |out| == 0 then Err(NoValidMessages) else Ok(RangeResponse(out, g.summary, |out|, g.cwd))
  {
  }

  /** A start after the end is refused, with both positions named. */
  lemma RangeReversed(g: Gathered, startId: Option<string>, endId: Option<string>)
    requires StartPosition(g.messages, startId).Some? && EndPosition(g.messages, endId).Some?
    requires StartPosition(g.messages, startId).value > EndPosition(g.messages, endId).value
    ensures RangeOf(g, startId, endId) ==
      Err(InvalidRange(StartPosition(g.messages, startId).value, EndPosition(g.messages, endId).value))
  {
  }

  /** `all_messages.len() - 1` as written: a `usize` subtraction, which
      panics (`None` here) when nothing was gathered. */
  function OpenEndAsWritten(ms: seq<Json>): Option<nat> {
    if |ms| == 0 then None else Some(|ms| - 1)
  }

  /** The range as written: `None` is the panic of the open end. */
  function RangeAsWritten(g: Gathered, startId: Option<string>, endId: Option<string>): Option<Result<RangeResponse>> {
    var ms := g.messages;
    var start :- Some(match startId
      case Some(id) => if PositionOf(ms, id).Some? then Ok(PositionOf(ms, id).value) else Err("Start message ID not found: " + id)
      case None => Ok(0));
    if start.Err? then Some(Err(start.error))
    else
      match endId
      case Some(id) =>
        if PositionOf(ms, id).None? then Some(Err("End message ID not found: " + id))
        else Some(RangeOf(g, startId, endId))
      case None =>
        var end :- OpenEndAsWritten(ms);
        Some(RangeOf(g, startId, endId))
  }

  /** A session whose lines are all summaries or sidechains, extracted
      with neither id, reaches the subtraction with an empty list. */
  lemma RangeAsWrittenPanics()
    ensures RangeAsWritten(Gathered([], None, None), None, None).None?
    ensures RangeOf(Gathered([], None, None), None, None) == Err(NoValidMessages)
  {
  }

  /** Where the as-written range does not panic, it agrees with the model. */
  lemma RangeAsWrittenAgrees(g: Gathered, startId: Option<string>, endId: Option<string>)
    requires RangeAsWritten(g, startId, endId).Some?
    ensures RangeAsWritten(g, startId, endId).value == RangeOf(g, startId, endId)
  {
  }

  // ---------------------------------------------------------------- round trip

  /** An all-empty usage is not written, so it reads back as none. */
  function WrittenUsage(u: Option<TokenUsageInput>): Option<TokenUsageInput> {
    match u
    case Some(t) => if HasCount(t) then Some(t) else None
    case None => None
  }

  lemma UsageReadBack(t: TokenUsageInput)
    requires ValidUsageInput(t)
    ensures UsageInputOf(Obj(UsageObject(t))) == t
  {
    var m := UsageObject(t);
    assert GetI64(Obj(m), "input_tokens") == t.input_tokens;
    assert GetI64(Obj(m), "output_tokens") == t.output_tokens;
    assert GetI64(Obj(m), "cache_creation_input_tokens") == t.cache_creation_input_tokens;
    assert GetI64(Obj(m), "cache_read_input_tokens") == t.cache_read_input_tokens;
  }

  /** Any record with the inner message and the tool fields of `msg`
      reads back as `msg`, without its parent. */
  lemma ReadBackFrom(msg: MessageInput, r: map<string, Json>)
    requires ValidInput(msg)
    requires "message" in r && r["message"] == Obj(MessageObject(msg))
    requires ("toolUse" in r <==> msg.tool_use.Some?) && (msg.tool_use.Some? ==> r["toolUse"] == msg.tool_use.value)
    requires ("toolUseResult" in r <==> msg.tool_use_result.Some?)
    requires msg.tool_use_result.Some? ==> r["toolUseResult"] == msg.tool_use_result.value
    ensures InputOf(Obj(r)) == Some(msg.(parent_id := None, usage := WrittenUsage(msg.usage)))
  {
    var message := Obj(MessageObject(msg));
    assert Get(Obj(r), "message") == Some(message);
    assert Get(Obj(r), "toolUse") == msg.tool_use;
    assert Get(Obj(r), "toolUseResult") == msg.tool_use_result;
    assert GetStr(message, "role") == Some(msg.role);
    assert Get(message, "content") == Some(msg.content);
    assert GetStr(message, "model") == msg.model;
    if WritesUsage(msg) {
      UsageReadBack(msg.usage.value);
    }
  }

  /** A record written by the session writer reads back, through the range
      extraction, as the message it was written from, without its parent
      and with an all-empty usage dropped. */
  lemma WrittenRecordReadsBack(msg: MessageInput, sessionId: string, cwd: string, previous: Option<string>, stamp: Stamp)
    requires ValidInput(msg)
    ensures InputOf(Obj(ConvertToJsonl(msg, sessionId, cwd, previous, stamp))) ==
      Some(msg.(parent_id := None, usage := WrittenUsage(msg.usage)))
  {
    RecordIdentity(msg, sessionId, cwd, previous, stamp);
    RecordOptionalFields(msg, sessionId, cwd, previous, stamp);
    ReadBackFrom(msg, ConvertToJsonl(msg, sessionId, cwd, previous, stamp));
  }
}
