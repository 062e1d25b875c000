/** The Codex commands: the message list of one rollout file with its
    offset/limit window, the one session a rollout file stands for, and the
    project scan that groups rollout files by session id. The files' lines
    arrive already parsed (see `CodexAdapter.ParseCodexJsonl`); whether the
    file exists, its size and the clock are inputs. */
module CodexCommands {
  import opened Base
  import opened Json
  import opened Strings
  import opened Seqs
  import opened Paths
  import opened Universal
  import opened CodexAdapter

  // ---------------------------------------------------------------- message filter

  /** A `response_item` whose payload has a string `type` is a message iff
      that type is "message"; otherwise only `event_msg` events are. */
  predicate IsMessageEvent(e: CodexEvent) {
    if e.event_type == "response_item" && e.payload.Some? && GetStr(e.payload.value, "type").Some?
    then GetStr(e.payload.value, "type").value == "message"
    else e.event_type == "event_msg"
  }

  /** The filter keeps the `response_item` messages and every `event_msg`,
      and drops everything else. */
  lemma MessageEventRule(e: CodexEvent)
    ensures IsMessageEvent(e) <==>
      ((e.event_type == "response_item" && e.payload.Some? && GetStr(e.payload.value, "type") == Some("message"))
       || e.event_type == "event_msg")
  {
  }

  /** What the `map` step makes of the event at index `i`: the adapter's
      message numbered by its index in the whole file, with the session id
      of `extract_session_id`. `now(i)` is the clock as that call reads it. */
  function KeptMessage(events: seq<CodexEvent>, i: nat, uuid: string, sessionPath: string,
                       fileSize: Option<nat>, now: nat -> string): UniversalMessage
    requires i < |events|
  {
    CodexMessage(events[i], "codex", sessionPath, UsizeAsI32(i), sessionPath, fileSize, now(i))
      .(session_id := SessionIdOf(events[i], uuid))
  }

  /** The filter/map/collect chain of `load_codex_messages`. */
  function CodexMessages(events: seq<CodexEvent>, uuid: string, sessionPath: string,
                         fileSize: Option<nat>, now: nat -> string): (r: seq<UniversalMessage>)
    ensures |r| == Count(events, IsMessageEvent)
  {
    var ks := IndicesWhere(events, IsMessageEvent, |events|);
    IndicesCounted(events, IsMessageEvent, |events|);
    assert events[..|events|] == events;
    seq(|ks|, k requires 0 <= k < |ks| => KeptMessage(events, ks[k], uuid, sessionPath, fileSize, now))
  }

  /** Each kept message is numbered by its event's index in the full list, so
      the numbers increase but need not be dense; its session id is the
      event's own. */
  lemma CodexMessagesNumbering(events: seq<CodexEvent>, uuid: string, sessionPath: string,
                               fileSize: Option<nat>, now: nat -> string)
    requires |events| < 0x8000_0000
    ensures var ms := CodexMessages(events, uuid, sessionPath, fileSize, now);
      (forall k :: 0 <= k < |ms| ==>
         && 0 <= ms[k].sequence_number < |events|
         && IsMessageEvent(events[ms[k].sequence_number])
         && ms[k].session_id == SessionIdOf(events[ms[k].sequence_number], uuid)
         && ms[k].project_id == "codex" && ms[k].source_id == sessionPath)
      && (forall k, l :: 0 <= k < l < |ms| ==> ms[k].sequence_number < ms[l].sequence_number)
  {
  }

  /** Every kept event shows up as exactly the message for its index. */
  lemma CodexMessagesComplete(events: seq<CodexEvent>, uuid: string, sessionPath: string,
                              fileSize: Option<nat>, now: nat -> string, i: nat)
    requires i < |events| && IsMessageEvent(events[i])
    ensures KeptMessage(events, i, uuid, sessionPath, fileSize, now)
      in CodexMessages(events, uuid, sessionPath, fileSize, now)
  {
    var ks := IndicesWhere(events, IsMessageEvent, |events|);
    var k :| 0 <= k < |ks| && ks[k] == i;
    assert CodexMessages(events, uuid, sessionPath, fileSize, now)[k]
      == KeptMessage(events, i, uuid, sessionPath, fileSize, now);
  }

  // ---------------------------------------------------------------- loading

  const ParseErrorMessage := "CODEX_PARSE_ERROR: Invalid rollout filename format"

  /** The file name of a path as the commands read it, "" when it has none. */
  function FileNameOrEmpty(path: string): string { FileName(path).GetOr("") }

  /** `load_codex_messages`: a read error, then an unparsable file name, is an
      error; otherwise the window of the kept messages. */
  function LoadCodexMessages(events: Result<seq<CodexEvent>>, sessionPath: string, offset: nat, limit: nat,
                             fileSize: Option<nat>, now: nat -> string): (r: Result<seq<UniversalMessage>>)
    ensures events.Err? ==> r == Err(events.error)
    ensures events.Ok? && ParseRolloutFilename(FileNameOrEmpty(sessionPath)).None? ==> r == Err(ParseErrorMessage)
    ensures r.Ok? ==> |r.value| <= limit
  {
    var evs :- events;
    match ParseRolloutFilename(FileNameOrEmpty(sessionPath))
    case None => Err(ParseErrorMessage)
    case Some((_, uuid)) => Ok(Window(CodexMessages(evs, uuid, sessionPath, fileSize, now), offset, limit))
  }

  /** A page is exactly the kept messages at positions [offset, offset + limit). */
  lemma LoadCodexMessagesPage(events: seq<CodexEvent>, sessionPath: string, offset: nat, limit: nat,
                              fileSize: Option<nat>, now: nat -> string, t: string, uuid: string)
    requires ParseRolloutFilename(FileNameOrEmpty(sessionPath)) == Some((t, uuid))
    ensures var all := CodexMessages(events, uuid, sessionPath, fileSize, now);
      var r := LoadCodexMessages(Ok(events), sessionPath, offset, limit, fileSize, now);
      r.Ok? && |r.value| == (if offset >= |all| then 0 else Min(limit, |all| - offset))
      && forall k :: 0 <= k < |r.value| ==> r.value[k] == all[offset + k]
  {
  }

  // ---------------------------------------------------------------- summary and title

  /** The command's own `determine_role`: the event-type table only. */
  predicate TypeSaysUser(e: CodexEvent) { EventTypeRole(e.event_type) == User }

  /** 100 bytes and "..." when longer than 100 bytes, cut at the last
      character boundary that fits. */
  function TruncateSummary(text: string): (r: string)
    ensures Utf8Len(text) <= 100 ==> r == text
    ensures Utf8Len(text) > 100 ==> (EndsWith(r, "...") && Utf8Len(r) <= 103
                                     && StartsWith(text, r[..|r| - 3]))
  {
    if Utf8Len(text) > 100 then
      var p := PrefixWithin(text, 100);
      Utf8LenAppend(p, "...");
      Utf8LenAscii("...");
      assert (p + "...")[..|p|] == p;
      p + "..."
    else text
  }

  /** The code as written: `&text[..100]` panics (`None`) when byte 100 falls
      inside a character. */
  function TruncateSummaryAsWritten(text: string): (r: Option<string>)
    ensures r.Some? ==> r.value == TruncateSummary(text)
  {
    if Utf8Len(text) > 100 then
      match ByteSlice(text, 100)
      case Some(p) => Some(p + "...")
      case None => None
    else Some(text)
  }

  /** 99 ASCII bytes followed by 'é' (two bytes) put byte 100 mid-character,
      so the code as written panics while the corrected cut keeps 99 bytes. */
  lemma TruncateSummaryMidChar(a: string, b: string)
    requires IsAscii(a) && |a| == 99
    ensures TruncateSummaryAsWritten(a + "é" + b).None?
    ensures TruncateSummary(a + "é" + b) == a + "..."
  {
    var s := a + "é" + b;
    MidCharLengths(a, b, |s|);
    assert s[..|s|] == s;
    forall k | 0 <= k <= |s|
      ensures Utf8Len(s[..k]) != 100
    {
      MidCharLengths(a, b, k);
    }
    var p := PrefixWithin(s, 100);
    assert s[..|p|] == p;
    MidCharLengths(a, b, |p|);
    assert |p| == 99;
    assert s[..99] == a;
  }

  /** The UTF-8 length of each prefix of `a + "é" + b` for a 99-byte ASCII `a`. */
  lemma MidCharLengths(a: string, b: string, k: nat)
    requires IsAscii(a) && |a| == 99
    ensures var s := a + "é" + b;
      && |s| >= 100
      && (k <= 99 ==> Utf8Len(s[..k]) == k)
      && (k < 99 ==> Utf8Width(s[k]) == 1)
      && (100 <= k <= |s| ==> Utf8Len(s[..k]) >= 101)
  {
    var s := a + "é" + b;
    if k <= 99 {
      assert s[..k] == a[..k];
      assert IsAscii(a[..k]);
      Utf8LenAscii(a[..k]);
    }
    if 100 <= k <= |s| {
      assert s[..100] == a + "é";
      Utf8LenAscii(a);
      Utf8LenAppend(a, "é");
      Utf8LenMono(s, 100, k);
    }
  }

  /** The summary: the string content of the first event the type table calls
      a user event. A first user event without string content gives none;
      later events are not consulted. */
  function SummaryOf(events: seq<CodexEvent>): (r: Option<string>)
    ensures r.Some? ==> (exists i ::
      && 0 <= i < |events| && TypeSaysUser(events[i]) && (forall j :: 0 <= j < i ==> !TypeSaysUser(events[j]))
      && events[i].payload.Some? && GetStr(events[i].payload.value, "content").Some?
      && r.value == TruncateSummary(GetStr(events[i].payload.value, "content").value))
    ensures (forall i :: 0 <= i < |events| ==> !TypeSaysUser(events[i])) ==> r.None?
  {
    match FindIndex(events, TypeSaysUser)
    case None => None
    case Some(i) =>
      if events[i].payload.Some? && GetStr(events[i].payload.value, "content").Some? then
        Some(TruncateSummary(GetStr(events[i].payload.value, "content").value))
      else None
  }

  /** The first user event decides: its string content, truncated, is the
      summary, and without one there is none. */
  lemma SummaryOfFirstUser(events: seq<CodexEvent>, i: nat)
    requires i < |events| && TypeSaysUser(events[i])
    requires forall j :: 0 <= j < i ==> !TypeSaysUser(events[j])
    ensures events[i].payload.Some? && GetStr(events[i].payload.value, "content").Some? ==>
      SummaryOf(events) == Some(TruncateSummary(GetStr(events[i].payload.value, "content").value))
    ensures events[i].payload.None? || GetStr(events[i].payload.value, "content").None? ==> SummaryOf(events).None?
  {
    FindIndexAt(events, TypeSaysUser, i);
  }

  /** At most the first 8 bytes of a session id, cut at a character boundary. */
  function ShortId(sessionId: string): (r: string)
    ensures StartsWith(sessionId, r) && Utf8Len(r) <= 8
    ensures IsAscii(sessionId) && |sessionId| >= 8 ==> r == sessionId[..8]
  {
    if IsAscii(sessionId) && |sessionId| >= 8 then ByteSliceAscii(sessionId, 8); PrefixWithin(sessionId, 8)
    else PrefixWithin(sessionId, 8)
  }

  const TitlePrefix := "Codex Session "

  function Title(summary: Option<string>, sessionId: string): (r: string)
    ensures summary.Some? ==> r == summary.value
    ensures summary.None? ==> StartsWith(r, TitlePrefix) && StartsWith(sessionId, r[|TitlePrefix|..])
  {
    match summary
    case Some(s) => s
    case None =>
      var short := ShortId(sessionId);
      assert (TitlePrefix + short)[|TitlePrefix|..] == short;
      TitlePrefix + short
  }

  /** The code as written: `&session_id[..8]` panics (`None`) on an id shorter
      than 8 bytes or with byte 8 inside a character. */
  function TitleAsWritten(summary: Option<string>, sessionId: string): (r: Option<string>)
    ensures r.Some? ==> r.value == Title(summary, sessionId)
  {
    match summary
    case Some(s) => Some(s)
    case None =>
      match ByteSlice(sessionId, 8)
      case Some(p) => Some(TitlePrefix + p)
      case None => None
  }

  /** A rollout file whose run is "abc" parses, and when it holds no event
      its session id is that run, so the title as written panics. */
  lemma ShortSessionIdPanics()
    ensures ParseRolloutFilename(RolloutPrefix + "2025-01-27T14-30-45" + "-" + "abc" + RolloutSuffix)
      == Some(("2025-01-27T14-30-45", "abc"))
    ensures TitleAsWritten(None, "abc").None?
    ensures Title(None, "abc") == "Codex Session abc"
  {
    var t := "2025-01-27T14-30-45";
    assert TimestampShape(t);
    assert IsUuidRun("abc");
    RolloutRoundTrip(t, "abc");
    Utf8LenAscii("abc");
    ByteSlicePastEnd("abc", 8);
    ByteSliceAscii("abc", 3);
    assert PrefixWithin("abc", 8) == "abc";
  }

  // ---------------------------------------------------------------- session

  /** The session id: the first event's, or the file name's uuid when the file
      holds no event. */
  function CodexSessionId(events: seq<CodexEvent>, uuid: string): string {
    if |events| > 0 then SessionIdOf(events[0], uuid) else uuid
  }

  /** cwd from the first event's `environment_context` only. */
  function FirstCwd(events: seq<CodexEvent>): Option<string> {
    if |events| > 0 && events[0].environment_context.Some?
    then GetStr(events[0].environment_context.value, "cwd") else None
  }

  function SessionMetadata(projectPath: string, fileName: string, cwd: Option<string>): (m: map<string, Json>)
    ensures m.Keys == {"filePath", "rolloutFile"} + (if cwd.Some? then {"cwd"} else {})
    ensures m["filePath"] == Str(projectPath) && m["rolloutFile"] == Str(fileName)
    ensures cwd.Some? ==> m["cwd"] == Str(cwd.value)
  {
    var base := map["filePath" := Str(projectPath), "rolloutFile" := Str(fileName)];
    if cwd.Some? then base["cwd" := Str(cwd.value)] else base
  }

  /** The first event's timestamp, else the file name's with every '-' made
      ':'; the last event's, else the first. */
  function FirstTimestamp(events: seq<CodexEvent>, fileTimestamp: string): string {
    if |events| > 0 && events[0].timestamp.Some? then events[0].timestamp.value
    else ReplaceChar(fileTimestamp, '-', ':')
  }

  function LastTimestamp(events: seq<CodexEvent>, fileTimestamp: string): string {
    if |events| > 0 && events[|events| - 1].timestamp.Some? then events[|events| - 1].timestamp.value
    else FirstTimestamp(events, fileTimestamp)
  }

  function CodexSession(events: seq<CodexEvent>, fileTimestamp: string, uuid: string, projectPath: string,
                        projectId: string, sourceId: string): (r: UniversalSession)
    ensures r.provider_id == "codex" && r.project_id == projectId && r.source_id == sourceId
    ensures r.id == CodexSessionId(events, uuid) && r.description == SummaryOf(events) && r.title == Title(r.description, r.id)
    ensures r.message_count == |events| && r.duration == 0 && r.total_tokens.None? && r.tool_call_count == 0 && r.error_count == 0
    ensures |events| > 0 && events[0].timestamp.Some? ==> r.first_message_at == events[0].timestamp.value
    ensures |events| > 0 && events[|events| - 1].timestamp.Some? ==> r.last_message_at == events[|events| - 1].timestamp.value
    ensures |events| == 0 ==> r.first_message_at == r.last_message_at == ReplaceChar(fileTimestamp, '-', ':')
  {
    var sessionId := CodexSessionId(events, uuid);
    var summary := SummaryOf(events);
    UniversalSession(
      sessionId, projectId, sourceId, "codex",
      Title(summary, sessionId), summary, |events|,
      FirstTimestamp(events, fileTimestamp), LastTimestamp(events, fileTimestamp),
      0, None, 0, 0,
      SessionMetadata(projectPath, FileNameOrEmpty(projectPath), FirstCwd(events)),
      NatToString(Utf8Len(sessionId), 16))
  }

  /** `load_codex_sessions`: a missing file, a read error, then an unparsable
      file name are errors; otherwise the file is exactly one session. */
  function LoadCodexSessions(fileExists: bool, events: Result<seq<CodexEvent>>, projectPath: string,
                             projectId: string, sourceId: string): (r: Result<seq<UniversalSession>>)
    ensures !fileExists ==> r == Err("CODEX_FILE_ERROR: Session file not found: " + projectPath)
    ensures fileExists && events.Err? ==> r == Err(events.error)
    ensures r.Ok? ==> (|r.value| == 1 && r.value[0].provider_id == "codex"
                       && r.value[0].message_count == |events.value|)
    ensures fileExists && events.Ok? && ParseRolloutFilename(FileNameOrEmpty(projectPath)).None? ==> r == Err(ParseErrorMessage)
    ensures fileExists && events.Ok? && ParseRolloutFilename(FileNameOrEmpty(projectPath)).Some? ==>
      var (t, uuid) := ParseRolloutFilename(FileNameOrEmpty(projectPath)).value;
      r == Ok([CodexSession(events.value, t, uuid, projectPath, projectId, sourceId)])
  {
    if !fileExists then Err("CODEX_FILE_ERROR: Session file not found: " + projectPath)
    else
      var evs :- events;
      match ParseRolloutFilename(FileNameOrEmpty(projectPath))
      case None => Err(ParseErrorMessage)
      case Some((t, uuid)) => Ok([CodexSession(evs, t, uuid, projectPath, projectId, sourceId)])
  }

  /** The session counts every decoded event, so never fewer than the
      messages the same file lists. */
  lemma SessionCountsAllEvents(events: seq<CodexEvent>, t: string, uuid: string, path: string,
                               projectId: string, sourceId: string, fileSize: Option<nat>, now: nat -> string)
    ensures CodexSession(events, t, uuid, path, projectId, sourceId).message_count
      >= |CodexMessages(events, uuid, path, fileSize, now)|
  {
    var ks := IndicesWhere(events, IsMessageEvent, |events|);
    DistinctBelow(ks, |events|);
  }

  /** A strictly increasing sequence of indices below `n` has at most `n`
      elements. */
  lemma {:induction false} DistinctBelow(ks: seq<nat>, n: nat)
    requires forall k :: 0 <= k < |ks| ==> ks[k] < n
    requires forall k, l :: 0 <= k < l < |ks| ==> ks[k] < ks[l]
    ensures |ks| <= n
    decreases n
  {
    if |ks| > 0 {
      var init := ks[..|ks| - 1];
      assert forall k :: 0 <= k < |init| ==> init[k] < ks[|ks| - 1] < n;
      DistinctBelow(init, n - 1);
    }
  }

  /** An empty file takes its session id from the file name, its first time
      from the file name's timestamp with ':' for '-', its last time from the
      first, and its title from the id. */
  lemma EmptySessionFallbacks(t: string, uuid: string, path: string, projectId: string, sourceId: string)
    requires TimestampShape(t)
    ensures var s := CodexSession([], t, uuid, path, projectId, sourceId);
      && s.id == uuid && s.description.None? && s.message_count == 0
      && s.title == TitlePrefix + ShortId(uuid)
      && s.last_message_at == s.first_message_at
      && |s.first_message_at| == 19 && (forall i :: 0 <= i < 19 ==> s.first_message_at[i] != '-')
      && s.first_message_at[4] == ':' && s.first_message_at[10] == 'T'
      && s.checksum == NatToString(Utf8Len(uuid), 16)
  {
  }

  /** With events, the id, cwd and first time come from the first event and
      the last time from the last one when they are present. */
  lemma SessionFromEvents(events: seq<CodexEvent>, t: string, uuid: string, path: string,
                          projectId: string, sourceId: string)
    requires |events| > 0
    ensures var s := CodexSession(events, t, uuid, path, projectId, sourceId);
      && s.id == SessionIdOf(events[0], uuid)
      && (events[0].timestamp.Some? ==> s.first_message_at == events[0].timestamp.value)
      && (events[|events| - 1].timestamp.Some? ==> s.last_message_at == events[|events| - 1].timestamp.value)
      && (events[|events| - 1].timestamp.None? ==> s.last_message_at == s.first_message_at)
      && ("cwd" in s.metadata <==> FirstCwd(events).Some?)
      && s.duration == 0 && s.total_tokens.None? && s.tool_call_count == 0 && s.error_count == 0
  {
  }

  // ---------------------------------------------------------------- project scan

  /** A rollout file found by the scan, with the result of reading it. */
  datatype RolloutFile = RolloutFile(path: string, events: Result<seq<CodexEvent>>)

  /** The session a file is grouped under: none when its name does not parse;
      else its first event's session id, or the name's uuid when the file is
      empty or could not be read. */
  function FileSessionId(f: RolloutFile): Option<string> {
    match ParseRolloutFilename(FileNameOrEmpty(f.path))
    case None => None
    case Some((_, uuid)) =>
      Some(if f.events.Ok? && |f.events.value| > 0 then SessionIdOf(f.events.value[0], uuid) else uuid)
  }

  function PathOf(f: RolloutFile): string { f.path }

  /** The paths of the files of one session, in scan order. */
  function GroupOf(files: seq<RolloutFile>, sessionId: string): seq<string> {
    GroupFor(files, FileSessionId, PathOf, sessionId)
  }

  /** The session ids the scan meets. */
  function SessionIds(files: seq<RolloutFile>): set<string> {
    KeysOf(files, FileSessionId)
  }

  /** The project standing for one session's group of files. */
  function ProjectOf(sessionId: string, group: seq<string>, sourceId: string): UniversalProject
    requires |group| > 0
  {
    UniversalProject(
      sessionId, sourceId, "codex", TitlePrefix + ShortId(sessionId), group[0], |group|, 0, None, None,
      map["sessionId" := Str(sessionId), "fileCount" := Int(|group|)])
  }

  /** `b.id.cmp(&a.id)`: a project goes first when its id is the larger. */
  predicate IdAfter(a: UniversalProject, b: UniversalProject) { LexLess(b.id, a.id) }

  lemma IdAfterAsymmetric()
    ensures Asymmetric(IdAfter)
  {
    forall a: UniversalProject, b: UniversalProject | IdAfter(a, b)
      ensures !IdAfter(b, a)
    {
      LexLessAsymmetric(b.id, a.id);
    }
  }

  /** `scan_codex_projects` after the directory walk: one project per session
      id, built from its group, in strictly descending id order. The
      "Empty file group" error cannot occur. */
  method ScanCodexProjects(files: seq<RolloutFile>, sourceId: string) returns (r: Result<seq<UniversalProject>>)
    ensures r.Ok?
    ensures |r.value| == |SessionIds(files)|
    ensures forall p :: p in r.value ==>
      p.id in SessionIds(files) && |GroupOf(files, p.id)| > 0 && p == ProjectOf(p.id, GroupOf(files, p.id), sourceId)
    ensures forall i, j :: 0 <= i < j < |r.value| ==> LexLess(r.value[j].id, r.value[i].id)
  {
    var groups := GroupInto(files, FileSessionId, PathOf);
    var projects := ProjectsOfGroups(groups, sourceId);
    var sorted := SortBy(projects, IdAfter);
    IdAfterAsymmetric();
    SortBySorted(projects, IdAfter);
    SortedDistinctDescending(projects, sorted);
    r := Ok(sorted);
  }

  /** The loop over the groups, in whatever order the map yields them. */
  method ProjectsOfGroups(groups: map<string, seq<string>>, sourceId: string) returns (projects: seq<UniversalProject>)
    requires forall sid :: sid in groups ==> |groups[sid]| > 0
    ensures |projects| == |groups.Keys|
    ensures forall p :: p in projects ==> p.id in groups && p == ProjectOf(p.id, groups[p.id], sourceId)
    ensures forall k, l :: 0 <= k < l < |projects| ==> projects[k].id != projects[l].id
  {
    projects := [];
    var pending := groups.Keys;
    while pending != {}
      invariant pending <= groups.Keys
      invariant |projects| + |pending| == |groups.Keys|
      invariant forall k :: 0 <= k < |projects| ==>
        projects[k].id in groups.Keys - pending && projects[k] == ProjectOf(projects[k].id, groups[projects[k].id], sourceId)
      invariant forall k, l :: 0 <= k < l < |projects| ==> projects[k].id != projects[l].id
      decreases |pending|
    {
      var sid :| sid in pending;
      projects := projects + [ProjectOf(sid, groups[sid], sourceId)];
      pending := pending - {sid};
    }
  }

  /** Sorting projects with pairwise distinct ids leaves them strictly
      descending by id, with the same elements. */
  lemma SortedDistinctDescending(projects: seq<UniversalProject>, sorted: seq<UniversalProject>)
    requires forall k, l :: 0 <= k < l < |projects| ==> projects[k].id != projects[l].id
    requires multiset(sorted) == multiset(projects) && SortedBy(sorted, IdAfter)
    ensures |sorted| == |projects| && (forall p :: p in sorted <==> p in projects)
    ensures forall i, j :: 0 <= i < j < |sorted| ==> LexLess(sorted[j].id, sorted[i].id)
  {
    assert |sorted| == |multiset(sorted)|;
    forall p ensures p in sorted <==> p in projects {
      assert p in sorted <==> p in multiset(sorted);
      assert p in projects <==> p in multiset(projects);
    }
    DistinctIdsKept(projects, sorted);
    forall i | 0 < i < |sorted|
      ensures LexLess(sorted[i].id, sorted[i - 1].id)
    {
      LexLessTotal(sorted[i].id, sorted[i - 1].id);
    }
    Chain(sorted);
  }

  /** Having the same elements keeps ids pairwise distinct. */
  lemma DistinctIdsKept(projects: seq<UniversalProject>, sorted: seq<UniversalProject>)
    requires forall k, l :: 0 <= k < l < |projects| ==> projects[k].id != projects[l].id
    requires multiset(sorted) == multiset(projects)
    ensures forall k, l :: 0 <= k < l < |sorted| ==> sorted[k].id != sorted[l].id
  {
    forall k, l | 0 <= k < l < |sorted|
      ensures sorted[k].id != sorted[l].id
    {
      if sorted[k].id == sorted[l].id {
        assert sorted[k] in multiset(projects) && sorted[l] in multiset(projects);
        var a :| 0 <= a < |projects| && projects[a] == sorted[k];
        var b :| 0 <= b < |projects| && projects[b] == sorted[l];
        if a == b {
          // Equal elements at two places must occur twice in `projects`.
          assert sorted[k] == sorted[l];
          TwiceInSeq(sorted, k, l);
          OnceInSeq(projects, a);
        }
      }
    }
  }

  lemma TwiceInSeq(s: seq<UniversalProject>, k: nat, l: nat)
    requires k < l < |s| && s[k] == s[l]
    ensures multiset(s)[s[k]] >= 2
  {
    assert s == s[..k] + [s[k]] + s[k + 1..l] + [s[l]] + s[l + 1..];
  }

  /** With distinct ids, each element occurs once. */
  lemma OnceInSeq(s: seq<UniversalProject>, a: nat)
    requires a < |s|
    requires forall k, l :: 0 <= k < l < |s| ==> s[k].id != s[l].id
    ensures multiset(s)[s[a]] == 1
  {
    assert s == s[..a] + [s[a]] + s[a + 1..];
    assert s[a] !in s[..a] && s[a] !in s[a + 1..];
  }

  /** Adjacent strict descent extends to every pair. */
  lemma {:induction false} Chain(s: seq<UniversalProject>)
    requires forall i :: 0 < i < |s| ==> LexLess(s[i].id, s[i - 1].id)
    ensures forall i, j :: 0 <= i < j < |s| ==> LexLess(s[j].id, s[i].id)
    decreases |s|
  {
    if |s| > 1 {
      var init := s[..|s| - 1];
      Chain(init);
      forall i | 0 <= i < |s| - 1
        ensures LexLess(s[|s| - 1].id, s[i].id)
      {
        if i < |s| - 2 {
          assert LexLess(s[|s| - 2].id, s[i].id);
          LexLessTransitive(s[|s| - 1].id, s[|s| - 2].id, s[i].id);
        }
      }
    }
  }
}
