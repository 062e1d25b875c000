/** The tolerant JSONL loaders of the Claude Code project view. A session file
    is read line by line; blank and undecodable lines are skipped, entries that
    carry neither a session id nor a timestamp are dropped, and missing ids and
    times are filled in. A line is given as `None` when it is blank or does
    not decode, since the loaders treat the two alike. `newId(i)` and `now(i)`
    are the id generator and the clock as they are read for line `i`. */
module Session {
  import opened Base
  import opened Json
  import opened Strings
  import opened Seqs
  import opened Paths
  import opened Models
  import opened Utils
  import opened Ordering

  const UnknownSession := "unknown-session"

  type Line = Option<RawLogEntry>

  predicate IsSummary(e: RawLogEntry) { e.message_type == "summary" }

  /** An entry that says which session or which moment it belongs to. */
  predicate IsAnchored(e: RawLogEntry) { e.session_id.Some? || e.timestamp.Some? }

  /** A line that becomes a message: a decoded, anchored, non-summary entry. */
  predicate IsKept(l: Line) { l.Some? && !IsSummary(l.value) && IsAnchored(l.value) }

  predicate IsSidechainEntry(e: RawLogEntry) { e.is_sidechain == Some(true) }

  /** A kept line that the sidechain filter, when on, lets through. */
  predicate Counted(l: Line, excludeSidechain: bool) {
    IsKept(l) && !(excludeSidechain && IsSidechainEntry(l.value))
  }

  /** The `ClaudeMessage` built from a non-summary entry: a missing uuid is a
      fresh one, a missing session id is "unknown-session", a missing
      timestamp is the current time, and the inner message supplies role,
      content, id, model, stop reason and usage. */
  function ToMessage(e: RawLogEntry, freshId: string, now: string): (m: ClaudeMessage)
    ensures m.uuid == e.uuid.GetOr(freshId)
    ensures m.session_id == e.session_id.GetOr(UnknownSession)
    ensures m.timestamp == e.timestamp.GetOr(now)
    ensures m.message_type == e.message_type && m.parent_uuid == e.parent_uuid
    ensures m.is_sidechain == e.is_sidechain
    ensures m.tool_use == e.tool_use && m.tool_use_result == e.tool_use_result
    ensures m.role.Some? <==> e.message.Some?
    ensures e.message.Some? ==> (
      && m.role == Some(e.message.value.role)
      && m.content == Some(e.message.value.content)
      && m.usage == e.message.value.usage
      && m.message_id == e.message.value.id
      && m.model == e.message.value.model
      && m.stop_reason == e.message.value.stop_reason)
    ensures e.message.None? ==>
      m.content.None? && m.usage.None? && m.model.None? && m.message_id.None? && m.stop_reason.None?
    ensures m.project_path.None?
  {
    match e.message
    case Some(msg) =>
      ClaudeMessage(e.uuid.GetOr(freshId), e.parent_uuid, e.session_id.GetOr(UnknownSession),
                    e.timestamp.GetOr(now), e.message_type, Some(msg.content), e.tool_use,
                    e.tool_use_result, e.is_sidechain, msg.usage, Some(msg.role), msg.id,
                    msg.model, msg.stop_reason, None)
    case None =>
      ClaudeMessage(e.uuid.GetOr(freshId), e.parent_uuid, e.session_id.GetOr(UnknownSession),
                    e.timestamp.GetOr(now), e.message_type, None, e.tool_use,
                    e.tool_use_result, e.is_sidechain, None, None, None, None, None, None)
  }

  // ---------------------------------------------------------------- kept messages

  /** The messages of the counted lines, in file order. */
  function CountedMessages(lines: seq<Line>, excludeSidechain: bool, newId: nat -> string,
                           now: nat -> string): seq<ClaudeMessage>
    decreases |lines|
  {
    if |lines| == 0 then []
    else
      var i := |lines| - 1;
      CountedMessages(lines[..i], excludeSidechain, newId, now)
        + (if Counted(lines[i], excludeSidechain) then [ToMessage(lines[i].value, newId(i), now(i))] else [])
  }

  /** Appending a line appends its message when it counts. */
  lemma CountedSnoc(lines: seq<Line>, line: Line, excludeSidechain: bool, newId: nat -> string, now: nat -> string)
    ensures CountedMessages(lines + [line], excludeSidechain, newId, now)
      == CountedMessages(lines, excludeSidechain, newId, now)
         + (if Counted(line, excludeSidechain) then [ToMessage(line.value, newId(|lines|), now(|lines|))] else [])
  {
    assert (lines + [line])[..|lines|] == lines;
  }

  /** The messages `load_project_sessions` collects, before any filter. */
  function KeptMessages(lines: seq<Line>, newId: nat -> string, now: nat -> string): (r: seq<ClaudeMessage>)
    ensures forall m :: m in r ==> FromKeptLine(lines, newId, now, m)
    ensures forall i :: 0 <= i < |lines| && IsKept(lines[i]) ==> ToMessage(lines[i].value, newId(i), now(i)) in r
  {
    KeptFromLines(lines, newId, now);
    CountedMessages(lines, false, newId, now)
  }

  /** `m` is the message of some kept line. */
  predicate FromKeptLine(lines: seq<Line>, newId: nat -> string, now: nat -> string, m: ClaudeMessage) {
    exists i :: 0 <= i < |lines| && IsKept(lines[i]) && m == ToMessage(lines[i].value, newId(i), now(i))
  }

  /** Each message comes from a kept line, and each kept line gives one. */
  lemma {:induction false} KeptFromLines(lines: seq<Line>, newId: nat -> string, now: nat -> string)
    ensures forall m :: m in CountedMessages(lines, false, newId, now) ==> FromKeptLine(lines, newId, now, m)
    ensures forall i :: 0 <= i < |lines| && IsKept(lines[i]) ==>
      ToMessage(lines[i].value, newId(i), now(i)) in CountedMessages(lines, false, newId, now)
  {
    CountedMessagesAreLines(lines, false, newId, now, |lines|);
    assert lines[..|lines|] == lines;
    var ks := IndicesWhere(lines, (l: Line) => Counted(l, false), |lines|);
    var r := CountedMessages(lines, false, newId, now);
    forall m | m in r
      ensures FromKeptLine(lines, newId, now, m)
    {
      var k :| 0 <= k < |r| && r[k] == m;
      var i := ks[k];
      assert Counted(lines[i], false);
    }
    forall i | 0 <= i < |lines| && IsKept(lines[i])
      ensures ToMessage(lines[i].value, newId(i), now(i)) in r
    {
      assert i in ks;
      var k :| 0 <= k < |ks| && ks[k] == i;
      assert r[k] == ToMessage(lines[i].value, newId(i), now(i));
    }
  }

  /** Message `k` is built from the `k`-th counted line, with the fresh id and
      the clock of that line's own index. */
  lemma {:induction false} CountedMessagesAreLines(lines: seq<Line>, excludeSidechain: bool,
                                                   newId: nat -> string, now: nat -> string, n: nat)
    requires n <= |lines|
    ensures var ks := IndicesWhere(lines, (l: Line) => Counted(l, excludeSidechain), n);
      var ms := CountedMessages(lines[..n], excludeSidechain, newId, now);
      |ms| == |ks| && forall k :: 0 <= k < |ks| ==> ms[k] == ToMessage(lines[ks[k]].value, newId(ks[k]), now(ks[k]))
    decreases n
  {
    if n > 0 {
      assert lines[..n][..n - 1] == lines[..n - 1];
      CountedMessagesAreLines(lines, excludeSidechain, newId, now, n - 1);
    }
  }

  /** Every message of the filtered list keeps its entry's sidechain flag, so
      none of them is a sidechain message when the filter is on. */
  lemma {:induction false} CountedHaveNoSidechain(lines: seq<Line>, newId: nat -> string, now: nat -> string)
    ensures forall m :: m in CountedMessages(lines, true, newId, now) ==> m.is_sidechain != Some(true)
    decreases |lines|
  {
    if |lines| > 0 {
      CountedHaveNoSidechain(lines[..|lines| - 1], newId, now);
    }
  }

  /** No kept message is a summary. */
  lemma {:induction false} KeptMessagesShape(lines: seq<Line>, excludeSidechain: bool, newId: nat -> string, now: nat -> string)
    ensures forall m :: m in CountedMessages(lines, excludeSidechain, newId, now) ==> m.message_type != "summary"
    decreases |lines|
  {
    if |lines| > 0 {
      KeptMessagesShape(lines[..|lines| - 1], excludeSidechain, newId, now);
    }
  }

  /** Filtering the kept messages by their sidechain flag gives what the
      filtered loader reads directly. */
  lemma {:induction false} SidechainFilterCommutes(lines: seq<Line>, newId: nat -> string, now: nat -> string)
    ensures Filter(KeptMessages(lines, newId, now), NotSidechain) == CountedMessages(lines, true, newId, now)
    decreases |lines|
  {
    if |lines| > 0 {
      var init := lines[..|lines| - 1];
      SidechainFilterCommutes(init, newId, now);
      var ms := KeptMessages(lines, newId, now);
      if IsKept(lines[|lines| - 1]) {
        assert ms[..|ms| - 1] == KeptMessages(init, newId, now);
      } else {
        assert ms == KeptMessages(init, newId, now);
      }
    }
  }

  // ---------------------------------------------------------------- summary

  /** A summary line that carries a text. */
  predicate HasSummaryText(l: Line) { l.Some? && IsSummary(l.value) && l.value.summary.Some? }

  /** The `session_summary` of the line loop: a summary line sets it while it
      is still unset, even to nothing, so a later one may set it again. */
  function SessionSummary(lines: seq<Line>): Option<string>
    decreases |lines|
  {
    if |lines| == 0 then None
    else
      var prev := SessionSummary(lines[..|lines| - 1]);
      var l := lines[|lines| - 1];
      if l.Some? && IsSummary(l.value) && prev.None? then l.value.summary else prev
  }

  /** So the summary is the text of the first summary line that has one. */
  lemma {:induction false} SummaryIsFirstText(lines: seq<Line>)
    ensures SessionSummary(lines)
      == (match FindIndex(lines, HasSummaryText) case Some(i) => lines[i].value.summary case None => None)
    decreases |lines|
  {
    if |lines| > 0 {
      var n := |lines| - 1;
      var init := lines[..n];
      SummaryIsFirstText(init);
      assert lines == init + [lines[n]];
      FindIndexSnoc(init, lines[n], HasSummaryText);
    }
  }

  // ---------------------------------------------------------------- sessions

  predicate IsToolUseBlock(item: Json) { GetStr(item, "type") == Some("tool_use") }

  /** The `has_tool_use` test of one message. */
  predicate CallsTool(m: ClaudeMessage) {
    || (&& m.message_type == "assistant" && m.content.Some? && m.content.value.Arr?
        && exists i :: 0 <= i < |m.content.value.items| && IsToolUseBlock(m.content.value.items[i]))
    || m.tool_use.Some? || m.tool_use_result.Some?
  }

  /** The `has_errors` test: a tool result whose `stderr` is a non-empty
      string (a non-string `stderr` reads as empty). */
  predicate ReportsError(m: ClaudeMessage) {
    m.tool_use_result.Some? &&
    match Get(m.tool_use_result.value, "stderr")
    case Some(Str(s)) => s != ""
    case _ => false
  }

  predicate NotSidechain(m: ClaudeMessage) { m.is_sidechain != Some(true) }

  predicate HasKnownId(m: ClaudeMessage) { m.session_id != UnknownSession }

  /** The first session id that is not the placeholder. */
  function ActualSessionId(ms: seq<ClaudeMessage>): (r: string)
    ensures r == UnknownSession <==> forall i :: 0 <= i < |ms| ==> ms[i].session_id == UnknownSession
    ensures r != UnknownSession ==> exists i :: (
      && 0 <= i < |ms| && ms[i].session_id == r
      && forall j :: 0 <= j < i ==> ms[j].session_id == UnknownSession)
  {
    match FindIndex(ms, HasKnownId)
    case Some(i) => ms[i].session_id
    case None => UnknownSession
  }

  /** The folder name of the project a session file belongs to. */
  function ProjectNameOf(path: string): string {
    ExtractProjectName(ParentName(path).GetOr("Unknown"))
  }

  /** `messages.iter().any(...)` for the two session flags. */
  predicate AnyCallsTool(ms: seq<ClaudeMessage>) { exists i :: 0 <= i < |ms| && CallsTool(ms[i]) }

  predicate AnyReportsError(ms: seq<ClaudeMessage>) { exists i :: 0 <= i < |ms| && ReportsError(ms[i]) }

  /** The number of messages the session view shows. */
  function ShownCount(ms: seq<ClaudeMessage>, excludeSidechain: Option<bool>): (n: nat)
    ensures n == if excludeSidechain == Some(true) then |Filter(ms, NotSidechain)| else |ms|
    ensures n <= |ms|
  {
    CountIsFilterLength(ms, NotSidechain);
    if excludeSidechain.GetOr(false) then Count(ms, NotSidechain) else |ms|
  }

  /** The session record of a file with at least one message. */
  function SessionOf(path: string, modified: string, ms: seq<ClaudeMessage>, summary: Option<string>,
                     excludeSidechain: Option<bool>): (s: ClaudeSession)
    requires |ms| > 0
    ensures s.session_id == path && s.file_path == path && s.last_modified == modified
    ensures s.message_count == ShownCount(ms, excludeSidechain)
    ensures s.first_message_time == ms[0].timestamp && s.last_message_time == ms[|ms| - 1].timestamp
    ensures s.has_tool_use == AnyCallsTool(ms) && s.has_errors == AnyReportsError(ms)
    ensures s.summary == summary
  {
    ClaudeSession(path, ActualSessionId(ms), path, ProjectNameOf(path), ShownCount(ms, excludeSidechain),
                  ms[0].timestamp, ms[|ms| - 1].timestamp, modified,
                  AnyCallsTool(ms), AnyReportsError(ms), summary)
  }

  /** A `.jsonl` entry of the walk: its path, its modification time (the
      clock when the metadata cannot be read), its lines (`None` when it
      cannot be read as text), and the id generator and clock per line. */
  datatype SessionFile = SessionFile(
    path: string,
    modified: string,
    lines: Option<seq<Line>>,
    newId: nat -> string,
    now: nat -> string)

  predicate IsJsonl(path: string) { Extension(path) == Some("jsonl") }

  /** The session a walked file contributes, if any: none for a file that is
      not `.jsonl`, cannot be read, or yields no message. */
  function FileSession(f: SessionFile, excludeSidechain: Option<bool>): (r: Option<ClaudeSession>)
    ensures r.Some? ==> IsJsonl(f.path) && f.lines.Some? && |KeptMessages(f.lines.value, f.newId, f.now)| > 0
  {
    if !IsJsonl(f.path) || f.lines.None? then None
    else
      var ms := KeptMessages(f.lines.value, f.newId, f.now);
      if |ms| == 0 then None
      else Some(SessionOf(f.path, f.modified, ms, SessionSummary(f.lines.value), excludeSidechain))
  }

  /** The session count of the filtered view is the paginated total of the
      same file, and the first and last times still come from the unfiltered
      messages. */
  lemma SessionCountIsPageTotal(f: SessionFile, offset: nat, limit: nat)
    requires FileSession(f, Some(true)).Some?
    ensures var s := FileSession(f, Some(true)).value;
      var ms := KeptMessages(f.lines.value, f.newId, f.now);
      && s.message_count == PageOf(f.lines.value, offset, limit, true, f.newId, f.now).total_count
      && s.first_message_time == ms[0].timestamp
  {
    SidechainFilterCommutes(f.lines.value, f.newId, f.now);
  }

  function LastModified(s: ClaudeSession): string { s.last_modified }

  /** The sessions of the walked files, before sorting. */
  function FileSessions(files: seq<SessionFile>, excludeSidechain: Option<bool>): (r: seq<ClaudeSession>)
    ensures forall k :: 0 <= k < |r| ==> exists i :: 0 <= i < |files| && FileSession(files[i], excludeSidechain) == Some(r[k])
    ensures forall i :: 0 <= i < |files| && FileSession(files[i], excludeSidechain).Some? ==>
      FileSession(files[i], excludeSidechain).value in r
  {
    FilterMapExactly(files, (f: SessionFile) => FileSession(f, excludeSidechain));
    FilterMap(files, (f: SessionFile) => FileSession(f, excludeSidechain))
  }

  /** The line loop of one file. */
  method ReadSessionLines(lines: seq<Line>, newId: nat -> string, now: nat -> string)
    returns (messages: seq<ClaudeMessage>, summary: Option<string>)
    ensures messages == KeptMessages(lines, newId, now)
    ensures summary == SessionSummary(lines)
  {
    messages, summary := [], None;
    var i := 0;
    while i < |lines|
      invariant 0 <= i <= |lines|
      invariant messages == KeptMessages(lines[..i], newId, now)
      invariant summary == SessionSummary(lines[..i])
    {
      assert lines[..i + 1][..i] == lines[..i];
      match lines[i] {
        case None =>
        case Some(e) =>
          if IsSummary(e) {
            if summary.None? {
              summary := e.summary;
            }
          } else if IsAnchored(e) {
            messages := messages + [ToMessage(e, newId(i), now(i))];
          }
      }
      i := i + 1;
    }
    assert lines[..i] == lines;
  }

  /** The work done for one walked file. */
  method ReadFileSession(f: SessionFile, excludeSidechain: Option<bool>) returns (r: Option<ClaudeSession>)
    ensures r == FileSession(f, excludeSidechain)
  {
    if !IsJsonl(f.path) || f.lines.None? {
      return None;
    }
    var messages, summary := ReadSessionLines(f.lines.value, f.newId, f.now);
    if |messages| == 0 {
      return None;
    }
    r := Some(SessionOf(f.path, f.modified, messages, summary, excludeSidechain));
  }

  lemma FileSessionsSnoc(files: seq<SessionFile>, f: SessionFile, excludeSidechain: Option<bool>)
    ensures FileSessions(files + [f], excludeSidechain)
      == FileSessions(files, excludeSidechain)
         + (if FileSession(f, excludeSidechain).Some? then [FileSession(f, excludeSidechain).value] else [])
  {
    assert (files + [f])[..|files|] == files;
  }

  /** `load_project_sessions` after the walk: one session per file with
      messages, latest modification first. */
  method LoadProjectSessions(files: seq<SessionFile>, excludeSidechain: Option<bool>)
    returns (sessions: seq<ClaudeSession>)
    ensures sessions == SortNewestFirst(FileSessions(files, excludeSidechain), LastModified)
    ensures multiset(sessions) == multiset(FileSessions(files, excludeSidechain))
    ensures forall i, j :: 0 <= i < j < |sessions| ==> !LexLess(sessions[i].last_modified, sessions[j].last_modified)
  {
    var found: seq<ClaudeSession> := [];
    var k := 0;
    while k < |files|
      invariant 0 <= k <= |files|
      invariant found == FileSessions(files[..k], excludeSidechain)
    {
      found := LoadNext(found, files, k, excludeSidechain);
      k := k + 1;
    }
    assert files[..k] == files;
    sessions := SortNewestFirst(found, LastModified);
  }

  /** One turn of that loop: file `k` adds its session, if it has one. */
  method LoadNext(found: seq<ClaudeSession>, files: seq<SessionFile>, k: nat, excludeSidechain: Option<bool>)
    returns (next: seq<ClaudeSession>)
    requires k < |files| && found == FileSessions(files[..k], excludeSidechain)
    ensures next == FileSessions(files[..k + 1], excludeSidechain)
  {
    assert files[..k + 1] == files[..k] + [files[k]];
    FileSessionsSnoc(files[..k], files[k], excludeSidechain);
    var s := ReadFileSession(files[k], excludeSidechain);
    next := if s.Some? then found + [s.value] else found;
  }

  // ---------------------------------------------------------------- one file

  /** The summary message `load_session_messages` makes of a summary line. */
  function SummaryMessage(e: RawLogEntry, text: string, freshId: string, now: string): (m: ClaudeMessage)
    ensures m.message_type == "summary" && m.content == Some(Str(text))
    ensures m.uuid == e.uuid.GetOr(freshId) && m.parent_uuid.None?
    ensures m.session_id == e.session_id.GetOr(UnknownSession) && m.timestamp == e.timestamp.GetOr(now)
  {
    ClaudeMessage(e.uuid.GetOr(freshId), None, e.session_id.GetOr(UnknownSession), e.timestamp.GetOr(now),
                  "summary", Some(Str(text)), None, None, None, None, None, None, None, None, None)
  }

  /** What one line contributes to `load_session_messages`. */
  function LineMessage(l: Line, freshId: string, now: string): (r: Option<ClaudeMessage>)
    ensures r.Some? <==> HasSummaryText(l) || IsKept(l)
  {
    match l
    case None => None
    case Some(e) =>
      if IsSummary(e) then
        if e.summary.Some? then Some(SummaryMessage(e, e.summary.value, freshId, now)) else None
      else if IsAnchored(e) then Some(ToMessage(e, freshId, now))
      else None
  }

  function LoadedMessages(lines: seq<Line>, newId: nat -> string, now: nat -> string): seq<ClaudeMessage>
    decreases |lines|
  {
    if |lines| == 0 then []
    else
      var i := |lines| - 1;
      var m := LineMessage(lines[i], newId(i), now(i));
      LoadedMessages(lines[..i], newId, now) + (if m.Some? then [m.value] else [])
  }

  predicate IsSummaryMessage(m: ClaudeMessage) { m.message_type == "summary" }

  predicate NotSummaryMessage(m: ClaudeMessage) { m.message_type != "summary" }

  /** Without its summary messages, the single-file load is the list the
      project view counts. */
  lemma {:induction false} LoadedWithoutSummaries(lines: seq<Line>, newId: nat -> string, now: nat -> string)
    ensures Filter(LoadedMessages(lines, newId, now), NotSummaryMessage) == KeptMessages(lines, newId, now)
    decreases |lines|
  {
    if |lines| > 0 {
      var i := |lines| - 1;
      LoadedWithoutSummaries(lines[..i], newId, now);
      var ms := LoadedMessages(lines, newId, now);
      if LineMessage(lines[i], newId(i), now(i)).Some? {
        assert ms[..|ms| - 1] == LoadedMessages(lines[..i], newId, now);
      } else {
        assert ms == LoadedMessages(lines[..i], newId, now);
      }
    }
  }

  /** And each summary line with a text is one summary message. */
  lemma {:induction false} LoadedSummaryCount(lines: seq<Line>, newId: nat -> string, now: nat -> string)
    ensures Count(LoadedMessages(lines, newId, now), IsSummaryMessage) == Count(lines, HasSummaryText)
    decreases |lines|
  {
    if |lines| > 0 {
      var i := |lines| - 1;
      LoadedSummaryCount(lines[..i], newId, now);
      var ms := LoadedMessages(lines, newId, now);
      if LineMessage(lines[i], newId(i), now(i)).Some? {
        assert ms[..|ms| - 1] == LoadedMessages(lines[..i], newId, now);
      } else {
        assert ms == LoadedMessages(lines[..i], newId, now);
      }
    }
  }

  const ReadFailure := "Failed to read session file: "

  /** `load_session_messages`: a read error, or every message of the file. */
  method LoadSessionMessages(content: Result<seq<Line>>, newId: nat -> string, now: nat -> string)
    returns (r: Result<seq<ClaudeMessage>>)
    ensures content.Err? ==> r == Err(ReadFailure + content.error)
    ensures content.Ok? ==> r == Ok(LoadedMessages(content.value, newId, now))
  {
    if content.Err? {
      return Err(ReadFailure + content.error);
    }
    var lines := content.value;
    var messages := [];
    var i := 0;
    while i < |lines|
      invariant 0 <= i <= |lines|
      invariant messages == LoadedMessages(lines[..i], newId, now)
    {
      assert lines[..i + 1][..i] == lines[..i];
      match lines[i] {
        case None =>
        case Some(e) =>
          if IsSummary(e) {
            if e.summary.Some? {
              messages := messages + [SummaryMessage(e, e.summary.value, newId(i), now(i))];
            }
          } else if IsAnchored(e) {
            messages := messages + [ToMessage(e, newId(i), now(i))];
          }
      }
      i := i + 1;
    }
    assert lines[..i] == lines;
    r := Ok(messages);
  }

  // ---------------------------------------------------------------- pagination

  /** The page of the counted messages whose index lies in
      [offset, offset + limit). */
  function PageOf(lines: seq<Line>, offset: nat, limit: nat, excludeSidechain: bool,
                  newId: nat -> string, now: nat -> string): (p: MessagePage)
    ensures p.total_count == |CountedMessages(lines, excludeSidechain, newId, now)|
    ensures p.has_more <==> offset + limit < p.total_count
    ensures p.next_offset == if p.has_more then offset + limit else p.total_count
    ensures |p.messages| == if offset >= p.total_count then 0 else Min(limit, p.total_count - offset)
    ensures p.next_offset <= p.total_count
    ensures forall k :: 0 <= k < |p.messages| ==> p.messages[k] == CountedMessages(lines, excludeSidechain, newId, now)[offset + k]
  {
    var ms := CountedMessages(lines, excludeSidechain, newId, now);
    var hasMore := offset + limit < |ms|;
    MessagePage(Window(ms, offset, limit), |ms|, hasMore, if hasMore then offset + limit else |ms|)
  }

  /** Following `next_offset` continues exactly where the page stopped, and a
      page without more leaves nothing to read. */
  lemma NextPageContinues(lines: seq<Line>, offset: nat, limit: nat, excludeSidechain: bool,
                          newId: nat -> string, now: nat -> string)
    ensures var p := PageOf(lines, offset, limit, excludeSidechain, newId, now);
      var q := PageOf(lines, p.next_offset, limit, excludeSidechain, newId, now);
      && (p.has_more ==> p.messages + q.messages == PageOf(lines, offset, 2 * limit, excludeSidechain, newId, now).messages)
      && (!p.has_more ==> q.messages == [] && !q.has_more)
  {
    var ms := CountedMessages(lines, excludeSidechain, newId, now);
    if offset + limit < |ms| {
      WindowsAdjacent(ms, offset, limit, limit);
    }
  }

  /** What the reader yields per line: the line, or the error that ends the
      read. */
  function ReadAll(rs: seq<Result<Line>>): (r: Result<seq<Line>>)
    ensures r.Ok? ==> |r.value| == |rs|
    decreases |rs|
  {
    if |rs| == 0 then Ok([])
    else
      var init :- ReadAll(rs[..|rs| - 1]);
      match rs[|rs| - 1]
      case Err(e) => Err(e)
      case Ok(l) => Ok(init + [l])
  }

  /** A clean read yields every line in order; a failed one reports the
      error of one of the lines. */
  lemma {:induction false} ReadAllYields(rs: seq<Result<Line>>)
    ensures ReadAll(rs).Ok? ==> forall i :: 0 <= i < |rs| ==> rs[i] == Ok(ReadAll(rs).value[i])
    ensures ReadAll(rs).Err? ==> exists i :: 0 <= i < |rs| && rs[i] == Err(ReadAll(rs).error)
    decreases |rs|
  {
    if |rs| > 0 {
      var init := rs[..|rs| - 1];
      ReadAllYields(init);
      if ReadAll(init).Err? {
        var i :| 0 <= i < |init| && init[i] == Err(ReadAll(init).error);
        assert rs[i] == init[i];
      }
    }
  }

  const OpenFailure := "Failed to open session file: "
  const LineFailure := "Failed to read line: "

  /** `load_session_messages_paginated`: it fails when the file cannot be
      opened or a line cannot be read; otherwise it counts every counted line
      and keeps those with index in [offset, offset + limit). */
  method LoadSessionMessagesPaginated(file: Result<seq<Result<Line>>>, offset: nat, limit: nat,
                                      excludeSidechain: Option<bool>, newId: nat -> string, now: nat -> string)
    returns (r: Result<MessagePage>)
    ensures file.Err? ==> r == Err(OpenFailure + file.error)
    ensures file.Ok? && ReadAll(file.value).Err? ==> r == Err(LineFailure + ReadAll(file.value).error)
    ensures file.Ok? && ReadAll(file.value).Ok? ==>
      r == Ok(PageOf(ReadAll(file.value).value, offset, limit, excludeSidechain.GetOr(false), newId, now))
  {
    if file.Err? {
      return Err(OpenFailure + file.error);
    }
    var rs := file.value;
    var excl := excludeSidechain.GetOr(false);
    var lines: seq<Line> := [];
    var messages: seq<ClaudeMessage> := [];
    var totalCount := 0;
    var currentIndex := 0;
    var i := 0;
    while i < |rs|
      invariant 0 <= i <= |rs|
      invariant ReadAll(rs[..i]) == Ok(lines) && |lines| == i
      invariant totalCount == currentIndex == |CountedMessages(lines, excl, newId, now)|
      invariant messages == Window(CountedMessages(lines, excl, newId, now), offset, limit)
    {
      if rs[i].Err? {
        ReadAllStops(rs, i);
        return Err(LineFailure + rs[i].error);
      }
      var line := rs[i].value;
      ReadAllStep(rs, i, lines);
      ghost var ms := CountedMessages(lines, excl, newId, now);
      CountedSnoc(lines, line, excl, newId, now);
      lines := lines + [line];
      if Counted(line, excl) {
        var m := ToMessage(line.value, newId(i), now(i));
        WindowStep(ms, messages, m, offset, limit);
        if currentIndex >= offset && |messages| < limit {
          messages := messages + [m];
        }
        currentIndex := currentIndex + 1;
        totalCount := totalCount + 1;
      } else {
        assert CountedMessages(lines, excl, newId, now) == ms;
      }
      i := i + 1;
    }
    assert rs[..i] == rs;
    var hasMore := offset + limit < totalCount;
    r := Ok(MessagePage(messages, totalCount, hasMore, if hasMore then offset + limit else totalCount));
  }

  /** A clean line extends a clean prefix by itself. */
  lemma ReadAllStep(rs: seq<Result<Line>>, i: nat, lines: seq<Line>)
    requires i < |rs| && ReadAll(rs[..i]) == Ok(lines) && rs[i].Ok?
    ensures ReadAll(rs[..i + 1]) == Ok(lines + [rs[i].value])
  {
    assert rs[..i + 1][..i] == rs[..i];
  }

  /** A read error at `i` after a clean prefix is the error of the whole read. */
  lemma {:induction false} ReadAllStops(rs: seq<Result<Line>>, i: nat)
    requires i < |rs| && ReadAll(rs[..i]).Ok? && rs[i].Err?
    ensures ReadAll(rs) == Err(rs[i].error)
    decreases |rs| - i
  {
    if i + 1 < |rs| {
      assert rs[..i + 1][..i] == rs[..i];
      ReadAllStopsAt(rs[..i + 1], rs, i);
    } else {
      assert rs[..i + 1][..i] == rs[..i];
      assert rs[..i + 1] == rs;
    }
  }

  /** A prefix that already failed makes every extension fail the same way. */
  lemma {:induction false} ReadAllStopsAt(p: seq<Result<Line>>, rs: seq<Result<Line>>, i: nat)
    requires |p| <= |rs| && rs[..|p|] == p && ReadAll(p).Err?
    ensures ReadAll(rs) == ReadAll(p)
    decreases |rs| - |p|
  {
    if |rs| > |p| {
      var init := rs[..|rs| - 1];
      assert init[..|p|] == p;
      ReadAllStopsAt(p, init, i);
    } else {
      assert rs == p;
    }
  }

  // ---------------------------------------------------------------- count

  /** `get_session_message_count` counts every decoded non-summary line: it
      does not drop the entries without session id and timestamp. */
  predicate Countable(l: Line, excludeSidechain: bool) {
    l.Some? && !IsSummary(l.value) && !(excludeSidechain && IsSidechainEntry(l.value))
  }

  function MessageCount(lines: seq<Line>, excludeSidechain: bool): nat {
    Count(lines, (l: Line) => Countable(l, excludeSidechain))
  }

  method GetSessionMessageCount(content: Result<seq<Line>>, excludeSidechain: Option<bool>) returns (r: Result<nat>)
    ensures content.Err? ==> r == Err(ReadFailure + content.error)
    ensures content.Ok? ==> r == Ok(MessageCount(content.value, excludeSidechain.GetOr(false)))
  {
    if content.Err? {
      return Err(ReadFailure + content.error);
    }
    var lines := content.value;
    var excl := excludeSidechain.GetOr(false);
    var count := 0;
    var i := 0;
    while i < |lines|
      invariant 0 <= i <= |lines|
      invariant count == MessageCount(lines[..i], excl)
    {
      assert lines[..i + 1][..i] == lines[..i];
      if Countable(lines[i], excl) {
        count := count + 1;
      }
      i := i + 1;
    }
    assert lines[..i] == lines;
    r := Ok(count);
  }

  /** The count is never below the paginated total ... */
  lemma {:induction false} CountCoversPageTotal(lines: seq<Line>, excludeSidechain: bool, newId: nat -> string, now: nat -> string)
    ensures MessageCount(lines, excludeSidechain) >= |CountedMessages(lines, excludeSidechain, newId, now)|
    decreases |lines|
  {
    if |lines| > 0 {
      CountCoversPageTotal(lines[..|lines| - 1], excludeSidechain, newId, now);
    }
  }

  /** ... and exceeds it for a file holding an entry with neither a session
      id nor a timestamp. */
  lemma CountExceedsPageTotal(newId: nat -> string, now: nat -> string)
    ensures var lines := [Some(RawLogEntry(None, None, None, None, "user", None, None, None, None, None, None))];
      MessageCount(lines, false) == 1 && |CountedMessages(lines, false, newId, now)| == 0
  {
    var lines := [Some(RawLogEntry(None, None, None, None, "user", None, None, None, None, None, None))];
    assert lines[..0] == [];
  }

  // ---------------------------------------------------------------- search

  /** The text a search looks at: a string content as it is, an array
      content as its JSON text, anything else as "". */
  function SearchText(content: Json, serialize: seq<Json> -> string): string {
    match content
    case Str(s) => s
    case Arr(items) => serialize(items)
    case _ => ""
  }

  predicate IsChatType(t: string) { t == "user" || t == "assistant" }

  /** A case-insensitive substring match. */
  predicate MatchesQuery(text: string, query: string) { Contains(Lower(text), Lower(query)) }

  /** The hit one line yields: a user or assistant entry with a message
      whose text matches. Unlike the loaders, search keeps entries without
      session id and timestamp. */
  function SearchHit(l: Line, query: string, serialize: seq<Json> -> string, freshId: string, now: string)
    : (r: Option<ClaudeMessage>)
    ensures r.Some? <==> (
      && l.Some? && IsChatType(l.value.message_type) && l.value.message.Some?
      && MatchesQuery(SearchText(l.value.message.value.content, serialize), query))
    ensures r.Some? ==> r.value == ToMessage(l.value, freshId, now)
  {
    match l
    case None => None
    case Some(e) =>
      if IsChatType(e.message_type) && e.message.Some?
         && MatchesQuery(SearchText(e.message.value.content, serialize), query)
      then Some(ToMessage(e, freshId, now))
      else None
  }

  function LineHits(lines: seq<Line>, query: string, serialize: seq<Json> -> string,
                    newId: nat -> string, now: nat -> string): seq<ClaudeMessage>
    decreases |lines|
  {
    if |lines| == 0 then []
    else
      var i := |lines| - 1;
      var h := SearchHit(lines[i], query, serialize, newId(i), now(i));
      LineHits(lines[..i], query, serialize, newId, now) + (if h.Some? then [h.value] else [])
  }

  /** One more line adds its hit, if it is one. */
  lemma LineHitsStep(lines: seq<Line>, i: nat, query: string, serialize: seq<Json> -> string,
                     newId: nat -> string, now: nat -> string)
    requires i < |lines|
    ensures var h := SearchHit(lines[i], query, serialize, newId(i), now(i));
      LineHits(lines[..i + 1], query, serialize, newId, now)
      == LineHits(lines[..i], query, serialize, newId, now) + (if h.Some? then [h.value] else [])
  {
    assert lines[..i + 1][..i] == lines[..i];
  }

  /** The hits of one walked file: none unless it is a readable `.jsonl`. */
  function FileHits(f: SessionFile, query: string, serialize: seq<Json> -> string): seq<ClaudeMessage> {
    if IsJsonl(f.path) && f.lines.Some? then LineHits(f.lines.value, query, serialize, f.newId, f.now) else []
  }

  function AllHits(files: seq<SessionFile>, query: string, serialize: seq<Json> -> string): seq<ClaudeMessage>
    decreases |files|
  {
    if |files| == 0 then []
    else AllHits(files[..|files| - 1], query, serialize) + FileHits(files[|files| - 1], query, serialize)
  }

  /** The line loop of one file of the search. */
  method SearchFile(f: SessionFile, query: string, serialize: seq<Json> -> string) returns (hits: seq<ClaudeMessage>)
    ensures hits == FileHits(f, query, serialize)
  {
    hits := [];
    if !IsJsonl(f.path) || f.lines.None? {
      return;
    }
    var lines := f.lines.value;
    var i := 0;
    while i < |lines|
      invariant 0 <= i <= |lines|
      invariant hits == LineHits(lines[..i], query, serialize, f.newId, f.now)
    {
      var h := SearchHit(lines[i], query, serialize, f.newId(i), f.now(i));
      LineHitsStep(lines, i, query, serialize, f.newId, f.now);
      if h.Some? {
        hits := hits + [h.value];
      }
      i := i + 1;
    }
    assert lines[..i] == lines;
  }

  /** `search_messages`: nothing when there is no projects directory,
      otherwise the hits of every file in walk order. */
  method SearchMessages(projectsExist: bool, files: seq<SessionFile>, query: string, serialize: seq<Json> -> string)
    returns (r: Result<seq<ClaudeMessage>>)
    ensures r == Ok(if projectsExist then AllHits(files, query, serialize) else [])
  {
    if !projectsExist {
      return Ok([]);
    }
    var all: seq<ClaudeMessage> := [];
    var k := 0;
    while k < |files|
      invariant 0 <= k <= |files|
      invariant all == AllHits(files[..k], query, serialize)
    {
      assert files[..k + 1][..k] == files[..k];
      var hits := SearchFile(files[k], query, serialize);
      all := all + hits;
      k := k + 1;
    }
    assert files[..k] == files;
    r := Ok(all);
  }

  /** Every hit is a user or assistant message whose text matches. */
  lemma {:induction false} HitsMatch(files: seq<SessionFile>, query: string, serialize: seq<Json> -> string)
    ensures forall m :: m in AllHits(files, query, serialize) ==> (
      && IsChatType(m.message_type) && m.content.Some?
      && MatchesQuery(SearchText(m.content.value, serialize), query))
    decreases |files|
  {
    if |files| > 0 {
      HitsMatch(files[..|files| - 1], query, serialize);
      var f := files[|files| - 1];
      if IsJsonl(f.path) && f.lines.Some? {
        LineHitsMatch(f.lines.value, query, serialize, f.newId, f.now);
      }
    }
  }

  lemma {:induction false} LineHitsMatch(lines: seq<Line>, query: string, serialize: seq<Json> -> string,
                                         newId: nat -> string, now: nat -> string)
    ensures forall m :: m in LineHits(lines, query, serialize, newId, now) ==> (
      && IsChatType(m.message_type) && m.content.Some?
      && MatchesQuery(SearchText(m.content.value, serialize), query))
    decreases |lines|
  {
    if |lines| > 0 {
      LineHitsMatch(lines[..|lines| - 1], query, serialize, newId, now);
    }
  }
}
