/** Resuming a session from a terminal: the command line for a provider, and
    the working directory read back from a session. For Cursor, the directory
    is recovered from the composite session id and the workspace's editor
    history. Files, databases, the home directory and URL decoding are
    inputs. */
module Resume {
  import opened Base
  import opened Json
  import opened Strings
  import opened Seqs
  import opened Capabilities
  import Paths
  import Cursor

  // ---------------------------------------------------------------- resume command

  const UuidFailure := "Failed to extract session UUID from filename"
  const NotSupported := "Resume not supported for provider: "
  const NoResumeCli := " (Provider does not have CLI resume capability)"
  const BuildFailure := "Failed to build resume command for provider: "
  const NoWorkingDirectory := "No working directory found for this session"

  /** A session id that is a path to a ".jsonl" file stands for the file's
      stem; any other id is used as it is. */
  function SessionUuid(sessionId: string): (r: Result<string>)
    ensures !EndsWith(sessionId, ".jsonl") ==> r == Ok(sessionId)
    ensures EndsWith(sessionId, ".jsonl") && Paths.FileStem(sessionId).Some? ==> r == Ok(Paths.FileStem(sessionId).value)
    ensures EndsWith(sessionId, ".jsonl") && Paths.FileStem(sessionId).None? ==> r == Err(UuidFailure)
  {
    if EndsWith(sessionId, ".jsonl") then
      match Paths.FileStem(sessionId)
      case Some(stem) => Ok(stem)
      case None => Err(UuidFailure)
    else Ok(sessionId)
  }

  /** The last '.' of "<uuid>.jsonl" is the one before the extension. */
  lemma LastDotBeforeExtension(uuid: string)
    ensures RFindChar(uuid + ".jsonl", '.') == Some(|uuid|)
  {
    var s := uuid + ".jsonl";
    assert s[|uuid|] == '.';
    var r := RFindChar(s, '.');
    assert r.Some?;
    assert forall j :: |uuid| < j < |s| ==> s[j] != '.' by {
      forall j | |uuid| < j < |s| ensures s[j] != '.' {
        assert s[j] == ".jsonl"[j - |uuid|];
      }
    }
  }

  /** "<uuid>.jsonl" is a plain name whose stem is `uuid`. */
  lemma JsonlName(uuid: string)
    requires Paths.IsPlainName(uuid) && '.' !in uuid
    ensures var name := uuid + ".jsonl";
      Paths.IsPlainName(name) && name[..|uuid|] == uuid && EndsWith(name, ".jsonl")
  {
    var name := uuid + ".jsonl";
    forall j | |uuid| <= j < |name|
      ensures name[j] != '/'
    {
      assert name[j] == ".jsonl"[j - |uuid|];
    }
    assert name[|name| - 6..] == ".jsonl";
  }

  /** A path ending in a name ends as that name does. */
  lemma EndsWithJoin(dir: string, name: string, suffix: string)
    requires EndsWith(name, suffix)
    ensures EndsWith(dir + "/" + name, suffix)
  {
    var p := dir + "/" + name;
    assert p[|p| - |suffix|..] == name[|name| - |suffix|..];
  }

  /** The session file "<dir>/<uuid>.jsonl" resumes session `uuid`. */
  lemma SessionUuidOfFile(dir: string, uuid: string)
    requires Paths.IsPlainName(uuid) && '.' !in uuid
    ensures SessionUuid(dir + "/" + uuid + ".jsonl") == Ok(uuid)
  {
    var name := uuid + ".jsonl";
    var p := dir + "/" + name;
    assert dir + "/" + uuid + ".jsonl" == p;
    JsonlName(uuid);
    EndsWithJoin(dir, name, ".jsonl");
    Paths.FileNameOfJoin(dir, name);
    LastDotBeforeExtension(uuid);
    assert Paths.FileStem(p) == Some(name[..|uuid|]);
  }

  /** `get_resume_command`: the interactive command for an interactive
      provider, otherwise "cd <dir> && <command>", with "." when the
      session's directory is unknown. */
  function ResumeCommand(sessionId: string, cwd: Option<string>, providerId: string): (r: Result<string>)
    ensures SessionUuid(sessionId).Err? ==> r == Err(UuidFailure)
    ensures SessionUuid(sessionId).Ok? && !IsResumable(providerId) ==> r == Err(NotSupported + providerId)
    ensures SessionUuid(sessionId).Ok? && IsResumable(providerId) ==> r.Ok?
    ensures r.Ok? && providerId == "gemini" ==>
      Some(r.value) == InteractiveCommandOf(ForProvider(providerId), SessionUuid(sessionId).value)
    ensures r.Ok? && providerId != "gemini" ==>
      r.value == "cd " + cwd.GetOr(".") + " && " + BuildResumeCommand(ForProvider(providerId), SessionUuid(sessionId).value).value
  {
    var workingDirectory := cwd.GetOr(".");
    var uuid :- SessionUuid(sessionId);
    var capabilities := ForProvider(providerId);
    if !capabilities.supports_resume then Err(NotSupported + providerId)
    else
      match InteractiveCommandOf(capabilities, uuid)
      case Some(cmd) => Ok(cmd)
      case None =>
        match BuildResumeCommand(capabilities, uuid)
        case None => Err(BuildFailure + providerId)
        case Some(cmd) => Ok("cd " + workingDirectory + " && " + cmd)
  }

  lemma ClaudeResumeLine(sessionId: string, wd: string)
    requires !EndsWith(sessionId, ".jsonl")
    ensures ResumeCommand(sessionId, Some(wd), "claude-code") == Ok("cd " + wd + " && " + ("claude --resume " + sessionId))
  {
    DirectResumeLine(sessionId, Some(wd), "claude-code");
    ClaudeResumeCommand(sessionId);
  }

  /** Without a known directory the command runs in ".". */
  lemma CodexResumeLineInCurrentDirectory(sessionId: string)
    requires !EndsWith(sessionId, ".jsonl")
    ensures ResumeCommand(sessionId, None, "codex") == Ok("cd . && " + ("codex resume " + sessionId))
  {
    DirectResumeLine(sessionId, None, "codex");
    CodexResumeCommand(sessionId);
    assert "cd " + "." + " && " == "cd . && ";
  }

  /** A resumable provider other than gemini gets "cd <dir> && <command>". */
  lemma DirectResumeLine(sessionId: string, cwd: Option<string>, providerId: string)
    requires !EndsWith(sessionId, ".jsonl")
    requires IsResumable(providerId) && providerId != "gemini"
    ensures ResumeCommand(sessionId, cwd, providerId) ==
      Ok("cd " + cwd.GetOr(".") + " && " + BuildResumeCommand(ForProvider(providerId), sessionId).value)
  {
    assert SessionUuid(sessionId) == Ok(sessionId);
  }

  /** Gemini gets the command to type inside its own CLI, with no `cd`. */
  lemma GeminiResumeLine(sessionId: string, cwd: Option<string>)
    requires !EndsWith(sessionId, ".jsonl")
    ensures ResumeCommand(sessionId, cwd, "gemini") == Ok("/chat resume " + sessionId)
  {
    GeminiInteractiveCommand(sessionId);
  }

  /** What `resume_session` hands to the terminal. */
  datatype Launch = Launch(working_directory: string, command: string)

  /** `resume_session` up to the terminal launch: it needs a directory and
      always uses the plain resume command, never the interactive one. */
  function ResumeLaunch(sessionId: string, cwd: Option<string>, providerId: string): (r: Result<Launch>)
    ensures cwd.None? ==> r == Err(NoWorkingDirectory)
    ensures cwd.Some? && SessionUuid(sessionId).Err? ==> r == Err(UuidFailure)
    ensures cwd.Some? && SessionUuid(sessionId).Ok? && !IsResumable(providerId) ==> r == Err(NotSupported + providerId + NoResumeCli)
    ensures cwd.Some? && SessionUuid(sessionId).Ok? && IsResumable(providerId) ==>
      r == Ok(Launch(cwd.value, BuildResumeCommand(ForProvider(providerId), SessionUuid(sessionId).value).value))
  {
    match cwd
    case None => Err(NoWorkingDirectory)
    case Some(workingDirectory) =>
      var uuid :- SessionUuid(sessionId);
      var capabilities := ForProvider(providerId);
      if !capabilities.supports_resume then Err(NotSupported + providerId + NoResumeCli)
      else
        match BuildResumeCommand(capabilities, uuid)
        case None => Err(BuildFailure + providerId)
        case Some(cmd) => Ok(Launch(workingDirectory, cmd))
  }

  /** Launching gemini only opens its CLI in the directory. */
  lemma GeminiLaunchOpensCli(sessionId: string, wd: string)
    requires !EndsWith(sessionId, ".jsonl")
    ensures ResumeLaunch(sessionId, Some(wd), "gemini") == Ok(Launch(wd, "gemini"))
  {
    GeminiResumeCommand(sessionId);
  }

  // ---------------------------------------------------------------- cwd of a JSONL session

  const OpenFailure := "Failed to open session file: "
  const LineFailure := "Failed to read line: "
  const NoCwdFound := "Could not find working " + "directory in session file"

  /** Only the first lines of a file are searched, blank ones included. */
  const CwdScanLimit: nat := 20

  /** `json.get(key).and_then(|o| o.get("cwd")).and_then(as_str)`. */
  function NestedCwd(j: Json, key: string): Option<string> {
    match Get(j, key)
    case Some(inner) => GetStr(inner, "cwd")
    case None => None
  }

  /** The directory a record names: its own "cwd", else that of its
      "message", its "metadata" or its "payload" (the Codex form). */
  function CwdOf(j: Json): (r: Option<string>)
    ensures r.None? <==> GetStr(j, "cwd").None? && NestedCwd(j, "message").None? &&
                         NestedCwd(j, "metadata").None? && NestedCwd(j, "payload").None?
    ensures r.Some? ==> r == GetStr(j, "cwd") || r == NestedCwd(j, "message") ||
                        r == NestedCwd(j, "metadata") || r == NestedCwd(j, "payload")
  {
    GetStr(j, "cwd").Or(NestedCwd(j, "message")).Or(NestedCwd(j, "metadata")).Or(NestedCwd(j, "payload"))
  }

  /** A record's own "cwd" wins over the nested ones, and the nested ones
      are tried in the order message, metadata, payload. */
  lemma CwdPriority(j: Json)
    ensures GetStr(j, "cwd").Some? ==> CwdOf(j) == GetStr(j, "cwd")
    ensures GetStr(j, "cwd").None? && NestedCwd(j, "message").Some? ==> CwdOf(j) == NestedCwd(j, "message")
    ensures GetStr(j, "cwd").None? && NestedCwd(j, "message").None? && NestedCwd(j, "metadata").Some? ==>
      CwdOf(j) == NestedCwd(j, "metadata")
  {
  }

  /** The directory on one line: none for a blank line or one that is not
      JSON. */
  function LineCwd(text: string, parse: string -> Option<Json>): Option<string> {
    if Trim(text) == "" then None
    else
      match parse(text)
      case Some(j) => CwdOf(j)
      case None => None
  }

  /** The scan of the lines: the first directory found, the first read
      error, or neither. */
  function ScanCwd(lines: seq<Result<string>>, parse: string -> Option<Json>): (r: Result<string>)
    ensures r == Err(NoCwdFound) <==> forall i :: 0 <= i < |lines| ==> NoCwdAt(lines, parse, i)
    ensures r.Err? && r.error != NoCwdFound ==> exists i :: 0 <= i < |lines| && lines[i].Err? && r.error == LineFailure + lines[i].error
    decreases |lines|
  {
    if |lines| == 0 then Err(NoCwdFound)
    else
      match lines[0]
      case Err(e) =>
        ReadErrorIsNotNoCwd(e);
        assert !NoCwdAt(lines, parse, 0);
        Err(LineFailure + e)
      case Ok(text) =>
        match LineCwd(text, parse)
        case Some(cwd) =>
          assert !NoCwdAt(lines, parse, 0);
          Ok(cwd)
        case None =>
          var r := ScanCwd(lines[1..], parse);
          TailScan(lines, parse, r);
          r
  }

  lemma ReadErrorIsNotNoCwd(e: string)
    ensures LineFailure + e != NoCwdFound
  {
    assert NoCwdFound[0] == 'C';
    assert (LineFailure + e)[0] == 'F';
  }

  /** What the scan of the lines after a first line naming no directory
      says of all the lines. */
  lemma TailScan(lines: seq<Result<string>>, parse: string -> Option<Json>, r: Result<string>)
    requires |lines| > 0 && NoCwdAt(lines, parse, 0)
    requires r == Err(NoCwdFound) <==> forall i :: 0 <= i < |lines| - 1 ==> NoCwdAt(lines[1..], parse, i)
    requires r.Err? && r.error != NoCwdFound ==>
      exists i :: 0 <= i < |lines| - 1 && lines[1..][i].Err? && r.error == LineFailure + lines[1..][i].error
    ensures r == Err(NoCwdFound) <==> forall i :: 0 <= i < |lines| ==> NoCwdAt(lines, parse, i)
    ensures r.Err? && r.error != NoCwdFound ==> exists i :: 0 <= i < |lines| && lines[i].Err? && r.error == LineFailure + lines[i].error
  {
    var rest := lines[1..];
    if forall i :: 0 <= i < |rest| ==> NoCwdAt(rest, parse, i) {
      forall i | 0 <= i < |lines|
        ensures NoCwdAt(lines, parse, i)
      {
        if i > 0 {
          assert NoCwdAt(rest, parse, i - 1);
          assert rest[i - 1] == lines[i];
        }
      }
    }
    if forall i :: 0 <= i < |lines| ==> NoCwdAt(lines, parse, i) {
      forall i | 0 <= i < |rest|
        ensures NoCwdAt(rest, parse, i)
      {
        assert NoCwdAt(lines, parse, i + 1);
        assert rest[i] == lines[i + 1];
      }
    }
    if r.Err? && r.error != NoCwdFound {
      var i :| 0 <= i < |rest| && rest[i].Err? && r.error == LineFailure + rest[i].error;
      assert lines[i + 1] == rest[i];
    }
  }

  function CwdFromLines(lines: seq<Result<string>>, parse: string -> Option<Json>): Result<string> {
    ScanCwd(lines[..Min(CwdScanLimit, |lines|)], parse)
  }

  /** The line loop of `get_session_cwd`. */
  method ScanSessionCwd(lines: seq<Result<string>>, parse: string -> Option<Json>) returns (r: Result<string>)
    ensures r == CwdFromLines(lines, parse)
  {
    var window := lines[..Min(CwdScanLimit, |lines|)];
    var i := 0;
    while i < |window|
      invariant 0 <= i <= |window|
      invariant ScanCwd(window[i..], parse) == ScanCwd(window, parse)
    {
      assert window[i..][0] == window[i];
      assert window[i..][1..] == window[i + 1..];
      if window[i].Err? {
        return Err(LineFailure + window[i].error);
      }
      var cwd := LineCwd(window[i].value, parse);
      if cwd.Some? {
        return Ok(cwd.value);
      }
      i := i + 1;
    }
    assert window[i..] == [];
    r := Err(NoCwdFound);
  }

  /** A directory found comes from the first line that names one, within the
      scanned lines, every line before it read and naming none. */
  lemma {:induction false} ScanFindsFirst(lines: seq<Result<string>>, parse: string -> Option<Json>)
    requires ScanCwd(lines, parse).Ok?
    ensures exists i :: FoundAt(lines, parse, i, ScanCwd(lines, parse).value)
    decreases |lines|
  {
    var cwd := ScanCwd(lines, parse).value;
    if LineCwd(lines[0].value, parse).None? {
      var rest := lines[1..];
      assert ScanCwd(rest, parse) == ScanCwd(lines, parse);
      ScanFindsFirst(rest, parse);
      var i :| FoundAt(rest, parse, i, cwd);
      FoundAtCons(lines, parse, i, cwd);
    } else {
      assert FoundAt(lines, parse, 0, cwd);
    }
  }

  /** Line `j` is read and names no directory. */
  predicate NoCwdAt(lines: seq<Result<string>>, parse: string -> Option<Json>, j: nat) {
    j < |lines| && lines[j].Ok? && LineCwd(lines[j].value, parse).None?
  }

  /** Line `i` names `cwd`, and every line before it is read and names none. */
  predicate FoundAt(lines: seq<Result<string>>, parse: string -> Option<Json>, i: nat, cwd: string) {
    && i < |lines| && lines[i].Ok? && LineCwd(lines[i].value, parse) == Some(cwd)
    && forall j :: 0 <= j < i ==> NoCwdAt(lines, parse, j)
  }

  lemma FoundAtCons(lines: seq<Result<string>>, parse: string -> Option<Json>, i: nat, cwd: string)
    requires |lines| > 0 && NoCwdAt(lines, parse, 0) && FoundAt(lines[1..], parse, i, cwd)
    ensures FoundAt(lines, parse, i + 1, cwd)
  {
    var rest := lines[1..];
    assert lines[i + 1] == rest[i];
    forall j | 0 <= j < i + 1
      ensures NoCwdAt(lines, parse, j)
    {
      if j > 0 {
        assert lines[j] == rest[j - 1];
        assert NoCwdAt(rest, parse, j - 1);
      }
    }
  }

  /** Twenty blank lines hide whatever follows them. */
  lemma {:induction false} BlankLinesUseUpTheScan(lines: seq<Result<string>>, parse: string -> Option<Json>)
    requires |lines| >= CwdScanLimit
    requires forall i :: 0 <= i < CwdScanLimit ==> lines[i] == Ok("")
    ensures CwdFromLines(lines, parse) == Err(NoCwdFound)
  {
    var window := lines[..CwdScanLimit];
    AllBlank(window, parse);
  }

  lemma {:induction false} AllBlank(lines: seq<Result<string>>, parse: string -> Option<Json>)
    requires forall i :: 0 <= i < |lines| ==> lines[i] == Ok("")
    ensures ScanCwd(lines, parse) == Err(NoCwdFound)
    decreases |lines|
  {
    if |lines| > 0 {
      assert Trim("") == "";
      AllBlank(lines[1..], parse);
    }
  }

  /** Lines past the twentieth are never read. */
  lemma LaterLinesIgnored(lines: seq<Result<string>>, more: seq<Result<string>>, parse: string -> Option<Json>)
    requires |lines| >= CwdScanLimit
    ensures CwdFromLines(lines + more, parse) == CwdFromLines(lines, parse)
  {
    assert (lines + more)[..CwdScanLimit] == lines[..CwdScanLimit];
  }

  // ---------------------------------------------------------------- Cursor composite ids

  /** The parts of "<db>#session=<id>#workspace=<ws>#timestamp=<time>". */
  datatype CursorSessionRef = CursorSessionRef(db_path: string, session_id: string, workspace_id: string)

  const SessionMarker := "#session="
  const WorkspaceMarker := "#workspace="
  const TimestampMarker := "#timestamp="
  const MissingSession := "Invalid Cursor session format: missing #session="
  const MissingWorkspace := "Invalid Cursor session format: missing #workspace="
  const MissingTimestamp := "Invalid Cursor session format: missing #timestamp="

  /** The pieces between the first "#session=", the first "#workspace="
      after it and the first "#timestamp=" after that. */
  function ParseCompositeId(composite: string): (r: Result<CursorSessionRef>)
    ensures !Contains(composite, SessionMarker) ==> r == Err(MissingSession)
    ensures r.Ok? ==> StartsWith(composite, r.value.db_path + SessionMarker + r.value.session_id + WorkspaceMarker +
                                            r.value.workspace_id + TimestampMarker)
    ensures r.Ok? ==> !Contains(r.value.db_path, SessionMarker)
    ensures Find(composite, SessionMarker).Some? &&
      !Contains(composite[Find(composite, SessionMarker).value + |SessionMarker|..], WorkspaceMarker)
      ==> r == Err(MissingWorkspace)
    ensures Find(composite, SessionMarker).Some? &&
      (var afterSession := composite[Find(composite, SessionMarker).value + |SessionMarker|..];
       Find(afterSession, WorkspaceMarker).Some? &&
       !Contains(afterSession[Find(afterSession, WorkspaceMarker).value + |WorkspaceMarker|..], TimestampMarker))
      ==> r == Err(MissingTimestamp)
    ensures r.Err? ==> r.error == MissingSession || r.error == MissingWorkspace || r.error == MissingTimestamp
  {
    match Find(composite, SessionMarker)
    case None => Err(MissingSession)
    case Some(sp) =>
      var db := composite[..sp];
      var afterSession := composite[sp + |SessionMarker|..];
      match Find(afterSession, WorkspaceMarker)
      case None => Err(MissingWorkspace)
      case Some(wp) =>
        var sessionId := afterSession[..wp];
        var afterWorkspace := afterSession[wp + |WorkspaceMarker|..];
        match Find(afterWorkspace, TimestampMarker)
        case None => Err(MissingTimestamp)
        case Some(tp) =>
          var workspaceId := afterWorkspace[..tp];
          ComposedPrefix(composite, sp, afterSession, wp, afterWorkspace, tp);
          NoEarlierOccurrence(composite, SessionMarker, sp);
          Ok(CursorSessionRef(db, sessionId, workspaceId))
  }

  lemma ComposedPrefix(c: string, sp: nat, a: string, wp: nat, b: string, tp: nat)
    requires OccursAt(c, SessionMarker, sp) && a == c[sp + |SessionMarker|..]
    requires OccursAt(a, WorkspaceMarker, wp) && b == a[wp + |WorkspaceMarker|..]
    requires OccursAt(b, TimestampMarker, tp)
    ensures StartsWith(c, c[..sp] + SessionMarker + a[..wp] + WorkspaceMarker + b[..tp] + TimestampMarker)
  {
    var x := b[..tp] + TimestampMarker;
    PrefixThrough(b, TimestampMarker, tp, 0);
    assert b[..|x|] == x;
    var y := a[..wp] + WorkspaceMarker + x;
    PrefixThrough(a, WorkspaceMarker, wp, |x|);
    assert a[..|y|] == y;
    PrefixThrough(c, SessionMarker, sp, |y|);
    assert c[..sp] + SessionMarker + y == c[..sp] + SessionMarker + a[..wp] + WorkspaceMarker + b[..tp] + TimestampMarker;
  }

  /** The text through an occurrence of `p` and `n` characters after it. */
  lemma PrefixThrough(c: string, p: string, i: nat, n: nat)
    requires OccursAt(c, p, i) && i + |p| + n <= |c|
    ensures c[..i + |p| + n] == c[..i] + p + c[i + |p|..][..n]
  {
    var k := i + |p| + n;
    forall j | 0 <= j < k
      ensures c[..k][j] == (c[..i] + p + c[i + |p|..][..n])[j]
    {
      if i <= j < i + |p| {
        assert c[i..i + |p|][j - i] == c[j];
      }
    }
  }

  /** Before the first occurrence of a pattern there is none. */
  lemma NoEarlierOccurrence(s: string, p: string, i: nat)
    requires |p| > 0 && Find(s, p) == Some(i)
    ensures !Contains(s[..i], p)
  {
    forall j: nat | j <= i
      ensures !OccursAt(s[..i], p, j)
    {
      if j + |p| <= i {
        assert s[..i][j..j + |p|] == s[j..j + |p|];
        assert !OccursAt(s, p, j);
      }
    }
  }

  /** A pattern whose first character does not occur before it is found
      right there. */
  lemma FindFirstAt(a: string, p: string, b: string)
    requires |p| > 0 && p[0] !in a
    ensures Find(a + p + b, p) == Some(|a|)
  {
    var s := a + p + b;
    assert s[|a|..|a| + |p|] == p;
    assert OccursAt(s, p, |a|);
    forall j: nat | j < |a|
      ensures !OccursAt(s, p, j)
    {
      assert s[j] == a[j];
      if j + |p| <= |s| {
        assert s[j..j + |p|][0] == s[j];
      }
    }
  }

  /** Composing an id and parsing it gives the parts back, when they hold no
      '#'. */
  lemma CompositeIdRoundTrip(db: string, sessionId: string, workspaceId: string, timestamp: string)
    requires '#' !in db && '#' !in sessionId && '#' !in workspaceId
    ensures ParseCompositeId(db + SessionMarker + sessionId + WorkspaceMarker + workspaceId + TimestampMarker + timestamp)
         == Ok(CursorSessionRef(db, sessionId, workspaceId))
  {
    var rest2 := workspaceId + TimestampMarker + timestamp;
    var rest1 := sessionId + WorkspaceMarker + rest2;
    var c := db + SessionMarker + rest1;
    assert c == db + SessionMarker + sessionId + WorkspaceMarker + workspaceId + TimestampMarker + timestamp;
    FindFirstAt(db, SessionMarker, rest1);
    assert c[..|db|] == db;
    assert c[|db| + |SessionMarker|..] == rest1;
    FindFirstAt(sessionId, WorkspaceMarker, rest2);
    assert rest1[..|sessionId|] == sessionId;
    assert rest1[|sessionId| + |WorkspaceMarker|..] == rest2;
    FindFirstAt(workspaceId, TimestampMarker, timestamp);
    assert rest2[..|workspaceId|] == workspaceId;
  }

  // ---------------------------------------------------------------- Cursor workspace

  const BasePathFailure := "Failed to determine Cursor base path"
  const NoWorkspaceDirectory := "Could not determine workspace directory"
  const WorkspaceOpenFailure := "Failed to open workspace DB: "

  /** The Cursor folder: three directories up from the global database
      (past "globalStorage" and "User"). */
  function CursorBase(dbPath: string): (r: Option<string>)
    ensures var cs := Paths.Components(dbPath);
      r.Some? ==> |cs| >= 3 && r.value == Paths.Render(cs[..|cs| - 3])
  {
    var cs := Paths.Components(dbPath);
    var p1 :- Paths.ParentComponents(cs);
    var p2 :- Paths.ParentComponents(p1);
    var p3 :- Paths.ParentComponents(p2);
    assert p3 == cs[..|cs| - 3];
    Some(Paths.Render(p3))
  }

  /** The standard layout "<dir>/User/globalStorage/state.vscdb" leads back
      to `dir`. */
  lemma CursorBaseOfLayout(dir: string, user: string, global: string, file: string)
    requires dir != "" && Paths.IsPlainName(user) && Paths.IsPlainName(global) && Paths.IsPlainName(file)
    ensures CursorBase(dir + "/" + user + "/" + global + "/" + file) == Some(Paths.Render(Paths.Components(dir)))
  {
    var d1 := dir + "/" + user;
    var d2 := d1 + "/" + global;
    Paths.ComponentsOfChild(dir, user);
    Paths.ComponentsOfChild(d1, global);
    Paths.ComponentsOfChild(d2, file);
    var cs := Paths.Components(dir);
    assert Paths.Components(d2 + "/" + file) == cs + [Paths.Normal(user)] + [Paths.Normal(global)] + [Paths.Normal(file)];
    assert dir + "/" + user + "/" + global + "/" + file == d2 + "/" + file;
    assert Paths.ParentComponents(cs + [Paths.Normal(user)]) == Some(cs);
    assert Paths.ParentComponents(cs + [Paths.Normal(user)] + [Paths.Normal(global)]) == Some(cs + [Paths.Normal(user)]);
    assert Paths.ParentComponents(cs + [Paths.Normal(user)] + [Paths.Normal(global)] + [Paths.Normal(file)])
        == Some(cs + [Paths.Normal(user)] + [Paths.Normal(global)]);
  }

  /** `cursor_base/User/workspaceStorage/<workspace>/state.vscdb`. */
  function WorkspaceDbPath(base: string, workspaceId: string): string {
    var user := Paths.JoinPath(base, "User");
    var storage := Paths.JoinPath(user, "workspaceStorage");
    var workspace := Paths.JoinPath(storage, workspaceId);
    Paths.JoinPath(workspace, "state.vscdb")
  }

  /** Under a base that does not end in '/', the workspace database of a
      relative workspace id is "<base>/User/workspaceStorage/<id>/state.vscdb". */
  lemma WorkspaceDbPathUnderBase(base: string, workspaceId: string)
    requires base != "" && base[|base| - 1] != '/'
    requires workspaceId != "" && workspaceId[|workspaceId| - 1] != '/' && !StartsWith(workspaceId, "/")
    ensures WorkspaceDbPath(base, workspaceId)
         == base + "/" + "User" + "/" + "workspaceStorage" + "/" + workspaceId + "/" + "state.vscdb"
  {
    JoinRelative(base, "User");
    var user := base + "/" + "User";
    JoinRelative(user, "workspaceStorage");
    var storage := user + "/" + "workspaceStorage";
    JoinRelative(storage, workspaceId);
    var workspace := storage + "/" + workspaceId;
    JoinRelative(workspace, "state.vscdb");
  }

  /** Joining a relative part to a base not ending in '/' inserts one '/';
      the result ends as the part does. */
  lemma JoinRelative(base: string, part: string)
    requires base != "" && base[|base| - 1] != '/'
    requires part != "" && !StartsWith(part, "/")
    ensures Paths.JoinPath(base, part) == base + "/" + part
    ensures (base + "/" + part)[|base + "/" + part| - 1] == part[|part| - 1]
  {
  }

  /** A URI path "/c:/…" names a Windows drive. */
  predicate IsDrivePath(p: string) {
    StartsWith(p, "/") && |p| - 1 > 2 && p[2] == ':'
  }

  /** A drive path loses its leading '/' and has every '/' turned into '\';
      any other path is kept. */
  function ToWindowsPath(p: string): (r: string)
    ensures IsDrivePath(p) ==> |r| == |p| - 1 && '/' !in r
    ensures IsDrivePath(p) ==> forall i :: 0 <= i < |r| ==> r[i] == if p[i + 1] == '/' then '\\' else p[i + 1]
    ensures !IsDrivePath(p) ==> r == p
  {
    if StartsWith(p, "/") then
      var withoutSlash := p[1..];
      if |withoutSlash| > 2 && withoutSlash[1] == ':' then
        var r := ReplaceChar(withoutSlash, '/', '\\');
        assert forall i :: 0 <= i < |r| ==> r[i] != '/';
        r
      else p
    else p
  }

  lemma DriveLetterPath(d: char, rest: string)
    requires d != '/' && |rest| > 0
    ensures ToWindowsPath("/" + [d] + ":" + rest) == [d] + ":" + ReplaceChar(rest, '/', '\\')
  {
    var p := "/" + [d] + ":" + rest;
    assert p[1..] == [d] + ":" + rest;
    var r := ToWindowsPath(p);
    var e := [d] + ":" + ReplaceChar(rest, '/', '\\');
    assert |r| == |e|;
    forall i | 0 <= i < |r| ensures r[i] == e[i] {
      if i >= 2 {
        assert p[i + 1] == rest[i - 2];
      }
    }
  }

  /** The conversion as written: `len() > 2` counts bytes and `&w[1..2]` is a
      byte slice, which panics (`None`) when byte 1 or 2 lies inside a
      character. */
  function ToWindowsPathAsWritten(p: string): (r: Option<string>)
    ensures r.Some? ==> r.value == ToWindowsPath(p)
    ensures r.None? ==> StartsWith(p, "/") && (!IsCharBoundary(p[1..], 1) || !IsCharBoundary(p[1..], 2))
  {
    if StartsWith(p, "/") then
      var withoutSlash := p[1..];
      if Utf8Len(withoutSlash) > 2 then
        match (ByteSlice(withoutSlash, 1), ByteSlice(withoutSlash, 2))
        case (Some(a), Some(b)) =>
          OneByteEach(withoutSlash, a, b);
          if b[|a|..] == ":" then Some(ReplaceChar(withoutSlash, '/', '\\')) else Some(p)
        case _ => None
      else
        Utf8LenAtLeastLength(withoutSlash);
        Some(p)
    else Some(p)
  }

  /** When bytes 1 and 2 are both character boundaries, the first two
      characters take a byte each, so the byte test is the character test. */
  lemma OneByteEach(w: string, a: string, b: string)
    requires StartsWith(w, a) && Utf8Len(a) == 1 && StartsWith(w, b) && Utf8Len(b) == 2 && Utf8Len(w) > 2
    ensures |a| == 1 && |b| == 2 && |w| > 2 && b[|a|..] == [w[1]]
  {
    Utf8LenAtLeastLength(a);
    Utf8LenAtLeastLength(b);
    Utf8LenAppend(b, w[2..]);
    assert w == b + w[2..];
  }

  /** On ASCII paths the byte tests are the character tests. */
  lemma WindowsPathAsWrittenAgreesOnAscii(p: string)
    requires IsAscii(p)
    ensures ToWindowsPathAsWritten(p) == Some(ToWindowsPath(p))
  {
    if StartsWith(p, "/") {
      var w := p[1..];
      assert IsAscii(w);
      Utf8LenAscii(w);
      if |w| > 2 {
        ByteSliceAscii(w, 1);
        ByteSliceAscii(w, 2);
        assert w[..2][1..] == [w[1]];
      }
    }
  }

  /** A root whose first name starts with a multi-byte character, such as
      "/éab", makes the byte slice panic; the character test keeps it. */
  lemma WindowsPathAsWrittenPanics()
    ensures ToWindowsPathAsWritten("/éab").None?
    ensures ToWindowsPath("/éab") == "/éab"
  {
    var w := "/éab"[1..];
    assert w == "éab";
    assert w[..0] == "" && w[..1] == "é" && w[..2] == "éa" && w[..3] == w;
    assert Utf8Len("é") == 2;
    assert Utf8Len("éa") == 3;
    assert Utf8Len(w) == 4;
    assert !IsCharBoundary(w, 1);
  }

  /** The path of a history entry's `file:///` resource, read from an
      untyped value: entries of any other shape are skipped. */
  function HistoryResource(entry: Json): (r: Option<string>)
    ensures r.Some? ==> StartsWith(r.value, "/")
  {
    match Get(entry, "editor")
    case Some(editor) =>
      (match GetStr(editor, "resource")
       case Some(resource) =>
         if StartsWith(resource, Cursor.FileUriPrefix) then
           assert resource[7..][..1] == resource[7..8];
           Some(resource[7..])
         else None
       case None => None)
    case None => None
  }

  /** On entries the typed reader accepts, the untyped one finds the same
      path. */
  lemma HistoryResourceAgrees(entry: Json)
    requires Cursor.DecodeHistoryEntry(entry).Some?
    ensures HistoryResource(entry) == Cursor.ResourcePath(Cursor.DecodeHistoryEntry(entry).value)
  {
  }

  /** `find_common_file_prefix`, the same scan as the workspace reader's. */
  method FindCommonFilePrefix(paths: seq<string>) returns (r: string)
    ensures r == Cursor.CommonPrefix(paths)
  {
    r := Cursor.FindCommonPrefix(paths);
  }

  /** The project root from the editor history: the shared directory of the
      opened files, URL-decoded (kept as it is when decoding fails) and
      converted to a Windows path. */
  function HistoryRoot(history: Result<string>, parse: string -> Option<Json>, urlDecode: string -> Option<string>): (r: Option<string>)
    ensures r.Some? ==> history.Ok? && parse(history.value).Some? && parse(history.value).value.Arr?
    ensures r.Some? ==>
      var paths := FilterMap(parse(history.value).value.items, HistoryResource);
      && |paths| > 0
      && r.value == ToWindowsPath(urlDecode(Cursor.RootOf(paths)).GetOr(Cursor.RootOf(paths)))
  {
    if history.Err? then None
    else
      match parse(history.value)
      case Some(Arr(entries)) =>
        var filePaths := FilterMap(entries, HistoryResource);
        if |filePaths| == 0 then None
        else
          var root := Cursor.RootOf(filePaths);
          Some(ToWindowsPath(urlDecode(root).GetOr(root)))
      case _ => None
  }

  /** The history root as written: the shared prefix is cut with the byte
      slice of resume.rs:474 and converted with the byte tests of
      resume.rs:372-374. `None` is a panic of either; `Some(None)` means no
      root, exactly when the corrected reader finds none. */
  function HistoryRootAsWritten(history: Result<string>, parse: string -> Option<Json>,
                                urlDecode: string -> Option<string>): (r: Option<Option<string>>)
    ensures r == Some(None) <==> HistoryRoot(history, parse, urlDecode).None?
    ensures r.None? ==> HistoryRoot(history, parse, urlDecode).Some?
    ensures HistoryRoot(history, parse, urlDecode).Some? ==>
      var paths := FilterMap(parse(history.value).value.items, HistoryResource);
      && (Cursor.CommonPrefixAsWritten(paths).None? ==> r.None?)
      && (Cursor.CommonPrefixAsWritten(paths).Some? ==>
            var root := TrimEndChar(Cursor.CommonPrefixAsWritten(paths).value, '/');
            && (r.None? <==> ToWindowsPathAsWritten(urlDecode(root).GetOr(root)).None?)
            && (r.Some? ==> r.value == Some(ToWindowsPath(urlDecode(root).GetOr(root))))
            && forall k :: 0 <= k < |paths| ==> StartsWith(paths[k], root))
  {
    if history.Err? then Some(None)
    else
      match parse(history.value)
      case Some(Arr(entries)) =>
        var filePaths := FilterMap(entries, HistoryResource);
        if |filePaths| == 0 then Some(None)
        else
          (match Cursor.CommonPrefixAsWritten(filePaths)
           case None => None
           case Some(prefix) =>
             var root := TrimEndChar(prefix, '/');
             assert forall k :: 0 <= k < |filePaths| ==> StartsWith(filePaths[k], root) by {
               forall k | 0 <= k < |filePaths| ensures StartsWith(filePaths[k], root) {
                 assert filePaths[k][..|root|] == prefix[..|root|];
               }
             }
             (match ToWindowsPathAsWritten(urlDecode(root).GetOr(root))
              case None => None
              case Some(w) => Some(Some(w))))
      case _ => Some(None)
  }

  /** ASCII file paths whose decoded root is ASCII take the corrected
      reader's branches and give its root. */
  lemma HistoryRootAsWrittenAgreesOnAscii(history: Result<string>, parse: string -> Option<Json>,
                                          urlDecode: string -> Option<string>)
    requires history.Ok? && parse(history.value).Some? && parse(history.value).value.Arr?
    requires var paths := FilterMap(parse(history.value).value.items, HistoryResource);
      |paths| > 0 && IsAscii(paths[0])
      && IsAscii(urlDecode(Cursor.RootOf(paths)).GetOr(Cursor.RootOf(paths)))
    ensures HistoryRootAsWritten(history, parse, urlDecode) == Some(HistoryRoot(history, parse, urlDecode))
  {
    var paths := FilterMap(parse(history.value).value.items, HistoryResource);
    Cursor.AsWrittenAgreesOnAscii(paths);
    var root := Cursor.RootOf(paths);
    WindowsPathAsWrittenAgreesOnAscii(urlDecode(root).GetOr(root));
  }

  /** A lone opened file under "/éab" makes the conversion's slice
      `&without_slash[1..2]` (resume.rs:374) panic, where the corrected
      reader gives "/éab". */
  lemma HistoryWideRootPanics(history: Result<string>, parse: string -> Option<Json>,
                              urlDecode: string -> Option<string>)
    requires history.Ok? && parse(history.value).Some? && parse(history.value).value.Arr?
    requires FilterMap(parse(history.value).value.items, HistoryResource) == ["/éab/x.txt"]
    requires urlDecode("/éab").GetOr("/éab") == "/éab"
    ensures HistoryRootAsWritten(history, parse, urlDecode).None?
    ensures HistoryRoot(history, parse, urlDecode) == Some("/éab")
  {
    var p := "/éab/x.txt";
    assert RFindChar(p, '/') == Some(4) by {
      assert p[4] == '/' && p[5] == 'x' && p[6] == '.' && p[7] == 't' && p[8] == 'x' && p[9] == 't';
    }
    assert p[..4] == "/éab";
    assert Cursor.CommonPrefix([p]) == "/éab";
    assert TrimEndChar("/éab", '/') == "/éab";
    WindowsPathAsWrittenPanics();
  }

  /** Files under "/éa" and "/éb" share the characters "/é", and the prefix
      slice `&first[..prefix_len]` (resume.rs:474) falls inside 'é'. */
  lemma HistorySharedPrefixPanics(history: Result<string>, parse: string -> Option<Json>,
                                  urlDecode: string -> Option<string>)
    requires history.Ok? && parse(history.value).Some? && parse(history.value).value.Arr?
    requires FilterMap(parse(history.value).value.items, HistoryResource) == ["/éa/x", "/éb/y"]
    ensures HistoryRootAsWritten(history, parse, urlDecode).None?
    ensures HistoryRoot(history, parse, urlDecode).Some?
  {
    var paths := ["/éa/x", "/éb/y"];
    var s := paths[0];
    assert paths[0][2] == 'a' && paths[1][2] == 'b';
    assert Cursor.AllAgreeAt(paths, 0) && Cursor.AllAgreeAt(paths, 1) && !Cursor.AllAgreeAt(paths, 2);
    assert Cursor.SharedFrom(paths, 2) == 2;
    assert Cursor.SharedLength(paths) == 2;
    assert s[..0] == "" && s[..1] == "/" && s[..2] == "/é";
    assert Utf8Len("/") == 1;
    assert Utf8Len("/é") == 3;
    Utf8LenMono(s, 2, |s|);
    assert forall k :: 2 <= k <= |s| ==> Utf8Len(s[..k]) >= 3 by {
      forall k | 2 <= k <= |s| ensures Utf8Len(s[..k]) >= 3 {
        Utf8LenMono(s, 2, k);
      }
    }
    assert !IsCharBoundary(s, 2);
  }

  /** The root from `workspace.folderUri`: its "path", converted without URL
      decoding. */
  function FolderUriRoot(folderUri: Result<string>, parse: string -> Option<Json>): Option<string> {
    if folderUri.Err? then None
    else
      match parse(folderUri.value)
      case Some(j) =>
        (match GetStr(j, "path")
         case Some(path) => Some(ToWindowsPath(path))
         case None => None)
      case None => None
  }

  /** The folder-URI root as written: the same conversion with the byte
      tests of resume.rs:408-410. `None` is its panic. */
  function FolderUriRootAsWritten(folderUri: Result<string>, parse: string -> Option<Json>): (r: Option<Option<string>>)
    ensures r.Some? ==> r.value == FolderUriRoot(folderUri, parse)
    ensures r.None? <==>
      FolderUriRoot(folderUri, parse).Some?
      && ToWindowsPathAsWritten(GetStr(parse(folderUri.value).value, "path").value).None?
  {
    if folderUri.Err? then Some(None)
    else
      match parse(folderUri.value)
      case Some(j) =>
        (match GetStr(j, "path")
         case Some(path) =>
           (match ToWindowsPathAsWritten(path)
            case Some(w) => Some(Some(w))
            case None => None)
         case None => Some(None))
      case None => Some(None)
  }

  function HomeFallback(home: Option<string>): (r: Result<string>)
    ensures r.Ok? <==> home.Some?
    ensures r.Ok? ==> r.value == home.value
    ensures r.Err? ==> r.error == NoWorkspaceDirectory
  {
    match home
    case Some(h) => Ok(h)
    case None => Err(NoWorkspaceDirectory)
  }

  /** The two values read from a workspace database. */
  datatype WorkspaceDb = WorkspaceDb(history: Result<string>, folder_uri: Result<string>)

  /** What the Cursor lookup asks of the outside world: which files exist,
      the workspace database once opened, URL decoding and the home
      directory. */
  datatype CursorWorld = CursorWorld(
    pathExists: string -> bool,
    workspaceDb: Result<WorkspaceDb>,
    urlDecode: string -> Option<string>,
    home: Option<string>)

  /** `get_cursor_session_cwd`: the history's root, else the folder URI's,
      else the home directory; the home directory also when the workspace
      has no database. */
  function CursorSessionCwd(composite: string, parse: string -> Option<Json>, world: CursorWorld): (r: Result<string>)
    ensures ParseCompositeId(composite).Err? ==> r == Err(ParseCompositeId(composite).error)
    ensures ParseCompositeId(composite).Ok? && CursorBase(ParseCompositeId(composite).value.db_path).None? ==>
      r == Err(BasePathFailure)
  {
    var ref :- ParseCompositeId(composite);
    match CursorBase(ref.db_path)
    case None => Err(BasePathFailure)
    case Some(base) =>
      var dbPath := WorkspaceDbPath(base, ref.workspace_id);
      if !world.pathExists(dbPath) then HomeFallback(world.home)
      else
        match world.workspaceDb
        case Err(e) => Err(WorkspaceOpenFailure + e)
        case Ok(db) => WorkspaceLookup(db, parse, world.urlDecode, world.home)
  }

  /** The lookup inside an opened workspace database: the history's root,
      else the folder URI's, else the home directory. */
  function WorkspaceLookup(db: WorkspaceDb, parse: string -> Option<Json>, urlDecode: string -> Option<string>,
                           home: Option<string>): (r: Result<string>)
    ensures HistoryRoot(db.history, parse, urlDecode).Some? ==> r == Ok(HistoryRoot(db.history, parse, urlDecode).value)
    ensures HistoryRoot(db.history, parse, urlDecode).None? && FolderUriRoot(db.folder_uri, parse).Some? ==>
      r == Ok(FolderUriRoot(db.folder_uri, parse).value)
    ensures HistoryRoot(db.history, parse, urlDecode).None? && FolderUriRoot(db.folder_uri, parse).None? ==>
      r == HomeFallback(home)
  {
    match HistoryRoot(db.history, parse, urlDecode)
    case Some(root) => Ok(root)
    case None =>
      match FolderUriRoot(db.folder_uri, parse)
      case Some(root) => Ok(root)
      case None => HomeFallback(home)
  }

  /** The workspace database that the lookup reaches. */
  predicate ReachesWorkspace(composite: string, world: CursorWorld) {
    var p := ParseCompositeId(composite);
    p.Ok? && CursorBase(p.value.db_path).Some? &&
    world.pathExists(WorkspaceDbPath(CursorBase(p.value.db_path).value, p.value.workspace_id)) &&
    world.workspaceDb.Ok?
  }

  /** Without a workspace database the home directory is the answer. */
  lemma MissingWorkspaceGivesHome(composite: string, parse: string -> Option<Json>, world: CursorWorld)
    requires ParseCompositeId(composite).Ok? && CursorBase(ParseCompositeId(composite).value.db_path).Some?
    requires !world.pathExists(WorkspaceDbPath(CursorBase(ParseCompositeId(composite).value.db_path).value,
                                               ParseCompositeId(composite).value.workspace_id))
    ensures CursorSessionCwd(composite, parse, world) == HomeFallback(world.home)
  {
  }

  /** The history decides first. */
  lemma HistoryRootWins(composite: string, parse: string -> Option<Json>, world: CursorWorld)
    requires ReachesWorkspace(composite, world)
    requires HistoryRoot(world.workspaceDb.value.history, parse, world.urlDecode).Some?
    ensures CursorSessionCwd(composite, parse, world) == Ok(HistoryRoot(world.workspaceDb.value.history, parse, world.urlDecode).value)
  {
  }

  /** A workspace database that exists but does not open is reported with
      the open error. */
  lemma WorkspaceOpenFailureReported(composite: string, parse: string -> Option<Json>, world: CursorWorld)
    requires ParseCompositeId(composite).Ok? && CursorBase(ParseCompositeId(composite).value.db_path).Some?
    requires world.pathExists(WorkspaceDbPath(CursorBase(ParseCompositeId(composite).value.db_path).value,
                                              ParseCompositeId(composite).value.workspace_id))
    requires world.workspaceDb.Err?
    ensures CursorSessionCwd(composite, parse, world) == Err(WorkspaceOpenFailure + world.workspaceDb.error)
  {
  }

  /** When neither the history nor the folder URI gives a root, the home
      directory is the answer, or the workspace-directory error without
      one. */
  lemma NoRootGivesHome(composite: string, parse: string -> Option<Json>, world: CursorWorld)
    requires ReachesWorkspace(composite, world)
    requires HistoryRoot(world.workspaceDb.value.history, parse, world.urlDecode).None?
    requires FolderUriRoot(world.workspaceDb.value.folder_uri, parse).None?
    ensures CursorSessionCwd(composite, parse, world) == HomeFallback(world.home)
    ensures world.home.None? ==> CursorSessionCwd(composite, parse, world) == Err(NoWorkspaceDirectory)
  {
  }

  /** Without a usable history the folder URI's path is taken as it is,
      however URL decoding would read it. */
  lemma FolderUriNotDecoded(composite: string, parse: string -> Option<Json>, world: CursorWorld)
    requires ReachesWorkspace(composite, world)
    requires HistoryRoot(world.workspaceDb.value.history, parse, world.urlDecode).None?
    requires FolderUriRoot(world.workspaceDb.value.folder_uri, parse).Some?
    ensures CursorSessionCwd(composite, parse, world) == Ok(FolderUriRoot(world.workspaceDb.value.folder_uri, parse).value)
    ensures forall decode: string -> Option<string> ::
      CursorSessionCwd(composite, parse, world.(urlDecode := decode)) == CursorSessionCwd(composite, parse, world)
  {
    forall decode: string -> Option<string>
      ensures CursorSessionCwd(composite, parse, world.(urlDecode := decode)) == CursorSessionCwd(composite, parse, world)
    {
      var w := world.(urlDecode := decode);
      assert HistoryRoot(w.workspaceDb.value.history, parse, decode).None? by {
        HistoryRootNeedsPaths(w.workspaceDb.value.history, parse, world.urlDecode, decode);
      }
    }
  }

  /** The history yields a root exactly when it parses as an array with at
      least one `file:///` resource; decoding plays no part in that. */
  lemma HistoryRootNeedsPaths(history: Result<string>, parse: string -> Option<Json>,
                              d1: string -> Option<string>, d2: string -> Option<string>)
    ensures HistoryRoot(history, parse, d1).Some? <==> HistoryRoot(history, parse, d2).Some?
    ensures HistoryRoot(history, parse, d1).Some? <==>
      history.Ok? && parse(history.value).Some? && parse(history.value).value.Arr?
      && exists i :: 0 <= i < |parse(history.value).value.items| && HistoryResource(parse(history.value).value.items[i]).Some?
  {
    if history.Ok? && parse(history.value).Some? && parse(history.value).value.Arr? {
      FilterMapEmpty(parse(history.value).value.items, HistoryResource);
    }
  }

  // ---------------------------------------------------------------- get_session_cwd

  /** `get_session_cwd`: Cursor ids go to the Cursor lookup; any other
      provider's session file is scanned line by line. */
  method GetSessionCwd(sessionFilePath: string, providerId: string, file: Result<seq<Result<string>>>,
                       parse: string -> Option<Json>, world: CursorWorld) returns (r: Result<string>)
    ensures providerId == "cursor" ==> r == CursorSessionCwd(sessionFilePath, parse, world)
    ensures providerId != "cursor" && file.Err? ==> r == Err(OpenFailure + file.error)
    ensures providerId != "cursor" && file.Ok? ==> r == CwdFromLines(file.value, parse)
  {
    if providerId == "cursor" {
      return CursorSessionCwd(sessionFilePath, parse, world);
    }
    if file.Err? {
      return Err(OpenFailure + file.error);
    }
    r := ScanSessionCwd(file.value, parse);
  }

  // ---------------------------------------------------------------- the debug prints as written

  /** `&s[..s.len().min(n)]` in a debug print: the whole string when it is
      short enough, else its first `n` bytes, or `None` where that cut falls
      inside a character and panics. */
  function LogHead(s: string, n: nat): (r: Option<string>)
    ensures r.None? <==> Utf8Len(s) > n && !IsCharBoundary(s, n)
    ensures r.Some? ==> StartsWith(s, r.value)
  {
    if Utf8Len(s) <= n then
      assert s[..|s|] == s;
      Some(s)
    else ByteSlice(s, n)
  }

  /** The lookup falls through to the folder URI, which was read. */
  predicate FolderUriPrinted(composite: string, parse: string -> Option<Json>, world: CursorWorld) {
    ReachesWorkspace(composite, world)
    && HistoryRoot(world.workspaceDb.value.history, parse, world.urlDecode).None?
    && world.workspaceDb.value.folder_uri.Ok?
  }

  /** The lookup inside the workspace database as written, with its panics
      (`None`): the history's prefix slice (resume.rs:474) or its conversion
      (resume.rs:372-374); then, on the way to the folder URI, the print of
      its JSON text cut at byte 200 (resume.rs:403) or the conversion of its
      path (resume.rs:408-410). */
  function WorkspaceLookupAsWritten(db: WorkspaceDb, parse: string -> Option<Json>,
                                    urlDecode: string -> Option<string>, home: Option<string>)
    : (r: Option<Result<string>>)
    ensures r.None? <==>
      || HistoryRootAsWritten(db.history, parse, urlDecode).None?
      || (&& HistoryRoot(db.history, parse, urlDecode).None? && db.folder_uri.Ok?
          && (LogHead(db.folder_uri.value, 200).None? || FolderUriRootAsWritten(db.folder_uri, parse).None?))
    ensures r.Some? && HistoryRoot(db.history, parse, urlDecode).Some? ==>
      r.value == Ok(HistoryRootAsWritten(db.history, parse, urlDecode).value.value)
    ensures r.Some? && HistoryRoot(db.history, parse, urlDecode).None? ==>
      r.value == WorkspaceLookup(db, parse, urlDecode, home)
  {
    match HistoryRootAsWritten(db.history, parse, urlDecode)
    case None => None
    case Some(Some(root)) => Some(Ok(root))
    case Some(None) =>
      if db.folder_uri.Ok? && LogHead(db.folder_uri.value, 200).None? then None
      else
        match FolderUriRootAsWritten(db.folder_uri, parse)
        case None => None
        case Some(Some(root)) => Some(Ok(root))
        case Some(None) => Some(HomeFallback(home))
  }

  /** `get_cursor_session_cwd` as written. The steps before the workspace
      database slice nothing and are the corrected lookup's; inside it, the
      lookup as written above. */
  function CursorSessionCwdAsWritten(composite: string, parse: string -> Option<Json>, world: CursorWorld)
    : (r: Option<Result<string>>)
    ensures !ReachesWorkspace(composite, world) ==> r == Some(CursorSessionCwd(composite, parse, world))
    ensures ReachesWorkspace(composite, world) ==>
      r == WorkspaceLookupAsWritten(world.workspaceDb.value, parse, world.urlDecode, world.home)
    ensures ReachesWorkspace(composite, world) ==>
      CursorSessionCwd(composite, parse, world) == WorkspaceLookup(world.workspaceDb.value, parse, world.urlDecode, world.home)
  {
    if !ReachesWorkspace(composite, world) then Some(CursorSessionCwd(composite, parse, world))
    else WorkspaceLookupAsWritten(world.workspaceDb.value, parse, world.urlDecode, world.home)
  }

  /** A folder URI whose path is "/éab" makes the conversion's slice
      `&without_slash[1..2]` (resume.rs:410) panic, where the corrected
      lookup answers "/éab". */
  lemma FolderUriWidePathPanics(db: WorkspaceDb, parse: string -> Option<Json>,
                                urlDecode: string -> Option<string>, home: Option<string>)
    requires HistoryRoot(db.history, parse, urlDecode).None?
    requires db.folder_uri.Ok? && Utf8Len(db.folder_uri.value) <= 200
    requires parse(db.folder_uri.value).Some?
    requires GetStr(parse(db.folder_uri.value).value, "path") == Some("/éab")
    ensures WorkspaceLookupAsWritten(db, parse, urlDecode, home).None?
    ensures WorkspaceLookup(db, parse, urlDecode, home) == Ok("/éab")
  {
    WindowsPathAsWrittenPanics();
    assert FolderUriRoot(db.folder_uri, parse) == Some("/éab");
  }

  /** A folder URI of 199 ASCII bytes followed by 'é' makes the print panic,
      whatever the URI holds. */
  lemma FolderUriLogPanics(composite: string, parse: string -> Option<Json>, world: CursorWorld, a: string, b: string)
    requires ReachesWorkspace(composite, world)
    requires HistoryRoot(world.workspaceDb.value.history, parse, world.urlDecode).None?
    requires world.workspaceDb.value.folder_uri == Ok(a + "é" + b) && IsAscii(a) && |a| == 199
    ensures CursorSessionCwdAsWritten(composite, parse, world).None?
  {
    WideAfterAscii(a, b);
  }

  /** `get_session_cwd` as written: its first line prints the session path
      cut at byte 100, which panics (`None`) when that byte falls inside a
      character; then the Cursor lookup as written, or the scan of the
      file. */
  function GetSessionCwdAsWritten(sessionFilePath: string, providerId: string, file: Result<seq<Result<string>>>,
                                  parse: string -> Option<Json>, world: CursorWorld)
    : (r: Option<Result<string>>)
    ensures LogHead(sessionFilePath, 100).None? ==> r.None?
    ensures LogHead(sessionFilePath, 100).Some? && providerId == "cursor" ==>
      r == CursorSessionCwdAsWritten(sessionFilePath, parse, world)
    ensures LogHead(sessionFilePath, 100).Some? && providerId != "cursor" && file.Err? ==>
      r == Some(Err(OpenFailure + file.error))
    ensures LogHead(sessionFilePath, 100).Some? && providerId != "cursor" && file.Ok? ==>
      r == Some(CwdFromLines(file.value, parse))
  {
    if LogHead(sessionFilePath, 100).None? then None
    else if providerId == "cursor" then CursorSessionCwdAsWritten(sessionFilePath, parse, world)
    else if file.Err? then Some(Err(OpenFailure + file.error))
    else Some(CwdFromLines(file.value, parse))
  }

  /** A session path of 99 ASCII bytes followed by 'é' makes the first print
      panic, for every provider and file. */
  lemma SessionPathLogPanics(a: string, b: string, providerId: string, file: Result<seq<Result<string>>>,
                             parse: string -> Option<Json>, world: CursorWorld)
    requires IsAscii(a) && |a| == 99
    ensures GetSessionCwdAsWritten(a + "é" + b, providerId, file, parse, world).None?
  {
    WideAfterAscii(a, b);
  }

  /** A path that is ASCII, or no longer than 100 bytes, is printed without
      panic, and then only the Cursor lookup can still panic. */
  lemma SessionPathLogSafe(sessionFilePath: string, providerId: string, file: Result<seq<Result<string>>>,
                           parse: string -> Option<Json>, world: CursorWorld)
    requires IsAscii(sessionFilePath) || Utf8Len(sessionFilePath) <= 100
    ensures LogHead(sessionFilePath, 100).Some?
    ensures providerId != "cursor" ==> GetSessionCwdAsWritten(sessionFilePath, providerId, file, parse, world).Some?
  {
    if Utf8Len(sessionFilePath) > 100 {
      Utf8LenAscii(sessionFilePath);
      ByteSliceAscii(sessionFilePath, 100);
    }
  }
}
