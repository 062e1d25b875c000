/** File activity: the reads, writes, edits and searches that tool calls in
    a conversation performed, the filters a viewer applies to them and the
    newest-first list they end up in. Loading sessions and Cursor
    databases is a parameter; time parsing is a parameter. */
module Files {
  import opened Base
  import opened Json
  import opened Strings
  import opened Seqs
  import opened Paths
  import opened Universal
  import M = Models
  import Session
  import ClaudeCode
  import Ordering
  import Resume

  datatype FileOperation = Read | Write | Edit | Glob | MultiEdit

  /** `format!("{:?}", op).to_lowercase()`. */
  function OperationName(op: FileOperation): (s: string)
    ensures Lower(s) == s
  {
    match op
    case Read => "read"
    case Write => "write"
    case Edit => "edit"
    case Glob => "glob"
    case MultiEdit => "multiedit"
  }

  datatype FileChange = FileChange(old_string: string, new_string: string, line_start: Option<nat>, line_end: Option<nat>)

  datatype FileActivity = FileActivity(
    file_path: string,
    operation: FileOperation,
    timestamp: string,
    session_id: string,
    project_id: string,
    message_id: string,
    tool_name: string,
    content_before: Option<string>,
    content_after: Option<string>,
    size_before: Option<nat>,
    size_after: Option<nat>,
    changes: Option<seq<FileChange>>,
    lines_added: Option<nat>,
    lines_removed: Option<nat>)

  datatype FileActivityFilters = FileActivityFilters(
    date_range: Option<seq<string>>,
    operations: Option<seq<string>>,
    file_extensions: Option<seq<string>>,
    search_query: Option<string>,
    session_id: Option<string>,
    projects: Option<seq<string>>)

  // ---------------------------------------------------------------- one tool call

  /** `tool_call.input.get(key)?.as_str()`. */
  function InputStr(call: ToolCall, key: string): Option<string> {
    if key in call.input && call.input[key].Str? then Some(call.input[key].s) else None
  }

  /** A string field of one of the output's entries. */
  function OutputStrIn(call: ToolCall, entry: string, key: string): Option<string> {
    match call.output
    case Some(out) => if entry in out then GetStr(out[entry], key) else None
    case None => None
  }

  function OutputStr(call: ToolCall, key: string): Option<string> {
    match call.output
    case Some(out) => if key in out && out[key].Str? then Some(out[key].s) else None
    case None => None
  }

  /** The activity of a message's call, with only the path, the operation
      and the tool set. */
  function Blank(path: string, op: FileOperation, tool: string, msg: UniversalMessage, project: string): FileActivity {
    FileActivity(path, op, msg.timestamp, msg.session_id, project, msg.id, tool,
                 None, None, None, None, None, None, None)
  }

  function SizeOf(content: Option<string>): Option<nat> {
    match content
    case Some(c) => Some(Utf8Len(c))
    case None => None
  }

  /** `extract_read_activity`: the file's content is the output's
      `file.content`, and its size that content's byte length. */
  function ReadActivity(call: ToolCall, msg: UniversalMessage, project: string): (r: Option<FileActivity>)
    ensures r.Some? <==> InputStr(call, "file_path").Some?
    ensures r.Some? ==> r.value.file_path == InputStr(call, "file_path").value && r.value.operation == Read
    ensures r.Some? ==> r.value.content_after == OutputStrIn(call, "file", "content")
    ensures r.Some? && r.value.content_after.Some? ==> r.value.size_after == Some(Utf8Len(r.value.content_after.value))
    ensures r.Some? && r.value.content_after.None? ==> r.value.size_after.None?
  {
    var path :- InputStr(call, "file_path");
    var content := OutputStrIn(call, "file", "content");
    Some(Blank(path, Read, "Read", msg, project).(content_after := content, size_after := SizeOf(content)))
  }

  /** `extract_write_activity`: `content` must be present; only a string one
      becomes the content written. */
  function WriteActivity(call: ToolCall, msg: UniversalMessage, project: string): (r: Option<FileActivity>)
    ensures r.Some? <==> InputStr(call, "file_path").Some? && "content" in call.input
    ensures r.Some? ==> r.value.operation == Write && r.value.content_after == InputStr(call, "content")
    ensures r.Some? ==> r.value.size_after == SizeOf(InputStr(call, "content"))
  {
    var path :- InputStr(call, "file_path");
    if "content" !in call.input then None
    else
      var content := InputStr(call, "content");
      Some(Blank(path, Write, "Write", msg, project).(content_after := content, size_after := SizeOf(content)))
  }

  /** The positive difference of the line counts, as added or as removed
      lines; neither when they are equal. */
  function LineDelta(before: string, after: string): (r: (Option<nat>, Option<nat>))
    ensures r.0.Some? ==> r.0.value > 0
    ensures r.1.Some? ==> r.1.value > 0
    ensures !(r.0.Some? && r.1.Some?)
    ensures r.0.None? && r.1.None? <==> LineCount(before) == LineCount(after)
    ensures r.0.GetOr(0) as int - r.1.GetOr(0) as int == LineCount(after) as int - LineCount(before) as int
  {
    var o, n := LineCount(before), LineCount(after);
    if n > o then (Some(n - o), None)
    else if o > n then (None, Some(o - n))
    else (None, None)
  }

  /** `extract_edit_activity`: one change, the line delta of its two strings
      and the original file from the output. */
  function EditActivity(call: ToolCall, msg: UniversalMessage, project: string): (r: Option<FileActivity>)
    ensures r.Some? <==> InputStr(call, "file_path").Some? && InputStr(call, "old_string").Some? && InputStr(call, "new_string").Some?
    ensures r.Some? ==> r.value.operation == Edit && r.value.content_before == OutputStr(call, "originalFile")
    ensures r.Some? ==> r.value.changes == Some([FileChange(InputStr(call, "old_string").value, InputStr(call, "new_string").value, None, None)])
    ensures r.Some? ==>
      (r.value.lines_added, r.value.lines_removed) == LineDelta(InputStr(call, "old_string").value, InputStr(call, "new_string").value)
  {
    var path :- InputStr(call, "file_path");
    var before :- InputStr(call, "old_string");
    var after :- InputStr(call, "new_string");
    var delta := LineDelta(before, after);
    Some(Blank(path, Edit, "Edit", msg, project).(
      content_before := OutputStr(call, "originalFile"),
      changes := Some([FileChange(before, after, None, None)]),
      lines_added := delta.0,
      lines_removed := delta.1))
  }

  /** The number of file names the search returned. */
  function GlobCount(call: ToolCall): nat {
    match call.output
    case Some(out) => if "filenames" in out && out["filenames"].Arr? then |out["filenames"].items| else 0
    case None => 0
  }

  /** `extract_glob_activity`: one activity for the whole search, its path
      being the pattern. */
  function GlobActivity(call: ToolCall, msg: UniversalMessage, project: string): (r: Option<FileActivity>)
    ensures r.Some? <==> InputStr(call, "pattern").Some?
    ensures r.Some? ==> r.value.file_path == InputStr(call, "pattern").value && r.value.operation == Glob
    ensures r.Some? ==> r.value.size_after == Some(GlobCount(call))
    ensures r.Some? ==> r.value.content_after == Some("Found " + NatToString(GlobCount(call)) + " files")
  {
    var pattern :- InputStr(call, "pattern");
    var n := GlobCount(call);
    Some(Blank(pattern, Glob, "Glob", msg, project).(content_after := Some("Found " + NatToString(n) + " files"), size_after := Some(n)))
  }

  /** An edit with both strings. */
  function EditPair(edit: Json): Option<FileChange> {
    match (GetStr(edit, "old_string"), GetStr(edit, "new_string"))
    case (Some(o), Some(n)) => Some(FileChange(o, n, None, None))
    case _ => None
  }

  function AddedBy(c: FileChange): nat {
    if LineCount(c.new_string) > LineCount(c.old_string) then LineCount(c.new_string) - LineCount(c.old_string) else 0
  }

  function RemovedBy(c: FileChange): nat {
    if LineCount(c.old_string) > LineCount(c.new_string) then LineCount(c.old_string) - LineCount(c.new_string) else 0
  }

  function SumAdded(cs: seq<FileChange>): nat {
    if |cs| == 0 then 0 else SumAdded(cs[..|cs| - 1]) + AddedBy(cs[|cs| - 1])
  }

  function SumRemoved(cs: seq<FileChange>): nat {
    if |cs| == 0 then 0 else SumRemoved(cs[..|cs| - 1]) + RemovedBy(cs[|cs| - 1])
  }

  /** How many lines the changes add, net. */
  function NetLines(cs: seq<FileChange>): int {
    if |cs| == 0 then 0
    else NetLines(cs[..|cs| - 1]) + (LineCount(cs[|cs| - 1].new_string) as int - LineCount(cs[|cs| - 1].old_string) as int)
  }

  /** The two totals balance to the net change in line count. */
  lemma {:induction false} TotalsBalance(cs: seq<FileChange>)
    ensures SumAdded(cs) as int - SumRemoved(cs) as int == NetLines(cs)
    decreases |cs|
  {
    if |cs| > 0 {
      TotalsBalance(cs[..|cs| - 1]);
    }
  }

  lemma SumsSnoc(cs: seq<FileChange>, c: FileChange)
    ensures SumAdded(cs + [c]) == SumAdded(cs) + AddedBy(c)
    ensures SumRemoved(cs + [c]) == SumRemoved(cs) + RemovedBy(c)
  {
    assert (cs + [c])[..|cs|] == cs;
  }

  /** The loop of `extract_multiedit_activity` over the edits: an edit with
      both strings adds its positive line difference to one of the totals. */
  method MultiEditTotals(edits: seq<Json>) returns (changes: seq<FileChange>, added: nat, removed: nat)
    ensures changes == FilterMap(edits, EditPair)
    ensures added == SumAdded(changes) && removed == SumRemoved(changes)
  {
    changes, added, removed := [], 0, 0;
    var i := 0;
    while i < |edits|
      invariant 0 <= i <= |edits|
      invariant changes == FilterMap(edits[..i], EditPair)
      invariant added == SumAdded(changes) && removed == SumRemoved(changes)
    {
      assert edits[..i + 1][..i] == edits[..i];
      var change := EditPair(edits[i]);
      if change.Some? {
        var c := change.value;
        SumsSnoc(changes, c);
        added := added + AddedBy(c);
        removed := removed + RemovedBy(c);
        changes := changes + [c];
      }
      i := i + 1;
    }
    assert edits[..i] == edits;
  }

  function Positive(n: nat): Option<nat> {
    if n > 0 then Some(n) else None
  }

  /** What `extract_multiedit_activity` builds from the valid edits. */
  function MultiEditOf(path: string, edits: seq<Json>, msg: UniversalMessage, project: string): FileActivity {
    var cs := FilterMap(edits, EditPair);
    Blank(path, MultiEdit, "MultiEdit", msg, project).(
      changes := Some(cs),
      lines_added := Positive(SumAdded(cs)),
      lines_removed := Positive(SumRemoved(cs)))
  }

  function EditsOf(call: ToolCall): Option<seq<Json>> {
    if "edits" in call.input && call.input["edits"].Arr? then Some(call.input["edits"].items) else None
  }

  /** `extract_multiedit_activity`. */
  method MultiEditActivity(call: ToolCall, msg: UniversalMessage, project: string) returns (r: Option<FileActivity>)
    ensures r.Some? <==> InputStr(call, "file_path").Some? && EditsOf(call).Some?
    ensures r.Some? ==> r.value == MultiEditOf(InputStr(call, "file_path").value, EditsOf(call).value, msg, project)
  {
    var path := InputStr(call, "file_path");
    if path.None? {
      return None;
    }
    var edits := EditsOf(call);
    if edits.None? {
      return None;
    }
    var changes, added, removed := MultiEditTotals(edits.value);
    r := Some(Blank(path.value, MultiEdit, "MultiEdit", msg, project).(
      changes := Some(changes),
      lines_added := if added > 0 then Some(added) else None,
      lines_removed := if removed > 0 then Some(removed) else None));
  }

  /** A multi-edit reports its added and removed totals separately, each
      only when positive, and they balance to the net line change of the
      edits that carried both strings. */
  lemma MultiEditTotalsMeaning(path: string, edits: seq<Json>, msg: UniversalMessage, project: string)
    ensures var a := MultiEditOf(path, edits, msg, project); var cs := FilterMap(edits, EditPair);
      && a.changes == Some(cs)
      && (a.lines_added.Some? ==> a.lines_added.value > 0)
      && (a.lines_removed.Some? ==> a.lines_removed.value > 0)
      && a.lines_added.GetOr(0) as int - a.lines_removed.GetOr(0) as int == NetLines(cs)
  {
    TotalsBalance(FilterMap(edits, EditPair));
  }

  /** `extract_file_activity_from_tool`: only the five file tools count. */
  method ExtractFileActivity(call: ToolCall, msg: UniversalMessage, project: string) returns (r: Option<FileActivity>)
    ensures r.Some? ==> call.name in {"Read", "Write", "Edit", "Glob", "MultiEdit"}
    ensures call.name == "Read" ==> r == ReadActivity(call, msg, project)
    ensures call.name == "Write" ==> r == WriteActivity(call, msg, project)
    ensures call.name == "Edit" ==> r == EditActivity(call, msg, project)
    ensures call.name == "Glob" ==> r == GlobActivity(call, msg, project)
    ensures call.name == "MultiEdit" ==>
      r == (if InputStr(call, "file_path").Some? && EditsOf(call).Some?
            then Some(MultiEditOf(InputStr(call, "file_path").value, EditsOf(call).value, msg, project)) else None)
  {
    match call.name {
      case "Read" => r := ReadActivity(call, msg, project);
      case "Write" => r := WriteActivity(call, msg, project);
      case "Edit" => r := EditActivity(call, msg, project);
      case "Glob" => r := GlobActivity(call, msg, project);
      case "MultiEdit" => r := MultiEditActivity(call, msg, project);
      case _ => r := None;
    }
  }

  /** The activity of a call, as a value: the five tools and nothing else. */
  function ActivityOf(call: ToolCall, msg: UniversalMessage, project: string): (r: Option<FileActivity>)
    ensures r.Some? ==> r.value.tool_name == call.name && Lower(call.name) == OperationName(r.value.operation)
    ensures r.Some? ==> r.value.timestamp == msg.timestamp && r.value.session_id == msg.session_id
    ensures r.Some? ==> r.value.message_id == msg.id && r.value.project_id == project
  {
    match call.name
    case "Read" => ReadActivity(call, msg, project)
    case "Write" => WriteActivity(call, msg, project)
    case "Edit" => EditActivity(call, msg, project)
    case "Glob" => GlobActivity(call, msg, project)
    case "MultiEdit" =>
      if InputStr(call, "file_path").Some? && EditsOf(call).Some?
      then Some(MultiEditOf(InputStr(call, "file_path").value, EditsOf(call).value, msg, project)) else None
    case _ => None
  }

  // ---------------------------------------------------------------- filters

  /** `split('.').last()`: the text after the last '.', or the whole path. */
  function ExtensionOf(path: string): (e: string)
    ensures '.' !in e && |e| <= |path| && path[|path| - |e|..] == e
    ensures e == path || path[|path| - |e| - 1] == '.'
  {
    match RFindChar(path, '.')
    case Some(i) => path[i + 1..]
    case None => path
  }

  /** The date filter: it applies only to two bounds that parse, and to an
      activity time that parses; the bounds are inclusive. */
  predicate InDateRange(a: FileActivity, f: FileActivityFilters, parseTime: string -> Option<int>) {
    match f.date_range
    case Some(range) =>
      if |range| == 2 && parseTime(range[0]).Some? && parseTime(range[1]).Some? && parseTime(a.timestamp).Some? then
        parseTime(range[0]).value <= parseTime(a.timestamp).value <= parseTime(range[1]).value
      else true
    case None => true
  }

  predicate OperationMatches(a: FileActivity, f: FileActivityFilters) {
    f.operations.None? || exists o :: o in f.operations.value && Lower(o) == OperationName(a.operation)
  }

  predicate ExtensionMatches(a: FileActivity, f: FileActivityFilters) {
    f.file_extensions.None? || exists e :: e in f.file_extensions.value && Lower(e) == Lower(ExtensionOf(a.file_path))
  }

  predicate QueryMatches(a: FileActivity, f: FileActivityFilters) {
    f.search_query.None? || Contains(Lower(a.file_path), Lower(f.search_query.value))
  }

  predicate SessionMatches(a: FileActivity, f: FileActivityFilters) {
    f.session_id.None? || a.session_id == f.session_id.value
  }

  predicate ProjectMatches(a: FileActivity, f: FileActivityFilters) {
    f.projects.None? || |f.projects.value| == 0 || a.project_id in f.projects.value
  }

  /** `iter().any(|o| o.to_lowercase() == target)`. */
  method AnyLowered(xs: seq<string>, target: string) returns (found: bool)
    ensures found <==> exists x :: x in xs && Lower(x) == target
  {
    found := false;
    var i := 0;
    while i < |xs| && !found
      invariant 0 <= i <= |xs|
      invariant found <==> exists k :: 0 <= k < i && Lower(xs[k]) == target
    {
      found := Lower(xs[i]) == target;
      i := i + 1;
    }
    if found {
      var k :| 0 <= k < i && Lower(xs[k]) == target;
      assert xs[k] in xs;
    } else {
      forall x | x in xs
        ensures Lower(x) != target
      {
        var k :| 0 <= k < |xs| && xs[k] == x;
      }
    }
  }

  /** `should_include_activity`: the filters in turn, the first that fails
      excluding the activity. */
  method ShouldIncludeActivity(a: FileActivity, f: FileActivityFilters, parseTime: string -> Option<int>) returns (keep: bool)
    ensures keep == Included(a, f, parseTime)
  {
    if !InDateRange(a, f, parseTime) {
      return false;
    }
    if f.operations.Some? {
      var found := AnyLowered(f.operations.value, OperationName(a.operation));
      if !found {
        return false;
      }
    }
    if f.file_extensions.Some? {
      var found := AnyLowered(f.file_extensions.value, Lower(ExtensionOf(a.file_path)));
      if !found {
        return false;
      }
    }
    if f.search_query.Some? && !Contains(Lower(a.file_path), Lower(f.search_query.value)) {
      return false;
    }
    if f.session_id.Some? && a.session_id != f.session_id.value {
      return false;
    }
    if f.projects.Some? && |f.projects.value| > 0 && a.project_id !in f.projects.value {
      return false;
    }
    keep := true;
  }

  /** The conjunction of every filter that is present. */
  predicate Included(a: FileActivity, f: FileActivityFilters, parseTime: string -> Option<int>) {
    && InDateRange(a, f, parseTime)
    && OperationMatches(a, f)
    && ExtensionMatches(a, f)
    && QueryMatches(a, f)
    && SessionMatches(a, f)
    && ProjectMatches(a, f)
  }

  const NoFilters := FileActivityFilters(None, None, None, None, None, None)

  /** With no filter every activity is kept. */
  lemma NoFiltersKeepAll(a: FileActivity, parseTime: string -> Option<int>)
    ensures Included(a, NoFilters, parseTime)
  {
  }

  /** An operation filter keeps exactly the operations it names, in any
      case. */
  lemma OperationFilterExact(a: FileActivity, ops: seq<string>, parseTime: string -> Option<int>)
    ensures Included(a, NoFilters.(operations := Some(ops)), parseTime) <==>
      exists o :: o in ops && Lower(o) == OperationName(a.operation)
  {
  }

  /** A date range keeps a parsed activity time only between its bounds,
      both included. */
  lemma DateFilterInclusive(a: FileActivity, start: string, end: string, parseTime: string -> Option<int>)
    requires parseTime(start).Some? && parseTime(end).Some? && parseTime(a.timestamp).Some?
    ensures Included(a, NoFilters.(date_range := Some([start, end])), parseTime) <==>
      parseTime(start).value <= parseTime(a.timestamp).value <= parseTime(end).value
  {
    assert [start, end][0] == start && [start, end][1] == end;
  }

  // ---------------------------------------------------------------- gathering

  /** The messages of one loaded session and the project name it reports. */
  datatype LoadedSession = LoadedSession(project_name: string, messages: seq<UniversalMessage>)

  function CallsActivities(calls: seq<ToolCall>, msg: UniversalMessage, project: string,
                           f: FileActivityFilters, parseTime: string -> Option<int>): seq<FileActivity> {
    if |calls| == 0 then []
    else
      CallsActivities(calls[..|calls| - 1], msg, project, f, parseTime) +
      (match ActivityOf(calls[|calls| - 1], msg, project)
       case Some(a) => if Included(a, f, parseTime) then [a] else []
       case None => [])
  }

  function MessagesActivities(ms: seq<UniversalMessage>, project: string,
                              f: FileActivityFilters, parseTime: string -> Option<int>): seq<FileActivity> {
    if |ms| == 0 then []
    else
      var m := ms[|ms| - 1];
      MessagesActivities(ms[..|ms| - 1], project, f, parseTime) +
      (if m.tool_calls.Some? then CallsActivities(m.tool_calls.value, m, project, f, parseTime) else [])
  }

  /** Every activity of every tool call of every message, in order, that
      the filters keep. */
  function Activities(sessions: seq<LoadedSession>, f: FileActivityFilters, parseTime: string -> Option<int>): seq<FileActivity> {
    if |sessions| == 0 then []
    else
      var s := sessions[|sessions| - 1];
      Activities(sessions[..|sessions| - 1], f, parseTime) + MessagesActivities(s.messages, s.project_name, f, parseTime)
  }

  /** The innermost loop of `get_file_activities`, over one message's calls. */
  method CollectCallActivities(calls: seq<ToolCall>, msg: UniversalMessage, project: string,
                               f: FileActivityFilters, parseTime: string -> Option<int>)
    returns (acts: seq<FileActivity>)
    ensures acts == CallsActivities(calls, msg, project, f, parseTime)
  {
    acts := [];
    var k := 0;
    while k < |calls|
      invariant 0 <= k <= |calls|
      invariant acts == CallsActivities(calls[..k], msg, project, f, parseTime)
    {
      assert calls[..k + 1][..k] == calls[..k];
      var a := ExtractFileActivity(calls[k], msg, project);
      assert a == ActivityOf(calls[k], msg, project);
      if a.Some? {
        var keep := ShouldIncludeActivity(a.value, f, parseTime);
        if keep {
          acts := acts + [a.value];
        }
      }
      k := k + 1;
    }
    assert calls[..k] == calls;
  }

  /** The loop over one session's messages. */
  method CollectMessageActivities(ms: seq<UniversalMessage>, project: string,
                                  f: FileActivityFilters, parseTime: string -> Option<int>)
    returns (acts: seq<FileActivity>)
    ensures acts == MessagesActivities(ms, project, f, parseTime)
  {
    acts := [];
    var j := 0;
    while j < |ms|
      invariant 0 <= j <= |ms|
      invariant acts == MessagesActivities(ms[..j], project, f, parseTime)
    {
      assert ms[..j + 1][..j] == ms[..j];
      if ms[j].tool_calls.Some? {
        var more := CollectCallActivities(ms[j].tool_calls.value, ms[j], project, f, parseTime);
        acts := acts + more;
      }
      j := j + 1;
    }
    assert ms[..j] == ms;
  }

  /** The loops of `get_file_activities` over sessions, messages and calls. */
  method CollectActivities(sessions: seq<LoadedSession>, f: FileActivityFilters, parseTime: string -> Option<int>)
    returns (acts: seq<FileActivity>)
    ensures acts == Activities(sessions, f, parseTime)
  {
    acts := [];
    var i := 0;
    while i < |sessions|
      invariant 0 <= i <= |sessions|
      invariant acts == Activities(sessions[..i], f, parseTime)
    {
      assert sessions[..i + 1][..i] == sessions[..i];
      var more := CollectMessageActivities(sessions[i].messages, sessions[i].project_name, f, parseTime);
      acts := acts + more;
      i := i + 1;
    }
    assert sessions[..i] == sessions;
  }

  lemma {:induction false} CallsActivitiesKept(calls: seq<ToolCall>, msg: UniversalMessage, project: string,
                                              f: FileActivityFilters, parseTime: string -> Option<int>)
    ensures forall a :: a in CallsActivities(calls, msg, project, f, parseTime) ==>
      Included(a, f, parseTime) && a.timestamp == msg.timestamp && a.project_id == project &&
      a.tool_name in {"Read", "Write", "Edit", "Glob", "MultiEdit"}
    decreases |calls|
  {
    if |calls| > 0 {
      CallsActivitiesKept(calls[..|calls| - 1], msg, project, f, parseTime);
    }
  }

  lemma {:induction false} MessagesActivitiesKept(ms: seq<UniversalMessage>, project: string,
                                                 f: FileActivityFilters, parseTime: string -> Option<int>)
    ensures forall a :: a in MessagesActivities(ms, project, f, parseTime) ==>
      Included(a, f, parseTime) && a.project_id == project && a.tool_name in {"Read", "Write", "Edit", "Glob", "MultiEdit"}
    decreases |ms|
  {
    if |ms| > 0 {
      var m := ms[|ms| - 1];
      MessagesActivitiesKept(ms[..|ms| - 1], project, f, parseTime);
      if m.tool_calls.Some? {
        CallsActivitiesKept(m.tool_calls.value, m, project, f, parseTime);
      }
    }
  }

  /** Every gathered activity passes every filter and comes from one of
      the five file tools. */
  lemma {:induction false} ActivitiesKept(sessions: seq<LoadedSession>, f: FileActivityFilters, parseTime: string -> Option<int>)
    ensures forall a :: a in Activities(sessions, f, parseTime) ==>
      Included(a, f, parseTime) && a.tool_name in {"Read", "Write", "Edit", "Glob", "MultiEdit"}
    decreases |sessions|
  {
    if |sessions| > 0 {
      var s := sessions[|sessions| - 1];
      ActivitiesKept(sessions[..|sessions| - 1], f, parseTime);
      MessagesActivitiesKept(s.messages, s.project_name, f, parseTime);
    }
  }

  // ---------------------------------------------------------------- the command

  /** Where the activities are read from. */
  datatype Scope =
    | AllProjects(source_path: string)
    | CursorWorkspace(cursor_base: string, workspace_path: string)
    | ClaudeProject(project_path: string)

  const ProjectPathNotAbsolute := "FILES_INVALID_ARGUMENT: project_path must be absolute"
  const SourcePathNotAbsolute := "FILES_INVALID_ARGUMENT: source_path must be absolute"
  const SourcePathRequired := "FILES_INVALID_ARGUMENT: Source path required for loading all projects"
  const InvalidCursorWorkspace := "FILES_CURSOR_INVALID_WORKSPACE_PATH: Invalid Cursor workspace path"

  /** `Path::is_absolute` on Unix. */
  predicate IsAbsolute(p: string) { |p| > 0 && p[0] == '/' }

  predicate IsAllProjects(projectPath: string) { projectPath == "" || projectPath == "*" }

  predicate HasComponentNamed(cs: seq<Component>, lowered: string) {
    exists i :: 0 <= i < |cs| && cs[i].Normal? && Lower(cs[i].name) == lowered
  }

  /** A path with both a "cursor" and a "workspaceStorage" component, in any
      ASCII case. */
  predicate IsCursorWorkspacePath(p: string) {
    HasComponentNamed(Components(p), "cursor") && HasComponentNamed(Components(p), "workspacestorage")
  }

  /** A project path given as an absolute path (not the all-projects form),
      with a source path, if any, that is absolute too. */
  predicate ArgumentsValid(projectPath: string, sourcePath: Option<string>) {
    IsAbsolute(projectPath) && (sourcePath.None? || IsAbsolute(sourcePath.value))
  }

  /** The argument checks and the choice of source. */
  function ScopeOf(projectPath: string, sourcePath: Option<string>): (r: Result<Scope>)
    ensures !IsAllProjects(projectPath) && !IsAbsolute(projectPath) ==> r == Err(ProjectPathNotAbsolute)
    ensures (IsAllProjects(projectPath) || IsAbsolute(projectPath)) && sourcePath.Some? && !IsAbsolute(sourcePath.value) ==>
      r == Err(SourcePathNotAbsolute)
    ensures r.Ok? && r.value.AllProjects? <==> IsAllProjects(projectPath) && sourcePath.Some? && IsAbsolute(sourcePath.value)
    ensures r.Ok? && r.value.AllProjects? ==> r.value.source_path == sourcePath.value
    ensures r.Ok? && r.value.CursorWorkspace? ==>
      IsCursorWorkspacePath(projectPath) && Resume.CursorBase(projectPath) == Some(r.value.cursor_base)
    ensures r.Ok? && r.value.CursorWorkspace? ==> r.value.workspace_path == projectPath
    ensures r.Ok? && r.value.ClaudeProject? ==>
      IsAbsolute(projectPath) && !IsCursorWorkspacePath(projectPath) && r.value.project_path == projectPath
    ensures IsAllProjects(projectPath) && sourcePath.None? ==> r == Err(SourcePathRequired)
    ensures ArgumentsValid(projectPath, sourcePath) && IsCursorWorkspacePath(projectPath) ==>
      r == match Resume.CursorBase(projectPath)
           case Some(base) => Ok(CursorWorkspace(base, projectPath))
           case None => Err(InvalidCursorWorkspace)
    ensures ArgumentsValid(projectPath, sourcePath) && !IsCursorWorkspacePath(projectPath) ==>
      r == Ok(ClaudeProject(projectPath))
  {
    if !IsAllProjects(projectPath) && !IsAbsolute(projectPath) then Err(ProjectPathNotAbsolute)
    else if sourcePath.Some? && !IsAbsolute(sourcePath.value) then Err(SourcePathNotAbsolute)
    else if IsAllProjects(projectPath) then
      match sourcePath
      case Some(sp) => Ok(AllProjects(sp))
      case None => Err(SourcePathRequired)
    else if IsCursorWorkspacePath(projectPath) then
      match Resume.CursorBase(projectPath)
      case Some(base) => Ok(CursorWorkspace(base, projectPath))
      case None => Err(InvalidCursorWorkspace)
    else Ok(ClaudeProject(projectPath))
  }

  /** Every path of the all-projects form needs a source path. */
  lemma AllProjectsNeedsSource(projectPath: string)
    requires IsAllProjects(projectPath)
    ensures ScopeOf(projectPath, None) == Err(SourcePathRequired)
  {
  }

  /** `get_file_activities`: the gathered activities, newest first; loading
      the sessions of a scope is a parameter. */
  method GetFileActivities(projectPath: string, sourcePath: Option<string>, filters: FileActivityFilters,
                           load: Scope -> Result<seq<LoadedSession>>, parseTime: string -> Option<int>)
    returns (r: Result<seq<FileActivity>>)
    ensures ScopeOf(projectPath, sourcePath).Err? ==> r == Err(ScopeOf(projectPath, sourcePath).error)
    ensures ScopeOf(projectPath, sourcePath).Ok? && load(ScopeOf(projectPath, sourcePath).value).Err? ==>
      r == Err(load(ScopeOf(projectPath, sourcePath).value).error)
    ensures ScopeOf(projectPath, sourcePath).Ok? && load(ScopeOf(projectPath, sourcePath).value).Ok? ==>
      r == Ok(Ordering.SortNewestFirst(Activities(load(ScopeOf(projectPath, sourcePath).value).value, filters, parseTime),
                                       (a: FileActivity) => a.timestamp))
  {
    var scope := ScopeOf(projectPath, sourcePath);
    if scope.Err? {
      return Err(scope.error);
    }
    var sessions := load(scope.value);
    if sessions.Err? {
      return Err(sessions.error);
    }
    var acts := CollectActivities(sessions.value, filters, parseTime);
    r := Ok(Ordering.SortNewestFirst(acts, (a: FileActivity) => a.timestamp));
  }

  /** The returned list is newest first, and holds exactly the gathered
      activities. */
  lemma ResultNewestFirstAndKept(sessions: seq<LoadedSession>, f: FileActivityFilters, parseTime: string -> Option<int>)
    ensures var r := Ordering.SortNewestFirst(Activities(sessions, f, parseTime), (a: FileActivity) => a.timestamp);
      && multiset(r) == multiset(Activities(sessions, f, parseTime))
      && (forall i, j :: 0 <= i < j < |r| ==> !LexLess(r[i].timestamp, r[j].timestamp))
      && (forall a :: a in r ==> Included(a, f, parseTime))
  {
    var acts := Activities(sessions, f, parseTime);
    var r := Ordering.SortNewestFirst(acts, (a: FileActivity) => a.timestamp);
    ActivitiesKept(sessions, f, parseTime);
    forall a | a in r
      ensures Included(a, f, parseTime)
    {
      assert a in multiset(r);
      assert a in multiset(acts);
    }
  }

  // ---------------------------------------------------------------- loading for activities

  /** A decoded line that the activity loader converts: every one except
      summaries, whether or not it has a session id or timestamp. */
  predicate ForFiles(l: Session.Line) { l.Some? && !Session.IsSummary(l.value) }

  /** Decoded token counts are 32-bit. */
  predicate DecodedUsage(l: Session.Line) {
    l.Some? && l.value.message.Some? && l.value.message.value.usage.Some? ==> M.ValidUsage(l.value.message.value.usage.value)
  }

  /** The id of a line without a uuid: a fresh id and its line number. */
  function LineId(freshId: nat -> string, i: nat): string {
    freshId(i) + "-line-" + NatToString(i + 1)
  }

  function LineMessage(lines: seq<Session.Line>, i: nat, freshId: nat -> string, now: string): M.ClaudeMessage
    requires i < |lines| && lines[i].Some?
  {
    Session.ToMessage(lines[i].value, LineId(freshId, i), now)
  }

  /** What the activity loader keeps of a converted message. */
  predicate ConvertedFrom(u: UniversalMessage, msg: M.ClaudeMessage, projectId: string, sourceId: string) {
    && u.id == msg.uuid && u.session_id == msg.session_id && u.timestamp == msg.timestamp
    && u.tool_calls == ClaudeCode.ToolCallsOf(msg)
    && u.project_id == projectId && u.source_id == sourceId && u.sequence_number == 0
  }

  /** The messages are the conversions of the converted lines below `n`,
      in order. */
  predicate ConvertedLines(ms: seq<UniversalMessage>, lines: seq<Session.Line>, n: nat, freshId: nat -> string, now: string,
                           projectId: string, sourceId: string)
    requires n <= |lines|
  {
    var ks := IndicesWhere(lines, ForFiles, n);
    |ms| == |ks| && forall k :: 0 <= k < |ks| ==> ConvertedFrom(ms[k], LineMessage(lines, ks[k], freshId, now), projectId, sourceId)
  }

  lemma ConvertedLinesStep(ms: seq<UniversalMessage>, lines: seq<Session.Line>, i: nat, u: UniversalMessage,
                            freshId: nat -> string, now: string, projectId: string, sourceId: string)
    requires i < |lines| && ForFiles(lines[i]) && ConvertedLines(ms, lines, i, freshId, now, projectId, sourceId)
    requires ConvertedFrom(u, LineMessage(lines, i, freshId, now), projectId, sourceId)
    ensures ConvertedLines(ms + [u], lines, i + 1, freshId, now, projectId, sourceId)
  {
    var ks := IndicesWhere(lines, ForFiles, i);
    assert IndicesWhere(lines, ForFiles, i + 1) == ks + [i];
    assert forall k :: 0 <= k < |ks| ==> (ms + [u])[k] == ms[k];
  }

  lemma ConvertedLinesSkip(ms: seq<UniversalMessage>, lines: seq<Session.Line>, i: nat,
                            freshId: nat -> string, now: string, projectId: string, sourceId: string)
    requires i < |lines| && !ForFiles(lines[i]) && ConvertedLines(ms, lines, i, freshId, now, projectId, sourceId)
    ensures ConvertedLines(ms, lines, i + 1, freshId, now, projectId, sourceId)
  {
    assert IndicesWhere(lines, ForFiles, i + 1) == IndicesWhere(lines, ForFiles, i);
  }

  /** One decoded non-summary line of `load_session_messages_for_files`:
      its `ClaudeMessage`, converted with sequence number 0. */
  method ConvertLine(lines: seq<Session.Line>, i: nat, freshId: nat -> string, now: string,
                     projectId: string, sourceId: string)
    returns (u: UniversalMessage)
    requires i < |lines| && ForFiles(lines[i]) && DecodedUsage(lines[i])
    ensures ConvertedFrom(u, LineMessage(lines, i, freshId, now), projectId, sourceId)
  {
    var msg := LineMessage(lines, i, freshId, now);
    u := ClaudeCode.ClaudeMessageToUniversal(msg, projectId, sourceId, 0);
  }

  /** The conversion loop of `load_session_messages_for_files` over lines
      that were all read: each decoded non-summary line becomes a message
      with the given project id and source, in file order. */
  method ConvertLinesForFiles(lines: seq<Session.Line>, freshId: nat -> string, now: string,
                              projectId: string, sourceId: string)
    returns (messages: seq<UniversalMessage>)
    requires forall k :: 0 <= k < |lines| ==> DecodedUsage(lines[k])
    ensures ConvertedLines(messages, lines, |lines|, freshId, now, projectId, sourceId)
  {
    messages := [];
    var i := 0;
    while i < |lines|
      invariant 0 <= i <= |lines|
      invariant ConvertedLines(messages, lines, i, freshId, now, projectId, sourceId)
    {
      messages := ConvertNext(messages, lines, i, freshId, now, projectId, sourceId);
      i := i + 1;
    }
  }

  /** One turn of that loop: line `i` is converted or skipped. */
  method ConvertNext(messages: seq<UniversalMessage>, lines: seq<Session.Line>, i: nat, freshId: nat -> string, now: string,
                     projectId: string, sourceId: string)
    returns (next: seq<UniversalMessage>)
    requires i < |lines| && DecodedUsage(lines[i])
    requires ConvertedLines(messages, lines, i, freshId, now, projectId, sourceId)
    ensures ConvertedLines(next, lines, i + 1, freshId, now, projectId, sourceId)
  {
    if ForFiles(lines[i]) {
      var u := ConvertLine(lines, i, freshId, now, projectId, sourceId);
      ConvertedLinesStep(messages, lines, i, u, freshId, now, projectId, sourceId);
      next := messages + [u];
    } else {
      ConvertedLinesSkip(messages, lines, i, freshId, now, projectId, sourceId);
      next := messages;
    }
  }

  /** `load_session_messages_for_files`: every decoded non-summary line
      becomes a message with the file's project id, the file as its source
      and sequence number 0. */
  method LoadMessagesForFiles(sessionPath: string, file: Result<seq<Result<Session.Line>>>,
                              freshId: nat -> string, now: string)
    returns (r: Result<seq<UniversalMessage>>)
    requires file.Ok? ==> forall i :: 0 <= i < |file.value| && file.value[i].Ok? ==> DecodedUsage(file.value[i].value)
    ensures file.Err? ==> r == Err(Session.OpenFailure + file.error)
    ensures file.Ok? && Session.ReadAll(file.value).Err? ==> r == Err(Session.LineFailure + Session.ReadAll(file.value).error)
    ensures file.Ok? && Session.ReadAll(file.value).Ok? ==>
      r.Ok? && ConvertedLines(r.value, Session.ReadAll(file.value).value, |file.value|, freshId, now,
                              ClaudeCode.ProjectIdOf(None, sessionPath), sessionPath)
  {
    if file.Err? {
      return Err(Session.OpenFailure + file.error);
    }
    var read := Session.ReadAll(file.value);
    if read.Err? {
      return Err(Session.LineFailure + read.error);
    }
    var lines := read.value;
    Session.ReadAllYields(file.value);
    forall k | 0 <= k < |lines|
      ensures DecodedUsage(lines[k])
    {
      assert file.value[k] == Ok(lines[k]);
    }
    var projectId := ClaudeCode.ExtractProjectId(None, sessionPath);
    var messages := ConvertLinesForFiles(lines, freshId, now, projectId, sessionPath);
    r := Ok(messages);
  }
}
