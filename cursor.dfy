/** Cursor IDE support after the SQLite queries: the project root guessed from
    the editor history of a workspace, the conversation bubbles of a session
    database turned into messages, and the session list. Database rows come in
    as already-read values. */
module Cursor {
  import opened Base
  import opened Json
  import opened Strings
  import opened Seqs
  import opened Universal
  import opened Ordering
  import Paths

  // ---------------------------------------------------------------- common prefix

  /** Every path has, at index `i`, the character the first path has there. */
  predicate AllAgreeAt(paths: seq<string>, i: nat)
    requires |paths| > 0
  {
    i < |paths[0]| && forall k :: 1 <= k < |paths| ==> i < |paths[k]| && paths[k][i] == paths[0][i]
  }

  /** From index `i` on, how far the paths keep agreeing. */
  function SharedFrom(paths: seq<string>, i: nat): (n: nat)
    requires |paths| > 0 && i <= |paths[0]|
    ensures i <= n <= |paths[0]|
    ensures forall j :: i <= j < n ==> AllAgreeAt(paths, j)
    ensures !AllAgreeAt(paths, n)
    decreases |paths[0]| - i
  {
    if AllAgreeAt(paths, i) then SharedFrom(paths, i + 1) else i
  }

  /** The length of the longest common prefix, counted in characters. */
  function SharedLength(paths: seq<string>): (n: nat)
    requires |paths| > 0
    ensures n <= |paths[0]|
    ensures forall j :: 0 <= j < n ==> AllAgreeAt(paths, j)
    ensures !AllAgreeAt(paths, n)
  {
    SharedFrom(paths, 0)
  }

  /** Everything before the last '/', or "" without one. */
  function CutAtLastSlash(p: string): (r: string)
    ensures StartsWith(p, r)
    ensures r == "" || (|r| < |p| && p[|r|] == '/')
    ensures forall j :: |r| < j < |p| ==> p[j] != '/'
    ensures r == "" && '/' in p ==> p[0] == '/'
  {
    match RFindChar(p, '/')
    case Some(i) => assert p[..i] == p[..|p[..i]|]; p[..i]
    case None => ""
  }

  /** `find_common_prefix`: the directory shared by all the paths, that is,
      their longest common prefix cut back to before its last '/'. */
  function CommonPrefix(paths: seq<string>): (r: string)
    ensures forall k :: 0 <= k < |paths| ==> StartsWith(paths[k], r)
    ensures r != "" ==> forall k :: 0 <= k < |paths| ==> StartsWith(paths[k], r + "/")
  {
    if |paths| == 0 then ""
    else if |paths| == 1 then
      var p := paths[0];
      var r := p[..RFindChar(p, '/').GetOr(0)];
      assert r != "" ==> (r + "/") == p[..|r| + 1];
      r
    else
      var n := SharedLength(paths);
      var p := paths[0][..n];
      var r := CutAtLastSlash(p);
      SharedPrefixOfAll(paths, n);
      forall k | 0 <= k < |paths|
        ensures StartsWith(paths[k], r)
        ensures r != "" ==> StartsWith(paths[k], r + "/")
      {
        assert paths[k][..n] == p;
        assert paths[k][..|r|] == p[..|r|];
        if r != "" {
          assert paths[k][..|r| + 1] == p[..|r| + 1] == r + "/";
        }
      }
      r
  }

  /** Agreement at every index below `n` makes the first `n` characters of
      the first path a prefix of all of them. */
  lemma SharedPrefixOfAll(paths: seq<string>, n: nat)
    requires |paths| > 0 && n <= |paths[0]|
    requires forall j :: 0 <= j < n ==> AllAgreeAt(paths, j)
    ensures forall k :: 0 <= k < |paths| ==> StartsWith(paths[k], paths[0][..n])
  {
    forall k | 1 <= k < |paths|
      ensures StartsWith(paths[k], paths[0][..n])
    {
      if n > 0 {
        assert AllAgreeAt(paths, n - 1);
      }
      assert forall j :: 0 <= j < n ==> paths[k][j] == paths[0][j] by {
        forall j | 0 <= j < n ensures paths[k][j] == paths[0][j] {
          assert AllAgreeAt(paths, j);
        }
      }
    }
  }

  /** No longer prefix is shared: a common prefix has at most `SharedLength`
      characters. */
  lemma {:induction false} SharedLengthIsLongest(paths: seq<string>, q: string)
    requires |paths| > 0
    requires forall k :: 0 <= k < |paths| ==> StartsWith(paths[k], q)
    ensures |q| <= SharedLength(paths)
  {
    var n := SharedLength(paths);
    if |q| > n {
      assert paths[0][n] == q[n];
      forall k | 1 <= k < |paths|
        ensures n < |paths[k]| && paths[k][n] == paths[0][n]
      {
        assert paths[k][n] == q[n];
      }
      assert AllAgreeAt(paths, n);
    }
  }

  /** The result is the longest directory shared by all paths: any `d` with
      `d + "/"` at the start of every path is a prefix of it. */
  lemma DirectoryIsLongest(paths: seq<string>, d: string)
    requires |paths| > 0
    requires forall k :: 0 <= k < |paths| ==> StartsWith(paths[k], d + "/")
    ensures StartsWith(CommonPrefix(paths), d)
  {
    var r := CommonPrefix(paths);
    var p0 := paths[0];
    assert p0[|d|] == '/' && p0[..|d|] == d by {
      assert p0[..|d| + 1] == d + "/";
      assert p0[..|d|] == (d + "/")[..|d|];
    }
    if |paths| == 1 {
      var i := RFindChar(p0, '/').value;
      assert |d| <= i;
      assert r == p0[..i];
      assert r[..|d|] == d;
    } else {
      var n := SharedLength(paths);
      SharedLengthIsLongest(paths, d + "/");
      var p := p0[..n];
      assert p[|d|] == '/';
      assert |d| <= |r|;
      assert r == p[..|r|];
      assert r[..|d|] == p[..|d|] == d;
    }
  }

  /** A single path gives its own directory. */
  lemma SinglePathDirectory(p: string)
    ensures CommonPrefix([p]) == CutAtLastSlash(p)
  {
  }

  /** `d/a…` and `d/b…` whose names start differently share exactly `d`. */
  lemma {:induction false} TwoFilesInOneDirectory(d: string, a: string, b: string)
    requires |a| > 0 && |b| > 0 && a[0] != b[0]
    ensures CommonPrefix([d + "/" + a, d + "/" + b]) == d
  {
    var paths := [d + "/" + a, d + "/" + b];
    forall k | 0 <= k < 2
      ensures StartsWith(paths[k], d + "/")
    {
      assert paths[k][..|d| + 1] == d + "/";
    }
    DirectoryIsLongest(paths, d);
    var n := SharedLength(paths);
    SharedPrefixOfAll(paths, n);
    assert !AllAgreeAt(paths, |d| + 1) by {
      assert paths[0][|d| + 1] == a[0] && paths[1][|d| + 1] == b[0];
    }
    assert n <= |d| + 1;
    var r := CommonPrefix(paths);
    assert |r| <= |d| by {
      assert r == CutAtLastSlash(paths[0][..n]);
    }
    assert r == r[..|d|];
  }

  /** `find_common_prefix` itself: a character-by-character scan of the first
      path against all the others that stops at the first disagreement. */
  method FindCommonPrefix(paths: seq<string>) returns (r: string)
    ensures r == CommonPrefix(paths)
  {
    if |paths| == 0 {
      return "";
    }
    if |paths| == 1 {
      var path := paths[0];
      r := path[..RFindChar(path, '/').GetOr(0)];
      return;
    }
    var first := paths[0];
    var prefixLen := 0;
    var i := 0;
    while i < |first|
      invariant 0 <= i <= |first|
      invariant prefixLen == i
      invariant SharedFrom(paths, i) == SharedLength(paths)
      decreases |first| - i
    {
      var k := 1;
      while k < |paths|
        invariant 1 <= k <= |paths|
        invariant forall m :: 1 <= m < k ==> i < |paths[m]| && paths[m][i] == first[i]
        decreases |paths| - k
      {
        var path := paths[k];
        if i < |path| {
          if path[i] != first[i] {
            assert !AllAgreeAt(paths, i);
            break break;
          }
        } else {
          assert !AllAgreeAt(paths, i);
          break break;
        }
        k := k + 1;
      }
      assert AllAgreeAt(paths, i);
      prefixLen := i + 1;
      i := i + 1;
    }
    var prefix := first[..prefixLen];
    match RFindChar(prefix, '/') {
      case Some(lastSlash) => r := prefix[..lastSlash];
      case None => r := "";
    }
  }

  // ---------------------------------------------------------------- the code as written

  /** The multi-path case as written: `prefix_len` counts characters but
      `&first[..prefix_len]` slices bytes. `None` is the panic of a slice
      that falls inside a character. */
  function CommonPrefixAsWritten(paths: seq<string>): (r: Option<string>)
    ensures |paths| < 2 ==> r == Some(CommonPrefix(paths))
    ensures |paths| >= 2 ==> (r.None? <==> !IsCharBoundary(paths[0], SharedLength(paths)))
    ensures r.Some? ==> forall k :: 0 <= k < |paths| ==> StartsWith(paths[k], r.value)
  {
    if |paths| < 2 then Some(CommonPrefix(paths))
    else
      match ByteSlice(paths[0], SharedLength(paths))
      case Some(p) =>
        var c := CutAtLastSlash(p);
        SharedBytePrefix(paths, p, c);
        Some(c)
      case None => None
  }

  /** A cut of a byte slice within the shared characters is a prefix of
      every path: a character takes at least a byte. */
  lemma SharedBytePrefix(paths: seq<string>, p: string, c: string)
    requires |paths| > 0 && StartsWith(paths[0], p) && Utf8Len(p) == SharedLength(paths) && StartsWith(p, c)
    ensures forall k :: 0 <= k < |paths| ==> StartsWith(paths[k], c)
  {
    Utf8LenAtLeastLength(p);
    forall k | 0 <= k < |paths|
      ensures StartsWith(paths[k], c)
    {
      if k > 0 && |c| > 0 {
        assert forall j :: 0 <= j < |c| ==> AllAgreeAt(paths, j);
        assert AllAgreeAt(paths, |c| - 1);
        forall j | 0 <= j < |c|
          ensures paths[k][j] == c[j]
        {
          assert c[j] == p[..|c|][j] == p[j];
          assert p[j] == paths[0][..|p|][j];
          assert AllAgreeAt(paths, j);
        }
        assert paths[k][..|c|] == c;
      }
    }
  }

  /** On ASCII paths, characters are bytes and the two agree. */
  lemma AsWrittenAgreesOnAscii(paths: seq<string>)
    requires |paths| > 0 && IsAscii(paths[0])
    ensures CommonPrefixAsWritten(paths) == Some(CommonPrefix(paths))
  {
    if |paths| >= 2 {
      ByteSliceAscii(paths[0], SharedLength(paths));
    }
  }

  /** Two paths sharing "/é" (two characters, three bytes): the slice at byte
      2 falls inside 'é' and panics. */
  lemma AsWrittenPanicsInsideChar()
    ensures CommonPrefixAsWritten(["/éa", "/éb"]).None?
  {
    var paths := ["/éa", "/éb"];
    var s := paths[0];
    assert paths[0][2] == 'a' && paths[1][2] == 'b';
    assert AllAgreeAt(paths, 0) && AllAgreeAt(paths, 1) && !AllAgreeAt(paths, 2);
    assert SharedFrom(paths, 2) == 2;
    assert SharedLength(paths) == 2;
    assert s[..0] == "" && s[..1] == "/" && s[..2] == "/é" && s[..3] == s;
    assert Utf8Len("/") == 1;
    assert Utf8Len("/é") == 3;
    assert Utf8Len(s) == 4;
    assert !IsCharBoundary(s, 2);
  }

  /** Two paths under "/é/": the byte slice keeps only "/é", so the directory
      is lost. */
  lemma AsWrittenLosesDirectory()
    ensures CommonPrefixAsWritten(["/é/a", "/é/b"]) == Some("")
    ensures CommonPrefix(["/é/a", "/é/b"]) == "/é"
  {
    var paths := ["/é/a", "/é/b"];
    var s := paths[0];
    assert paths[0][3] == 'a' && paths[1][3] == 'b';
    assert AllAgreeAt(paths, 0) && AllAgreeAt(paths, 1) && AllAgreeAt(paths, 2) && !AllAgreeAt(paths, 3);
    assert SharedFrom(paths, 3) == 3;
    assert SharedLength(paths) == 3;
    assert s[..2] == "/é";
    assert Utf8Len("/é") == 3;
    assert ByteSlice(s, 3) == Some("/é");
    assert s[..3] == "/é/";
    assert CutAtLastSlash("/é/") == "/é";
  }

  // ---------------------------------------------------------------- history entries

  datatype EditorInfo = EditorInfo(resource: Option<string>)

  datatype HistoryEntry = HistoryEntry(editor: Option<EditorInfo>)

  /** An `Option<T>` field: absent or null is `None`. */
  predicate IsMissing(j: Json, key: string) {
    Get(j, key).None? || Get(j, key) == Some(Null)
  }

  function DecodeEditorInfo(j: Json): (r: Option<EditorInfo>)
    ensures r.Some? <==> j.Obj? && (IsMissing(j, "resource") || GetStr(j, "resource").Some?)
  {
    if !j.Obj? then None
    else
      var resource :- OptStr(j, "resource");
      Some(EditorInfo(resource))
  }

  function DecodeHistoryEntry(j: Json): (r: Option<HistoryEntry>)
    ensures r.Some? <==> j.Obj? && (IsMissing(j, "editor") || DecodeEditorInfo(Get(j, "editor").value).Some?)
  {
    if !j.Obj? then None
    else if IsMissing(j, "editor") then Some(HistoryEntry(None))
    else
      var editor :- DecodeEditorInfo(Get(j, "editor").value);
      Some(HistoryEntry(Some(editor)))
  }

  /** `Vec<HistoryEntry>`: an array every element of which decodes; one bad
      element fails the whole value. */
  function DecodeHistory(j: Json): (r: Option<seq<HistoryEntry>>)
    ensures r.Some? <==> j.Arr? && forall i :: 0 <= i < |j.items| ==> DecodeHistoryEntry(j.items[i]).Some?
    ensures r.Some? ==> |r.value| == |j.items| && forall i :: 0 <= i < |j.items| ==> DecodeHistoryEntry(j.items[i]) == Some(r.value[i])
  {
    if j.Arr? then DecodeEntries(j.items) else None
  }

  function DecodeEntries(items: seq<Json>): (r: Option<seq<HistoryEntry>>)
    ensures r.Some? <==> forall i :: 0 <= i < |items| ==> DecodeHistoryEntry(items[i]).Some?
    ensures r.Some? ==> |r.value| == |items| && forall i :: 0 <= i < |items| ==> DecodeHistoryEntry(items[i]) == Some(r.value[i])
  {
    if |items| == 0 then Some([])
    else
      var init :- DecodeEntries(items[..|items| - 1]);
      var last :- DecodeHistoryEntry(items[|items| - 1]);
      Some(init + [last])
  }

  const FileUriPrefix := "file:///"

  /** The local path of an entry whose editor resource is a `file:///` URI:
      the URI without "file://", so the leading '/' stays. */
  function ResourcePath(e: HistoryEntry): (r: Option<string>)
    ensures r.Some? <==> e.editor.Some? && e.editor.value.resource.Some? && StartsWith(e.editor.value.resource.value, FileUriPrefix)
    ensures r.Some? ==> "file://" + r.value == e.editor.value.resource.value && StartsWith(r.value, "/")
  {
    match e.editor
    case Some(EditorInfo(Some(resource))) =>
      if StartsWith(resource, FileUriPrefix) then
        assert resource == "file://" + resource[7..];
        Some(resource[7..])
      else None
    case _ => None
  }

  /** The path-collecting loop of `extract_project_info`. */
  method CollectFilePaths(entries: seq<HistoryEntry>) returns (filePaths: seq<string>)
    ensures filePaths == FilterMap(entries, ResourcePath)
  {
    filePaths := [];
    var i := 0;
    while i < |entries|
      invariant 0 <= i <= |entries|
      invariant filePaths == FilterMap(entries[..i], ResourcePath)
    {
      assert entries[..i + 1][..i] == entries[..i];
      var entry := entries[i];
      if entry.editor.Some? && entry.editor.value.resource.Some? {
        var resource := entry.editor.value.resource.value;
        if StartsWith(resource, FileUriPrefix) {
          filePaths := filePaths + [resource[7..]];
        }
      }
      i := i + 1;
    }
    assert entries[..i] == entries;
  }

  /** Every collected path is absolute and is the path of some `file:///`
      resource of the history. */
  lemma CollectedPathsAreFiles(entries: seq<HistoryEntry>, k: nat)
    requires k < |FilterMap(entries, ResourcePath)|
    ensures StartsWith(FilterMap(entries, ResourcePath)[k], "/")
    ensures exists i :: 0 <= i < |entries| && ResourcePath(entries[i]) == Some(FilterMap(entries, ResourcePath)[k])
  {
    FilterMapFrom(entries, ResourcePath, k);
  }

  // ---------------------------------------------------------------- project info

  datatype ProjectInfo = ProjectInfo(name: string, root_path: string)

  const UnknownProject := ProjectInfo("Unknown Project", "/")

  /** The piece after the last separator is a suffix without a separator. */
  lemma {:induction false} LastPieceIsSuffix(s: string, c: char)
    ensures var ps := Split(s, c); EndsWith(s, ps[|ps| - 1])
    decreases |s|
  {
    var all := Split(s, c);
    if c in s {
      var i := IndexOfChar(s, c);
      var t := s[i + 1..];
      LastPieceIsSuffix(t, c);
      var ps := Split(t, c);
      var last := ps[|ps| - 1];
      assert all == [s[..i]] + ps;
      assert all[|all| - 1] == last;
      SuffixOfSuffix(s, i + 1, last);
    } else {
      assert all == [s];
      assert s[|s| - |s|..] == s;
    }
  }

  /** That piece is the whole string, or a separator comes right before it. */
  lemma {:induction false} LastPieceAfterSeparator(s: string, c: char)
    ensures var last := Split(s, c)[|Split(s, c)| - 1];
      |last| <= |s| && (last == s || (|last| < |s| && s[|s| - |last| - 1] == c))
    decreases |s|
  {
    if c in s {
      var i := IndexOfChar(s, c);
      var t := s[i + 1..];
      var ps := Split(t, c);
      assert Split(s, c) == [s[..i]] + ps;
      var last := ps[|ps| - 1];
      assert Split(s, c)[|Split(s, c)| - 1] == last;
      LastPieceAfterSeparator(t, c);
      if last == t {
        assert s[|s| - |last| - 1] == s[i];
      } else {
        assert s[|s| - |last| - 1] == t[|t| - |last| - 1];
      }
    }
  }

  lemma SuffixOfSuffix(s: string, j: nat, x: string)
    requires j <= |s| && EndsWith(s[j..], x)
    ensures EndsWith(s, x)
  {
    assert s[|s| - |x|..] == s[j..][|s[j..]| - |x|..];
  }

  /** The project of a workspace, from the paths its editor history opened:
      no paths gives "Unknown Project" at "/"; otherwise the root is the
      shared directory without trailing '/', and the name its last
      '/'-separated piece. */
  function ProjectInfoOf(filePaths: seq<string>): (r: ProjectInfo)
    ensures filePaths == [] ==> r == UnknownProject
    ensures filePaths != [] ==> forall k :: 0 <= k < |filePaths| ==> StartsWith(filePaths[k], r.root_path)
    ensures filePaths != [] ==> (r.root_path == "" || r.root_path[|r.root_path| - 1] != '/')
    ensures filePaths != [] ==> EndsWith(r.root_path, r.name) && '/' !in r.name
    ensures filePaths != [] ==>
      r.name == r.root_path || (|r.name| < |r.root_path| && r.root_path[|r.root_path| - |r.name| - 1] == '/')
    ensures filePaths != [] ==> r.root_path == RootOf(filePaths)
  {
    if |filePaths| == 0 then UnknownProject
    else
      var root := RootOf(filePaths);
      ProjectInfo(LastPiece(root), root)
  }

  /** The shared directory without its trailing '/': a prefix of every path,
      and the longest such directory by `RootIsLongest`. */
  function RootOf(filePaths: seq<string>): (root: string)
    ensures forall k :: 0 <= k < |filePaths| ==> StartsWith(filePaths[k], root)
    ensures root == "" || root[|root| - 1] != '/'
    ensures root == TrimEndChar(CommonPrefix(filePaths), '/')
  {
    var prefix := CommonPrefix(filePaths);
    var root := TrimEndChar(prefix, '/');
    forall k | 0 <= k < |filePaths|
      ensures StartsWith(filePaths[k], root)
    {
      assert filePaths[k][..|root|] == prefix[..|root|];
    }
    root
  }

  /** No shared directory is longer than the root: any `d` without a
      trailing '/' such that every path starts with `d + "/"` is a prefix of
      it. */
  lemma RootIsLongest(paths: seq<string>, d: string)
    requires |paths| > 0
    requires d == "" || d[|d| - 1] != '/'
    requires forall k :: 0 <= k < |paths| ==> StartsWith(paths[k], d + "/")
    ensures StartsWith(RootOf(paths), d)
  {
    var prefix := CommonPrefix(paths);
    var root := RootOf(paths);
    DirectoryIsLongest(paths, d);
    assert |d| <= |root|;
    assert root[..|d|] == prefix[..|d|];
  }

  /** `split('/').last()`: the piece after the last '/', a '/'-free suffix
      that is the whole string or follows a '/'. */
  function LastPiece(root: string): (name: string)
    ensures EndsWith(root, name) && '/' !in name
    ensures name == root || (|name| < |root| && root[|root| - |name| - 1] == '/')
  {
    var pieces := Split(root, '/');
    LastPieceIsSuffix(root, '/');
    LastPieceAfterSeparator(root, '/');
    pieces[|pieces| - 1]
  }

  /** Files in one directory `d` (not ending in '/') name `d`'s last piece
      as the project. */
  lemma ProjectOfOneDirectory(d: string, a: string, b: string)
    requires |a| > 0 && |b| > 0 && a[0] != b[0]
    requires d == "" || d[|d| - 1] != '/'
    ensures var ps := Split(d, '/');
      ProjectInfoOf([d + "/" + a, d + "/" + b]) == ProjectInfo(ps[|ps| - 1], d)
  {
    TwoFilesInOneDirectory(d, a, b);
  }

  const HistoryParseFailure := "Failed to parse history entries: "

  /** `extract_project_info` once `history.entries` has been queried: `history`
      is the query's outcome and `parsed` the stored text read as JSON (`None`
      when it is not JSON). */
  function ExtractProjectInfo(history: Result<Option<Json>>): (r: Result<ProjectInfo>)
    ensures history.Err? ==> r == Err(history.error)
    ensures history.Ok? ==> (r.Ok? <==> history.value.Some? && DecodeHistory(history.value.value).Some?)
    ensures r.Ok? ==> r.value == ProjectInfoOf(FilterMap(DecodeHistory(history.value.value).value, ResourcePath))
  {
    var parsed :- history;
    match parsed
    case None => Err(HistoryParseFailure)
    case Some(j) =>
      match DecodeHistory(j)
      case None => Err(HistoryParseFailure)
      case Some(entries) => Ok(ProjectInfoOf(FilterMap(entries, ResourcePath)))
  }

  /** The workspace scan falls back to the unknown project on any error. */
  function WorkspaceProjectInfo(history: Result<Option<Json>>): (r: ProjectInfo)
    ensures ExtractProjectInfo(history).Err? ==> r == UnknownProject
    ensures ExtractProjectInfo(history).Ok? ==> r == ExtractProjectInfo(history).value
  {
    match ExtractProjectInfo(history)
    case Ok(info) => info
    case Err(_) => UnknownProject
  }

  // ---------------------------------------------------------------- bubbles

  /** `CursorBubble`: a `type` that fits an `i32` and a `text`. */
  datatype CursorBubble = CursorBubble(bubble_type: int, text: string)

  predicate IsI32(n: int) { -0x8000_0000 <= n < 0x8000_0000 }

  function DecodeBubble(j: Json): (r: Option<CursorBubble>)
    ensures r.Some? <==> j.Obj? && GetInt(j, "type").Some? && IsI32(GetInt(j, "type").value) && GetStr(j, "text").Some?
    ensures r.Some? ==> r.value == CursorBubble(GetInt(j, "type").value, GetStr(j, "text").value)
  {
    if !j.Obj? then None
    else
      var t :- GetInt(j, "type");
      if !IsI32(t) then None
      else
        var text :- GetStr(j, "text");
        Some(CursorBubble(t, text))
  }

  /** A row of `cursorDiskKV`: its rowid, key and value, the value read as
      JSON (`None` when it is not JSON). */
  datatype CursorRow = CursorRow(rowid: int, key: string, value: Option<Json>)

  const RowFailure := "Row error: "
  const BubbleFailure := "Failed to parse bubble JSON: "

  function RowBubble(row: CursorRow): Option<CursorBubble> {
    if row.value.Some? then DecodeBubble(row.value.value) else None
  }

  function BubbleRole(b: CursorBubble): (role: MessageRole)
    ensures role == User <==> b.bubble_type == 1
    ensures role != User ==> role == Assistant
  {
    if b.bubble_type == 1 then User else Assistant
  }

  /** The message of a bubble at row position `i`, stamped with the clock. */
  function BubbleMessage(dbPath: string, row: CursorRow, b: CursorBubble, i: nat, now: string): (m: UniversalMessage)
    ensures m.id == row.key && m.session_id == dbPath && m.provider_id == "cursor"
    ensures m.project_id == "" && m.source_id == "" && m.timestamp == now
    ensures m.sequence_number == UsizeAsI32(i) && m.role == BubbleRole(b) && m.message_type == Message
    ensures m.content == [PlainText(b.text)]
    ensures m.parent_id.None? && m.model.None? && m.tokens.None? && m.tool_calls.None? && m.errors.None?
    ensures m.original_format == "cursor-sqlite"
    ensures m.provider_metadata == map["rowid" := Int(row.rowid), "bubble_type" := Int(b.bubble_type)]
  {
    UniversalMessage(row.key, dbPath, "", "", "cursor", now, UsizeAsI32(i), BubbleRole(b), Message,
                     [PlainText(b.text)], None, None, None, None, None, None, None, None, None,
                     "cursor-sqlite", map["rowid" := Int(row.rowid), "bubble_type" := Int(b.bubble_type)])
  }

  predicate RowFails(row: Result<CursorRow>) {
    row.Err? || RowBubble(row.value).None?
  }

  predicate RowShown(row: Result<CursorRow>) {
    row.Ok? && RowBubble(row.value).Some? && !IsBlank(RowBubble(row.value).value.text)
  }

  /** What row `i` contributes: an error that ends the load, nothing for a
      blank bubble, or one message. */
  function RowStep(dbPath: string, row: Result<CursorRow>, i: nat, now: string): (r: Result<Option<UniversalMessage>>)
    ensures r.Err? <==> RowFails(row)
    ensures row.Err? ==> r == Err(RowFailure + row.error)
    ensures row.Ok? && RowBubble(row.value).None? ==> r == Err(BubbleFailure)
    ensures r.Ok? ==> row.Ok? && RowBubble(row.value).Some?
    ensures r.Ok? ==> (r.value.None? <==> IsBlank(RowBubble(row.value).value.text))
  {
    match row
    case Err(e) => Err(RowFailure + e)
    case Ok(rw) =>
      match RowBubble(rw)
      case None => Err(BubbleFailure)
      case Some(b) =>
        if Trim(b.text) == "" then Ok(None)
        else Ok(Some(BubbleMessage(dbPath, rw, b, i, now)))
  }

  /** The messages of the rows read so far, or the first error. */
  function BubbleMessages(dbPath: string, rows: seq<Result<CursorRow>>, now: nat -> string): (r: Result<seq<UniversalMessage>>)
    ensures r.Ok? ==> |r.value| <= |rows|
  {
    if |rows| == 0 then Ok([])
    else
      match BubbleMessages(dbPath, rows[..|rows| - 1], now)
      case Err(e) => Err(e)
      case Ok(ms) =>
        match RowStep(dbPath, rows[|rows| - 1], |rows| - 1, now(|rows| - 1))
        case Err(e) => Err(e)
        case Ok(None) => Ok(ms)
        case Ok(Some(m)) => Ok(ms + [m])
  }

  /** One more row fails the load exactly when the load so far failed or
      that row fails. */
  lemma BubbleMessagesFailStep(dbPath: string, rows: seq<Result<CursorRow>>, now: nat -> string)
    requires |rows| > 0
    ensures BubbleMessages(dbPath, rows, now).Err? <==>
      BubbleMessages(dbPath, rows[..|rows| - 1], now).Err? || RowFails(rows[|rows| - 1])
  {
  }

  predicate SomeRowFails(rows: seq<Result<CursorRow>>) {
    exists i :: 0 <= i < |rows| && RowFails(rows[i])
  }

  lemma SomeRowFailsSnoc(rows: seq<Result<CursorRow>>)
    requires |rows| > 0
    ensures SomeRowFails(rows) <==> SomeRowFails(rows[..|rows| - 1]) || RowFails(rows[|rows| - 1])
  {
    var init := rows[..|rows| - 1];
    if SomeRowFails(init) {
      var i :| 0 <= i < |init| && RowFails(init[i]);
      assert rows[i] == init[i];
    }
    if SomeRowFails(rows) {
      var i :| 0 <= i < |rows| && RowFails(rows[i]);
      if i < |init| {
        assert init[i] == rows[i];
      }
    }
  }

  /** The load fails exactly when some row is unreadable or not a bubble. */
  lemma {:induction false} FailsIffSomeRowFails(dbPath: string, rows: seq<Result<CursorRow>>, now: nat -> string)
    ensures BubbleMessages(dbPath, rows, now).Err? <==> SomeRowFails(rows)
    decreases |rows|
  {
    if |rows| > 0 {
      FailsIffSomeRowFails(dbPath, rows[..|rows| - 1], now);
      BubbleMessagesFailStep(dbPath, rows, now);
      SomeRowFailsSnoc(rows);
    }
  }

  /** The error is the one of the first failing row. */
  lemma {:induction false} FirstFailureReported(dbPath: string, rows: seq<Result<CursorRow>>, now: nat -> string)
    requires BubbleMessages(dbPath, rows, now).Err?
    ensures FindIndex(rows, RowFails).Some?
    ensures var i := FindIndex(rows, RowFails).value;
      BubbleMessages(dbPath, rows, now).error == RowStep(dbPath, rows[i], i, now(i)).error
    decreases |rows|
  {
    var init := rows[..|rows| - 1];
    var last := rows[|rows| - 1];
    FindIndexSnoc(init, last, RowFails);
    assert init + [last] == rows;
    if BubbleMessages(dbPath, init, now).Err? {
      FirstFailureReported(dbPath, init, now);
      var i := FindIndex(init, RowFails).value;
      assert init[i] == rows[i];
    } else {
      FailsIffSomeRowFails(dbPath, init, now);
      assert FindIndex(init, RowFails).None?;
      assert RowStep(dbPath, last, |init|, now(|init|)).Err?;
      assert FindIndex(rows, RowFails) == Some(|init|);
    }
  }

  /** The message a shown row becomes at position `i`. */
  function ShownMessage(dbPath: string, row: Result<CursorRow>, i: nat, now: nat -> string): UniversalMessage
    requires RowShown(row)
  {
    BubbleMessage(dbPath, row.value, RowBubble(row.value).value, i, now(i))
  }

  /** The messages of the shown rows among the first `n`, in order. */
  function ShownMessages(dbPath: string, rows: seq<Result<CursorRow>>, now: nat -> string, n: nat): seq<UniversalMessage>
    requires n <= |rows|
    decreases n
  {
    if n == 0 then []
    else ShownMessages(dbPath, rows, now, n - 1)
         + (if RowShown(rows[n - 1]) then [ShownMessage(dbPath, rows[n - 1], n - 1, now)] else [])
  }

  /** A successful load yields exactly the messages of the shown rows. */
  lemma {:induction false} LoadIsShownMessages(dbPath: string, rows: seq<Result<CursorRow>>, now: nat -> string)
    requires BubbleMessages(dbPath, rows, now).Ok?
    ensures BubbleMessages(dbPath, rows, now).value == ShownMessages(dbPath, rows, now, |rows|)
    decreases |rows|
  {
    if |rows| > 0 {
      var init := rows[..|rows| - 1];
      var extra := if RowShown(rows[|rows| - 1]) then [ShownMessage(dbPath, rows[|rows| - 1], |rows| - 1, now)] else [];
      ShownStep(dbPath, rows, now);
      LoadIsShownMessages(dbPath, init, now);
      ShownMessagesStep(dbPath, rows, now);
      var before := BubbleMessages(dbPath, init, now).value;
      assert before == ShownMessages(dbPath, init, now, |init|);
      assert BubbleMessages(dbPath, rows, now).value == before + extra;
      assert ShownMessages(dbPath, rows, now, |rows|) == before + extra;
    }
  }

  /** The shown messages of all rows are those of all but the last, and the
      last row's message when it is shown. */
  lemma ShownMessagesStep(dbPath: string, rows: seq<Result<CursorRow>>, now: nat -> string)
    requires |rows| > 0
    ensures ShownMessages(dbPath, rows, now, |rows|)
         == ShownMessages(dbPath, rows[..|rows| - 1], now, |rows| - 1)
            + (if RowShown(rows[|rows| - 1]) then [ShownMessage(dbPath, rows[|rows| - 1], |rows| - 1, now)] else [])
  {
    ShownPrefix(dbPath, rows, now, |rows| - 1);
  }

  /** One more row adds its message when it is shown and nothing otherwise. */
  lemma ShownStep(dbPath: string, rows: seq<Result<CursorRow>>, now: nat -> string)
    requires |rows| > 0 && BubbleMessages(dbPath, rows, now).Ok?
    ensures BubbleMessages(dbPath, rows[..|rows| - 1], now).Ok?
    ensures BubbleMessages(dbPath, rows, now).value
         == BubbleMessages(dbPath, rows[..|rows| - 1], now).value
            + (if RowShown(rows[|rows| - 1]) then [ShownMessage(dbPath, rows[|rows| - 1], |rows| - 1, now)] else [])
  {
  }

  /** The shown messages below `n` depend only on the first `n` rows. */
  lemma {:induction false} ShownPrefix(dbPath: string, rows: seq<Result<CursorRow>>, now: nat -> string, n: nat)
    requires n <= |rows|
    ensures ShownMessages(dbPath, rows[..n], now, n) == ShownMessages(dbPath, rows, now, n)
    decreases n
  {
    if n > 0 {
      ShownPrefix(dbPath, rows[..n], now, n - 1);
      ShownPrefix(dbPath, rows, now, n - 1);
      assert rows[..n][..n - 1] == rows[..n - 1];
      assert rows[..n][n - 1] == rows[n - 1];
    }
  }

  /** Shown message `k` is the message of the `k`-th shown row. */
  lemma {:induction false} ShownAreIndexed(dbPath: string, rows: seq<Result<CursorRow>>, now: nat -> string, n: nat)
    requires n <= |rows|
    ensures var ks := IndicesWhere(rows, RowShown, n);
      var ms := ShownMessages(dbPath, rows, now, n);
      |ms| == |ks| && forall k :: 0 <= k < |ks| ==> ms[k] == ShownMessage(dbPath, rows[ks[k]], ks[k], now)
    decreases n
  {
    if n > 0 {
      ShownAreIndexed(dbPath, rows, now, n - 1);
      var ks0 := IndicesWhere(rows, RowShown, n - 1);
      var ms0 := ShownMessages(dbPath, rows, now, n - 1);
      var ks := IndicesWhere(rows, RowShown, n);
      var ms := ShownMessages(dbPath, rows, now, n);
      if RowShown(rows[n - 1]) {
        assert ks == ks0 + [n - 1];
        assert ms == ms0 + [ShownMessage(dbPath, rows[n - 1], n - 1, now)];
        forall k | 0 <= k < |ks|
          ensures ms[k] == ShownMessage(dbPath, rows[ks[k]], ks[k], now)
        {
          if k < |ks0| {
            assert ms[k] == ms0[k] && ks[k] == ks0[k];
          }
        }
      } else {
        assert ks == ks0 && ms == ms0;
      }
    }
  }

  /** When the load succeeds, message `k` is the bubble of the `k`-th row
      with text, keeping that row's position as its sequence number. */
  lemma MessagesAreShownRows(dbPath: string, rows: seq<Result<CursorRow>>, now: nat -> string)
    requires BubbleMessages(dbPath, rows, now).Ok?
    ensures var ks := IndicesWhere(rows, RowShown, |rows|);
      var ms := BubbleMessages(dbPath, rows, now).value;
      |ms| == |ks| && forall k :: 0 <= k < |ks| ==> ms[k] == ShownMessage(dbPath, rows[ks[k]], ks[k], now)
  {
    LoadIsShownMessages(dbPath, rows, now);
    ShownAreIndexed(dbPath, rows, now, |rows|);
  }

  /** The index list below `n` depends only on the first `n` elements. */
  lemma {:induction false} IndicesPrefix<A>(s: seq<A>, p: A -> bool, n: nat)
    requires n <= |s|
    ensures IndicesWhere(s[..n], p, n) == IndicesWhere(s, p, n)
    decreases n
  {
    if n > 0 {
      IndicesPrefix(s[..n], p, n - 1);
      IndicesPrefix(s, p, n - 1);
      assert s[..n][..n - 1] == s[..n - 1];
    }
  }

  /** No message is blank, and each is one plain-text item. */
  lemma MessagesHaveText(dbPath: string, rows: seq<Result<CursorRow>>, now: nat -> string, k: nat)
    requires BubbleMessages(dbPath, rows, now).Ok? && k < |BubbleMessages(dbPath, rows, now).value|
    ensures var m := BubbleMessages(dbPath, rows, now).value[k];
      |m.content| == 1 && m.content[0].content_type == Text &&
      exists t :: GetStr(m.content[0].data, "text") == Some(t) && !IsBlank(t)
  {
    MessagesAreShownRows(dbPath, rows, now);
    var ks := IndicesWhere(rows, RowShown, |rows|);
    var b := RowBubble(rows[ks[k]].value).value;
    assert BubbleMessages(dbPath, rows, now).value[k] == ShownMessage(dbPath, rows[ks[k]], ks[k], now);
    assert GetStr(PlainText(b.text).data, "text") == Some(b.text);
  }

  const MissingDatabase := "Session database not found: "

  /** `load_cursor_messages` after the query: `dbExists` is the existence
      check, `rows` the query's outcome and `now` the clock at each row. */
  method LoadCursorMessages(dbPath: string, dbExists: bool, rows: Result<seq<Result<CursorRow>>>, now: nat -> string)
    returns (r: Result<seq<UniversalMessage>>)
    ensures !dbExists ==> r == Err(MissingDatabase + dbPath)
    ensures dbExists && rows.Err? ==> r == Err(rows.error)
    ensures dbExists && rows.Ok? ==> r == BubbleMessages(dbPath, rows.value, now)
  {
    if !dbExists {
      return Err(MissingDatabase + dbPath);
    }
    if rows.Err? {
      return Err(rows.error);
    }
    var rs := rows.value;
    var messages: seq<UniversalMessage> := [];
    var i := 0;
    while i < |rs|
      invariant 0 <= i <= |rs|
      invariant BubbleMessages(dbPath, rs[..i], now) == Ok(messages)
    {
      assert rs[..i + 1][..i] == rs[..i];
      var step := RowStep(dbPath, rs[i], i, now(i));
      if step.Err? {
        assert BubbleMessages(dbPath, rs[..i + 1], now) == Err(step.error);
        BubbleMessagesStop(dbPath, rs, now, i + 1);
        return Err(step.error);
      }
      if step.value.Some? {
        messages := messages + [step.value.value];
      }
      i := i + 1;
    }
    assert rs[..i] == rs;
    r := Ok(messages);
  }

  /** Once an error is reached the rest of the rows do not matter. */
  lemma {:induction false} BubbleMessagesStop(dbPath: string, rows: seq<Result<CursorRow>>, now: nat -> string, n: nat)
    requires n <= |rows| && BubbleMessages(dbPath, rows[..n], now).Err?
    ensures BubbleMessages(dbPath, rows, now) == BubbleMessages(dbPath, rows[..n], now)
    decreases |rows| - n
  {
    if n < |rows| {
      assert rows[..n + 1][..n] == rows[..n];
      BubbleMessagesStop(dbPath, rows, now, n + 1);
    } else {
      assert rows[..n] == rows;
    }
  }

  // ---------------------------------------------------------------- sessions

  datatype CursorSession = CursorSession(
    id: string,
    workspace_id: string,
    project_name: string,
    db_path: string,
    message_count: nat,
    last_modified: string)

  /** A session database found by the scan: its path, its modification time
      (or the clock when that cannot be read), and its bubble count (`None`
      when counting fails). */
  datatype SessionDb = SessionDb(path: string, last_modified: string, count: Option<nat>)

  function SessionOfDb(workspaceId: Option<string>): SessionDb -> Option<CursorSession> {
    (db: SessionDb) =>
      if db.count.GetOr(0) == 0 then None
      else Some(CursorSession(Paths.FileStem(db.path).GetOr("unknown"), workspaceId.GetOr("unknown"), "Cursor Chat",
                              db.path, db.count.value, db.last_modified))
  }

  function SessionModified(s: CursorSession): string { s.last_modified }

  /** Every listed session counts at least one bubble and belongs to its
      database. */
  lemma SessionsAreNonEmpty(dbs: seq<SessionDb>, workspaceId: Option<string>, k: nat)
    requires k < |FilterMap(dbs, SessionOfDb(workspaceId))|
    ensures var s := FilterMap(dbs, SessionOfDb(workspaceId))[k];
      s.message_count > 0 && s.workspace_id == workspaceId.GetOr("unknown") && s.project_name == "Cursor Chat" &&
      exists i :: 0 <= i < |dbs| && dbs[i].path == s.db_path && dbs[i].count == Some(s.message_count)
  {
    FilterMapFrom(dbs, SessionOfDb(workspaceId), k);
  }

  /** `load_cursor_sessions` after the scan: the databases with bubbles,
      latest modification first. */
  method LoadCursorSessions(dbs: seq<SessionDb>, workspaceId: Option<string>) returns (sessions: seq<CursorSession>)
    ensures sessions == SortNewestFirst(FilterMap(dbs, SessionOfDb(workspaceId)), SessionModified)
    ensures multiset(sessions) == multiset(FilterMap(dbs, SessionOfDb(workspaceId)))
    ensures forall i, j :: 0 <= i < j < |sessions| ==> !LexLess(sessions[i].last_modified, sessions[j].last_modified)
  {
    var found: seq<CursorSession> := [];
    var i := 0;
    while i < |dbs|
      invariant 0 <= i <= |dbs|
      invariant found == FilterMap(dbs[..i], SessionOfDb(workspaceId))
    {
      assert dbs[..i + 1][..i] == dbs[..i];
      var db := dbs[i];
      var count := db.count.GetOr(0);
      if count != 0 {
        found := found + [CursorSession(Paths.FileStem(db.path).GetOr("unknown"), workspaceId.GetOr("unknown"),
                                        "Cursor Chat", db.path, count, db.last_modified)];
      }
      i := i + 1;
    }
    assert dbs[..i] == dbs;
    sessions := SortNewestFirst(found, SessionModified);
  }
}
