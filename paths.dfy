/** `std::path::Path` on Unix-style paths: the components a path splits
    into, and the file name, stem and extension read off its last one. */
module Paths {
  import opened Base
  import opened Strings
  import opened Seqs

  datatype Component = RootDir | CurDir | ParentDir | Normal(name: string)

  /** A piece between two '/' separators. Empty pieces (doubled or trailing
      slashes) and "." pieces are skipped; ".." is kept as a parent step. */
  function PieceComponent(piece: string): Option<Component> {
    if piece == "" || piece == "." then None
    else if piece == ".." then Some(ParentDir)
    else Some(Normal(piece))
  }

  /** A leading '/' is the root; a leading "." piece is kept as `CurDir`. */
  function LeadingComponents(p: string): seq<Component> {
    if |p| > 0 && p[0] == '/' then [RootDir]
    else if p == "." || (|p| >= 2 && p[0] == '.' && p[1] == '/') then [CurDir]
    else []
  }

  /** `Path::components`. */
  function Components(p: string): seq<Component> {
    LeadingComponents(p) + FilterMap(Split(p, '/'), PieceComponent)
  }

  /** A name that is a single `Normal` component by itself. */
  predicate IsPlainName(name: string) {
    name != "" && name != "." && name != ".." && '/' !in name
  }

  /** `Path::file_name`: the last component when it is a normal one. */
  function FileName(p: string): (r: Option<string>)
    ensures r.Some? ==> IsPlainName(r.value)
  {
    var cs := Components(p);
    if |cs| > 0 && cs[|cs| - 1].Normal? then
      NormalIsPlain(p, |cs| - 1);
      Some(cs[|cs| - 1].name)
    else None
  }

  /** `path.parent().and_then(|p| p.file_name())` for a path whose last
      component is a normal one: the component before it, when that is a
      normal one too. */
  function ParentName(p: string): (r: Option<string>)
    ensures r.Some? ==> IsPlainName(r.value)
  {
    var cs := Components(p);
    if |cs| >= 2 && cs[|cs| - 2].Normal? then
      NormalIsPlain(p, |cs| - 2);
      Some(cs[|cs| - 2].name)
    else None
  }

  /** The parent of "<dir>/<name>" is named by the last part of `dir`. */
  lemma ParentNameOfJoin(dir: string, name: string)
    requires dir != "" && IsPlainName(name)
    ensures ParentName(dir + "/" + name) == FileName(dir)
  {
    ComponentsOfJoin(dir, name);
    assert Split(name, '/') == [name];
    assert FilterMap([name], PieceComponent) == [Normal(name)];
  }

  /** Every normal component is a plain name. */
  lemma NormalIsPlain(p: string, k: nat)
    requires k < |Components(p)| && Components(p)[k].Normal?
    ensures IsPlainName(Components(p)[k].name)
  {
    var pieces := Split(p, '/');
    var lead := LeadingComponents(p);
    assert k >= |lead|;
    assert Components(p)[k] == FilterMap(pieces, PieceComponent)[k - |lead|];
    FilterMapFrom(pieces, PieceComponent, k - |lead|);
    var i :| 0 <= i < |pieces| && PieceComponent(pieces[i]) == Some(Components(p)[k]);
  }

  /** `file_stem` and `extension` split the file name at its last '.', unless
      that dot is the first character (a hidden file has no extension). */
  function FileStem(p: string): (r: Option<string>)
    ensures r.Some? ==> FileName(p).Some? && StartsWith(FileName(p).value, r.value)
  {
    match FileName(p)
    case None => None
    case Some(name) =>
      match RFindChar(name, '.')
      case Some(i) => if i == 0 then Some(name) else Some(name[..i])
      case None => Some(name)
  }

  function Extension(p: string): (r: Option<string>)
    ensures r.Some? ==> FileName(p).Some? && EndsWith(FileName(p).value, "." + r.value)
  {
    match FileName(p)
    case None => None
    case Some(name) =>
      match RFindChar(name, '.')
      case Some(i) =>
        if i == 0 then None
        else
          assert name[i..] == "." + name[i + 1..];
          Some(name[i + 1..])
      case None => None
  }

  /** Splitting at a separator splits the two halves independently. */
  lemma {:induction false} SplitConcat(a: string, b: string, c: char)
    ensures Split(a + [c] + b, c) == Split(a, c) + Split(b, c)
    decreases |a|
  {
    if c in a {
      var i := IndexOfChar(a, c);
      var head, tail := a[..i], a[i + 1..];
      assert a == head + [c] + tail;
      assert a + [c] + b == head + [c] + (tail + [c] + b);
      SplitCons(head, tail + [c] + b, c);
      SplitCons(head, tail, c);
      SplitConcat(tail, b, c);
    } else {
      SplitCons(a, b, c);
    }
  }

  /** The first occurrence is the only index with `c` there and none before. */
  lemma IndexOfCharUnique(s: string, c: char, i: nat)
    requires i < |s| && s[i] == c && c !in s[..i]
    ensures IndexOfChar(s, c) == i
  {
  }

  /** Appending "/name" makes `name` the file name, whatever came before. */
  lemma FileNameOfJoin(dir: string, name: string)
    requires IsPlainName(name)
    ensures FileName(dir + "/" + name) == Some(name)
  {
    var p := dir + "/" + name;
    assert p == dir + ['/'] + name;
    SplitConcat(dir, name, '/');
    assert Split(name, '/') == [name];
    FilterMapAppend(Split(dir, '/'), [name], PieceComponent);
    assert FilterMap([name], PieceComponent) == [Normal(name)];
  }

  /** Joining a non-empty directory with '/' appends the second part's
      components to the directory's. */
  lemma ComponentsOfJoin(dir: string, rel: string)
    requires dir != ""
    ensures Components(dir + "/" + rel) == Components(dir) + FilterMap(Split(rel, '/'), PieceComponent)
  {
    var p := dir + "/" + rel;
    assert p == dir + ['/'] + rel;
    SplitConcat(dir, rel, '/');
    FilterMapAppend(Split(dir, '/'), Split(rel, '/'), PieceComponent);
    LeadingOfJoin(dir, rel);
  }

  /** Appending "/name" to a non-empty directory adds one component. */
  lemma ComponentsOfChild(dir: string, name: string)
    requires dir != "" && IsPlainName(name)
    ensures Components(dir + "/" + name) == Components(dir) + [Normal(name)]
  {
    ComponentsOfJoin(dir, name);
    assert Split(name, '/') == [name];
    assert FilterMap([name], PieceComponent) == [Normal(name)];
  }

  lemma LeadingOfJoin(dir: string, rel: string)
    requires dir != ""
    ensures LeadingComponents(dir + "/" + rel) == LeadingComponents(dir)
  {
    var p := dir + "/" + rel;
    assert p[0] == dir[0];
    assert p[1] == if |dir| == 1 then '/' else dir[1];
  }

  /** A first piece without the separator splits off on its own. */
  lemma SplitCons(a: string, b: string, c: char)
    requires c !in a
    ensures Split(a + [c] + b, c) == [a] + Split(b, c)
  {
    var s := a + [c] + b;
    assert s[..|a|] == a;
    IndexOfCharUnique(s, c, |a|);
    assert s[|a| + 1..] == b;
  }

  /** The pieces after a component boundary: none for an empty rest. */
  function RestPieces(rest: string): seq<string>
    requires rest == "" || rest[0] == '/'
  {
    if rest == "" then [] else Split(rest[1..], '/')
  }

  lemma SplitTwoNames(a: string, b: string, rest: string)
    requires '/' !in a && '/' !in b
    requires rest == "" || rest[0] == '/'
    ensures Split(a + "/" + b + rest, '/') == [a, b] + RestPieces(rest)
  {
    if rest == "" {
      assert b + rest == b;
    } else {
      assert b + rest == b + ['/'] + rest[1..];
      SplitCons(b, rest[1..], '/');
    }
    assert Split(b + rest, '/') == [b] + RestPieces(rest);
    assert a + "/" + b + rest == a + ['/'] + (b + rest);
    SplitCons(a, b + rest, '/');
  }

  /** The components of "<a>/<b><rest>" begin with `a` and `b` when both are
      plain names and `rest` is empty or starts a new component. */
  lemma TwoNamesPrefix(a: string, b: string, rest: string)
    requires IsPlainName(a) && IsPlainName(b)
    requires rest == "" || rest[0] == '/'
    ensures var t := FilterMap(Split(a + "/" + b + rest, '/'), PieceComponent);
      |t| >= 2 && t[0] == Normal(a) && t[1] == Normal(b)
  {
    SplitTwoNames(a, b, rest);
    FilterMapAppend([a, b], RestPieces(rest), PieceComponent);
    PlainPair(a, b);
  }

  lemma PlainPair(a: string, b: string)
    requires IsPlainName(a) && IsPlainName(b)
    ensures FilterMap([a, b], PieceComponent) == [Normal(a), Normal(b)]
  {
    assert [a, b][..1] == [a];
  }
  // ---------------------------------------------------------------- parent and join

  /** `Path::parent` on the components: the last one dropped, unless it is
      the root or there is none. */
  function ParentComponents(cs: seq<Component>): (r: Option<seq<Component>>)
    ensures r.Some? <==> |cs| > 0 && cs[|cs| - 1] != RootDir
    ensures r.Some? ==> r.value == cs[..|cs| - 1]
  {
    if |cs| > 0 && cs[|cs| - 1] != RootDir then Some(cs[..|cs| - 1]) else None
  }

  function ComponentText(c: Component): string {
    match c
    case RootDir => ""
    case CurDir => "."
    case ParentDir => ".."
    case Normal(name) => name
  }

  function JoinComponents(cs: seq<Component>): string {
    if |cs| == 0 then ""
    else if |cs| == 1 then ComponentText(cs[0])
    else JoinComponents(cs[..|cs| - 1]) + "/" + ComponentText(cs[|cs| - 1])
  }

  /** The path a component list spells, separators single. */
  function Render(cs: seq<Component>): string {
    if |cs| > 0 && cs[0] == RootDir then "/" + JoinComponents(cs[1..]) else JoinComponents(cs)
  }

  /** `PathBuf::join`: an absolute part replaces the base; otherwise one '/'
      goes between them unless the base is empty or already ends in one. */
  function JoinPath(base: string, part: string): (r: string)
    ensures StartsWith(part, "/") ==> r == part
    ensures !StartsWith(part, "/") ==> EndsWith(r, part) && StartsWith(r, base)
    ensures !StartsWith(part, "/") && base != "" && base[|base| - 1] != '/' ==> r == base + "/" + part
  {
    if StartsWith(part, "/") then part
    else if base == "" || base[|base| - 1] == '/' then
      assert (base + part)[..|base|] == base;
      base + part
    else
      assert (base + "/" + part)[..|base|] == base;
      base + "/" + part
  }
}
