/** String operations of Rust's `str` used by the core. Strings are sequences
    of Unicode scalar values; lengths that Rust measures in UTF-8 bytes are
    measured with `Utf8Len`. Case mapping and whitespace are ASCII-only. */
module Strings {
  import opened Base

  predicate StartsWith(s: string, p: string) { |p| <= |s| && s[..|p|] == p }

  predicate EndsWith(s: string, p: string) { |p| <= |s| && s[|s| - |p|..] == p }

  /** `p` occurs in `s` at index `i`. */
  predicate OccursAt(s: string, p: string, i: nat) { i + |p| <= |s| && s[i..i + |p|] == p }

  /** `str::contains` with a string pattern. */
  predicate Contains(s: string, p: string) { exists i: nat :: i <= |s| && OccursAt(s, p, i) }

  /** `str::find`: the leftmost occurrence of `p` at or after `from`. */
  function FindFrom(s: string, p: string, from: nat): (r: Option<nat>)
    decreases |s| - from
    ensures r.Some? ==> from <= r.value && OccursAt(s, p, r.value)
    ensures r.Some? ==> forall j: nat :: from <= j < r.value ==> !OccursAt(s, p, j)
    ensures r.None? ==> forall j: nat :: from <= j ==> !OccursAt(s, p, j)
  {
    if from + |p| > |s| then None
    else if s[from..from + |p|] == p then Some(from)
    else FindFrom(s, p, from + 1)
  }

  function Find(s: string, p: string): (r: Option<nat>)
    ensures r.Some? ==> OccursAt(s, p, r.value) && forall j: nat :: j < r.value ==> !OccursAt(s, p, j)
    ensures r.None? <==> !Contains(s, p)
  {
    FindFrom(s, p, 0)
  }

  /** `str::rfind` with a character pattern. */
  function RFindChar(s: string, c: char): (r: Option<nat>)
    ensures r.Some? ==> r.value < |s| && s[r.value] == c && forall j :: r.value < j < |s| ==> s[j] != c
    ensures r.None? <==> c !in s
  {
    if |s| == 0 then None
    else if s[|s| - 1] == c then Some(|s| - 1)
    else RFindChar(s[..|s| - 1], c)
  }

  /** `str::replace`: every non-overlapping occurrence, left to right. */
  function ReplaceAll(s: string, pat: string, rep: string): (r: string)
    requires |pat| > 0
    decreases |s|
  {
    if |s| < |pat| then s
    else if s[..|pat|] == pat then rep + ReplaceAll(s[|pat|..], pat, rep)
    else [s[0]] + ReplaceAll(s[1..], pat, rep)
  }

  /** A string without an occurrence of the pattern is left alone. */
  lemma {:induction false} ReplaceAbsent(s: string, pat: string, rep: string)
    requires |pat| > 0 && !Contains(s, pat)
    ensures ReplaceAll(s, pat, rep) == s
    decreases |s|
  {
    if |s| >= |pat| {
      assert !OccursAt(s, pat, 0);
      forall i: nat | i + |pat| <= |s| - 1 ensures !OccursAt(s[1..], pat, i) {
        assert s[1..][i..i + |pat|] == s[i + 1..i + 1 + |pat|];
        assert !OccursAt(s, pat, i + 1);
      }
      ReplaceAbsent(s[1..], pat, rep);
      assert [s[0]] + s[1..] == s;
    }
  }

  /** Replacing in `a + pat + b`, where the pattern's first character does not
      occur in `a`, substitutes exactly that occurrence and goes on with `b`. */
  lemma {:induction false} ReplaceOnce(a: string, pat: string, b: string, rep: string)
    requires |pat| > 0 && pat[0] !in a
    ensures ReplaceAll(a + pat + b, pat, rep) == a + rep + ReplaceAll(b, pat, rep)
    decreases |a|
  {
    var s := a + pat + b;
    if |a| == 0 {
      assert s == pat + b;
      assert s[..|pat|] == pat;
      assert s[|pat|..] == b;
    } else {
      assert s[..|pat|] != pat by { assert s[..|pat|][0] == a[0]; }
      assert s[1..] == a[1..] + pat + b;
      assert pat[0] !in a[1..];
      ReplaceOnce(a[1..], pat, b, rep);
      calc {
        ReplaceAll(s, pat, rep);
        [s[0]] + ReplaceAll(s[1..], pat, rep);
        [a[0]] + (a[1..] + rep + ReplaceAll(b, pat, rep));
        { assert [a[0]] + a[1..] == a; }
        a + rep + ReplaceAll(b, pat, rep);
      }
    }
  }

  /** Replacing a single character everywhere (`replace("/", "\\")`). */
  function ReplaceChar(s: string, from: char, to: char): (r: string)
    ensures |r| == |s|
    ensures forall i :: 0 <= i < |s| ==> r[i] == if s[i] == from then to else s[i]
  {
    seq(|s|, i requires 0 <= i < |s| => if s[i] == from then to else s[i])
  }

  function LowerChar(c: char): char {
    if 'A' <= c <= 'Z' then (c as int + 32) as char else c
  }

  /** `to_lowercase`, for ASCII letters. */
  function Lower(s: string): (r: string)
    ensures |r| == |s| && forall i :: 0 <= i < |s| ==> r[i] == LowerChar(s[i])
  {
    seq(|s|, i requires 0 <= i < |s| => LowerChar(s[i]))
  }

  /** ASCII whitespace as `char::is_whitespace` sees it. */
  predicate IsSpace(c: char) {
    c == ' ' || c == '\t' || c == '\n' || c == '\r' || c == '\U{B}' || c == '\U{C}'
  }

  predicate IsBlank(s: string) { forall i :: 0 <= i < |s| ==> IsSpace(s[i]) }

  function TrimStart(s: string): (r: string)
    ensures |r| <= |s| && r == s[|s| - |r|..]
    ensures |r| > 0 ==> !IsSpace(r[0])
    ensures IsBlank(s[..|s| - |r|])
  {
    if |s| > 0 && IsSpace(s[0]) then TrimStart(s[1..]) else s
  }

  function TrimEnd(s: string): (r: string)
    ensures |r| <= |s| && r == s[..|r|]
    ensures |r| > 0 ==> !IsSpace(r[|r| - 1])
    ensures IsBlank(s[|r|..])
  {
    if |s| > 0 && IsSpace(s[|s| - 1]) then TrimEnd(s[..|s| - 1]) else s
  }

  /** `str::trim`. */
  function Trim(s: string): (r: string)
    ensures r == "" <==> IsBlank(s)
  {
    var t := TrimStart(s);
    assert |t| > 0 ==> !IsSpace(s[|s| - |t|]);
    TrimEnd(t)
  }

  /** `trim_start_matches(c)`: drops every leading `c`. */
  function TrimStartChar(s: string, c: char): (r: string)
    ensures |r| <= |s| && r == s[|s| - |r|..]
    ensures |r| > 0 ==> r[0] != c
    ensures forall i :: 0 <= i < |s| - |r| ==> s[i] == c
  {
    if |s| > 0 && s[0] == c then TrimStartChar(s[1..], c) else s
  }

  /** `trim_end_matches(c)`: drops every trailing `c`. */
  function TrimEndChar(s: string, c: char): (r: string)
    ensures |r| <= |s| && r == s[..|r|]
    ensures |r| > 0 ==> r[|r| - 1] != c
    ensures forall i :: |r| <= i < |s| ==> s[i] == c
  {
    if |s| > 0 && s[|s| - 1] == c then TrimEndChar(s[..|s| - 1], c) else s
  }

  /** `str::split(c)`: the pieces between the separators, empty ones included. */
  function Split(s: string, c: char): (r: seq<string>)
    ensures |r| > 0
    ensures forall k :: 0 <= k < |r| ==> c !in r[k]
    decreases |s|
  {
    if c in s then
      var i := IndexOfChar(s, c);
      [s[..i]] + Split(s[i + 1..], c)
    else [s]
  }

  function IndexOfChar(s: string, c: char): (i: nat)
    requires c in s
    ensures i < |s| && s[i] == c && c !in s[..i]
  {
    if s[0] == c then 0 else 1 + IndexOfChar(s[1..], c)
  }

  /** Joining the pieces back with the separator gives the string back. */
  function Join(parts: seq<string>, c: char): string
    requires |parts| > 0
  {
    if |parts| == 1 then parts[0] else parts[0] + [c] + Join(parts[1..], c)
  }

  lemma {:induction false} SplitJoin(s: string, c: char)
    ensures Join(Split(s, c), c) == s
    decreases |s|
  {
    if c in s {
      var i := IndexOfChar(s, c);
      SplitJoin(s[i + 1..], c);
      assert s == s[..i] + [c] + s[i + 1..];
    }
  }

  /** Number of '\n' characters. */
  function NewlineCount(s: string): nat {
    if |s| == 0 then 0 else NewlineCount(s[..|s| - 1]) + (if s[|s| - 1] == '\n' then 1 else 0)
  }

  /** `str::lines().count()`: a line per newline, plus a last line that has
      no newline after it; an empty string has no lines. */
  function LineCount(s: string): nat {
    NewlineCount(s) + (if |s| > 0 && s[|s| - 1] != '\n' then 1 else 0)
  }

  /** Number of UTF-8 bytes that encode a character. */
  function Utf8Width(c: char): nat {
    if c as int < 0x80 then 1 else if c as int < 0x800 then 2 else if c as int < 0x10000 then 3 else 4
  }

  /** `str::len`: the UTF-8 byte length. */
  function Utf8Len(s: string): nat
    decreases |s|
  {
    if |s| == 0 then 0 else Utf8Len(s[..|s| - 1]) + Utf8Width(s[|s| - 1])
  }

  lemma {:induction false} Utf8LenAppend(a: string, b: string)
    ensures Utf8Len(a + b) == Utf8Len(a) + Utf8Len(b)
    decreases |b|
  {
    if |b| == 0 {
      assert a + b == a;
    } else {
      assert (a + b)[..|a + b| - 1] == a + b[..|b| - 1];
      Utf8LenAppend(a, b[..|b| - 1]);
    }
  }

  predicate IsAscii(s: string) { forall i :: 0 <= i < |s| ==> s[i] as int < 0x80 }

  lemma {:induction false} Utf8LenAscii(s: string)
    requires IsAscii(s)
    ensures Utf8Len(s) == |s|
    decreases |s|
  {
    if |s| > 0 {
      Utf8LenAscii(s[..|s| - 1]);
    }
  }

  /** `Utf8Len` of each prefix grows by the width of the next character. */
  lemma Utf8LenPrefix(s: string, k: nat)
    requires k < |s|
    ensures Utf8Len(s[..k + 1]) == Utf8Len(s[..k]) + Utf8Width(s[k])
  {
    assert s[..k + 1][..k] == s[..k];
  }

  /** A byte offset is a character boundary when some prefix ends exactly there
      (`str::is_char_boundary`). */
  predicate IsCharBoundary(s: string, bytes: nat) {
    exists k :: 0 <= k <= |s| && Utf8Len(s[..k]) == bytes
  }

  function DigitChar(d: nat): char
    requires d < 16
  {
    "0123456789abcdef"[d]
  }

  /** `format!("{}", n)` and `format!("{:x}", n)`: digits in a base, most
      significant first. */
  function NatToString(n: nat, base: nat := 10): (r: string)
    requires 2 <= base <= 16
    ensures |r| > 0
    decreases n
  {
    if n < base then [DigitChar(n)] else NatToString(n / base, base) + [DigitChar(n % base)]
  }

  /** `format!("{}", n)` for a signed integer. */
  function IntToString(n: int): (r: string)
    ensures |r| > 0
  {
    if n < 0 then "-" + NatToString(-n) else NatToString(n)
  }

  /** ASCII digits and their value. */
  predicate IsDigit(c: char) { '0' <= c <= '9' }

  predicate AllDigits(s: string) { forall i :: 0 <= i < |s| ==> IsDigit(s[i]) }

  function DigitsValue(s: string): nat
    requires AllDigits(s)
    decreases |s|
  {
    if |s| == 0 then 0 else DigitsValue(s[..|s| - 1]) * 10 + (s[|s| - 1] as int - '0' as int)
  }

  /** Lowercase-or-uppercase hex digit (`[a-f0-9]` under `(?i)`). */
  predicate IsHexDigit(c: char) { IsDigit(c) || 'a' <= c <= 'f' || 'A' <= c <= 'F' }

  // ---------------------------------------------------------------- byte slicing

  /** A character takes at least one byte. */
  lemma {:induction false} Utf8LenAtLeastLength(s: string)
    ensures |s| <= Utf8Len(s)
    decreases |s|
  {
    if |s| > 0 {
      Utf8LenAtLeastLength(s[..|s| - 1]);
    }
  }

  /** `Utf8Len` never shrinks along the prefixes of one string. */
  lemma Utf8LenMono(s: string, a: nat, b: nat)
    requires a <= b <= |s|
    ensures Utf8Len(s[..a]) <= Utf8Len(s[..b])
  {
    assert s[..b] == s[..a] + s[a..b];
    Utf8LenAppend(s[..a], s[a..b]);
  }

  lemma Utf8LenCons(c: char, s: string)
    ensures Utf8Len([c] + s) == Utf8Width(c) + Utf8Len(s)
  {
    Utf8LenAppend([c], s);
    assert [c][..0] == [];
  }

  /** The longest prefix of `s` whose UTF-8 form fits in `n` bytes
      (`str::floor_char_boundary` followed by a slice). */
  function PrefixWithin(s: string, n: nat): (p: string)
    ensures StartsWith(s, p) && Utf8Len(p) <= n
    ensures p == s || (|p| < |s| && Utf8Len(p) + Utf8Width(s[|p|]) > n)
    decreases |s|
  {
    if |s| == 0 || Utf8Width(s[0]) > n then ""
    else
      var rest := PrefixWithin(s[1..], n - Utf8Width(s[0]));
      Utf8LenCons(s[0], rest);
      assert s == [s[0]] + s[1..];
      [s[0]] + rest
  }

  /** `&s[..n]` with `n` a byte offset: defined exactly when `n` is a
      character boundary, and a panic (`None`) otherwise. */
  function ByteSlice(s: string, n: nat): (r: Option<string>)
    ensures r.Some? ==> StartsWith(s, r.value) && Utf8Len(r.value) == n
    ensures r.Some? <==> IsCharBoundary(s, n)
  {
    var p := PrefixWithin(s, n);
    if Utf8Len(p) == n then
      assert s[..|p|] == p;
      Some(p)
    else
      NoBoundaryBeyondFloor(s, n);
      None
  }

  lemma NoBoundaryBeyondFloor(s: string, n: nat)
    requires Utf8Len(PrefixWithin(s, n)) != n
    ensures !IsCharBoundary(s, n)
  {
    var p := PrefixWithin(s, n);
    var j := |p|;
    assert s[..j] == p;
    forall k | 0 <= k <= |s|
      ensures Utf8Len(s[..k]) != n
    {
      if k <= j {
        Utf8LenMono(s, k, j);
      } else {
        Utf8LenPrefix(s, j);
        Utf8LenMono(s, j + 1, k);
      }
    }
  }

  /** After ASCII bytes `a`, the two-byte 'é' puts no character boundary at
      byte `|a| + 1`, and the whole string is longer than that. */
  lemma WideAfterAscii(a: string, b: string)
    requires IsAscii(a)
    ensures !IsCharBoundary(a + "é" + b, |a| + 1)
    ensures Utf8Len(a + "é" + b) >= |a| + 2
  {
    var s := a + "é" + b;
    var m := |a|;
    Utf8LenAscii(a);
    assert s[..m + 1] == a + "é";
    Utf8LenAppend(a, "é");
    assert s[..|s|] == s;
    Utf8LenMono(s, m + 1, |s|);
    forall k | 0 <= k <= |s|
      ensures Utf8Len(s[..k]) != m + 1
    {
      if k <= m {
        assert s[..k] == a[..k];
        assert IsAscii(a[..k]);
        Utf8LenAscii(a[..k]);
      } else {
        Utf8LenMono(s, m + 1, k);
      }
    }
  }

  /** An ASCII string is sliceable at every offset up to its length. */
  lemma ByteSliceAscii(s: string, n: nat)
    requires IsAscii(s) && n <= |s|
    ensures ByteSlice(s, n) == Some(s[..n])
  {
    assert IsAscii(s[..n]);
    Utf8LenAscii(s[..n]);
    assert IsCharBoundary(s, n);
    var p := ByteSlice(s, n).value;
    assert p == s[..|p|];
    assert IsAscii(p);
    Utf8LenAscii(p);
  }

  /** A slice longer than the string panics. */
  lemma ByteSlicePastEnd(s: string, n: nat)
    requires Utf8Len(s) < n
    ensures ByteSlice(s, n).None?
  {
    assert s[..|s|] == s;
    forall k | 0 <= k <= |s|
      ensures Utf8Len(s[..k]) != n
    {
      Utf8LenMono(s, k, |s|);
    }
  }

  // ---------------------------------------------------------------- ordering

  /** `Ord for str`: lexicographic by code point, which is the order of the
      UTF-8 bytes; a proper prefix comes first. */
  predicate LexLess(a: string, b: string)
    decreases |a|
  {
    if |a| == 0 then |b| > 0
    else if |b| == 0 then false
    else if a[0] != b[0] then a[0] < b[0]
    else LexLess(a[1..], b[1..])
  }

  lemma {:induction false} LexLessIrreflexive(a: string)
    ensures !LexLess(a, a)
    decreases |a|
  {
    if |a| > 0 {
      LexLessIrreflexive(a[1..]);
    }
  }

  lemma {:induction false} LexLessAsymmetric(a: string, b: string)
    ensures LexLess(a, b) ==> !LexLess(b, a)
    decreases |a|
  {
    if |a| > 0 && |b| > 0 && a[0] == b[0] {
      LexLessAsymmetric(a[1..], b[1..]);
    }
  }

  /** Any two different strings are ordered one way or the other. */
  lemma {:induction false} LexLessTotal(a: string, b: string)
    ensures a == b || LexLess(a, b) || LexLess(b, a)
    decreases |a|
  {
    if |a| > 0 && |b| > 0 && a[0] == b[0] {
      LexLessTotal(a[1..], b[1..]);
      if a[1..] == b[1..] {
        assert a == [a[0]] + a[1..] && b == [b[0]] + b[1..];
      }
    }
  }

  lemma {:induction false} LexLessTransitive(a: string, b: string, c: string)
    requires LexLess(a, b) && LexLess(b, c)
    ensures LexLess(a, c)
    decreases |a|
  {
    if |a| > 0 && a[0] == b[0] && b[0] == c[0] {
      LexLessTransitive(a[1..], b[1..], c[1..]);
    }
  }
}
