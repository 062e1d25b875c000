/** Project-folder name decoding and the file-size message estimate. */
module Utils {
  import opened Base
  import opened Strings

  /** What follows the `n`-th '-' of `s`, if `s` has that many. */
  function AfterDashes(s: string, n: nat): (r: Option<string>)
    ensures r.Some? ==> EndsWith(s, r.value)
    decreases n
  {
    if n == 0 then Some(s)
    else if '-' in s then
      var i := IndexOfChar(s, '-');
      var t := AfterDashes(s[i + 1..], n - 1);
      assert t.Some? ==> s[|s| - |t.value|..] == s[i + 1..][|s[i + 1..]| - |t.value|..];
      t
    else None
  }

  /** A folder name of the form "-<a>-<b>-<rest>" (the encoded absolute path
      of a project such as "/Users/name/rest") decodes to `rest`: the fourth
      piece of `splitn(4, '-')`. Anything else is kept as it is. */
  function ExtractProjectName(raw: string): (r: string)
    ensures EndsWith(raw, r)
    ensures !StartsWith(raw, "-") ==> r == raw
  {
    if StartsWith(raw, "-") then AfterDashes(raw, 3).GetOr(raw) else raw
  }

  /** The encoding of "/a/b/rest" with dash-free `a` and `b` decodes to
      `rest`, which may itself hold dashes. */
  lemma ProjectNameOfEncoded(a: string, b: string, rest: string)
    requires '-' !in a && '-' !in b
    ensures ExtractProjectName("-" + a + "-" + b + "-" + rest) == rest
  {
    var x := b + "-" + rest;
    var y := a + "-" + x;
    var s := "" + "-" + y;
    assert s == "-" + a + "-" + b + "-" + rest;
    AfterDashCons(b, rest, 0);
    AfterDashCons(a, x, 1);
    AfterDashCons("", y, 2);
    assert AfterDashes(s, 3) == Some(rest);
    assert s[..1] == "-";
  }

  /** A dash-free piece and the dash after it use up one dash. */
  lemma AfterDashCons(p: string, s: string, n: nat)
    requires '-' !in p
    ensures AfterDashes(p + "-" + s, n + 1) == AfterDashes(s, n)
  {
    var t := p + "-" + s;
    assert t[..|p|] == p;
    assert IndexOfChar(t, '-') == |p| by { FirstDash(t, |p|); }
    assert t[|p| + 1..] == s;
  }

  lemma FirstDash(s: string, i: nat)
    requires i < |s| && s[i] == '-' && '-' !in s[..i]
    ensures IndexOfChar(s, '-') == i
  {
  }

  /** `n` dashes can be skipped exactly when `s` holds at least `n` of
      them. */
  lemma {:induction false} AfterDashesCount(s: string, n: nat)
    ensures AfterDashes(s, n).Some? <==> multiset(s)['-'] >= n
    decreases n
  {
    if n > 0 {
      if '-' in s {
        var i := IndexOfChar(s, '-');
        FirstDashCounted(s, i);
        AfterDashesCount(s[i + 1..], n - 1);
      } else {
        assert multiset(s)['-'] == 0;
      }
    }
  }

  /** The first dash of `s` is one of its dashes; the rest follow it. */
  lemma FirstDashCounted(s: string, i: nat)
    requires i < |s| && s[i] == '-' && '-' !in s[..i]
    ensures multiset(s)['-'] == multiset(s[i + 1..])['-'] + 1
  {
    assert s == s[..i] + [s[i]] + s[i + 1..];
    assert multiset(s[..i])['-'] == 0;
  }

  /** A name with fewer than three dashes has fewer than four
      dash-separated parts and is kept unchanged; one with three or more
      becomes what follows its third dash, the fourth part. */
  lemma ShortNameKept(raw: string)
    requires StartsWith(raw, "-")
    ensures multiset(raw)['-'] < 3 ==> ExtractProjectName(raw) == raw
    ensures multiset(raw)['-'] >= 3 ==> AfterDashes(raw, 3).Some? && ExtractProjectName(raw) == AfterDashes(raw, 3).value
  {
    AfterDashesCount(raw, 3);
  }

  /** `max(ceil(size / 1000), 1)`: the least number of 1000-byte messages that
      cover the file, and at least one. */
  function EstimateMessageCount(fileSize: nat): (r: nat)
    ensures r >= 1
    ensures r * 1000 >= fileSize
    ensures fileSize > 0 ==> (r - 1) * 1000 < fileSize
    ensures fileSize <= 1000 ==> r == 1
  {
    var c := (fileSize + 999) / 1000;
    if c < 1 then 1 else c
  }

  /** The estimate grows with the size. */
  lemma EstimateMonotone(a: nat, b: nat)
    requires a <= b
    ensures EstimateMessageCount(a) <= EstimateMessageCount(b)
  {
  }
}
