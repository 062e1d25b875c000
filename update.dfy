/** The update check: the comparison of dotted version strings, and the
    update information built from the latest GitHub release. The release
    is fetched elsewhere; the metadata parser and the deadline computation
    are parameters. */
module Update {
  import opened Base
  import opened Strings
  import opened Seqs
  import Paths

  // ---------------------------------------------------------------- versions

  /** `str::parse::<u32>`: ASCII digits after an optional `+`, below 2^32. */
  function ParseU32(s: string): (r: Option<nat>)
    ensures r.Some? ==> IsU32(r.value)
    ensures r.Some? ==> |s| > 0 && (AllDigits(s) || (s[0] == '+' && AllDigits(s[1..])))
    ensures |s| > 0 && AllDigits(s) && DigitsValue(s) < U32_LIMIT ==> r == Some(DigitsValue(s))
  {
    var digits := if |s| > 1 && s[0] == '+' then s[1..] else s;
    if |digits| > 0 && AllDigits(digits) && DigitsValue(digits) < U32_LIMIT then Some(DigitsValue(digits)) else None
  }

  /** The numeric dot-separated components; the others are dropped. */
  function Parts(v: string): (r: seq<nat>)
    ensures forall k :: 0 <= k < |r| ==> IsU32(r[k])
    ensures forall k :: 0 <= k < |r| ==> ParsedFrom(Split(v, '.'), r[k])
    ensures forall i :: 0 <= i < |Split(v, '.')| && ParseU32(Split(v, '.')[i]).Some? ==> ParseU32(Split(v, '.')[i]).value in r
  {
    ParsedExactly(Split(v, '.'));
    FilterMap(Split(v, '.'), ParseU32)
  }

  /** `x` is the value of one of the pieces. */
  predicate ParsedFrom(pieces: seq<string>, x: nat) {
    exists i :: 0 <= i < |pieces| && ParseU32(pieces[i]) == Some(x)
  }

  /** The kept components are exactly the pieces that parse. */
  lemma ParsedExactly(pieces: seq<string>)
    ensures forall k :: 0 <= k < |FilterMap(pieces, ParseU32)| ==> IsU32(FilterMap(pieces, ParseU32)[k])
    ensures forall k :: 0 <= k < |FilterMap(pieces, ParseU32)| ==> ParsedFrom(pieces, FilterMap(pieces, ParseU32)[k])
    ensures forall i :: 0 <= i < |pieces| && ParseU32(pieces[i]).Some? ==> ParseU32(pieces[i]).value in FilterMap(pieces, ParseU32)
  {
    var r := FilterMap(pieces, ParseU32);
    forall k | 0 <= k < |r|
      ensures IsU32(r[k]) && ParsedFrom(pieces, r[k])
    {
      FilterMapFrom(pieces, ParseU32, k);
      var i :| 0 <= i < |pieces| && ParseU32(pieces[i]) == Some(r[k]);
    }
    forall i | 0 <= i < |pieces| && ParseU32(pieces[i]).Some?
      ensures ParseU32(pieces[i]).value in r
    {
      FilterMapTo(pieces, ParseU32, i);
    }
  }

  /** A component, with 0 past the end. */
  function PartAt(ps: seq<nat>, i: nat): nat {
    if i < |ps| then ps[i] else 0
  }

  function Max(a: nat, b: nat): nat { if a < b then b else a }

  /** The comparison from component `i` on: -1, 0 or 1. */
  function CompareFrom(a: seq<nat>, b: seq<nat>, i: nat): (c: int)
    ensures -1 <= c <= 1
    decreases Max(|a|, |b|) - i
  {
    if i >= Max(|a|, |b|) then 0
    else if PartAt(a, i) < PartAt(b, i) then -1
    else if PartAt(a, i) > PartAt(b, i) then 1
    else CompareFrom(a, b, i + 1)
  }

  function Compare(a: seq<nat>, b: seq<nat>): int { CompareFrom(a, b, 0) }

  /** `version_is_newer(current, latest)`: latest is the larger. */
  predicate IsNewer(current: string, latest: string)
    ensures IsNewer(current, latest) ==> Compare(Parts(current), Parts(latest)) < 0
  {
    CompareFromFlip(Parts(latest), Parts(current), 0);
    Compare(Parts(latest), Parts(current)) > 0
  }

  /** `version_is_newer_or_equal(current, minimum)`. */
  predicate IsNewerOrEqual(current: string, minimum: string) { Compare(Parts(current), Parts(minimum)) >= 0 }

  /** The component loop shared by both comparisons. */
  method CompareParts(a: seq<nat>, b: seq<nat>) returns (c: int)
    ensures c == Compare(a, b)
  {
    var i := 0;
    while i < Max(|a|, |b|)
      invariant 0 <= i <= Max(|a|, |b|)
      invariant Compare(a, b) == CompareFrom(a, b, i)
    {
      var x := if i < |a| then a[i] else 0;
      var y := if i < |b| then b[i] else 0;
      if x < y {
        return -1;
      } else if x > y {
        return 1;
      }
      i := i + 1;
    }
    return 0;
  }

  method VersionIsNewer(current: string, latest: string) returns (newer: bool)
    ensures newer == IsNewer(current, latest)
  {
    var c := CompareParts(Parts(latest), Parts(current));
    newer := c > 0;
  }

  method VersionIsNewerOrEqual(current: string, minimum: string) returns (ok: bool)
    ensures ok == IsNewerOrEqual(current, minimum)
  {
    var c := CompareParts(Parts(current), Parts(minimum));
    ok := c >= 0;
  }

  /** Components `i` up to `n` are equal. */
  predicate EqualBetween(a: seq<nat>, b: seq<nat>, i: nat, n: nat) {
    forall j :: i <= j < n ==> PartAt(a, j) == PartAt(b, j)
  }

  /** `a` is larger exactly when, at the first component where they
      differ, `a`'s is larger. */
  lemma {:induction false} CompareFromFirstDifference(a: seq<nat>, b: seq<nat>, i: nat)
    ensures CompareFrom(a, b, i) > 0 <==>
      exists n :: i <= n < Max(|a|, |b|) && EqualBetween(a, b, i, n) && PartAt(a, n) > PartAt(b, n)
    ensures CompareFrom(a, b, i) == 0 <==> EqualBetween(a, b, i, Max(|a|, |b|))
    decreases Max(|a|, |b|) - i
  {
    if i < Max(|a|, |b|) && PartAt(a, i) == PartAt(b, i) {
      CompareFromFirstDifference(a, b, i + 1);
      if CompareFrom(a, b, i + 1) > 0 {
        var n :| i + 1 <= n < Max(|a|, |b|) && EqualBetween(a, b, i + 1, n) && PartAt(a, n) > PartAt(b, n);
        assert EqualBetween(a, b, i, n);
      }
      if exists n :: i <= n < Max(|a|, |b|) && EqualBetween(a, b, i, n) && PartAt(a, n) > PartAt(b, n) {
        var n :| i <= n < Max(|a|, |b|) && EqualBetween(a, b, i, n) && PartAt(a, n) > PartAt(b, n);
        assert n != i;
        assert EqualBetween(a, b, i + 1, n);
      }
      if EqualBetween(a, b, i + 1, Max(|a|, |b|)) {
        assert EqualBetween(a, b, i, Max(|a|, |b|));
      }
    } else if i < Max(|a|, |b|) {
      assert !EqualBetween(a, b, i, Max(|a|, |b|));
      if PartAt(a, i) > PartAt(b, i) {
        assert EqualBetween(a, b, i, i);
      } else {
        forall n | i < n <= Max(|a|, |b|)
          ensures !EqualBetween(a, b, i, n)
        {
          assert PartAt(a, i) != PartAt(b, i);
        }
      }
    }
  }

  /** The comparison is antisymmetric. */
  lemma {:induction false} CompareFromFlip(a: seq<nat>, b: seq<nat>, i: nat)
    ensures CompareFrom(a, b, i) == -CompareFrom(b, a, i)
    decreases Max(|a|, |b|) - i
  {
    if i < Max(|a|, |b|) && PartAt(a, i) == PartAt(b, i) {
      CompareFromFlip(a, b, i + 1);
    }
  }

  /** A version is never newer than itself. */
  lemma {:induction false} IsNewerIrreflexive(v: string)
    ensures !IsNewer(v, v) && IsNewerOrEqual(v, v)
  {
    CompareFromFlip(Parts(v), Parts(v), 0);
  }

  /** "at least the minimum" is "the minimum is not newer". */
  lemma NewerOrEqualIsNotNewer(current: string, minimum: string)
    ensures IsNewerOrEqual(current, minimum) <==> !IsNewer(current, minimum)
  {
    CompareFromFlip(Parts(current), Parts(minimum), 0);
  }

  /** Being newer is transitive. */
  lemma {:induction false} CompareFromTransitive(a: seq<nat>, b: seq<nat>, c: seq<nat>, i: nat)
    requires CompareFrom(a, b, i) > 0 && CompareFrom(b, c, i) > 0
    ensures CompareFrom(a, c, i) > 0
    decreases Max(|a|, Max(|b|, |c|)) - i
  {
    if PartAt(a, i) == PartAt(b, i) && PartAt(b, i) == PartAt(c, i) {
      assert i < Max(|a|, |b|) && i < Max(|b|, |c|);
      CompareFromTransitive(a, b, c, i + 1);
    }
  }

  lemma IsNewerTransitive(a: string, b: string, c: string)
    requires IsNewer(a, b) && IsNewer(b, c)
    ensures IsNewer(a, c)
  {
    CompareFromTransitive(Parts(c), Parts(b), Parts(a), 0);
  }

  /** Trailing zero components do not matter: "1.2" and "1.2.0" are equal. */
  lemma {:induction false} CompareFromZeroPadded(a: seq<nat>, b: seq<nat>, i: nat)
    ensures CompareFrom(a + [0], b, i) == CompareFrom(a, b, i)
    decreases Max(|a| + 1, |b|) - i
  {
    var a0 := a + [0];
    assert forall j :: PartAt(a0, j) == PartAt(a, j);
    if i < Max(|a0|, |b|) && PartAt(a0, i) == PartAt(b, i) {
      CompareFromZeroPadded(a, b, i + 1);
    }
  }

  lemma PartsZeroPadded(v: string)
    ensures Parts(v + ".0") == Parts(v) + [0]
  {
    assert v + ".0" == v + "." + "0";
    assert '.' !in "0";
    SplitAppend(v, "0");
    assert ParseU32("0") == Some(0) by { assert AllDigits("0"); }
    FilterMapAppend(Split(v, '.'), ["0"], ParseU32);
    assert FilterMap(["0"], ParseU32) == [0] by { assert ["0"][..0] == []; }
  }

  lemma ZeroPaddedEqual(v: string)
    ensures !IsNewer(v, v + ".0") && !IsNewer(v + ".0", v)
  {
    PartsZeroPadded(v);
    CompareFromZeroPadded(Parts(v), Parts(v), 0);
    CompareFromFlip(Parts(v) + [0], Parts(v), 0);
    IsNewerIrreflexive(v);
  }

  /** Splitting at an appended separator adds one piece. */
  lemma SplitAppend(s: string, piece: string)
    requires '.' !in piece
    ensures Split(s + "." + piece, '.') == Split(s, '.') + [piece]
  {
    assert s + "." + piece == s + ['.'] + piece;
    Paths.SplitConcat(s, piece, '.');
  }

  lemma SplitOneDotZero()
    ensures Split("1.0", '.') == ["1", "0"]
  {
    assert "1.0" == "1" + "." + "0";
    SplitAppend("1", "0");
  }

  /** Three dot-free pieces joined by dots split back into them. */
  lemma SplitThree(a: string, b: string, c: string)
    requires '.' !in a && '.' !in b && '.' !in c
    ensures Split(a + "." + b + "." + c, '.') == [a, b, c]
  {
    assert a + "." + b + "." + c == a + ['.'] + (b + ['.'] + c);
    Paths.SplitCons(a, b + ['.'] + c, '.');
    Paths.SplitCons(b, c, '.');
  }

  lemma SplitPreRelease()
    ensures Split("1.0.0-beta", '.') == ["1", "0", "0-beta"]
  {
    assert "1.0.0-beta" == "1" + "." + "0" + "." + "0-beta";
    SplitThree("1", "0", "0-beta");
  }

  lemma ParsedPieces()
    ensures ParseU32("1") == Some(1) && ParseU32("0") == Some(0) && ParseU32("0-beta").None?
  {
    assert AllDigits("1") && DigitsValue("1") == 1 by { assert "1"[..0] == []; }
    assert AllDigits("0") && DigitsValue("0") == 0 by { assert "0"[..0] == []; }
    assert !IsDigit("0-beta"[1]);
  }

  /** A component that is not a number is dropped: "1.0.0-beta" counts as 1.0. */
  lemma PreReleaseDropped(v: string)
    requires v == "1.0.0-beta"
    ensures Parts(v) == [1, 0]
  {
    SplitPreRelease();
    PreReleasePiecesParse();
    var pieces := ["1"] + ["0"] + ["0-beta"];
    assert Split(v, '.') == pieces;
    assert Parts(v) == FilterMap(pieces, ParseU32);
  }

  lemma PreReleasePiecesParse()
    ensures FilterMap(["1"] + ["0"] + ["0-beta"], ParseU32) == [1, 0]
  {
    ParsedPieces();
    FilterMapAppend(["1"] + ["0"], ["0-beta"], ParseU32);
    FilterMapAppend(["1"], ["0"], ParseU32);
    FilterMapSingle("1", ParseU32);
    FilterMapSingle("0", ParseU32);
    FilterMapSingle("0-beta", ParseU32);
  }

  lemma FilterMapSingle<A, B>(x: A, f: A -> Option<B>)
    ensures FilterMap([x], f) == if f(x).Some? then [f(x).value] else []
  {
    assert [x][..0] == [];
  }

  // ---------------------------------------------------------------- release info

  datatype UpdatePriority = Critical | Recommended | Optional
  datatype UpdateType = Hotfix | Feature | Patch | Major

  datatype UpdateMessage = UpdateMessage(title: string, description: string, features: seq<string>)

  datatype UpdateMetadata = UpdateMetadata(
    priority: UpdatePriority,
    update_type: UpdateType,
    force_update: bool,
    minimum_version: Option<string>,
    deadline: Option<string>,
    message: UpdateMessage)

  datatype GitHubAsset = GitHubAsset(name: string, browser_download_url: string)

  datatype GitHubRelease = GitHubRelease(tag_name: string, html_url: string, published_at: string, body: string, assets: seq<GitHubAsset>)

  datatype UpdateInfo = UpdateInfo(
    has_update: bool,
    latest_version: Option<string>,
    current_version: string,
    download_url: Option<string>,
    release_url: Option<string>,
    metadata: Option<UpdateMetadata>,
    is_forced: bool,
    days_until_deadline: Option<int>)

  /** The tag without its leading `v`s. */
  function LatestVersion(tag: string): (v: string)
    ensures |v| <= |tag| && tag == tag[..|tag| - |v|] + v
    ensures forall i :: 0 <= i < |tag| - |v| ==> tag[i] == 'v'
    ensures |v| > 0 ==> v[0] != 'v'
  {
    TrimStartChar(tag, 'v')
  }

  predicate IsDmg(a: GitHubAsset) { EndsWith(a.name, ".dmg") }

  /** The download URL of the first `.dmg` asset. */
  function DmgUrl(assets: seq<GitHubAsset>): (r: Option<string>)
    ensures r.Some? <==> exists i :: 0 <= i < |assets| && IsDmg(assets[i])
    ensures r.Some? ==> exists i :: 0 <= i < |assets| && IsDmg(assets[i]) && r.value == assets[i].browser_download_url
                                    && forall j :: 0 <= j < i ==> !IsDmg(assets[j])
  {
    match FindIndex(assets, IsDmg)
    case Some(i) => Some(assets[i].browser_download_url)
    case None => None
  }

  /** Forced only with metadata asking for it and a current version at
      least the minimum, when one is given. */
  predicate IsForced(current: string, metadata: Option<UpdateMetadata>)
    ensures IsForced(current, metadata) ==>
      && metadata.Some? && metadata.value.force_update
      && (metadata.value.minimum_version.Some? ==> !IsNewer(current, metadata.value.minimum_version.value))
  {
    if metadata.Some? && metadata.value.minimum_version.Some? then
      NewerOrEqualIsNotNewer(current, metadata.value.minimum_version.value);
      && metadata.value.force_update
      && IsNewerOrEqual(current, metadata.value.minimum_version.value)
    else
      metadata.Some? && metadata.value.force_update
  }

  /** `process_release_info`; its result is never an error. */
  method ProcessReleaseInfo(current: string, release: GitHubRelease,
                            parseMetadata: string -> Option<UpdateMetadata>, daysUntil: string -> Option<int>)
    returns (info: UpdateInfo)
    ensures info.latest_version == Some(LatestVersion(release.tag_name)) && info.current_version == current
    ensures info.has_update == IsNewer(current, LatestVersion(release.tag_name))
    ensures info.metadata == parseMetadata(release.body)
    ensures info.is_forced == IsForced(current, info.metadata)
    ensures info.download_url == DmgUrl(release.assets) && info.release_url == Some(release.html_url)
    ensures info.days_until_deadline ==
      (if info.metadata.Some? && info.metadata.value.deadline.Some? then daysUntil(info.metadata.value.deadline.value) else None)
  {
    var latest := LatestVersion(release.tag_name);
    var hasUpdate := VersionIsNewer(current, latest);
    var metadata := parseMetadata(release.body);
    var isForced := metadata.Some? && metadata.value.force_update;
    var days := if metadata.Some? && metadata.value.deadline.Some? then daysUntil(metadata.value.deadline.value) else None;
    var meetsMinimum := true;
    if metadata.Some? && metadata.value.minimum_version.Some? {
      meetsMinimum := VersionIsNewerOrEqual(current, metadata.value.minimum_version.value);
    }
    info := UpdateInfo(hasUpdate, Some(latest), current, DmgUrl(release.assets), Some(release.html_url),
                       metadata, isForced && meetsMinimum, days);
  }

  /** Without metadata an update is never forced; with a forcing one and
      no minimum it always is. */
  lemma ForcedNeedsMetadata(current: string, metadata: Option<UpdateMetadata>)
    ensures metadata.None? ==> !IsForced(current, metadata)
    ensures metadata.Some? && metadata.value.force_update && metadata.value.minimum_version.None? ==> IsForced(current, metadata)
    ensures metadata.Some? && metadata.value.minimum_version.Some? && IsNewer(current, metadata.value.minimum_version.value)
            ==> !IsForced(current, metadata)
  {
    if metadata.Some? && metadata.value.minimum_version.Some? {
      NewerOrEqualIsNotNewer(current, metadata.value.minimum_version.value);
    }
  }
}
