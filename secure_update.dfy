/** The secure variant of the update check: the release's signature asset
    and the SHA-256 checksum quoted in its notes decide a security level,
    and a downloaded file is checked against a checksum. The hash itself is
    a parameter. */
module SecureUpdate {
  import opened Base
  import opened Strings
  import opened Seqs
  import opened Update

  datatype SecurityLevel = Verified | Trusted | Unverified

  /** Both a signature and a checksum verify; one of them is trusted. */
  function LevelOf(hasSignature: bool, hasChecksum: bool): (l: SecurityLevel)
    ensures l == Verified <==> hasSignature && hasChecksum
    ensures l == Unverified <==> !hasSignature && !hasChecksum
    ensures l == Trusted <==> hasSignature != hasChecksum
  {
    match (hasSignature, hasChecksum)
    case (true, true) => Verified
    case (false, false) => Unverified
    case _ => Trusted
  }

  predicate IsSignature(a: GitHubAsset) {
    EndsWith(a.name, ".sig") || EndsWith(a.name, ".asc") || EndsWith(a.name, ".signature")
  }

  /** The download URL of the first signature asset. */
  function SignatureUrl(assets: seq<GitHubAsset>): (r: Option<string>)
    ensures r.Some? <==> exists i :: 0 <= i < |assets| && IsSignature(assets[i])
    ensures r.Some? ==> exists i :: 0 <= i < |assets| && IsSignature(assets[i]) && r.value == assets[i].browser_download_url
                                    && forall j :: 0 <= j < i ==> !IsSignature(assets[j])
  {
    match FindIndex(assets, IsSignature)
    case Some(i) => Some(assets[i].browser_download_url)
    case None => None
  }

  // ---------------------------------------------------------------- the checksum pattern

  /** A character of `[:\s]`, with ASCII whitespace. */
  predicate IsSeparator(c: char) { c == ':' || IsSpace(c) }

  /** The end of the run of separators starting at `j`. */
  function SeparatorsEnd(body: string, j: nat): (k: nat)
    requires j <= |body|
    ensures j <= k <= |body|
    ensures forall m :: j <= m < k ==> IsSeparator(body[m])
    ensures k < |body| ==> !IsSeparator(body[k])
    decreases |body| - j
  {
    if j < |body| && IsSeparator(body[j]) then SeparatorsEnd(body, j + 1) else j
  }

  predicate AllHex(s: string) { forall i :: 0 <= i < |s| ==> IsHexDigit(s[i]) }

  /** "sha256", in any case, at `i`. */
  predicate TagAt(body: string, i: nat) { i + 6 <= |body| && Lower(body[i..i + 6]) == "sha256" }

  /** The match of `(?i)sha256[:\s]*([a-f0-9]{64})` starting at `i`, if one
      does: the separator run is taken whole, since no separator is a hex
      digit, and 64 hex digits must follow it. */
  function ChecksumAt(body: string, i: nat): (r: Option<string>)
    ensures r.Some? ==> |r.value| == 64 && AllHex(r.value)
    ensures r.Some? ==> TagAt(body, i)
  {
    if TagAt(body, i) then
      var k := SeparatorsEnd(body, i + 6);
      if k + 64 <= |body| && AllHex(body[k..k + 64]) then Some(body[k..k + 64]) else None
    else None
  }

  /** The converse: "sha256" at `i`, any run of separators after it and 64
      hex digits after that are a match at `i`, and those digits are the one
      reported. */
  lemma ChecksumAtMatches(body: string, i: nat, k: nat)
    requires TagAt(body, i) && i + 6 <= k && k + 64 <= |body|
    requires forall m :: i + 6 <= m < k ==> IsSeparator(body[m])
    requires AllHex(body[k..k + 64])
    ensures ChecksumAt(body, i) == Some(body[k..k + 64])
  {
    assert body[k..k + 64][0] == body[k];
  }

  /** The leftmost match from `i` on. */
  function FirstChecksumFrom(body: string, i: nat): (r: Option<string>)
    requires i <= |body|
    ensures r.None? ==> forall j :: i <= j <= |body| ==> ChecksumAt(body, j).None?
    ensures r.Some? ==> exists k :: i <= k <= |body| && ChecksumAt(body, k) == r
                                    && forall j :: i <= j < k ==> ChecksumAt(body, j).None?
    decreases |body| - i
  {
    if ChecksumAt(body, i).Some? then ChecksumAt(body, i)
    else if i == |body| then None
    else FirstChecksumFrom(body, i + 1)
  }

  /** `extract_checksum_from_release_body`. */
  function ExtractChecksum(body: string): (r: Option<string>)
    ensures r.Some? ==> |r.value| == 64 && AllHex(r.value)
  {
    FirstChecksumFrom(body, 0)
  }

  /** A checksum quoted without separators is found. */
  lemma QuotedChecksumFound(prefix: string, tag: string, digest: string)
    requires Lower(tag) == "sha256" && |digest| == 64 && AllHex(digest)
    requires forall j :: 0 <= j < |prefix| ==> ChecksumAt(prefix + tag + digest, j).None?
    ensures ExtractChecksum(prefix + tag + digest) == Some(digest)
  {
    var body := prefix + tag + digest;
    var i := |prefix|;
    assert body[i..i + 6] == tag;
    assert body[i + 6..i + 70] == digest;
    assert forall m :: 0 <= m < 64 ==> body[i + 6 + m] == digest[m];
    assert !IsSeparator(body[i + 6]) by { assert IsHexDigit(digest[0]); }
    assert SeparatorsEnd(body, i + 6) == i + 6;
    assert ChecksumAt(body, i) == Some(digest);
    FirstIsLeftmost(body, 0, i);
  }

  /** When `k` matches and nothing from `i` up to it does, the first match
      from `i` is that of `k`. */
  lemma {:induction false} FirstIsLeftmost(body: string, i: nat, k: nat)
    requires i <= k <= |body| && ChecksumAt(body, k).Some?
    requires forall j :: i <= j < k ==> ChecksumAt(body, j).None?
    ensures FirstChecksumFrom(body, i) == ChecksumAt(body, k)
    decreases k - i
  {
    if i < k {
      FirstIsLeftmost(body, i + 1, k);
    }
  }

  /** A body without "sha256" in any case has no checksum. */
  lemma NoTagNoChecksum(body: string)
    requires forall i: nat :: !TagAt(body, i)
    ensures ExtractChecksum(body).None?
  {
  }

  // ---------------------------------------------------------------- security info

  datatype SecurityInfo = SecurityInfo(download_url: Option<string>, signature_url: Option<string>,
                                       checksum: Option<string>, security_level: SecurityLevel)

  /** `analyze_security_info`. */
  function AnalyzeSecurityInfo(release: GitHubRelease): (r: SecurityInfo)
    ensures r.download_url == DmgUrl(release.assets) && r.signature_url == SignatureUrl(release.assets)
    ensures r.checksum == ExtractChecksum(release.body)
    ensures r.security_level == Verified <==> r.signature_url.Some? && r.checksum.Some?
    ensures r.security_level == Unverified <==> r.signature_url.None? && r.checksum.None?
  {
    var signature := SignatureUrl(release.assets);
    var checksum := ExtractChecksum(release.body);
    SecurityInfo(DmgUrl(release.assets), signature, checksum, LevelOf(signature.Some?, checksum.Some?))
  }

  datatype SecureUpdateInfo = SecureUpdateInfo(
    has_update: bool,
    latest_version: Option<string>,
    current_version: string,
    download_url: Option<string>,
    signature_url: Option<string>,
    checksum: Option<string>,
    release_url: Option<string>,
    is_verified: bool,
    security_level: SecurityLevel)

  /** What `check_for_updates_secure` builds once the release is fetched. */
  method SecureUpdateInfoOf(current: string, release: GitHubRelease) returns (info: SecureUpdateInfo)
    ensures info.latest_version == Some(LatestVersion(release.tag_name)) && info.current_version == current
    ensures info.has_update == IsNewer(current, LatestVersion(release.tag_name))
    ensures var s := AnalyzeSecurityInfo(release);
      && info.download_url == s.download_url && info.signature_url == s.signature_url
      && info.checksum == s.checksum && info.security_level == s.security_level
    ensures info.is_verified <==> info.security_level == Verified
    ensures info.release_url == Some(release.html_url)
  {
    var latest := LatestVersion(release.tag_name);
    var hasUpdate := VersionIsNewer(current, latest);
    var s := AnalyzeSecurityInfo(release);
    info := SecureUpdateInfo(hasUpdate, Some(latest), current, s.download_url, s.signature_url, s.checksum,
                             Some(release.html_url), s.security_level == Verified, s.security_level);
  }

  // ---------------------------------------------------------------- integrity

  datatype FileRead = OpenFailed(error: string) | ReadFailed(error: string) | Contents(bytes: seq<bv8>)

  /** The digests agree up to the case of their letters. */
  predicate DigestsMatch(calculated: string, expected: string) { Lower(calculated) == Lower(expected) }

  /** `verify_download_integrity`, with the hex SHA-256 digest as `hash`. */
  function VerifyDownloadIntegrity(file: FileRead, expected: string, hash: seq<bv8> -> string): (r: Result<bool>)
    ensures file.OpenFailed? ==> r == Err("FILE_READ_ERROR: Failed to open file: " + file.error)
    ensures file.ReadFailed? ==> r == Err("FILE_READ_ERROR: Failed to read file: " + file.error)
    ensures file.Contents? ==> r == Ok(DigestsMatch(hash(file.bytes), expected))
  {
    match file
    case OpenFailed(e) => Err("FILE_READ_ERROR: Failed to open file: " + e)
    case ReadFailed(e) => Err("FILE_READ_ERROR: Failed to read file: " + e)
    case Contents(bytes) => Ok(Lower(hash(bytes)) == Lower(expected))
  }

  lemma {:induction false} LowerIdempotent(s: string)
    ensures Lower(Lower(s)) == Lower(s)
  {
    var l := Lower(s);
    forall i | 0 <= i < |s| ensures Lower(l)[i] == l[i] {
    }
  }

  /** The comparison ignores case: a checksum quoted in capitals matches the
      lower-case digest, and the lower-cased form matches the same files. */
  lemma DigestCaseInsensitive(calculated: string, expected: string)
    ensures DigestsMatch(calculated, Lower(expected)) == DigestsMatch(calculated, expected)
    ensures DigestsMatch(Lower(calculated), expected) == DigestsMatch(calculated, expected)
    ensures DigestsMatch(calculated, expected) == DigestsMatch(expected, calculated)
    ensures DigestsMatch(calculated, calculated)
  {
    LowerIdempotent(expected);
    LowerIdempotent(calculated);
  }
}
