/** The offline URL normaliser that gives a tool its strong identifiers. */
module Normalizer {
  import opened Wrappers
  import opened Text

  datatype Identifier = Identifier(ns: string, value: string, canonicalUrl: string)

  // `NormalizedIdentifier::key`
  function Key(id: Identifier): string { id.ns + ":" + id.value }

  // ── Searching ──

  predicate OccursAt(s: string, pattern: string, i: nat) {
    i + |pattern| <= |s| && s[i..i + |pattern|] == pattern
  }

  predicate Contains(s: string, pattern: string) {
    exists i {:trigger OccursAt(s, pattern, i)} :: 0 <= i <= |s| && OccursAt(s, pattern, i)
  }

  predicate EndsWith(s: string, suffix: string) {
    |suffix| <= |s| && s[|s| - |suffix|..] == suffix
  }

  // The first place of a pattern.
  function Find(s: string, pattern: string): Option<nat> { FindFrom(s, pattern, 0) }

  function FindFrom(s: string, pattern: string, i: nat): (r: Option<nat>)
    requires i <= |s|
    ensures r.Some? ==> i <= r.value && OccursAt(s, pattern, r.value)
    ensures r.Some? ==> forall j: nat :: i <= j < r.value ==> !OccursAt(s, pattern, j)
    ensures r.None? ==> forall j: nat :: i <= j <= |s| ==> !OccursAt(s, pattern, j)
    decreases |s| - i
  {
    if OccursAt(s, pattern, i) then Some(i)
    else if i == |s| then None
    else FindFrom(s, pattern, i + 1)
  }

  // The last colon.
  function LastColon(s: string): (r: Option<nat>)
    ensures r.Some? ==> r.value < |s| && s[r.value] == ':' && ':' !in s[r.value + 1..]
    ensures r.None? ==> ':' !in s
  {
    if s == [] then None
    else if s[|s| - 1] == ':' then Some(|s| - 1)
    else
      assert s == s[..|s| - 1] + [s[|s| - 1]];
      var r := LastColon(s[..|s| - 1]);
      assert r.Some? ==> s[r.value + 1..] == s[..|s| - 1][r.value + 1..] + [s[|s| - 1]];
      r
  }

  function FirstSlash(s: string): (i: nat)
    ensures i <= |s| && '/' !in s[..i] && (i < |s| ==> s[i] == '/')
  {
    if s == [] || s[0] == '/' then 0
    else
      var i := FirstSlash(s[1..]) + 1;
      assert s[..i] == [s[0]] + s[1..][..i - 1];
      i
  }

  function StripSlashes(s: string): (r: string)
    ensures |r| <= |s| && r == s[..|r|]
    ensures r != [] ==> r[|r| - 1] != '/'
    ensures |r| < |s| ==> s[|r|] == '/'
  {
    if s != [] && s[|s| - 1] == '/' then
      var r := StripSlashes(s[..|s| - 1]);
      assert |r| == |s| - 1 ==> s[|r|] == '/';
      r
    else s
  }

  // The parts between slashes.
  function Split(s: string): seq<string>
    decreases |s|
  {
    var i := FirstSlash(s);
    if i == |s| then [s] else [s[..i]] + Split(s[i + 1..])
  }

  function NonEmpty(parts: seq<string>): seq<string> {
    if parts == [] then []
    else if parts[0] == "" then NonEmpty(parts[1..])
    else [parts[0]] + NonEmpty(parts[1..])
  }

  // ── The port ──

  predicate AllDigits(s: string) { forall i :: 0 <= i < |s| ==> IsDigit(s[i]) }

  function Decimal(s: string): nat
    requires AllDigits(s)
  {
    if s == [] then 0 else 10 * Decimal(s[..|s| - 1]) + (s[|s| - 1] as int - '0' as int)
  }

  // Rust's `parse::<u16>`: one leading plus sign is allowed, leading zeros are, and nothing else.
  function ParseU16(s: string): Option<nat> {
    var digits := if |s| > 1 && s[0] == '+' then s[1..] else s;
    if digits != [] && AllDigits(digits) && Decimal(digits) <= 65535 then Some(Decimal(digits)) else None
  }

  // ── The parts of a URL ──

  predicate Plain(c: char) { c < '\U{80}' && !IsWhitespace(c) && c != '\\' }

  predicate AllPlain(s: string) { forall i :: 0 <= i < |s| ==> Plain(s[i]) }

  predicate PathOk(path: string) {
    || path == ""
    || (&& '?' !in path && '#' !in path && '%' !in path
        && !Contains(path, "//") && !Contains(path, "/./") && !Contains(path, "/../")
        && !EndsWith(path, "/.") && !EndsWith(path, "/.."))
  }

  // The host before an optional port 443.
  function HostOf(authority: string): Option<string> {
    match LastColon(authority)
    case None => Some(authority)
    case Some(colon) =>
      if ':' in authority[..colon] then None
      else if ParseU16(authority[colon + 1..]) == Some(443) then Some(authority[..colon])
      else None
  }

  datatype Parts = Parts(host: string, path: string)

  // Lower-case host and path without trailing slashes, of what follows the scheme.
  function SplitRest(rest: string): Option<Parts> {
    var slash := FirstSlash(rest);
    if '@' in rest || !PathOk(rest[slash..]) then None
    else
      match HostOf(rest[..slash])
      case None => None
      case Some(host) =>
        if host == "" || EndsWith(Lower(host), ".") then None
        else Some(Parts(Lower(host), StripSlashes(rest[slash..])))
  }

  function SplitUrl(raw: string): Option<Parts> {
    if Trim(raw) != raw || !AllPlain(raw) then None
    else
      match Find(raw, "://")
      case None => None
      case Some(end) => if Lower(raw[..end]) != "https" then None else SplitRest(raw[end + 3..])
  }

  // ── The identifier ──

  // A `.git` ending of any case is dropped.
  function WithoutGit(repo: string): string {
    if EndsWith(Lower(repo), ".git") then repo[..|repo| - 4] else repo
  }

  function GithubId(owner: string, repo: string): Identifier {
    var value := Lower(owner) + "/" + Lower(repo);
    Identifier("github", value, "https://github.com/" + value)
  }

  function UrlId(host: string, path: string): Identifier {
    Identifier("url", host + path, "https://" + host + path)
  }

  function IdentifierOf(p: Parts): Option<Identifier> {
    if p.host == "github.com" then
      var segments := NonEmpty(Split(p.path));
      if |segments| != 2 || WithoutGit(segments[1]) == "" then None
      else Some(GithubId(segments[0], WithoutGit(segments[1])))
    else Some(UrlId(p.host, p.path))
  }

  // `normalize_url`
  function NormalizeUrl(raw: string): Option<Identifier> {
    match SplitUrl(raw)
    case None => None
    case Some(parts) => IdentifierOf(parts)
  }

  // `validate_tool_id_format`
  predicate ToolIdFormat(toolId: string) {
    var rest :=
      if "github:" <= toolId then toolId[7..]
      else if "url:" <= toolId then toolId[4..]
      else "";
    rest != "" && forall i :: 0 <= i < |rest| ==> !IsWhitespace(rest[i])
  }
}
