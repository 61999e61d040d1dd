/** What the normaliser makes of a text, spelled out character by character. */
module NormalizerMeaning {
  import opened Wrappers
  import opened Text
  import opened Normalizer
  import opened NormalizerProperties

  // ── Characters ──

  predicate Printable(c: char) { c < '\U{80}' && !('\t' <= c <= '\r') && c != ' ' && c != '\\' }

  // `b` is `a` with its capital letters in lower case.
  predicate LowerOf(a: string, b: string) {
    |a| == |b| && forall i :: 0 <= i < |a| ==>
      if 'A' <= a[i] <= 'Z' then b[i] as int == a[i] as int + 32 else b[i] == a[i]
  }

  lemma {:induction false} LowerIs(a: string, b: string)
    ensures Lower(a) == b <==> LowerOf(a, b)
  {
    if LowerOf(a, b) {
      forall i | 0 <= i < |a| ensures Lower(a)[i] == b[i] {}
      assert Lower(a) == b;
    }
  }

  lemma {:induction false} PlainIs(s: string)
    ensures AllPlain(s) <==> forall i :: 0 <= i < |s| ==> Printable(s[i])
  {
  }

  // ── The port ──

  predicate Zeros(s: string) { forall i :: 0 <= i < |s| ==> s[i] == '0' }

  // Digits that spell 443, whatever zeros come first.
  ghost predicate Spells443(s: string) { |s| >= 3 && s[|s| - 3..] == "443" && Zeros(s[..|s| - 3]) }

  // Nothing, or a colon and 443 with zeros before it and a plus sign before those.
  ghost predicate HttpsPort(port: string) {
    || port == ""
    || (port[0] == ':' && (Spells443(port[1..]) || (|port| > 1 && port[1] == '+' && Spells443(port[2..]))))
  }

  lemma {:induction false} DecimalZero(s: string)
    requires AllDigits(s)
    ensures Decimal(s) == 0 <==> Zeros(s)
  {
    if s != [] {
      var n := |s| - 1;
      DecimalZero(s[..n]);
      assert s == s[..n] + [s[n]];
    }
  }

  lemma {:induction false} DecimalIs443(s: string)
    requires AllDigits(s)
    ensures Decimal(s) == 443 <==> Spells443(s)
  {
    if |s| >= 3 {
      var n := |s|;
      var a, b, c := s[..n - 1], s[..n - 2], s[..n - 3];
      assert a[..n - 2] == b && b[..n - 3] == c && a[n - 2] == s[n - 2] && b[n - 3] == s[n - 3];
      DecimalZero(c);
      assert Decimal(a) == 10 * Decimal(b) + Value(a[n - 2]) && Decimal(b) == 10 * Decimal(c) + Value(b[n - 3]);
      assert Decimal(s) == 10 * Decimal(a) + Value(s[n - 1]);
      assert Decimal(s) == 1000 * Decimal(c) + 100 * Value(s[n - 3]) + 10 * Value(s[n - 2]) + Value(s[n - 1]);
      assert s[n - 3..] == [s[n - 3], s[n - 2], s[n - 1]];
      assert "443" == ['4', '4', '3'];
    } else {
      ShortDecimal(s);
    }
  }

  function Value(c: char): nat
    requires IsDigit(c)
  {
    c as int - '0' as int
  }

  lemma {:induction false} ShortDecimal(s: string)
    requires AllDigits(s) && |s| < 3
    ensures Decimal(s) < 100
  {
    if |s| == 2 {
      assert s[..1][..0] == [];
      assert Decimal(s[..1]) == Value(s[0]);
    } else if |s| == 1 {
      assert s[..0] == [];
    }
  }

  lemma {:induction false} Spelled443IsDigits(s: string)
    requires Spells443(s)
    ensures AllDigits(s) && s != ""
  {
    forall i | 0 <= i < |s| ensures IsDigit(s[i]) {
      if i < |s| - 3 { assert s[i] == s[..|s| - 3][i]; } else { assert s[i] == s[|s| - 3..][i - (|s| - 3)] == "443"[i - (|s| - 3)]; }
    }
  }

  lemma {:induction false} ParsedIs443(s: string)
    ensures ParseU16(s) == Some(443) <==> Spells443(s) || (s != "" && s[0] == '+' && Spells443(s[1..]))
  {
    hide Decimal, Spells443;
    if s != "" && s[0] == '+' && Spells443(s) { Spelled443IsDigits(s); }
    if Spells443(s) { Spelled443IsDigits(s); }
    if s != "" && Spells443(s[1..]) { Spelled443IsDigits(s[1..]); }
    if s != "" && AllDigits(s[1..]) { DecimalIs443(s[1..]); }
    if AllDigits(s) { DecimalIs443(s); }
  }

  lemma {:induction false} PortIs(port: string)
    ensures DefaultPort(port) <==> HttpsPort(port)
  {
    hide ParseU16, Spells443;
    if port != "" {
      ParsedIs443(port[1..]);
      assert |port| > 1 ==> port[1..][0] == port[1] && port[1..][1..] == port[2..];
    }
  }

  // ── The path ──

  // A dot segment begins after the slash at `i`.
  predicate DotsAfter(path: string, i: nat)
    requires i < |path|
  {
    var n := |path|;
    path[i] == '/' && i + 1 < n && path[i + 1] == '.'
    && (i + 2 == n || path[i + 2] == '/' || (path[i + 2] == '.' && (i + 3 == n || path[i + 3] == '/')))
  }

  // Nothing, or slashes each followed by a segment that is not empty, but for the last, and not of one or two
  // dots.
  ghost predicate CleanPath(path: string) {
    && (path != "" ==> path[0] == '/')
    && '?' !in path && '#' !in path && '%' !in path && '@' !in path
    && (forall i :: 0 <= i < |path| - 1 ==> !(path[i] == '/' && path[i + 1] == '/'))
    && forall i :: 0 <= i < |path| ==> !DotsAfter(path, i)
  }

  lemma {:induction false} SlashesAre(path: string)
    ensures Contains(path, "//") <==> exists i :: 0 <= i < |path| - 1 && path[i] == '/' && path[i + 1] == '/'
  {
    if Contains(path, "//") {
      var i :| 0 <= i <= |path| && OccursAt(path, "//", i);
      assert path[i] == path[i..i + 2][0] && path[i + 1] == path[i..i + 2][1];
    }
    if i :| 0 <= i < |path| - 1 && path[i] == '/' && path[i + 1] == '/' {
      assert path[i..i + 2] == "//";
      assert OccursAt(path, "//", i);
    }
  }

  // The four ways in which a path shows a dot segment.
  ghost predicate ShowsDots(path: string) {
    Contains(path, "/./") || Contains(path, "/../") || EndsWith(path, "/.") || EndsWith(path, "/..")
  }

  lemma {:induction false} DotsShow(path: string, i: nat)
    requires i < |path| && DotsAfter(path, i)
    ensures ShowsDots(path)
  {
    var n := |path|;
    if i + 2 == n {
      assert path[n - 2..] == "/.";
    } else if path[i + 2] == '/' {
      assert path[i..i + 3] == "/./";
      assert OccursAt(path, "/./", i);
    } else if i + 3 == n {
      assert path[n - 3..] == "/..";
    } else {
      assert path[i..i + 4] == "/../";
      assert OccursAt(path, "/../", i);
    }
  }

  lemma {:induction false} ShownDots(path: string)
    requires ShowsDots(path)
    ensures exists i :: 0 <= i < |path| && DotsAfter(path, i)
  {
    var n := |path|;
    if Contains(path, "/./") {
      var i :| 0 <= i <= n && OccursAt(path, "/./", i);
      var t := path[i..i + 3];
      assert path[i] == t[0] && path[i + 1] == t[1] && path[i + 2] == t[2];
      assert DotsAfter(path, i);
    } else if Contains(path, "/../") {
      var i :| 0 <= i <= n && OccursAt(path, "/../", i);
      var t := path[i..i + 4];
      assert path[i] == t[0] && path[i + 1] == t[1] && path[i + 2] == t[2] && path[i + 3] == t[3];
      assert DotsAfter(path, i);
    } else if EndsWith(path, "/.") {
      var t := path[n - 2..];
      assert path[n - 2] == t[0] && path[n - 1] == t[1];
      assert DotsAfter(path, n - 2);
    } else {
      var t := path[n - 3..];
      assert path[n - 3] == t[0] && path[n - 2] == t[1] && path[n - 1] == t[2];
      assert DotsAfter(path, n - 3);
    }
  }

  lemma {:induction false} PathIs(path: string)
    ensures (path != "" ==> path[0] == '/') && PathOk(path) && '@' !in path <==> CleanPath(path)
  {
    hide DotsAfter, Contains, EndsWith;
    SlashesAre(path);
    if i :| 0 <= i < |path| && DotsAfter(path, i) { DotsShow(path, i); }
    if ShowsDots(path) { ShownDots(path); }
  }

  // A final slash is dropped.
  ghost predicate Unslashed(p: string, path: string) {
    (p == path || p == path + "/") && (path != "" ==> path[|path| - 1] != '/')
  }

  lemma {:induction false} StripIs(p: string, path: string)
    requires CleanPath(p)
    ensures StripSlashes(p) == path <==> Unslashed(p, path)
  {
    hide DotsAfter;
    var n := |p| - 1;
    if p != "" && p[n] == '/' {
      assert n > 0 ==> p[n - 1] != '/';
      assert p == p[..n] + "/";
      assert StripSlashes(p[..n]) == p[..n];
      if p == path + "/" { assert path == p[..n]; }
    }
  }

  // ── The identifier ──

  // The repository without an ending `.git` of any case.
  ghost predicate GitDropped(repo: string, name: string) {
    || (exists e :: repo == name + e && LowerOf(e, ".git"))
    || (name == repo && forall m, e :: repo == m + e ==> !LowerOf(e, ".git"))
  }

  lemma {:induction false} LowerTail(repo: string, m: string, e: string)
    requires repo == m + e && |e| == 4
    ensures EndsWith(Lower(repo), ".git") <==> LowerOf(e, ".git")
    ensures repo[..|repo| - 4] == m
  {
    LowerIs(e, ".git");
    assert Lower(repo)[|repo| - 4..] == Lower(e);
  }

  lemma {:induction false} GitIs(repo: string, name: string)
    ensures WithoutGit(repo) == name <==> GitDropped(repo, name)
  {
    hide LowerOf, EndsWith;
    if |repo| >= 4 {
      var m, e := repo[..|repo| - 4], repo[|repo| - 4..];
      assert repo == m + e;
      LowerTail(repo, m, e);
    }
    forall m, e | repo == m + e && LowerOf(e, ".git") ensures |e| == 4 && EndsWith(Lower(repo), ".git") && m == repo[..|repo| - 4] {
      SameLength(e, ".git");
      LowerTail(repo, m, e);
    }
    if EndsWith(Lower(repo), ".git") { LongEnough(repo); }
  }

  lemma {:induction false} SameLength(a: string, b: string)
    requires LowerOf(a, b)
    ensures |a| == |b|
  {
  }

  lemma {:induction false} LongEnough(repo: string)
    requires EndsWith(Lower(repo), ".git")
    ensures |repo| >= 4
  {
  }

  ghost predicate Repository(path: string, id: Identifier, owner: string, repo: string, name: string, o: string, n: string) {
    && path == "/" + owner + "/" + repo && owner != "" && '/' !in owner && '/' !in repo
    && GitDropped(repo, name) && name != "" && LowerOf(owner, o) && LowerOf(name, n)
    && id == Identifier("github", o + "/" + n, "https://github.com/" + (o + "/" + n))
  }

  // On github.com the owner and the repository, of exactly that path; elsewhere the host and the path.
  ghost predicate Identifies(host: string, path: string, id: Identifier) {
    if host == "github.com" then exists owner, repo, name, o, n :: Repository(path, id, owner, repo, name, o, n)
    else id == Identifier("url", host + path, "https://" + host + path)
  }

  lemma {:induction false} GithubIs(path: string, id: Identifier)
    requires GoodPath(path)
    ensures IdentifierOf(Parts("github.com", path)) == Some(id) <==> Identifies("github.com", path, id)
  {
    hide GoodPath, GitDropped, LowerOf, WithoutGit, IdentifierOf;
    GithubExactly(path, id);
    if IdentifierOf(Parts("github.com", path)) == Some(id) {
      var owner, repo :| NormalizerProperties.Repository(owner, repo) && path == "/" + owner + "/" + repo
                         && WithoutGit(repo) != "" && id == GithubId(owner, WithoutGit(repo));
      GitIs(repo, WithoutGit(repo));
      LowerIs(owner, Lower(owner));
      LowerIs(WithoutGit(repo), Lower(WithoutGit(repo)));
      assert Repository(path, id, owner, repo, WithoutGit(repo), Lower(owner), Lower(WithoutGit(repo)));
    }
    if owner, repo, name, o, n :| Repository(path, id, owner, repo, name, o, n) {
      GitIs(repo, name);
      LowerIs(owner, o);
      LowerIs(name, n);
      NamedIsNot(repo, name);
      assert NormalizerProperties.Repository(owner, repo);
      assert id == GithubId(owner, WithoutGit(repo));
    }
  }

  lemma {:induction false} NamedIsNot(repo: string, name: string)
    requires GitDropped(repo, name) && name != ""
    ensures repo != ""
  {
  }

  // ── The whole text ──

  // `raw` is a scheme, a host, a port and a path, and stands for the identifier.
  ghost predicate Written(raw: string, scheme: string, h: string, port: string, p: string, host: string, path: string) {
    && raw == scheme + "://" + (h + port + p) && (forall i :: 0 <= i < |raw| ==> Printable(raw[i]))
    && LowerOf(scheme, "https")
    && h != "" && '/' !in h && ':' !in h && '@' !in h && h[|h| - 1] != '.' && LowerOf(h, host)
    && HttpsPort(port) && CleanPath(p) && Unslashed(p, path)
  }

  lemma {:induction false} LastDot(h: string)
    requires h != ""
    ensures EndsWith(Lower(h), ".") <==> h[|h| - 1] == '.'
  {
    var n := |h| - 1;
    assert Lower(h)[n..] == [LowerChar(h[n])];
    assert "." == ['.'];
  }

  lemma {:induction false} WrittenSpells(raw: string, scheme: string, h: string, port: string, p: string, host: string, path: string)
    ensures Written(raw, scheme, h, port, p, host, path) <==>
            Spells(raw, scheme, h, port, p) && Lower(h) == host && StripSlashes(p) == path
  {
    hide LowerOf, HttpsPort, DefaultPort, CleanPath, Unslashed, PathOk, StripSlashes, AllPlain, EndsWith, Printable;
    PlainIs(raw);
    LowerIs(scheme, "https");
    LowerIs(h, host);
    PortIs(port);
    PathIs(p);
    if h != "" { LastDot(h); }
    if CleanPath(p) { StripIs(p, path); }
  }

  // A text has an identifier exactly when it is written as such a URL, and then it is that of the host in
  // lower case and the path.
  lemma {:induction false} NormalizesExactly(raw: string, id: Identifier)
    ensures NormalizeUrl(raw) == Some(id) <==>
            exists scheme, h, port, p, host, path :: Written(raw, scheme, h, port, p, host, path) && Identifies(host, path, id)
  {
    hide SplitUrl, Written, Identifies, Spells, IdentifierOf;
    if NormalizeUrl(raw) == Some(id) {
      var host, path := SplitUrl(raw).value.host, SplitUrl(raw).value.path;
      AcceptedExactly(raw, host, path);
      var scheme, h, port, p :| Spells(raw, scheme, h, port, p) && Lower(h) == host && StripSlashes(p) == path;
      WrittenSpells(raw, scheme, h, port, p, host, path);
      IdentifierIs(raw, host, path, id);
    }
    if scheme, h, port, p, host, path :| Written(raw, scheme, h, port, p, host, path) && Identifies(host, path, id) {
      WrittenSpells(raw, scheme, h, port, p, host, path);
      AcceptedExactly(raw, host, path);
      IdentifierIs(raw, host, path, id);
    }
  }

  lemma {:induction false} IdentifierIs(raw: string, host: string, path: string, id: Identifier)
    requires SplitUrl(raw) == Some(Parts(host, path))
    ensures IdentifierOf(Parts(host, path)) == Some(id) <==> Identifies(host, path, id)
  {
    hide SplitUrl, Repository, GoodHost, GoodPath, Split, NonEmpty;
    UrlPartsAreGood(raw);
    if host == "github.com" { GithubIs(path, id); }
  }
}
