/** When normalising is idempotent, and what a normalised identifier determines. */
module NormalizerProperties {
  import opened Wrappers
  import opened Text
  import opened Normalizer

  // ── Paths ──

  predicate SlashFree(s: string) { '/' !in s }

  lemma {:induction false} ContainsPrefix(s: string, k: nat, pattern: string)
    requires k <= |s| && Contains(s[..k], pattern)
    ensures Contains(s, pattern)
  {
    var i :| 0 <= i <= k && OccursAt(s[..k], pattern, i);
    assert s[i..i + |pattern|] == s[..k][i..i + |pattern|];
    assert OccursAt(s, pattern, i);
  }

  lemma {:induction false} EndsBeforeSlash(s: string, k: nat, suffix: string)
    requires k < |s| && s[k] == '/' && EndsWith(s[..k], suffix)
    ensures Contains(s, suffix + "/")
  {
    var i := k - |suffix|;
    assert s[i..i + |suffix| + 1] == s[..k][i..] + [s[k]];
    assert OccursAt(s, suffix + "/", i);
  }

  lemma {:induction false} PrefixAvoids(s: string, k: nat, pattern: string)
    requires k <= |s| && !Contains(s, pattern)
    ensures !Contains(s[..k], pattern)
  {
    if Contains(s[..k], pattern) { ContainsPrefix(s, k, pattern); }
  }

  lemma {:induction false} NoDotBeforeSlash(s: string, k: nat, suffix: string, segment: string)
    requires k < |s| && s[k] == '/' && segment == suffix + "/" && !Contains(s, segment)
    ensures !EndsWith(s[..k], suffix)
  {
    if EndsWith(s[..k], suffix) { EndsBeforeSlash(s, k, suffix); }
  }

  // A path that passed stays passable once its trailing slashes are gone.
  lemma {:induction false} StripKeepsPath(path: string)
    requires PathOk(path)
    ensures PathOk(StripSlashes(path))
    ensures StripSlashes(StripSlashes(path)) == StripSlashes(path)
  {
    hide Contains, EndsWith;
    var s := StripSlashes(path);
    if s != "" {
      PrefixAvoids(path, |s|, "//");
      PrefixAvoids(path, |s|, "/./");
      PrefixAvoids(path, |s|, "/../");
      if |s| < |path| {
        NoDotBeforeSlash(path, |s|, "/.", "/./");
        NoDotBeforeSlash(path, |s|, "/..", "/../");
      }
    }
  }

  // ── What the parts of an accepted URL look like ──

  ghost predicate GoodHost(host: string) {
    && host != "" && !EndsWith(host, ".")
    && SlashFree(host) && ':' !in host && '@' !in host
    && AllPlain(host) && Lower(host) == host
  }

  ghost predicate GoodPath(path: string) {
    && PathOk(path) && StripSlashes(path) == path && '@' !in path && AllPlain(path)
    && (path != "" ==> path[0] == '/')
  }

  lemma {:induction false} LowerKeeps(s: string)
    ensures |Lower(s)| == |s|
    ensures AllPlain(s) ==> AllPlain(Lower(s))
    ensures '/' in Lower(s) <==> '/' in s
    ensures ':' in Lower(s) <==> ':' in s
    ensures '@' in Lower(s) <==> '@' in s
    ensures '?' in Lower(s) <==> '?' in s
    ensures '#' in Lower(s) <==> '#' in s
    ensures '%' in Lower(s) <==> '%' in s
  {
    forall c: char | !('a' <= c <= 'z') && !('A' <= c <= 'Z') ensures c in Lower(s) <==> c in s {
      if c in s { var i :| 0 <= i < |s| && s[i] == c; assert Lower(s)[i] == c; }
      if c in Lower(s) { var i :| 0 <= i < |s| && Lower(s)[i] == c; assert s[i] == c; }
    }
  }

  lemma {:induction false} HostIsGood(authority: string)
    requires HostOf(authority).Some? && SlashFree(authority) && '@' !in authority && AllPlain(authority)
    requires HostOf(authority).value != "" && !EndsWith(Lower(HostOf(authority).value), ".")
    ensures GoodHost(Lower(HostOf(authority).value))
  {
    var host := HostOf(authority).value;
    assert host == authority[..|host|];
    LowerKeeps(host);
    LowerIdempotent(host);
  }

  lemma {:induction false} PartsAreGood(rest: string)
    requires SplitRest(rest).Some? && AllPlain(rest)
    ensures GoodHost(SplitRest(rest).value.host) && GoodPath(SplitRest(rest).value.path)
  {
    hide HostOf, Contains, EndsWith;
    var slash := FirstSlash(rest);
    HostIsGood(rest[..slash]);
    StripKeepsPath(rest[slash..]);
  }

  lemma {:induction false} UrlPartsAreGood(raw: string)
    requires SplitUrl(raw).Some?
    ensures GoodHost(SplitUrl(raw).value.host) && GoodPath(SplitUrl(raw).value.path)
  {
    PartsAreGood(raw[Find(raw, "://").value + 3..]);
  }

  // ── Reading canonical text back ──

  lemma {:induction false} FirstSlashOf(host: string, path: string)
    requires SlashFree(host) && (path != "" ==> path[0] == '/')
    ensures FirstSlash(host + path) == |host|
  {
    var s := host + path;
    var i := FirstSlash(s);
    assert forall j :: 0 <= j < |host| ==> s[j] == host[j] && s[j] != '/';
    assert path != "" ==> s[|host|] == '/';
    assert forall j :: 0 <= j < i ==> s[..i][j] == s[j];
  }

  lemma {:induction false} GoodPartsParse(host: string, path: string)
    requires GoodHost(host) && GoodPath(path)
    ensures SplitRest(host + path) == Some(Parts(host, path))
  {
    FirstSlashOf(host, path);
    var rest := host + path;
    assert rest[..|host|] == host && rest[|host|..] == path;
  }

  lemma {:induction false} NoTrim(s: string)
    requires AllPlain(s)
    ensures Trim(s) == s
  {
    TrimIsProjection(s);
  }

  lemma {:induction false} SchemeFound(rest: string)
    ensures Find("https://" + rest, "://") == Some(5)
    ensures ("https://" + rest)[5 + 3..] == rest && ("https://" + rest)[..5] == "https"
  {
    var raw := "https://" + rest;
    assert OccursAt(raw, "://", 5) by { assert raw[5..8] == "://"; }
    forall j: nat | j < 5 ensures !OccursAt(raw, "://", j) {
      assert raw[j] != ':' && raw[j..j + 3][0] == raw[j];
    }
  }

  // The canonical text of good parts parses back to them.
  lemma {:induction false} CanonicalParses(host: string, path: string)
    requires GoodHost(host) && GoodPath(path)
    ensures SplitUrl("https://" + host + path) == Some(Parts(host, path))
  {
    var raw := "https://" + host + path;
    assert raw == "https://" + (host + path);
    assert AllPlain("https://");
    assert AllPlain(raw);
    NoTrim(raw);
    SchemeFound(host + path);
    assert Lower("https") == "https";
    GoodPartsParse(host, path);
  }

  // ── Repositories ──

  lemma {:induction false} DoubleSlash(t: string, i: nat)
    requires i + 1 < |t| && !Contains(t, "//")
    ensures t[i] != '/' || t[i + 1] != '/'
  {
    assert t[i..i + 2] == [t[i], t[i + 1]];
    assert !OccursAt(t, "//", i);
  }

  lemma {:induction false} TailAvoids(t: string, k: nat, pattern: string)
    requires k <= |t| && !Contains(t, pattern)
    ensures !Contains(t[k..], pattern)
  {
    forall j: nat | j <= |t[k..]| ensures !OccursAt(t[k..], pattern, j) {
      assert !OccursAt(t, pattern, k + j);
      if j + |pattern| <= |t[k..]| { assert t[k..][j..j + |pattern|] == t[k + j..k + j + |pattern|]; }
    }
  }

  // Neither empty nor bordered by slashes, and without two in a row.
  ghost predicate Tight(t: string) {
    t != "" && t[0] != '/' && t[|t| - 1] != '/' && !Contains(t, "//")
  }

  lemma {:induction false} TightAfterSlash(t: string)
    requires Tight(t)
    ensures var i := FirstSlash(t); i < |t| ==> i > 0 && Tight(t[i + 1..])
  {
    var i := FirstSlash(t);
    if i < |t| {
      DoubleSlash(t, i);
      TailAvoids(t, i + 1, "//");
    }
  }

  lemma {:induction false} SplitIsTight(t: string)
    requires Tight(t)
    ensures NonEmpty(Split(t)) == Split(t)
    ensures Split(t) != []
    decreases |t|
  {
    hide Contains;
    TightAfterSlash(t);
    var i := FirstSlash(t);
    if i < |t| {
      SplitIsTight(t[i + 1..]);
      assert Split(t)[1..] == Split(t[i + 1..]);
    } else {
      assert Split(t) == [t];
      assert [t][1..] == [];
    }
  }

  lemma {:induction false} SplitPair(a: string, b: string)
    requires SlashFree(a) && SlashFree(b)
    ensures Split(a + "/" + b) == [a, b]
  {
    var s := a + "/" + b;
    assert s == a + ("/" + b);
    FirstSlashOf(a, "/" + b);
    assert s[..|a|] == a && s[|a| + 1..] == b;
    FirstSlashOf(b, "");
    assert b + "" == b;
    assert Split(b) == [b];
  }

  lemma {:induction false} SplitTwo(t: string)
    requires |Split(t)| == 2
    ensures SlashFree(Split(t)[0]) && SlashFree(Split(t)[1]) && t == Split(t)[0] + "/" + Split(t)[1]
  {
    var i := FirstSlash(t);
    assert i < |t|;
    var rest := t[i + 1..];
    var j := FirstSlash(rest);
    assert |Split(rest)| == 1;
    assert j == |rest|;
    assert rest[..j] == rest;
    assert t == t[..i] + "/" + rest;
  }

  ghost predicate Repository(owner: string, repo: string) {
    SlashFree(owner) && SlashFree(repo) && owner != "" && repo != ""
  }

  lemma {:induction false} SplitRooted(t: string)
    ensures Split("/" + t) == [""] + Split(t)
    ensures NonEmpty(Split("/" + t)) == NonEmpty(Split(t))
  {
    var p := "/" + t;
    assert FirstSlash(p) == 0;
    assert p[..0] == "" && p[1..] == t;
    assert ([""] + Split(t))[1..] == Split(t);
  }

  lemma {:induction false} RootedIsTight(path: string)
    requires GoodPath(path) && path != ""
    ensures path[0] == '/' && path == "/" + path[1..] && Tight(path[1..])
  {
    if |path| > 1 {
      DoubleSlash(path, 0);
      TailAvoids(path, 1, "//");
    }
  }

  lemma {:induction false} SplitEmpty()
    ensures NonEmpty(Split("")) == []
  {
    assert Split("") == [""];
    assert [""][1..] == [];
  }

  lemma {:induction false} PairIsRepository(t: string)
    requires Tight(t) && |Split(t)| == 2
    ensures Repository(Split(t)[0], Split(t)[1]) && t == Split(t)[0] + "/" + Split(t)[1]
  {
    hide Contains;
    SplitTwo(t);
    var a, b := Split(t)[0], Split(t)[1];
    assert t[|a|] == '/';
  }

  // Two segments are a whole path.
  lemma {:induction false} TwoSegments(path: string)
    requires GoodPath(path) && |NonEmpty(Split(path))| == 2
    ensures var s := NonEmpty(Split(path)); Repository(s[0], s[1]) && path == "/" + s[0] + "/" + s[1]
  {
    hide GoodPath, Contains, Split, NonEmpty;
    SplitEmpty();
    RootedIsTight(path);
    var t := path[1..];
    SplitRooted(t);
    SplitIsTight(t);
    PairIsRepository(t);
    var s := Split(t);
    assert "/" + (s[0] + "/" + s[1]) == "/" + s[0] + "/" + s[1];
  }

  // ── The image of the normaliser ──

  predicate PathChars(s: string) {
    '?' !in s && '#' !in s && '%' !in s && '@' !in s && AllPlain(s)
  }

  ghost predicate Owner(s: string) {
    s != "" && SlashFree(s) && PathChars(s) && Lower(s) == s && s != "." && s != ".."
  }

  ghost predicate Repo(s: string) {
    s != "" && SlashFree(s) && PathChars(s) && Lower(s) == s
  }

  ghost predicate FromUrl(n: Identifier, host: string, path: string) {
    GoodHost(host) && GoodPath(path) && host != "github.com" && n == UrlId(host, path)
  }

  ghost predicate FromGithub(n: Identifier, owner: string, repo: string) {
    Owner(owner) && Repo(repo) && n == GithubId(owner, repo)
  }

  lemma {:induction false} LowerPathChars(s: string)
    requires PathChars(s)
    ensures PathChars(Lower(s)) && Lower(Lower(s)) == Lower(s)
  {
    LowerKeeps(s);
    LowerIdempotent(s);
  }

  lemma {:induction false} SubPathChars(s: string, i: nat, j: nat)
    requires PathChars(s) && i <= j <= |s|
    ensures PathChars(s[i..j])
  {
  }

  lemma {:induction false} OwnerIsNoDot(path: string, owner: string, repo: string)
    requires PathOk(path) && path == "/" + owner + "/" + repo
    ensures Lower(owner) != "." && Lower(owner) != ".."
  {
    if |owner| == 1 {
      assert !OccursAt(path, "/./", 0);
      assert path[0..3] == ['/', owner[0], '/'];
      assert Lower(owner)[0] == LowerChar(owner[0]);
    } else if |owner| == 2 {
      assert !OccursAt(path, "/../", 0);
      assert path[0..4] == ['/', owner[0], owner[1], '/'];
      assert Lower(owner)[0] == LowerChar(owner[0]) && Lower(owner)[1] == LowerChar(owner[1]);
    }
  }

  lemma {:induction false} WithoutGitIsPrefix(repo: string)
    ensures |WithoutGit(repo)| <= |repo| && WithoutGit(repo) == repo[0..|WithoutGit(repo)|]
  {
  }

  lemma {:induction false} GithubImage(path: string) returns (owner: string, repo: string)
    requires GoodPath(path) && IdentifierOf(Parts("github.com", path)).Some?
    ensures FromGithub(IdentifierOf(Parts("github.com", path)).value, owner, repo)
  {
    hide Contains, EndsWith, Split, NonEmpty, StripSlashes;
    TwoSegments(path);
    var a, b := NonEmpty(Split(path))[0], NonEmpty(Split(path))[1];
    var c := WithoutGit(b);
    OwnerIsNoDot(path, a, b);
    assert path[1..|a| + 1] == a && path[|a| + 2..] == b;
    SubPathChars(path, 1, |a| + 1);
    SubPathChars(path, |a| + 2, |path|);
    WithoutGitIsPrefix(b);
    SubPathChars(b, 0, |c|);
    LowerPathChars(a);
    LowerPathChars(c);
    LowerKeeps(a);
    LowerKeeps(c);
    owner, repo := Lower(a), Lower(c);
  }

  // Every normalised identifier is a good host and path, or an owner and repository.
  lemma {:induction false} Image(raw: string) returns (a: string, b: string)
    requires NormalizeUrl(raw).Some?
    ensures var n := NormalizeUrl(raw).value; if n.ns == "url" then FromUrl(n, a, b) else FromGithub(n, a, b)
  {
    hide GoodHost, GoodPath;
    UrlPartsAreGood(raw);
    var p := SplitUrl(raw).value;
    if p.host == "github.com" { a, b := GithubImage(p.path); } else { a, b := p.host, p.path; }
  }

  // ── Idempotence ──

  lemma {:induction false} SlashPlaces(owner: string, repo: string, i: nat)
    requires SlashFree(owner) && SlashFree(repo)
    requires var p := "/" + owner + "/" + repo; i < |p| && p[i] == '/'
    ensures i == 0 || i == |owner| + 1
  {
    var p := "/" + owner + "/" + repo;
    assert forall k :: 1 <= k <= |owner| ==> p[k] == owner[k - 1] && p[k] != '/';
    assert forall k :: |owner| + 2 <= k < |p| ==> p[k] == repo[k - |owner| - 2] && p[k] != '/';
  }

  lemma {:induction false} BorderedSlice(owner: string, repo: string, pattern: string, i: nat)
    requires SlashFree(owner) && SlashFree(repo)
    requires |pattern| >= 2 && pattern[0] == '/' && pattern[|pattern| - 1] == '/'
    requires OccursAt("/" + owner + "/" + repo, pattern, i)
    ensures owner == pattern[1..|pattern| - 1]
  {
    var p := "/" + owner + "/" + repo;
    var j := i + |pattern| - 1;
    assert p[i] == p[i..j + 1][0] == pattern[0];
    assert p[j] == p[i..j + 1][|pattern| - 1] == pattern[|pattern| - 1];
    SlashPlaces(owner, repo, i);
    SlashPlaces(owner, repo, j);
    assert p[1..|owner| + 1] == owner;
    assert p[i..j + 1][1..|pattern| - 1] == p[i + 1..j];
  }

  // A pattern bordered by slashes can only be the owner between its slashes.
  lemma {:induction false} BorderedIsOwner(owner: string, repo: string, pattern: string)
    requires SlashFree(owner) && SlashFree(repo)
    requires |pattern| >= 2 && pattern[0] == '/' && pattern[|pattern| - 1] == '/'
    requires owner != pattern[1..|pattern| - 1]
    ensures !Contains("/" + owner + "/" + repo, pattern)
  {
    var p := "/" + owner + "/" + repo;
    if Contains(p, pattern) {
      var i :| 0 <= i <= |p| && OccursAt(p, pattern, i);
      BorderedSlice(owner, repo, pattern, i);
    }
  }

  // A final slash and suffix can only be the repository.
  lemma {:induction false} FinalIsRepo(owner: string, repo: string, suffix: string)
    requires SlashFree(owner) && SlashFree(repo) && owner != "" && repo != "" && 1 <= |suffix| <= 2 && SlashFree(suffix)
    ensures EndsWith("/" + owner + "/" + repo, "/" + suffix) <==> repo == suffix
  {
    var p := "/" + owner + "/" + repo;
    if EndsWith(p, "/" + suffix) {
      var i := |p| - |suffix| - 1;
      assert p[i] == p[i..][0] == '/';
      SlashPlaces(owner, repo, i);
      assert p[i..][1..] == p[i + 1..] == suffix;
      assert p[|owner| + 2..] == repo;
    } else {
      assert p == ("/" + owner) + ("/" + repo);
      assert p[|p| - |repo| - 1..] == "/" + repo;
    }
  }

  lemma {:induction false} GithubPath(owner: string, repo: string)
    requires Owner(owner) && Repo(repo)
    ensures var path := "/" + owner + "/" + repo;
            (PathOk(path) <==> repo != "." && repo != "..") && (PathOk(path) ==> GoodPath(path))
  {
    hide Contains, EndsWith;
    BorderedIsOwner(owner, repo, "//");
    BorderedIsOwner(owner, repo, "/./");
    BorderedIsOwner(owner, repo, "/../");
    assert "/" + "." == "/." && "/" + ".." == "/..";
    FinalIsRepo(owner, repo, ".");
    FinalIsRepo(owner, repo, "..");
    var path := "/" + owner + "/" + repo;
    assert path[|path| - 1] == repo[|repo| - 1];
  }

  lemma {:induction false} BadPathRejected(host: string, path: string)
    requires GoodHost(host) && path != "" && path[0] == '/' && !PathOk(path)
    ensures SplitUrl("https://" + host + path).None?
  {
    assert "https://" + host + path == "https://" + (host + path);
    SchemeFound(host + path);
    FirstSlashOf(host, path);
    assert (host + path)[|host|..] == path;
  }

  lemma {:induction false} GithubHost()
    ensures GoodHost("github.com")
  {
    var h := "github.com";
    assert h[|h| - 1..] == "m";
  }

  lemma {:induction false} NonEmptyPair(a: string, b: string)
    requires a != "" && b != ""
    ensures NonEmpty([a, b]) == [a, b]
  {
    assert [a, b][1..] == [b] && [b][1..] == [];
    assert NonEmpty([b]) == [b] + NonEmpty([]);
  }

  lemma {:induction false} SplitGithub(owner: string, repo: string)
    requires SlashFree(owner) && SlashFree(repo) && owner != "" && repo != ""
    ensures NonEmpty(Split("/" + owner + "/" + repo)) == [owner, repo]
  {
    assert "/" + owner + "/" + repo == "/" + (owner + "/" + repo);
    SplitRooted(owner + "/" + repo);
    SplitPair(owner, repo);
    NonEmptyPair(owner, repo);
  }

  predicate Settled(repo: string) { !EndsWith(repo, ".git") && repo != "." && repo != ".." }

  lemma {:induction false} GithubAgain(n: Identifier, owner: string, repo: string)
    requires FromGithub(n, owner, repo)
    ensures NormalizeUrl(n.canonicalUrl) == Some(n) <==> Settled(repo)
  {
    hide Contains, GoodHost, GoodPath, PathOk, Split, NonEmpty, SplitUrl;
    var path := "/" + owner + "/" + repo;
    GithubHost();
    GithubPath(owner, repo);
    assert n.canonicalUrl == "https://" + "github.com" + path;
    if PathOk(path) {
      CanonicalParses("github.com", path);
      SplitGithub(owner, repo);
      if EndsWith(repo, ".git") {
        assert |WithoutGit(repo)| < |repo|;
        assert |GithubId(owner, WithoutGit(repo)).value| < |n.value|;
      }
    } else {
      BadPathRejected("github.com", path);
    }
  }

  lemma {:induction false} UrlAgain(n: Identifier, host: string, path: string)
    requires FromUrl(n, host, path)
    ensures NormalizeUrl(n.canonicalUrl) == Some(n)
  {
    hide GoodHost, GoodPath, SplitUrl;
    CanonicalParses(host, path);
  }

  // The repository name of a github value.
  function RepoOf(value: string): string {
    var slash := FirstSlash(value);
    if slash < |value| then value[slash + 1..] else ""
  }

  lemma {:induction false} RepoOfPair(owner: string, repo: string)
    requires SlashFree(owner)
    ensures RepoOf(owner + "/" + repo) == repo
  {
    assert owner + "/" + repo == owner + ("/" + repo);
    FirstSlashOf(owner, "/" + repo);
  }

  // Normalising a canonical URL gives the identifier it came from, exactly when that is in the `url`
  // namespace or its repository name neither ends in `.git` nor is a dot segment.
  lemma {:induction false} IdempotentExactly(raw: string)
    requires NormalizeUrl(raw).Some?
    ensures var n := NormalizeUrl(raw).value;
            NormalizeUrl(n.canonicalUrl) == Some(n) <==> n.ns == "url" || Settled(RepoOf(n.value))
  {
    hide GoodHost, GoodPath, Settled, NormalizeUrl, Owner, Repo;
    var n := NormalizeUrl(raw).value;
    var a, b := Image(raw);
    if n.ns == "url" {
      UrlAgain(n, a, b);
    } else {
      GithubAgain(n, a, b);
      GithubValue(n, a, b);
    }
  }

  lemma {:induction false} GithubValue(n: Identifier, owner: string, repo: string)
    requires FromGithub(n, owner, repo)
    ensures n.ns == "github" && n.value == owner + "/" + repo && RepoOf(n.value) == repo
    ensures n.canonicalUrl == "https://" + "github.com" + "/" + n.value
  {
    RepoOfPair(owner, repo);
    assert "https://github.com/" == "https://" + "github.com" + "/";
  }

  // So it is not idempotent everywhere: a repository named twice over `.git` loses one ending each time.
  lemma {:induction false} DoubleGitIsNotSettled()
    ensures var once := GithubId("o", "a.git");
            NormalizeUrl("https://github.com/o/a.git.git") == Some(once) && NormalizeUrl(once.canonicalUrl) != Some(once)
  {
    hide GoodHost, GoodPath, Split, NonEmpty, SplitUrl, Owner, Repo, WithoutGit, Lower, PathOk, NormalizeUrl;
    LowerTexts();
    DoubleGitNormalises();
    GithubAgain(GithubId("o", "a.git"), "o", "a.git");
    assert "a.git"[1..] == ".git";
  }

  lemma {:induction false} DoubleGitNormalises()
    ensures NormalizeUrl("https://github.com/o/a.git.git") == Some(GithubId("o", "a.git"))
  {
    hide GoodHost, GoodPath, Split, NonEmpty, SplitUrl, Owner, Repo, WithoutGit, Lower, PathOk;
    LowerTexts();
    GithubHost();
    var repo := "a.git.git";
    var path := "/" + "o" + "/" + repo;
    assert |repo| == 9;
    GithubPath("o", repo);
    CanonicalParses("github.com", path);
    SplitGithub("o", repo);
    assert "https://" + "github.com" + path == "https://github.com/o/a.git.git";
  }

  lemma {:induction false} LowerTexts()
    ensures Lower("o") == "o" && Lower("a.git.git") == "a.git.git" && Lower("a.git") == "a.git"
    ensures Owner("o") && Repo("a.git.git") && Repo("a.git") && SlashFree("o") && SlashFree("a.git.git")
    ensures WithoutGit("a.git.git") == "a.git"
  {
    assert "a.git.git"[5..] == ".git" && "a.git.git"[..5] == "a.git";
  }

  // ── Keys ──

  lemma {:induction false} KeysSplit(a: Identifier, b: Identifier)
    requires (a.ns == "github" || a.ns == "url") && (b.ns == "github" || b.ns == "url")
    ensures Key(a) == Key(b) <==> a.ns == b.ns && a.value == b.value
  {
    assert Key(a)[0] == a.ns[0] && Key(b)[0] == b.ns[0];
    assert Key(a)[|a.ns| + 1..] == a.value && Key(b)[|b.ns| + 1..] == b.value;
  }

  // What precedes the first slash is determined.
  lemma {:induction false} SameHost(a: string, p: string, b: string, q: string)
    requires SlashFree(a) && SlashFree(b) && (p != "" ==> p[0] == '/') && (q != "" ==> q[0] == '/')
    requires a + p == b + q
    ensures a == b
  {
    FirstSlashOf(a, p);
    FirstSlashOf(b, q);
    assert (a + p)[..|a|] == a && (b + q)[..|b|] == b;
  }

  lemma {:induction false} UrlIsNotGithub(url: Identifier, host: string, path: string, github: Identifier, owner: string, repo: string)
    requires FromUrl(url, host, path) && FromGithub(github, owner, repo)
    ensures url.canonicalUrl != github.canonicalUrl
  {
    hide Owner, Repo, PathOk, StripSlashes, EndsWith, GithubId;
    GithubValue(github, owner, repo);
    var tail := "/" + github.value;
    assert url.canonicalUrl == "https://" + (host + path) && github.canonicalUrl == "https://" + ("github.com" + tail);
    if url.canonicalUrl == github.canonicalUrl {
      assert host + path == url.canonicalUrl[8..] && "github.com" + tail == github.canonicalUrl[8..];
      SameHost(host, path, "github.com", tail);
    }
  }

  lemma {:induction false} ImageCanonical(raw: string)
    requires NormalizeUrl(raw).Some?
    ensures var n := NormalizeUrl(raw).value;
            && (n.ns == "github" || n.ns == "url")
            && n.canonicalUrl == "https://" + (if n.ns == "github" then "github.com/" else "") + n.value
  {
    hide GoodHost, GoodPath, Owner, Repo;
    var a, b := Image(raw);
    if NormalizeUrl(raw).value.ns != "url" { GithubValue(NormalizeUrl(raw).value, a, b); }
  }

  // Of two normalised identifiers, the keys are equal exactly when the canonical URLs are, and exactly
  // when the identifiers are; so one in `url` never has the canonical URL of one in `github`.
  lemma {:induction false} KeysDetermineIdentifiers(rawA: string, rawB: string)
    requires NormalizeUrl(rawA).Some? && NormalizeUrl(rawB).Some?
    ensures var a, b := NormalizeUrl(rawA).value, NormalizeUrl(rawB).value;
            && (Key(a) == Key(b) <==> a == b)
            && (a.canonicalUrl == b.canonicalUrl <==> a == b)
  {
    hide GoodHost, GoodPath, NormalizeUrl, FromUrl, FromGithub;
    var a, b := NormalizeUrl(rawA).value, NormalizeUrl(rawB).value;
    var p, q := Image(rawA);
    var r, s := Image(rawB);
    ImageCanonical(rawA);
    ImageCanonical(rawB);
    KeysSplit(a, b);
    if a.ns == b.ns {
      assert a.canonicalUrl[|a.canonicalUrl| - |a.value|..] == a.value;
      assert b.canonicalUrl[|b.canonicalUrl| - |b.value|..] == b.value;
    } else if a.ns == "url" {
      UrlIsNotGithub(a, p, q, b, r, s);
    } else {
      UrlIsNotGithub(b, r, s, a, p, q);
    }
  }

  lemma {:induction false} PlainHasNoSpace(s: string)
    requires AllPlain(s)
    ensures forall i :: 0 <= i < |s| ==> !IsWhitespace(s[i])
  {
  }

  // A normalised identifier's key is accepted as a tool id.
  lemma {:induction false} KeyIsToolId(raw: string)
    requires NormalizeUrl(raw).Some?
    ensures ToolIdFormat(Key(NormalizeUrl(raw).value))
  {
    hide NormalizeUrl, PathOk, EndsWith, StripSlashes;
    var n := NormalizeUrl(raw).value;
    var a, b := Image(raw);
    if n.ns == "url" {
      assert AllPlain(n.value);
      assert Key(n)[4..] == n.value && Key(n)[..4] == "url:" && Key(n)[0] != "github:"[0];
    } else {
      GithubValue(n, a, b);
      assert AllPlain(n.value);
      assert Key(n)[7..] == n.value && Key(n)[..7] == "github:";
    }
    PlainHasNoSpace(n.value);
  }

  // ── What is accepted ──

  // Empty, or a colon and a spelling of 443 that Rust's integer parser reads.
  predicate DefaultPort(port: string) {
    port == "" || (port[0] == ':' && ParseU16(port[1..]) == Some(443))
  }

  // A host, a port and a path, each clean.
  ghost predicate CleanRest(h: string, port: string, p: string) {
    && h != "" && SlashFree(h) && ':' !in h && '@' !in h && !EndsWith(Lower(h), ".")
    && DefaultPort(port)
    && (p != "" ==> p[0] == '/') && PathOk(p) && '@' !in p
  }

  // The text is https://host:port/path with the given parts.
  ghost predicate Spells(raw: string, scheme: string, h: string, port: string, p: string) {
    raw == scheme + "://" + (h + port + p) && AllPlain(raw) && Lower(scheme) == "https" && CleanRest(h, port, p)
  }

  lemma {:induction false} RestSpells(rest: string) returns (h: string, port: string, p: string)
    requires SplitRest(rest).Some?
    ensures rest == h + port + p && CleanRest(h, port, p)
    ensures SplitRest(rest) == Some(Parts(Lower(h), StripSlashes(p)))
  {
    hide PathOk, EndsWith, ParseU16, HostOf, DefaultPort;
    var authority := rest[..FirstSlash(rest)];
    h, p := HostOf(authority).value, rest[FirstSlash(rest)..];
    HostSplits(authority);
    port := authority[|h|..];
    assert rest == authority + p && authority == h + port;
  }

  lemma {:induction false} SplitSpells(raw: string) returns (scheme: string, h: string, port: string, p: string)
    requires SplitUrl(raw).Some?
    ensures Spells(raw, scheme, h, port, p) && SplitUrl(raw) == Some(Parts(Lower(h), StripSlashes(p)))
  {
    hide CleanRest, SplitRest, StripSlashes;
    var end := Find(raw, "://").value;
    scheme := raw[..end];
    h, port, p := RestSpells(raw[end + 3..]);
    assert raw == scheme + raw[end..end + 3] + raw[end + 3..];
  }

  lemma {:induction false} HostSplits(authority: string)
    requires HostOf(authority).Some?
    ensures var h := HostOf(authority).value;
            && |h| <= |authority| && h == authority[..|h|] && ':' !in h && DefaultPort(authority[|h|..])
  {
    hide ParseU16;
    var h := HostOf(authority).value;
    if LastColon(authority).Some? {
      assert authority[|h|..][1..] == authority[|h| + 1..];
    }
  }

  lemma {:induction false} PortChars(port: string)
    requires DefaultPort(port) && port != ""
    ensures forall k :: 0 < k < |port| ==> port[k] != ':' && port[k] != '/' && port[k] != '@'
    ensures AllPlain(port)
  {
    hide Decimal;
    var digits := port[1..];
    var after := if |digits| > 1 && digits[0] == '+' then digits[1..] else digits;
    assert AllDigits(after);
    forall k | 0 < k < |port| ensures port[k] == '+' || IsDigit(port[k]) {
      if after == digits { assert port[k] == after[k - 1]; }
      else if k > 1 { assert port[k] == after[k - 2]; }
    }
  }

  lemma {:induction false} LastColonIs(s: string, i: nat)
    requires i < |s| && s[i] == ':' && forall k :: 0 <= k < |s| && k != i ==> s[k] != ':'
    ensures LastColon(s) == Some(i)
    decreases |s|
  {
    if i < |s| - 1 { LastColonIs(s[..|s| - 1], i); }
  }

  lemma {:induction false} NoLastColon(s: string)
    requires ':' !in s
    ensures LastColon(s) == None
  {
  }

  lemma {:induction false} HostJoins(h: string, port: string)
    requires ':' !in h && DefaultPort(port)
    ensures HostOf(h + port) == Some(h)
  {
    hide LastColon, ParseU16;
    var a := h + port;
    assert forall k :: 0 <= k < |h| ==> a[k] == h[k];
    if port == "" {
      assert a == h;
      NoLastColon(h);
    } else {
      PortChars(port);
      LastColonIs(a, |h|);
      assert a[..|h|] == h && a[|h| + 1..] == port[1..];
    }
  }

  lemma {:induction false} LowerPlain(h: string)
    requires AllPlain(Lower(h))
    ensures AllPlain(h)
  {
    forall i | 0 <= i < |h| ensures Plain(h[i]) {
      assert Plain(Lower(h)[i]);
    }
  }

  lemma {:induction false} AnyScheme(scheme: string, rest: string)
    requires Lower(scheme) == "https"
    ensures Find(scheme + "://" + rest, "://") == Some(5)
    ensures (scheme + "://" + rest)[5 + 3..] == rest && (scheme + "://" + rest)[..5] == scheme
  {
    LowerKeeps(scheme);
    var raw := scheme + "://" + rest;
    assert raw[5..8] == "://" && OccursAt(raw, "://", 5);
    forall j: nat | j < 5 ensures !OccursAt(raw, "://", j) {
      assert raw[j] == scheme[j] && scheme[j] in scheme && raw[j..j + 3][0] == raw[j];
    }
  }

  lemma {:induction false} SpelledRest(h: string, port: string, p: string)
    requires CleanRest(h, port, p)
    ensures SplitRest(h + port + p) == Some(Parts(Lower(h), StripSlashes(p)))
  {
    hide PathOk, EndsWith, HostOf, ParseU16;
    if port != "" { PortChars(port); }
    var authority, rest := h + port, h + port + p;
    assert SlashFree(authority) && '@' !in rest;
    FirstSlashOf(authority, p);
    assert rest[..|authority|] == authority && rest[|authority|..] == p;
    HostJoins(h, port);
  }

  lemma {:induction false} SpelledSplits(raw: string, scheme: string, h: string, port: string, p: string)
    requires Spells(raw, scheme, h, port, p)
    ensures SplitUrl(raw) == Some(Parts(Lower(h), StripSlashes(p)))
  {
    hide CleanRest, SplitRest, Find, StripSlashes;
    SpelledRest(h, port, p);
    AnyScheme(scheme, h + port + p);
    NoTrim(raw);
  }

  // A text is accepted exactly when it spells https, a host, no port but 443, and a path, without
  // credentials or spaces, whose host does not end in a dot, and whose path has no query, fragment,
  // percent sign, empty or dot segment; and then it is read as the lower-case host and the path without
  // its final slashes. The host is all that stands before the first slash, whatever it holds.
  lemma {:induction false} AcceptedExactly(raw: string, host: string, path: string)
    ensures SplitUrl(raw) == Some(Parts(host, path)) <==>
            exists scheme, h, port, p :: Spells(raw, scheme, h, port, p) && Lower(h) == host && StripSlashes(p) == path
  {
    hide SplitUrl, Spells;
    if SplitUrl(raw) == Some(Parts(host, path)) {
      var scheme, h, port, p := SplitSpells(raw);
    }
    if scheme, h, port, p :| Spells(raw, scheme, h, port, p) && Lower(h) == host && StripSlashes(p) == path {
      SpelledSplits(raw, scheme, h, port, p);
    }
  }

  const QUERY: string := "https://a.b?x"

  lemma {:induction false} QuerySpells()
    ensures Spells(QUERY, "https", "a.b?x", "", "")
  {
    hide Plain;
    assert "https" + "://" + ("a.b?x" + "" + "") == QUERY;
    QueryIsPlain();
    assert AllPlain(QUERY);
    assert Lower("https") == "https" && Lower("a.b?x") == "a.b?x";
    assert !EndsWith("a.b?x", ".") && SlashFree("a.b?x");
  }

  lemma {:induction false} QueryIsPlain()
    ensures forall c :: c in QUERY ==> Plain(c)
  {
  }

  // So what a browser takes for a query is a part of the host, if no slash comes first.
  lemma {:induction false} QueryInHost()
    ensures NormalizeUrl(QUERY) == Some(Identifier("url", "a.b?x", "https://a.b?x"))
  {
    hide SplitUrl, Spells, StripSlashes, NonEmpty, Split;
    QuerySpells();
    SpelledSplits(QUERY, "https", "a.b?x", "", "");
    assert Lower("a.b?x") == "a.b?x" && StripSlashes("") == "";
    assert "a.b?x" != "github.com" by { assert |"a.b?x"| != |"github.com"|; }
    assert "a.b?x" + "" == "a.b?x" && "https://" + "a.b?x" + "" == "https://a.b?x";
  }

  // On github.com a path names a tool exactly when it is an owner and a repository, of which something
  // is left without a `.git` ending; the identifier is both in lower case.
  lemma {:induction false} GithubExactly(path: string, id: Identifier)
    requires GoodPath(path)
    ensures IdentifierOf(Parts("github.com", path)) == Some(id) <==>
            exists owner, repo :: Repository(owner, repo) && path == "/" + owner + "/" + repo
                                  && WithoutGit(repo) != "" && id == GithubId(owner, WithoutGit(repo))
  {
    hide GoodPath, Split, NonEmpty, WithoutGit, GithubId;
    if |NonEmpty(Split(path))| == 2 { TwoSegments(path); }
    forall owner, repo | Repository(owner, repo) && path == "/" + owner + "/" + repo
      ensures NonEmpty(Split(path)) == [owner, repo]
    {
      SplitGithub(owner, repo);
    }
  }

  // ── Spellings ──

  // A slash at the end completes a pattern only when the text ended in the rest of it.
  lemma {:induction false} AppendAvoids(path: string, pattern: string)
    requires !Contains(path, pattern) && |pattern| >= 2
    requires !EndsWith(path, pattern[..|pattern| - 1])
    ensures !Contains(path + "/", pattern)
  {
    var s := path + "/";
    forall i: nat | i <= |s| ensures !OccursAt(s, pattern, i) {
      if i + |pattern| <= |path| {
        assert !OccursAt(path, pattern, i);
        assert s[i..i + |pattern|] == path[i..i + |pattern|];
      } else if i + |pattern| == |s| {
        assert s[i..][..|pattern| - 1] == path[i..];
      }
    }
  }

  lemma {:induction false} EndsWithLast(s: string, suffix: string)
    requires suffix != "" && EndsWith(s, suffix)
    ensures s[|s| - 1] == suffix[|suffix| - 1]
  {
  }

  lemma {:induction false} SlashAfter(path: string)
    requires GoodPath(path)
    ensures PathOk(path + "/") && StripSlashes(path + "/") == path
  {
    var s := path + "/";
    assert s[..|path|] == path;
    if path != "" {
      AppendAvoids(path, "//");
      AppendAvoids(path, "/./");
      AppendAvoids(path, "/../");
    } else {
      assert s == "/";
    }
    if EndsWith(s, "/.") { EndsWithLast(s, "/."); }
    if EndsWith(s, "/..") { EndsWithLast(s, "/.."); }
  }

  lemma {:induction false} SlashIsPlain()
    ensures AllPlain("/")
  {
  }

  lemma {:induction false} CleanParts(h: string, port: string, path: string, slash: string)
    requires GoodHost(Lower(h)) && DefaultPort(port) && GoodPath(path) && (slash == "" || slash == "/")
    ensures CleanRest(h, port, path + slash) && AllPlain(h) && AllPlain(port) && AllPlain(path + slash)
    ensures StripSlashes(path + slash) == path
  {
    hide PathOk, EndsWith, DefaultPort, StripSlashes;
    LowerKeeps(h);
    LowerPlain(h);
    SlashAfter(path);
    if port != "" { PortChars(port); }
    assert path + "" == path;
    SlashIsPlain();
  }

  // Every spelling of one URL has one identifier: the scheme and the host in any case, the port 443 in
  // any form or none, and a slash at the end or not.
  lemma {:induction false} SpellingsAgree(scheme: string, h: string, port: string, path: string, slash: string)
    requires Lower(scheme) == "https" && GoodHost(Lower(h)) && DefaultPort(port) && GoodPath(path)
    requires slash == "" || slash == "/"
    ensures NormalizeUrl(scheme + "://" + (h + port + (path + slash))) == NormalizeUrl("https://" + Lower(h) + path)
  {
    hide GoodHost, GoodPath, CleanRest, DefaultPort, SplitUrl, IdentifierOf, StripSlashes;
    CleanParts(h, port, path, slash);
    LowerPlain(scheme);
    SpelledSplits(scheme + "://" + (h + port + (path + slash)), scheme, h, port, path + slash);
    CanonicalParses(Lower(h), path);
  }
}
