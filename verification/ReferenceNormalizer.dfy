/** The Python normaliser that the service's was ported from, and exactly where the two part.

    `urlsplit` is modelled as Python's library has it from 3.11.4 on. What it thinks of an address in
    brackets is a parameter. */
module ReferenceNormalizer {
  import opened Wrappers
  import opened Text
  import opened Normalizer
  import opened NormalizerProperties

  // ── The reference ──

  function FirstOf(s: string, stops: set<char>): (i: nat)
    ensures i <= |s| && (forall c :: c in s[..i] ==> c !in stops) && (i < |s| ==> s[i] in stops)
  {
    if s == [] || s[0] in stops then 0
    else
      var i := FirstOf(s[1..], stops) + 1;
      assert s[..i] == [s[0]] + s[1..][..i - 1];
      i
  }

  predicate SchemeChar(c: char) {
    'a' <= c <= 'z' || 'A' <= c <= 'Z' || IsDigit(c) || c == '+' || c == '-' || c == '.'
  }

  datatype SplitResult = SplitResult(scheme: string, netloc: string, path: string, query: string, fragment: string)

  // Path, query and fragment of what follows the authority.
  function SplitTail(scheme: string, netloc: string, tail: string): SplitResult {
    var hash := FirstOf(tail, {'#'});
    var before := tail[..hash];
    var mark := FirstOf(before, {'?'});
    SplitResult(scheme, netloc, before[..mark], if mark < hash then before[mark + 1..] else "",
                if hash < |tail| then tail[hash + 1..] else "")
  }

  // `urlsplit`
  function UrlSplit(url: string): SplitResult {
    var colon := FirstOf(url, {':'});
    var named := 0 < colon < |url| && forall c :: c in url[..colon] ==> SchemeChar(c);
    var scheme := if named then Lower(url[..colon]) else "";
    var rest := if named then url[colon + 1..] else url;
    if "//" <= rest then
      var end := FirstOf(rest[2..], {'/', '?', '#'});
      SplitTail(scheme, rest[2..][..end], rest[2..][end..])
    else SplitTail(scheme, "", rest)
  }

  // Python counts four separators as whitespace that Rust does not.
  predicate ReferencePlain(c: char) { Plain(c) && !('\U{1C}' <= c <= '\U{1F}') }

  predicate AllReferencePlain(s: string) { forall i :: 0 <= i < |s| ==> ReferencePlain(s[i]) }

  // Leading control characters, which `urlsplit` drops.
  function DropControls(s: string): string {
    if s != [] && s[0] <= ' ' then DropControls(s[1..]) else s
  }

  predicate Bracketed(s: string) { '[' in s || ']' in s }

  // `urlsplit` raises on an authority with one kind of bracket, and on one with both unless it takes
  // what stands between them for an address; `literal` tells.
  predicate Passes(netloc: string, literal: string -> bool) {
    Bracketed(netloc) ==> '[' in netloc && ']' in netloc && literal(netloc)
  }

  // The host, and the port with its colon: what is in the first brackets, and what follows the first
  // colon after them; without brackets, what is before the first colon and what follows.
  function HostInfo(netloc: string): (string, string) {
    var open := FirstOf(netloc, {'['});
    if open < |netloc| then
      var inside := netloc[open + 1..];
      var close := FirstOf(inside, {']'});
      var after := if close < |inside| then inside[close + 1..] else "";
      (inside[..close], after[FirstOf(after, {':'})..])
    else
      var colon := FirstOf(netloc, {':'});
      (netloc[..colon], netloc[colon..])
  }

  datatype Port = NoPort | BadPort | Port(number: nat)

  // An empty port is none; only digits make one, and of those Python reads at most 4300.
  function PortOf(port: string): Port {
    if |port| <= 1 then NoPort
    else
      var digits := port[1..];
      if AllDigits(digits) && |digits| <= 4300 && Decimal(digits) <= 65535 then Port(Decimal(digits)) else BadPort
  }

  // Texts that `strip` changes are not plain, and no path that `urlsplit` returns holds a `?` or a `#`.
  function ReferenceParts(raw: string, literal: string -> bool): Option<Parts> {
    if !AllReferencePlain(raw) then None
    else
      var s := UrlSplit(DropControls(raw));
      var (name, port) := HostInfo(s.netloc);
      var host := Lower(name);
      if !Passes(s.netloc, literal) then None
      else if s.scheme != "https" || host == "" || '@' in s.netloc || s.query != "" || s.fragment != "" then None
      else if PortOf(port) != NoPort && PortOf(port) != Port(443) then None
      else if !PathOk(s.path) || EndsWith(host, ".") then None
      else Some(Parts(host, StripSlashes(s.path)))
  }

  predicate Raises(raw: string, literal: string -> bool) {
    AllReferencePlain(raw) && !Passes(UrlSplit(DropControls(raw)).netloc, literal)
  }

  datatype Reading = Raised | Read(id: Option<Identifier>)

  // `normalize_url`
  function ReferenceUrl(raw: string, literal: string -> bool): Reading {
    if Raises(raw, literal) then Raised
    else
      match ReferenceParts(raw, literal)
      case None => Read(None)
      case Some(parts) => Read(IdentifierOf(parts))
  }

  // What a reading names.
  function Named(r: Reading): Option<Identifier> {
    match r case Raised => None case Read(id) => id
  }

  // ── What it accepts ──

  predicate MarkFree(s: string) { '?' !in s && '#' !in s }

  // A query and a fragment that are there, but empty.
  predicate EmptyMarks(s: string) { s == "" || s == "?" || s == "#" || s == "?#" }

  // Empty, or a colon alone, or before digits that make 443, but not too many.
  predicate ReferencePort(port: string) {
    port == "" || (port[0] == ':' && |port| <= 4301 && AllDigits(port[1..]) && (port == ":" || Decimal(port[1..]) == 443))
  }

  // What stands before the port names the host: itself, or what its first bracket opens.
  ghost predicate NamesHost(h: string, k: string, port: string) {
    if '[' in h then exists pre, end :: InBrackets(h, pre, k, end, port) else h == k && ':' !in h
  }

  ghost predicate InBrackets(h: string, pre: string, k: string, end: string, port: string) {
    && h == pre + "[" + k + end && '[' !in pre && ']' !in k
    && if end == "" then port == "" else end[0] == ']' && ':' !in end
  }

  ghost predicate ReferenceHost(h: string, k: string, port: string, literal: string -> bool) {
    && NamesHost(h, k, port) && Passes(h + port, literal)
    && k != "" && SlashFree(h) && '@' !in h && MarkFree(h) && !EndsWith(Lower(k), ".")
  }

  ghost predicate ReferenceRest(h: string, k: string, port: string, p: string, marks: string, literal: string -> bool) {
    && ReferenceHost(h, k, port, literal)
    && ReferencePort(port) && (p != "" ==> p[0] == '/') && PathOk(p) && EmptyMarks(marks)
  }

  // The text is https://h:port/path and marks, after control characters, and `h` names the host `k`.
  datatype Spelling = Spelling(lead: string, scheme: string, h: string, k: string, port: string, p: string, marks: string)

  ghost predicate ReferenceSpells(raw: string, literal: string -> bool, s: Spelling) {
    && raw == s.lead + (s.scheme + "://" + (s.h + s.port + s.p + s.marks)) && AllReferencePlain(raw)
    && (forall c :: c in s.lead ==> c <= ' ') && Lower(s.scheme) == "https"
    && ReferenceRest(s.h, s.k, s.port, s.p, s.marks, literal)
  }

  lemma {:induction false} FirstOfPrefix(a: string, b: string, stops: set<char>)
    requires (forall c :: c in a ==> c !in stops) && (b != "" ==> b[0] in stops)
    ensures FirstOf(a + b, stops) == |a|
  {
    if a != "" {
      assert (a + b)[1..] == a[1..] + b && a[0] in a;
      assert forall c :: c in a[1..] ==> c in a;
      FirstOfPrefix(a[1..], b, stops);
    } else {
      assert a + b == b;
    }
  }

  // The reference's reading of a text that starts with a scheme and an authority.
  lemma {:induction false} SplitsAt(scheme: string, netloc: string, tail: string)
    requires Lower(scheme) == "https" && '/' !in netloc && MarkFree(netloc) && (tail != "" ==> tail[0] in {'/', '?', '#'})
    ensures UrlSplit(scheme + "://" + (netloc + tail)) == SplitTail("https", netloc, tail)
  {
    hide SplitTail;
    LowerKeeps(scheme);
    var raw := scheme + "://" + (netloc + tail);
    assert ':' !in Lower(scheme);
    assert raw == scheme + ("://" + (netloc + tail));
    FirstOfPrefix(scheme, "://" + (netloc + tail), {':'});
    SchemeCharsOf(scheme);
    assert raw[..5] == scheme && raw[6..] == "//" + (netloc + tail);
    assert raw[6..][2..] == netloc + tail;
    FirstOfPrefix(netloc, tail, {'/', '?', '#'});
    assert (netloc + tail)[..|netloc|] == netloc && (netloc + tail)[|netloc|..] == tail;
  }

  lemma {:induction false} SchemeCharsOf(scheme: string)
    requires Lower(scheme) == "https"
    ensures forall c :: c in scheme ==> SchemeChar(c)
  {
    forall i | 0 <= i < |scheme| ensures SchemeChar(scheme[i]) {
      assert Lower(scheme)[i] == LowerChar(scheme[i]) && IsLower("https"[i]);
    }
  }

  lemma {:induction false} MarkSplits(scheme: string, netloc: string, p: string, query: string, fragment: string)
    requires MarkFree(p) && (query == "" || query == "?") && (fragment == "" || fragment == "#")
    ensures SplitTail(scheme, netloc, p + query + fragment) == SplitResult(scheme, netloc, p, "", "")
  {
    FirstOfPrefix(p + query, fragment, {'#'});
    assert (p + query + fragment)[..|p + query|] == p + query;
    FirstOfPrefix(p, query, {'?'});
    assert (p + query)[..|p|] == p;
  }

  lemma {:induction false} MarksSplit(scheme: string, netloc: string, p: string, marks: string)
    requires MarkFree(p) && EmptyMarks(marks)
    ensures SplitTail(scheme, netloc, p + marks) == SplitResult(scheme, netloc, p, "", "")
  {
    hide SplitTail, MarkFree;
    var query, fragment := if marks == "" || marks == "#" then "" else "?", if marks == "" || marks == "?" then "" else "#";
    MarkSplits(scheme, netloc, p, query, fragment);
    assert marks == query + fragment;
    assert p + query + fragment == p + marks;
  }

  // A stop with nothing after it, or none.
  lemma {:induction false} StopAtEnd(s: string, stop: char)
    requires FirstOf(s, {stop}) < |s| ==> s[FirstOf(s, {stop}) + 1..] == ""
    ensures var i := FirstOf(s, {stop}); s == s[..i] + s[i..] && stop !in s[..i] && (s[i..] == "" || s[i..] == [stop])
  {
  }

  lemma {:induction false} SplitMarks(scheme: string, netloc: string, tail: string) returns (marks: string)
    requires SplitTail(scheme, netloc, tail).query == "" && SplitTail(scheme, netloc, tail).fragment == ""
    ensures var p := SplitTail(scheme, netloc, tail).path;
            tail == p + marks && MarkFree(p) && EmptyMarks(marks)
  {
    hide FirstOf;
    var hash := FirstOf(tail, {'#'});
    var before := tail[..hash];
    var mark := FirstOf(before, {'?'});
    StopAtEnd(tail, '#');
    StopAtEnd(before, '?');
    var p, query, fragment := before[..mark], before[mark..], tail[hash..];
    marks := query + fragment;
    assert tail == p + marks;
    assert "?" + "#" == "?#" && "" + fragment == fragment && query + "" == query;
    assert forall c :: c in p ==> c in before;
  }

  lemma {:induction false} Regroup(pre: string, k: string, end: string, port: string)
    ensures pre + ("[" + (k + (end + port))) == (pre + "[" + k + end) + port
  {
  }

  lemma {:induction false} InsideReads(k: string, end: string, port: string)
    requires ']' !in k && (if end == "" then port == "" else end[0] == ']' && ':' !in end) && (port != "" ==> port[0] == ':')
    ensures var inside := k + (end + port);
            var close := FirstOf(inside, {']'});
            var after := if close < |inside| then inside[close + 1..] else "";
            inside[..close] == k && after[FirstOf(after, {':'})..] == port
  {
    hide FirstOf;
    var inside := k + (end + port);
    FirstOfPrefix(k, end + port, {']'});
    if end != "" {
      assert inside[|k| + 1..] == end[1..] + port;
      FirstOfPrefix(end[1..], port, {':'});
      assert (end[1..] + port)[|end| - 1..] == port;
    }
  }

  lemma {:induction false} OpenReads(pre: string, inside: string)
    requires '[' !in pre
    ensures var s := pre + ("[" + inside);
            FirstOf(s, {'['}) == |pre| && s[|pre| + 1..] == inside
  {
    FirstOfPrefix(pre, "[" + inside, {'['});
  }

  lemma {:induction false} BracketsRead(h: string, k: string, pre: string, end: string, port: string)
    requires InBrackets(h, pre, k, end, port) && ReferencePort(port)
    ensures HostInfo(h + port) == (k, port)
  {
    hide FirstOf, ReferencePort;
    PortStarts(port);
    Regroup(pre, k, end, port);
    OpenReads(pre, k + (end + port));
    InsideReads(k, end, port);
    assert h + port == pre + ("[" + (k + (end + port)));
  }

  lemma {:induction false} PortStarts(port: string)
    requires ReferencePort(port)
    ensures port != "" ==> port[0] == ':'
  {
    hide Decimal;
  }

  lemma {:induction false} PlainReads(h: string, port: string)
    requires '[' !in h && ':' !in h && ReferencePort(port)
    ensures HostInfo(h + port) == (h, port)
  {
    hide Decimal;
    PortIsPlain(port);
    assert h + port + "" == h + port;
    FirstOfPrefix(h + port, "", {'['});
    FirstOfPrefix(h, port, {':'});
  }

  lemma {:induction false} PortReads(h: string, k: string, port: string)
    requires NamesHost(h, k, port) && ReferencePort(port)
    ensures HostInfo(h + port) == (k, port) && (PortOf(port) == NoPort || PortOf(port) == Port(443))
  {
    hide Decimal, InBrackets, HostInfo;
    if '[' in h {
      var pre, end :| InBrackets(h, pre, k, end, port);
      BracketsRead(h, k, pre, end, port);
    } else {
      PlainReads(h, port);
    }
  }

  lemma {:induction false} PortSplits(port: string)
    requires (PortOf(port) == NoPort || PortOf(port) == Port(443)) && (port != "" ==> port[0] == ':')
    ensures ReferencePort(port)
  {
    hide Decimal;
  }

  lemma {:induction false} ClosesAt(inside: string, close: nat, colon: nat) returns (end: string, port: string)
    requires close < |inside| && inside[close] == ']' && colon <= |inside| - close - 1
    ensures port == inside[close + 1..][colon..] && end == inside[close..close + 1 + colon]
    ensures inside == inside[..close] + (end + port) && end != "" && end[0] == ']'
    ensures forall c :: c in end ==> c == ']' || c in inside[close + 1..][..colon]
  {
    end, port := inside[close..close + 1 + colon], inside[close + 1 + colon..];
    var after := inside[close + 1..];
    assert after[colon..] == port;
    assert end + port == inside[close..];
    forall c | c in end ensures c == ']' || c in after[..colon] {
      var i :| 0 <= i < |end| && end[i] == c;
      if i > 0 { assert after[..colon][i - 1] == c; }
    }
  }

  lemma {:induction false} InsideSplitsOff(inside: string) returns (end: string, port: string)
    ensures var close := FirstOf(inside, {']'});
            var after := if close < |inside| then inside[close + 1..] else "";
            && port == after[FirstOf(after, {':'})..] && inside == inside[..close] + (end + port)
            && (if end == "" then port == "" else end[0] == ']' && ':' !in end)
            && (port != "" ==> port[0] == ':')
  {
    hide FirstOf;
    var close := FirstOf(inside, {']'});
    if close < |inside| {
      end, port := ClosesAt(inside, close, FirstOf(inside[close + 1..], {':'}));
    } else {
      end, port := "", "";
      assert inside == inside[..close] && "" + "" == "" && inside + "" == inside;
    }
  }

  lemma {:induction false} OpensAt(s: string, open: nat)
    requires open < |s| && s[open] == '['
    ensures s == s[..open] + ("[" + s[open + 1..])
  {
  }

  lemma {:induction false} BracketNames(pre: string, k: string, end: string, port: string)
    requires '[' !in pre && ']' !in k && if end == "" then port == "" else end[0] == ']' && ':' !in end
    ensures NamesHost(pre + "[" + k + end, k, port)
  {
    assert (pre + "[" + k + end)[|pre|] == '[';
    assert InBrackets(pre + "[" + k + end, pre, k, end, port);
  }

  lemma {:induction false} HostInfoOpens(netloc: string)
    requires FirstOf(netloc, {'['}) < |netloc|
    ensures var inside := netloc[FirstOf(netloc, {'['}) + 1..];
            var close := FirstOf(inside, {']'});
            var after := if close < |inside| then inside[close + 1..] else "";
            HostInfo(netloc) == (inside[..close], after[FirstOf(after, {':'})..])
  {
    hide FirstOf;
  }

  lemma {:induction false} Reassembled(netloc: string, open: nat, k: string, end: string, port: string) returns (h: string)
    requires open < |netloc| && netloc[open] == '[' && '[' !in netloc[..open] && netloc[open + 1..] == k + (end + port)
    requires ']' !in k && if end == "" then port == "" else end[0] == ']' && ':' !in end
    ensures netloc == h + port && NamesHost(h, k, port)
  {
    hide NamesHost;
    OpensAt(netloc, open);
    Regroup(netloc[..open], k, end, port);
    BracketNames(netloc[..open], k, end, port);
    h := netloc[..open] + "[" + k + end;
  }

  lemma {:induction false} BracketSplitsOff(netloc: string) returns (h: string)
    requires FirstOf(netloc, {'['}) < |netloc|
    ensures var (k, port) := HostInfo(netloc);
            netloc == h + port && NamesHost(h, k, port) && (port != "" ==> port[0] == ':')
  {
    hide FirstOf, NamesHost, HostInfo;
    HostInfoOpens(netloc);
    var open := FirstOf(netloc, {'['});
    var inside := netloc[open + 1..];
    var end, port := InsideSplitsOff(inside);
    h := Reassembled(netloc, open, inside[..FirstOf(inside, {']'})], end, port);
  }

  // What the reference found in an authority.
  lemma {:induction false} HostSplitsOff(netloc: string) returns (h: string)
    ensures var (k, port) := HostInfo(netloc);
            netloc == h + port && NamesHost(h, k, port) && (port != "" ==> port[0] == ':')
  {
    hide FirstOf;
    var open := FirstOf(netloc, {'['});
    if open < |netloc| {
      h := BracketSplitsOff(netloc);
    } else {
      h := netloc[..FirstOf(netloc, {':'})];
      assert netloc[..open] == netloc;
    }
  }

  lemma {:induction false} NoControls(lead: string, rest: string)
    requires (forall c :: c in lead ==> c <= ' ') && rest != "" && rest[0] > ' '
    ensures DropControls(lead + rest) == rest
  {
    if lead == "" {
      assert lead + rest == rest;
    } else {
      assert (lead + rest)[1..] == lead[1..] + rest && lead[0] in lead;
      assert forall c :: c in lead[1..] ==> c in lead;
      NoControls(lead[1..], rest);
    }
  }

  lemma {:induction false} ControlsDrop(raw: string) returns (lead: string)
    ensures raw == lead + DropControls(raw) && forall c :: c in lead ==> c <= ' '
  {
    lead := "";
    if raw != [] && raw[0] <= ' ' {
      lead := ControlsDrop(raw[1..]);
      lead := [raw[0]] + lead;
    }
  }

  lemma {:induction false} SchemeStarts(scheme: string)
    requires Lower(scheme) == "https"
    ensures |scheme| == 5 && scheme[0] > ' '
  {
    LowerKeeps(scheme);
    assert LowerChar(scheme[0]) == Lower(scheme)[0] == 'h';
  }

  lemma {:induction false} ReferenceReads(raw: string, literal: string -> bool, s: Spelling)
    requires ReferenceSpells(raw, literal, s)
    ensures !Raises(raw, literal) && ReferenceParts(raw, literal) == Some(Parts(Lower(s.k), StripSlashes(s.p)))
  {
    hide UrlSplit, SplitTail, PathOk, EndsWith, PortOf, StripSlashes, ReferencePlain, Passes, HostInfo, NamesHost, DropControls;
    PortIsPlain(s.port);
    PathHasNoMark(s.p);
    var netloc, tail := s.h + s.port, s.p + s.marks;
    assert s.h + s.port + s.p + s.marks == netloc + tail;
    SchemeStarts(s.scheme);
    NoControls(s.lead, s.scheme + "://" + (netloc + tail));
    SplitsAt(s.scheme, netloc, tail);
    MarksSplit("https", netloc, s.p, s.marks);
    PortReads(s.h, s.k, s.port);
    LowerKeeps(s.k);
  }

  lemma {:induction false} PortIsPlain(port: string)
    requires ReferencePort(port)
    ensures '/' !in port && MarkFree(port) && '@' !in port && !Bracketed(port)
  {
    hide Decimal;
    forall k | 0 <= k < |port| ensures port[k] == ':' || IsDigit(port[k]) {
      if k > 0 { assert port[1..][k - 1] == port[k]; }
    }
  }

  lemma {:induction false} PathHasNoMark(p: string)
    requires PathOk(p)
    ensures MarkFree(p)
  {
  }

  lemma {:induction false} TailKeeps(scheme: string, netloc: string, tail: string)
    ensures SplitTail(scheme, netloc, tail).scheme == scheme && SplitTail(scheme, netloc, tail).netloc == netloc
  {
  }

  lemma {:induction false} FreeOf(s: string, end: nat)
    requires end <= |s| && forall c :: c in s[..end] ==> c !in {'/', '?', '#'}
    ensures '/' !in s[..end] && MarkFree(s[..end])
  {
  }

  // Where the reference finds a scheme and an authority.
  lemma {:induction false} HasAuthority(raw: string)
    requires UrlSplit(raw).scheme == "https" && UrlSplit(raw).netloc != ""
    ensures var colon := FirstOf(raw, {':'});
            && 0 < colon < |raw| && (forall c :: c in raw[..colon] ==> SchemeChar(c))
            && Lower(raw[..colon]) == "https" && "//" <= raw[colon + 1..]
  {
    hide FirstOf, Lower, SchemeChar;
  }

  lemma {:induction false} JoinsAt(raw: string, colon: nat, end: nat)
    requires colon < |raw| && raw[colon] == ':' && "//" <= raw[colon + 1..] && end <= |raw[colon + 1..][2..]|
    ensures raw == raw[..colon] + "://" + (raw[colon + 1..][2..][..end] + raw[colon + 1..][2..][end..])
  {
    var rest := raw[colon + 1..];
    assert rest[2..] == rest[2..][..end] + rest[2..][end..];
    assert raw == raw[..colon] + (":" + "//") + rest[2..];
  }

  // What the reference split off before the path.
  lemma {:induction false} AuthorityOf(raw: string) returns (scheme: string, netloc: string, tail: string)
    requires UrlSplit(raw).scheme == "https" && UrlSplit(raw).netloc != ""
    ensures raw == scheme + "://" + (netloc + tail) && Lower(scheme) == "https"
    ensures UrlSplit(raw) == SplitTail("https", netloc, tail) && UrlSplit(raw).netloc == netloc
    ensures '/' !in netloc && MarkFree(netloc) && (tail != "" ==> tail[0] in {'/', '?', '#'})
  {
    hide SplitTail, FirstOf, Lower, SchemeChar, MarkFree;
    HasAuthority(raw);
    var colon := FirstOf(raw, {':'});
    var rest := raw[colon + 1..];
    var end := FirstOf(rest[2..], {'/', '?', '#'});
    scheme, netloc, tail := raw[..colon], rest[2..][..end], rest[2..][end..];
    TailKeeps(Lower(scheme), netloc, tail);
    FreeOf(rest[2..], end);
    JoinsAt(raw, colon, end);
  }

  lemma {:induction false} ReferenceSplits(raw: string, literal: string -> bool) returns (s: Spelling)
    requires ReferenceParts(raw, literal).Some?
    ensures ReferenceSpells(raw, literal, s)
    ensures ReferenceParts(raw, literal) == Some(Parts(Lower(s.k), StripSlashes(s.p)))
  {
    hide UrlSplit, SplitTail, PathOk, EndsWith, PortOf, StripSlashes, ReferencePlain, ReferencePort, EmptyMarks, Passes, HostInfo,
         NamesHost, DropControls;
    var url := DropControls(raw);
    var lead := ControlsDrop(raw);
    var (k, port) := HostInfo(UrlSplit(url).netloc);
    AuthorityIsThere(UrlSplit(url).netloc);
    var scheme, netloc, tail := AuthorityOf(url);
    var p := UrlSplit(url).path;
    var marks := SplitMarks("https", netloc, tail);
    var h := HostSplitsOff(netloc);
    PortSplits(port);
    assert netloc + tail == h + port + p + marks;
    LowerKeeps(k);
    if p != "" { assert p[0] == tail[0] && p[0] in p; }
    s := Spelling(lead, scheme, h, k, port, p, marks);
  }

  lemma {:induction false} AuthorityIsThere(netloc: string)
    ensures HostInfo(netloc).0 != "" ==> netloc != ""
  {
  }

  // The reference accepts exactly this, and reads it as the lower-case host and the path without its
  // final slashes.
  lemma {:induction false} ReferenceAcceptsExactly(raw: string, literal: string -> bool, host: string, path: string)
    ensures ReferenceParts(raw, literal) == Some(Parts(host, path)) <==>
            exists s :: ReferenceSpells(raw, literal, s) && Lower(s.k) == host && StripSlashes(s.p) == path
  {
    hide ReferenceParts, ReferenceSpells, Raises;
    if ReferenceParts(raw, literal) == Some(Parts(host, path)) {
      var s := ReferenceSplits(raw, literal);
    }
    if s :| ReferenceSpells(raw, literal, s) && Lower(s.k) == host && StripSlashes(s.p) == path {
      ReferenceReads(raw, literal, s);
    }
  }

  // ── Where the two part ──

  ghost predicate Identifies(h: string, p: string) { IdentifierOf(Parts(Lower(h), StripSlashes(p))).Some? }

  predicate Signed(port: string) { |port| > 1 && port[1] == '+' }

  // The reference names a tool where the service names none, or another: it drops leading control
  // characters, looks into brackets, passes over an empty query or fragment and a colon without a port,
  // and lets a path hold an `@`.
  ghost predicate ReferenceOnly(raw: string, literal: string -> bool) {
    exists s :: ReferenceSpells(raw, literal, s) && Identifies(s.k, s.p) && Loose(s)
  }

  predicate Loose(s: Spelling) { s.lead != "" || '[' in s.h || s.marks != "" || s.port == ":" || '@' in s.p }

  // The service does: it lets pass separators that Python takes for spaces, reads brackets, a query or a
  // fragment into the host, and a port that is signed or has too many digits for Python.
  ghost predicate ServiceOnly(raw: string) {
    exists scheme, h, port, p :: Spells(raw, scheme, h, port, p) && Identifies(h, p) && Lax(raw, h, port)
  }

  predicate Lax(raw: string, h: string, port: string) {
    !AllReferencePlain(raw) || Bracketed(h) || !MarkFree(h) || Signed(port) || |port| > 4301
  }

  lemma {:induction false} DigitsParse(digits: string)
    requires digits != "" && digits[0] != '+'
    ensures ParseU16(digits) == Some(443) <==> AllDigits(digits) && Decimal(digits) == 443
  {
    hide Decimal;
  }

  lemma {:induction false} PortsAgree(port: string)
    ensures ReferencePort(port) && port != ":" ==> DefaultPort(port) && !Signed(port)
    ensures DefaultPort(port) && !Signed(port) && |port| <= 4301 ==> ReferencePort(port)
  {
    hide ParseU16, Decimal;
    if |port| > 1 && !Signed(port) { DigitsParse(port[1..]); }
    if port == ":" { NoDigits(); }
    if Signed(port) { assert !IsDigit(port[1..][0]); }
  }

  lemma {:induction false} NoDigits()
    ensures ParseU16(":"[1..]) == None
  {
  }

  lemma {:induction false} ReferencePlainIsPlain(raw: string)
    ensures AllReferencePlain(raw) ==> AllPlain(raw)
  {
  }

  // On what is neither, they agree.
  lemma {:induction false} PlainForService(raw: string, literal: string -> bool, s: Spelling)
    requires ReferenceSpells(raw, literal, s) && !Loose(s)
    ensures ReferenceUrl(raw, literal) == Read(NormalizeUrl(raw))
  {
    hide SplitUrl, ReferenceParts, Raises, PathOk, EndsWith, ReferencePort, DefaultPort, IdentifierOf, StripSlashes, AllPlain,
         AllReferencePlain, Passes;
    assert s.h + s.port + s.p + s.marks == s.h + s.port + s.p && raw == s.scheme + "://" + (s.h + s.port + s.p);
    ReferencePlainIsPlain(raw);
    PortsAgree(s.port);
    ReferenceReads(raw, literal, s);
    SpelledSplits(raw, s.scheme, s.h, s.port, s.p);
  }

  lemma {:induction false} PlainForReference(raw: string, literal: string -> bool, scheme: string, h: string, port: string, p: string)
    requires Spells(raw, scheme, h, port, p) && !Lax(raw, h, port)
    ensures ReferenceUrl(raw, literal) == Read(NormalizeUrl(raw))
  {
    hide SplitUrl, ReferenceParts, Raises, PathOk, EndsWith, ReferencePort, DefaultPort, IdentifierOf, StripSlashes, AllPlain, Signed,
         AllReferencePlain;
    assert h + port + p + "" == h + port + p && "" + raw == raw;
    PortsAgree(port);
    PortIsPlain(port);
    var s := Spelling("", scheme, h, h, port, p, "");
    assert ReferenceSpells(raw, literal, s);
    ReferenceReads(raw, literal, s);
    SpelledSplits(raw, scheme, h, port, p);
  }

  lemma {:induction false} SameRest(a: string, x: string, b: string, y: string)
    requires Lower(a) == "https" && Lower(b) == "https" && a + "://" + x == b + "://" + y
    ensures x == y
  {
    LowerKeeps(a);
    LowerKeeps(b);
    assert x == (a + "://" + x)[8..] && y == (b + "://" + y)[8..];
  }

  // A path starts at the first slash, and a port at the only colon before it.
  lemma {:induction false} SameTail(a: string, p: string, b: string, q: string)
    requires a + p == b + q && '/' !in a && '/' !in b && (p != "" ==> p[0] == '/') && (q != "" ==> q[0] == '/')
    ensures a == b && p == q
  {
    FirstOfPrefix(a, p, {'/'});
    FirstOfPrefix(b, q, {'/'});
    assert a == (a + p)[..|a|] && b == (b + q)[..|b|] && p == (a + p)[|a|..] && q == (b + q)[|b|..];
  }

  lemma {:induction false} SamePort(a: string, port: string, b: string, port2: string)
    requires a + port == b + port2 && ':' !in a && ':' !in b && (port != "" ==> port[0] == ':') && (port2 != "" ==> port2[0] == ':')
    ensures a == b && port == port2
  {
    FirstOfPrefix(a, port, {':'});
    FirstOfPrefix(b, port2, {':'});
    assert a == (a + port)[..|a|] && b == (b + port2)[..|b|];
    assert port == (a + port)[|a|..] && port2 == (b + port2)[|b|..];
  }

  // A host with a mark in it is another identifier than any host without.
  lemma {:induction false} MarkedHostsDiffer(h: string, p: string, k: string, q: string)
    requires !MarkFree(h) && MarkFree(k) && MarkFree(q) && Identifies(h, p)
    ensures IdentifierOf(Parts(Lower(h), StripSlashes(p))) != IdentifierOf(Parts(Lower(k), StripSlashes(q)))
  {
    hide StripSlashes, NonEmpty, Split, WithoutGit;
    LowerKeeps(h);
    LowerKeeps(k);
    GithubIsMarkFree();
    assert UrlId(Lower(h), StripSlashes(p)).value[..|h|] == Lower(h);
    var value := Lower(k) + StripSlashes(q);
    assert MarkFree(value) by { assert forall c :: c in StripSlashes(q) ==> c in q; }
    assert !MarkFree(Lower(h) + StripSlashes(p)) by { assert forall c :: c in Lower(h) ==> c in Lower(h) + StripSlashes(p); }
  }

  lemma {:induction false} GithubIsMarkFree()
    ensures MarkFree("github.com")
  {
  }

  lemma {:induction false} LowerKeepsBracket(s: string)
    ensures ']' in Lower(s) <==> ']' in s
  {
    if ']' in s { var i :| 0 <= i < |s| && s[i] == ']'; assert Lower(s)[i] == ']'; }
    if ']' in Lower(s) { var i :| 0 <= i < |s| && Lower(s)[i] == ']'; assert s[i] == ']'; }
  }

  // So is one with a bracket in it, before the same path.
  lemma {:induction false} BracketedHostsDiffer(h: string, k: string, p: string)
    requires ']' in h && ']' !in k && Identifies(h, p)
    ensures IdentifierOf(Parts(Lower(h), StripSlashes(p))) != IdentifierOf(Parts(Lower(k), StripSlashes(p)))
  {
    hide StripSlashes, NonEmpty, Split, WithoutGit, Lower;
    LowerKeepsBracket(h);
    LowerKeepsBracket(k);
    assert ']' !in "github.com";
    var a, b, path := Lower(h), Lower(k), StripSlashes(p);
    assert UrlId(a, path).value[..|a|] == a && UrlId(b, path).value[..|b|] == b;
  }

  // What both read of one text.
  ghost predicate ReadTwice(raw: string, literal: string -> bool, h: string, port: string, p: string, s: Spelling) {
    && s.lead == "" && AllReferencePlain(raw)
    && h + port + p == s.h + s.port + s.p + s.marks
    && CleanRest(h, port, p) && ReferenceRest(s.h, s.k, s.port, s.p, s.marks, literal)
    && NormalizeUrl(raw) == IdentifierOf(Parts(Lower(h), StripSlashes(p)))
    && ReferenceUrl(raw, literal) == Read(IdentifierOf(Parts(Lower(s.k), StripSlashes(s.p))))
  }

  lemma {:induction false} NoLead(raw: string, a: string, x: string, lead: string, y: string)
    requires Lower(a) == "https" && raw == a + "://" + x && raw == lead + y && forall c :: c in lead ==> c <= ' '
    ensures lead == "" && raw == y
  {
    SchemeStarts(a);
    assert raw[0] == a[0];
    assert forall i :: 0 <= i < |lead| ==> (lead + y)[i] == lead[i] && lead[i] in lead;
    assert "" + y == y;
  }

  lemma {:induction false} BothRead(raw: string, literal: string -> bool, a: string, h: string, port: string, p: string, s: Spelling)
    requires Spells(raw, a, h, port, p) && ReferenceSpells(raw, literal, s)
    ensures ReadTwice(raw, literal, h, port, p, s)
  {
    hide SplitUrl, ReferenceParts, Raises, CleanRest, ReferenceRest, IdentifierOf, StripSlashes, AllPlain, AllReferencePlain, Lower;
    NoLead(raw, a, h + port + p, s.lead, s.scheme + "://" + (s.h + s.port + s.p + s.marks));
    SameRest(a, h + port + p, s.scheme, s.h + s.port + s.p + s.marks);
    SpelledSplits(raw, a, h, port, p);
    ReferenceReads(raw, literal, s);
  }

  lemma {:induction false} NamedIsIn(h: string, k: string, port: string)
    requires NamesHost(h, k, port)
    ensures forall c :: c in k ==> c in h
    ensures '[' in h ==> ']' !in k
  {
    if '[' in h {
      var pre, end :| InBrackets(h, pre, k, end, port);
      assert h == pre + "[" + k + end;
    }
  }

  // Marks are in the host of the service's reading, or nowhere.
  lemma {:induction false} MarksAreInHost(raw: string, literal: string -> bool, h: string, port: string, p: string, s: Spelling)
    requires ReadTwice(raw, literal, h, port, p, s)
    ensures !MarkFree(h) <==> s.marks != ""
    ensures '@' !in s.p && MarkFree(s.k) && MarkFree(s.p)
  {
    hide PathOk, EndsWith, ReferencePort, DefaultPort, NormalizeUrl, ReferenceUrl, IdentifierOf, StripSlashes, Lower, NamesHost, Passes,
         AllReferencePlain;
    PortIsPlain(s.port);
    PathHasNoMark(p);
    PathHasNoMark(s.p);
    DefaultPortMarks(port);
    NamedIsIn(s.h, s.k, s.port);
    var rest := h + port + p;
    assert forall c :: c in rest <==> c in h || c in port || c in p;
    assert forall c :: c in rest <==> c in s.h || c in s.port || c in s.p || c in s.marks;
  }

  lemma {:induction false} DefaultPortMarks(port: string)
    requires DefaultPort(port)
    ensures MarkFree(port) && '@' !in port && '/' !in port && !Bracketed(port)
  {
    hide Decimal;
    if port != "" {
      var digits := port[1..];
      forall c | c in port ensures c == ':' || c == '+' || IsDigit(c) { PortChar(port, c); }
    }
  }

  lemma {:induction false} PortChar(port: string, c: char)
    requires DefaultPort(port) && c in port
    ensures c == ':' || c == '+' || IsDigit(c)
  {
    hide Decimal;
    var k :| 0 <= k < |port| && port[k] == c;
    var digits := port[1..];
    var after := if |digits| > 1 && digits[0] == '+' then digits[1..] else digits;
    if k >= 1 && (k > 1 || after == digits) {
      assert after[k - 1 - (|digits| - |after|)] == c;
    }
  }

  // Without marks, both read one authority and one path.
  lemma {:induction false} AuthoritiesAreSame(raw: string, literal: string -> bool, h: string, port: string, p: string, s: Spelling)
    requires ReadTwice(raw, literal, h, port, p, s) && s.marks == ""
    ensures h + port == s.h + s.port && p == s.p
    ensures '[' in s.h ==> ']' in h && ']' !in s.k
    ensures '[' !in s.h ==> h == s.h == s.k && port == s.port && !Bracketed(h)
  {
    hide PathOk, EndsWith, ReferencePort, DefaultPort, NormalizeUrl, ReferenceUrl, IdentifierOf, StripSlashes, Lower, NamesHost,
         AllReferencePlain;
    DefaultPortMarks(port);
    PortIsPlain(s.port);
    NamedIsIn(s.h, s.k, s.port);
    assert s.h + s.port + s.p + s.marks == (s.h + s.port) + s.p;
    SameTail(h + port, p, s.h + s.port, s.p);
    assert forall c :: c in h + port <==> c in h || c in port;
    assert forall c :: c in s.h + s.port <==> c in s.h || c in s.port;
    if '[' !in s.h { PlainPortIsSame(h, port, s, literal); }
  }

  lemma {:induction false} PlainPortIsSame(h: string, port: string, s: Spelling, literal: string -> bool)
    requires h + port == s.h + s.port && '[' !in s.h && NamesHost(s.h, s.k, s.port) && Passes(s.h + s.port, literal)
    requires ':' !in h && DefaultPort(port) && ReferencePort(s.port)
    ensures h == s.h == s.k && port == s.port && !Bracketed(h)
  {
    hide ParseU16, Decimal, InBrackets;
    PortIsPlain(s.port);
    SamePort(h, port, s.h, s.port);
    assert forall c :: c in s.h + s.port <==> c in s.h || c in s.port;
  }

  lemma {:induction false} SharedPort(port: string)
    requires DefaultPort(port) && ReferencePort(port)
    ensures port != ":" && !Signed(port) && |port| <= 4301
  {
    hide Decimal;
    if port == ":" { NoDigits(); }
    if |port| > 1 { assert IsDigit(port[1..][0]); }
  }

  // Two readings that agree are free of all that only one of them lets pass.
  lemma {:induction false} Agreeing(raw: string, literal: string -> bool, h: string, port: string, p: string, s: Spelling)
    requires ReadTwice(raw, literal, h, port, p, s) && ReferenceUrl(raw, literal) == Read(NormalizeUrl(raw)) && Identifies(h, p)
    ensures !Loose(s) && !Lax(raw, h, port)
  {
    hide NormalizeUrl, ReferenceUrl, IdentifierOf, StripSlashes, Lower, ReferenceHost, ReferencePort, DefaultPort, PathOk, EndsWith,
         AllReferencePlain;
    MarksAreInHost(raw, literal, h, port, p, s);
    if !MarkFree(h) { MarkedHostsDiffer(h, p, s.k, s.p); }
    AuthoritiesAreSame(raw, literal, h, port, p, s);
    if '[' in s.h { BracketedHostsDiffer(h, s.k, p); }
    SharedPort(port);
  }

  lemma {:induction false} ReferenceOnlyParts(raw: string, literal: string -> bool)
    requires ReferenceOnly(raw, literal)
    ensures ReferenceUrl(raw, literal) != Read(NormalizeUrl(raw))
  {
    hide SplitUrl, ReferenceParts, Raises, Spells, ReferenceSpells, ReadTwice, IdentifierOf, Loose, Lax;
    var s :| ReferenceSpells(raw, literal, s) && Identifies(s.k, s.p) && Loose(s);
    ReferenceReads(raw, literal, s);
    if ReferenceUrl(raw, literal) == Read(NormalizeUrl(raw)) {
      var a, h, port, p := SplitSpells(raw);
      BothRead(raw, literal, a, h, port, p, s);
      Agreeing(raw, literal, h, port, p, s);
    }
  }

  lemma {:induction false} ServiceOnlyParts(raw: string, literal: string -> bool)
    requires ServiceOnly(raw)
    ensures ReferenceUrl(raw, literal) != Read(NormalizeUrl(raw))
  {
    hide SplitUrl, ReferenceParts, Raises, Spells, ReferenceSpells, ReadTwice, IdentifierOf, Loose, Lax;
    var a, h, port, p :| Spells(raw, a, h, port, p) && Identifies(h, p) && Lax(raw, h, port);
    SpelledSplits(raw, a, h, port, p);
    if ReferenceUrl(raw, literal) == Read(NormalizeUrl(raw)) {
      var s := ReferenceSplits(raw, literal);
      BothRead(raw, literal, a, h, port, p, s);
      Agreeing(raw, literal, h, port, p, s);
    }
  }

  // Whatever Python takes for an address in brackets, the service's normaliser and its reference part on
  // exactly these texts: the reference raises, or only one of them names a tool, or they name two.
  lemma {:induction false} NormalizersPartExactly(raw: string, literal: string -> bool)
    ensures ReferenceUrl(raw, literal) != Read(NormalizeUrl(raw)) <==>
            Raises(raw, literal) || ReferenceOnly(raw, literal) || ServiceOnly(raw)
  {
    hide SplitUrl, ReferenceParts, Raises, Spells, ReferenceSpells, IdentifierOf, Loose, Lax;
    if ReferenceOnly(raw, literal) { ReferenceOnlyParts(raw, literal); }
    if ServiceOnly(raw) { ServiceOnlyParts(raw, literal); }
    if ReferenceUrl(raw, literal) != Read(NormalizeUrl(raw)) && !Raises(raw, literal) {
      if ReferenceUrl(raw, literal).id.Some? {
        var s := ReferenceSplits(raw, literal);
        if !Loose(s) { PlainForService(raw, literal, s); }
      } else {
        var a, h, port, p := SplitSpells(raw);
        if !Lax(raw, h, port) { PlainForReference(raw, literal, a, h, port, p); }
      }
    }
  }

  // A canonical URL is read alike unless its host holds a mark or a bracket, or it holds a separator.
  lemma {:induction false} CanonicalReadAlike(host: string, path: string, literal: string -> bool)
    requires GoodHost(host) && GoodPath(path) && MarkFree(host) && !Bracketed(host) && AllReferencePlain("https://" + host + path)
    ensures ReferenceUrl("https://" + host + path, literal) == Read(NormalizeUrl("https://" + host + path))
  {
    hide NormalizeUrl, ReferenceUrl, PathOk, EndsWith, StripSlashes, AllReferencePlain;
    var raw := "https://" + host + path;
    assert raw == "https" + "://" + (host + "" + path);
    ReferencePlainIsPlain(raw);
    assert Lower("https") == "https";
    PlainForReference(raw, literal, "https", host, "", path);
  }

  // ── One text of each kind ──

  // A query before any slash is a part of the host for one, and refused by the other.
  lemma {:induction false} QueryIsServiceOnly(literal: string -> bool)
    ensures ServiceOnly(QUERY) && ReferenceUrl(QUERY, literal) != Read(NormalizeUrl(QUERY))
  {
    hide Spells, NormalizeUrl, ReferenceUrl, ReferenceOnly, Raises, StripSlashes;
    QuerySpells();
    assert "a.b?x"[3] == '?';
    assert Lower("a.b?x") == "a.b?x" && |"a.b?x"| != |"github.com"|;
    NormalizersPartExactly(QUERY, literal);
  }

  // A colon without a port is refused by one, and passed over by the other.
  const COLON: string := "https://a.b:"

  lemma {:induction false} ColonIsPlain()
    ensures AllReferencePlain(COLON)
  {
  }

  lemma {:induction false} ColonIsReferenceOnly(literal: string -> bool)
    ensures ReferenceOnly(COLON, literal) && ReferenceUrl(COLON, literal) != Read(NormalizeUrl(COLON))
  {
    hide AllReferencePlain, NormalizeUrl, ReferenceUrl, ServiceOnly, StripSlashes, Raises;
    ColonIsPlain();
    assert COLON == "" + ("https" + "://" + ("a.b" + ":" + "" + ""));
    assert Lower("https") == "https" && Lower("a.b") == "a.b" && !EndsWith("a.b", ".") && MarkFree("a.b");
    var s := Spelling("", "https", "a.b", "a.b", ":", "", "");
    assert ReferenceSpells(COLON, literal, s) by { assert ":"[1..] == "" && !Bracketed("a.b" + ":"); }
    assert Identifies("a.b", "") by { assert |"a.b"| != |"github.com"|; }
    NormalizersPartExactly(COLON, literal);
  }

  // A bracket that is not closed is a part of the host for one, and the other raises.
  const OPEN: string := "https://[a"

  lemma {:induction false} OpenBracketRaises(literal: string -> bool)
    ensures Raises(OPEN, literal) && ReferenceUrl(OPEN, literal) != Read(NormalizeUrl(OPEN))
  {
    hide UrlSplit, SplitTail, DropControls, NormalizeUrl, ReferencePlain;
    OpenIsPlain();
    assert OPEN == "https" + "://" + ("[a" + "") && OPEN == "" + OPEN && Lower("https") == "https";
    NoControls("", OPEN);
    SplitsAt("https", "[a", "");
    TailKeeps("https", "[a", "");
    assert "[a"[0] == '[';
  }

  lemma {:induction false} OpenIsPlain()
    ensures AllReferencePlain(OPEN)
  {
  }

  // An address in brackets has too many colons for one, and is the host for the other.
  const ADDRESS: string := "https://[::1]"

  const BRACKETED: Spelling := Spelling("", "https", "[::1]", "::1", "", "", "")

  lemma {:induction false} AddressIsHost(literal: string -> bool)
    requires literal("[::1]")
    ensures ReferenceHost("[::1]", "::1", "", literal)
  {
    hide NamesHost;
    var h := "[::1]";
    assert h[0] == '[' && h[4] == ']' && h == "" + "[" + "::1" + "]" && h + "" == h;
    BracketNames("", "::1", "]", "");
    assert Lower("::1") == "::1" && !EndsWith("::1", ".");
  }

  lemma {:induction false} AddressIsReferenceOnly(literal: string -> bool)
    requires literal("[::1]")
    ensures ReferenceOnly(ADDRESS, literal) && ReferenceUrl(ADDRESS, literal) != Read(NormalizeUrl(ADDRESS))
  {
    hide AllReferencePlain, NormalizeUrl, ReferenceUrl, ServiceOnly, StripSlashes, Raises, ReferenceHost;
    AddressIsPlain();
    AddressIsHost(literal);
    assert ADDRESS == "" + ("https" + "://" + ("[::1]" + "" + "" + "")) && Lower("https") == "https";
    assert ReferenceSpells(ADDRESS, literal, BRACKETED);
    assert Loose(BRACKETED) by { assert "[::1]"[0] == '['; }
    assert Identifies("::1", "") by { assert |"::1"| != |"github.com"|; }
    NormalizersPartExactly(ADDRESS, literal);
  }

  lemma {:induction false} AddressIsPlain()
    ensures AllReferencePlain(ADDRESS)
  {
  }
}
