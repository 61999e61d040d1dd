/** Resolving an intake to a tool: the service's procedure, and the reference it was ported from. */
module Resolver {
  import opened Wrappers
  import opened Sorting
  import opened Normalizer
  import opened NormalizerProperties
  import opened ReferenceNormalizer
  import opened ToolRegistry
  import Text

  datatype Status = Resolved | CreateCandidate | NeedsReview

  datatype Reason =
    | ExistingIdentifierMatch | NewStrongIdentifier | NameOnly | NameMatchOnly | InvalidOrAmbiguousUrl
    | MultipleStrongIdentifiers | ConflictingExistingIdentifiers | PossibleForkOrSourceMigration
    | AdditionalIdentifierRequiresReview

  datatype Resolution = Resolution(
    status: Status, identifiers: seq<Identifier>, toolId: Option<string>, candidates: seq<string>, reason: Reason)

  // ── The service ──

  function Normalised(urls: seq<string>): seq<Identifier> {
    if urls == [] then []
    else
      var before := Normalised(urls[..|urls| - 1]);
      match NormalizeUrl(urls[|urls| - 1])
      case None => before
      case Some(n) => if exists m :: m in before && Key(m) == Key(n) then before else before + [n]
  }

  predicate AllValid(urls: seq<string>) { forall u :: u in urls ==> NormalizeUrl(u).Some? }

  // The keys in the JSON arrays of the given tools.
  function OwnedKeys(g: Registry, tools: set<string>): set<string> {
    set t, id | t in tools && t in g.tools && id in g.tools[t].identifiers :: Key(id)
  }

  function Review(ids: seq<Identifier>, candidates: seq<string>, reason: Reason): Resolution {
    Resolution(NeedsReview, ids, None, candidates, reason)
  }

  // The one element of a set.
  function Only(s: set<string>): (x: string)
    requires |s| == 1
    ensures s == {x}
  {
    var x :| x in s;
    SingleElement(s, x);
    x
  }

  lemma {:induction false} SingleElement(s: set<string>, x: string)
    requires |s| == 1 && x in s
    ensures s == {x}
  {
    assert |s - {x}| == 0;
  }

  ghost function ResolveOutcome(g: Registry, urls: seq<string>, named: set<string>): Resolution {
    var ids := Sort(Normalised(urls), Key);
    var matched := Owners(g, Keys(ids));
    var candidates := SortedSet(matched + named);
    if !AllValid(urls) then Review(ids, candidates, InvalidOrAmbiguousUrl)
    else if |matched| > 1 then Review(ids, candidates, ConflictingExistingIdentifiers)
    else if |matched| == 1 then
      if !(Keys(ids) <= OwnedKeys(g, matched)) then Review(ids, candidates, AdditionalIdentifierRequiresReview)
      else Resolution(Resolved, ids, Some(Only(matched)), candidates, ExistingIdentifierMatch)
    else if ids == [] then Review(ids, candidates, if named != {} then NameMatchOnly else NameOnly)
    else if |ids| > 1 then Review(ids, candidates, MultipleStrongIdentifiers)
    else if named != {} then Review(ids, candidates, PossibleForkOrSourceMigration)
    else Resolution(CreateCandidate, ids, Some(Key(ids[0])), candidates, NewStrongIdentifier)
  }

  method HasKey(ids: seq<Identifier>, key: string) returns (found: bool)
    ensures found <==> exists m :: m in ids && Key(m) == key
  {
    for j := 0 to |ids|
      invariant forall k :: 0 <= k < j ==> Key(ids[k]) != key
    {
      if Key(ids[j]) == key {
        assert ids[j] in ids;
        return true;
      }
    }
    found := false;
  }

  // The loop over the URLs: keep the first identifier of each key, by a scan of those kept.
  method NormalizeUrls(urls: seq<string>) returns (ids: seq<Identifier>, invalid: bool)
    ensures ids == Normalised(urls)
    ensures invalid <==> !AllValid(urls)
  {
    hide NormalizeUrl, Key;
    ids, invalid := [], false;
    for i := 0 to |urls|
      invariant ids == Normalised(urls[..i])
      invariant invalid <==> exists k :: 0 <= k < i && NormalizeUrl(urls[k]).None?
    {
      assert urls[..i + 1][..i] == urls[..i];
      var normalized := NormalizeUrl(urls[i]);
      if normalized.None? {
        invalid := true;
      } else {
        var seen := HasKey(ids, Key(normalized.value));
        if !seen { ids := ids + [normalized.value]; }
      }
    }
    assert urls[..|urls|] == urls;
  }

  // Appends a set in whatever order it is enumerated.
  method Extend(all: seq<string>, s: set<string>) returns (r: seq<string>)
    ensures Elements(r) == Elements(all) + s
  {
    r := all;
    var rest := s;
    while rest != {}
      invariant rest <= s && Elements(r) == Elements(all) + (s - rest)
    {
      var x :| x in rest;
      ElementsAppend(r, x);
      r := r + [x];
      rest := rest - {x};
    }
  }

  // `dedup` of a sorted vector
  method Dedup(s: seq<string>) returns (r: seq<string>)
    requires Sorted(s, Self)
    ensures StrictlySorted(r, Self) && Elements(r) == Elements(s)
  {
    r := [];
    for i := 0 to |s|
      invariant StrictlySorted(r, Self) && Elements(r) == Elements(s[..i])
      invariant r == [] <==> i == 0
      invariant i > 0 ==> r[|r| - 1] == s[i - 1]
    {
      assert s[..i + 1] == s[..i] + [s[i]];
      ElementsAppend(s[..i], s[i]);
      if r == [] || r[|r| - 1] != s[i] {
        LastIsLess(r, s, i);
        ElementsAppend(r, s[i]);
        r := r + [s[i]];
      } else {
        assert s[i] in Elements(r);
      }
    }
    assert s[..|s|] == s;
  }

  // The ids of both sets, sorted and without repetition.
  method CandidateIds(matched: set<string>, named: set<string>) returns (r: seq<string>)
    ensures r == SortedSet(matched + named)
  {
    var all := Extend([], matched);
    all := Extend(all, named);
    SortSorts(all, Self);
    ElementsOfSort(all, Self);
    r := Dedup(Sort(all, Self));
    SameSetSorted(r, SortedSet(matched + named), Self);
  }

  lemma {:induction false} LastIsLess(r: seq<string>, s: seq<string>, i: nat)
    requires Sorted(s, Self) && i < |s| && StrictlySorted(r, Self)
    requires i > 0 ==> r != [] && r[|r| - 1] == s[i - 1]
    requires r != [] ==> i > 0 && r[|r| - 1] != s[i]
    ensures StrictlySorted(r + [s[i]], Self)
  {
    if r != [] {
      forall k | 0 <= k < |r| ensures Text.Less(Self(r[k]), Self(s[i])) {
        if k < |r| - 1 {
          Text.LeTransitive(r[k], r[|r| - 1], s[i]);
          if r[k] == s[i] { Text.LeAntisymmetric(r[k], r[|r| - 1]); }
        }
      }
    }
  }

  // `resolve_tool`, after the checks of the intake version and the name.
  method ResolveTool(g: Registry, urls: seq<string>, named: set<string>) returns (r: Resolution)
    ensures r == ResolveOutcome(g, urls, named)
  {
    hide Owners, Keys, OwnedKeys, Normalised, AllValid, SortedSet;
    var normalized, invalid := NormalizeUrls(urls);
    var ids := Sort(normalized, Key);
    var matched := Owners(g, Keys(ids));
    var candidates := CandidateIds(matched, named);
    if invalid { return Resolution(NeedsReview, ids, None, candidates, InvalidOrAmbiguousUrl); }
    if |matched| > 1 { return Resolution(NeedsReview, ids, None, candidates, ConflictingExistingIdentifiers); }
    if |matched| == 1 {
      var tool :| tool in matched;
      SingleElement(matched, tool);
      var unmatched := !(Keys(ids) <= OwnedKeys(g, matched));
      if unmatched { return Resolution(NeedsReview, ids, None, candidates, AdditionalIdentifierRequiresReview); }
      return Resolution(Resolved, ids, Some(tool), candidates, ExistingIdentifierMatch);
    }
    if ids == [] { return Resolution(NeedsReview, ids, None, candidates, if named != {} then NameMatchOnly else NameOnly); }
    if |ids| > 1 { return Resolution(NeedsReview, ids, None, candidates, MultipleStrongIdentifiers); }
    if named != {} { return Resolution(NeedsReview, ids, None, candidates, PossibleForkOrSourceMigration); }
    r := Resolution(CreateCandidate, ids, Some(Key(ids[0])), candidates, NewStrongIdentifier);
  }

  // ── The reference ──

  datatype ListedTool = ListedTool(toolId: string, identifiers: seq<Identifier>)

  // `normalized_by_key`, in which a later identifier of a key replaces an earlier one.
  function ByKey(normalize: string -> Option<Identifier>, urls: seq<string>): map<string, Identifier> {
    if urls == [] then map[]
    else
      var before := ByKey(normalize, urls[..|urls| - 1]);
      match normalize(urls[|urls| - 1])
      case None => before
      case Some(n) => before[Key(n) := n]
  }

  function OwnersOfTool(owners: map<string, string>, ids: seq<Identifier>, toolId: string): map<string, string> {
    if ids == [] then owners
    else OwnersOfTool(owners, ids[..|ids| - 1], toolId)[Key(ids[|ids| - 1]) := toolId]
  }

  // `identifier_owners`, in which a later tool replaces an earlier one.
  function IdentifierOwners(tools: seq<ListedTool>): map<string, string> {
    if tools == [] then map[]
    else
      var last := tools[|tools| - 1];
      OwnersOfTool(IdentifierOwners(tools[..|tools| - 1]), last.identifiers, last.toolId)
  }

  ghost function InKeyOrder(byKey: map<string, Identifier>): seq<Identifier> {
    var keys := SortedSet(byKey.Keys);
    seq(|keys|, i requires 0 <= i < |keys| =>
      assert keys[i] in Elements(keys);
      byKey[keys[i]])
  }

  function ReferenceReader(literal: string -> bool): string -> Option<Identifier> { u => Named(ReferenceUrl(u, literal)) }

  // `resolve_identity`, which raises if the normaliser does.
  ghost function ReferenceOutcome(tools: seq<ListedTool>, urls: seq<string>, named: set<string>, literal: string -> bool)
    : Option<Resolution>
  {
    if exists u :: u in urls && ReferenceUrl(u, literal) == Raised then None else Some(ReferenceResolution(tools, urls, named, literal))
  }

  ghost function ReferenceResolution(tools: seq<ListedTool>, urls: seq<string>, named: set<string>, literal: string -> bool): Resolution {
    var byKey := ByKey(ReferenceReader(literal), urls);
    var ids := InKeyOrder(byKey);
    var owners := IdentifierOwners(tools);
    var matched := set key | key in byKey && key in owners :: owners[key];
    var candidates := SortedSet(matched + named);
    if exists u :: u in urls && Named(ReferenceUrl(u, literal)) == None then Review(ids, candidates, InvalidOrAmbiguousUrl)
    else if |matched| > 1 then Review(ids, candidates, ConflictingExistingIdentifiers)
    else if |matched| == 1 then
      if byKey.Keys - owners.Keys != {} then Review(ids, candidates, AdditionalIdentifierRequiresReview)
      else Resolution(Resolved, ids, Some(Only(matched)), candidates, ExistingIdentifierMatch)
    else if ids == [] then Review(ids, candidates, if named != {} then NameMatchOnly else NameOnly)
    else if |ids| > 1 then Review(ids, candidates, MultipleStrongIdentifiers)
    else if named != {} then Review(ids, candidates, PossibleForkOrSourceMigration)
    else Resolution(CreateCandidate, ids, Some(Key(ids[0])), candidates, NewStrongIdentifier)
  }
}
