/** Tool identity as a whole: what a resolution means, that it passes the published checks, and the
    round trip from a candidate to a tool that is found again. */
module IdentityTheorems {
  import opened Wrappers
  import opened Sorting
  import opened Normalizer
  import opened NormalizerProperties
  import opened ReferenceNormalizer
  import opened ToolRegistry
  import opened RegistryProperties
  import opened Resolver
  import opened ResolverProperties
  import Text

  // ── What `resolved` means ──

  ghost predicate ResolvedTo(r: Resolution, t: string) { r.status == Resolved && r.toolId == Some(t) }

  lemma {:induction false} OwnsAllOfOne(g: Registry, keys: set<string>, t: string)
    requires RegistryInv(g) && OneOwner(g)
    ensures |Owners(g, keys)| == 1 && keys <= OwnedKeys(g, Owners(g, keys)) && Only(Owners(g, keys)) == t
            <==> keys != {} && forall key :: key in keys ==> OwnsKey(g, t, key)
  {
    hide RegistryInv, OneOwner, Owners, OwnedKeys, OwnsKey;
    var owners := Owners(g, keys);
    if |owners| == 1 && keys <= OwnedKeys(g, owners) && Only(owners) == t {
      assert t in owners;
      OwnersAre(g, keys, t);
      forall key | key in keys ensures OwnsKey(g, t, key) {
        assert key in OwnedKeys(g, owners);
        OwnedKeysAre(g, owners, key);
      }
    }
    if keys != {} && forall key :: key in keys ==> OwnsKey(g, t, key) {
      var some :| some in keys;
      forall s ensures s in owners <==> s == t {
        OwnersAre(g, keys, s);
        if key :| key in keys && OwnsKey(g, s, key) { OwnerIsUnique(g, key); }
      }
      assert owners == {t};
      forall key | key in keys ensures key in OwnedKeys(g, owners) { OwnedKeysAre(g, owners, key); }
    }
  }

  lemma {:induction false} KeysOfNames(urls: seq<string>, g: Registry, t: string)
    ensures var keys := Keys(Sort(Normalised(urls), Key));
            && (keys != {} <==> exists id :: Names(urls, id))
            && ((forall key :: key in keys ==> OwnsKey(g, t, key)) <==> forall id :: Names(urls, id) ==> OwnsKey(g, t, Key(id)))
  {
    hide OwnsKey, Names, Normalised, Key;
    var ids := Sort(Normalised(urls), Key);
    NormalisedLists(urls);
    SortSorts(Normalised(urls), Key);
    SameElements(ids, Normalised(urls));
    forall id | Names(urls, id) ensures Key(id) in Keys(ids) { assert id in ids; }
    forall key | key in Keys(ids) ensures exists id :: Names(urls, id) && Key(id) == key {
      var id :| id in ids && Key(id) == key;
      assert Names(urls, id);
    }
  }

  // An intake is resolved to a tool exactly when its URLs are all valid, yield at least one key, and
  // yield none that the tool does not own. Names play no part.
  lemma {:induction false} ResolvedExactly(g: Registry, urls: seq<string>, named: set<string>, t: string)
    requires RegistryInv(g) && OneOwner(g)
    ensures ResolvedTo(ResolveOutcome(g, urls, named), t) <==>
              && AllValid(urls)
              && (exists id :: Names(urls, id))
              && (forall id :: Names(urls, id) ==> OwnsKey(g, t, Key(id)))
  {
    hide RegistryInv, OneOwner, Owners, OwnedKeys, OwnsKey, SortedSet, AllValid, Names, Normalised, Keys, Key;
    KeysOfNames(urls, g, t);
    OwnsAllOfOne(g, Keys(Sort(Normalised(urls), Key)), t);
  }

  // ── The published checks of a resolution ──

  function ExistingIds(tools: seq<ListedTool>): set<string> { set tool | tool in tools :: tool.toolId }

  ghost predicate Canonical(ids: seq<Identifier>) {
    forall id :: id in ids ==> NormalizeUrl(id.canonicalUrl) == Some(id)
  }

  predicate ReviewReason(r: Reason) { r != ExistingIdentifierMatch && r != NewStrongIdentifier }

  ghost predicate StatusValid(owners: map<string, string>, existing: set<string>, r: Resolution) {
    match r.status
    case Resolved =>
      && r.toolId.Some? && r.toolId.value in existing && r.toolId.value in r.candidates
      && r.identifiers != []
      && (forall id :: id in r.identifiers ==> Key(id) in owners && owners[Key(id)] == r.toolId.value)
      && r.reason == ExistingIdentifierMatch
    case CreateCandidate =>
      && r.toolId.Some? && r.toolId.value !in existing
      && |r.identifiers| == 1 && r.toolId.value == Key(r.identifiers[0]) && Key(r.identifiers[0]) !in owners
      && r.candidates == []
      && r.reason == NewStrongIdentifier
    case NeedsReview => r.toolId.None? && ReviewReason(r.reason)
  }

  // The semantic checks of `validate_resolution`.
  ghost predicate ValidResolution(tools: seq<ListedTool>, r: Resolution) {
    && Canonical(r.identifiers)
    && DistinctKeys(r.identifiers, Key)
    && (forall c :: c in r.candidates ==> c in ExistingIds(tools))
    && StatusValid(IdentifierOwners(tools), ExistingIds(tools), r)
  }

  lemma {:induction false} OwnersExist(g: Registry, keys: set<string>)
    requires forall p :: p in g.ids ==> g.ids[p].toolId in g.tools
    ensures Owners(g, keys) <= g.tools.Keys
  {
  }

  lemma {:induction false} CandidatesExist(g: Registry, keys: set<string>, named: set<string>)
    requires (forall p :: p in g.ids ==> g.ids[p].toolId in g.tools) && named <= g.tools.Keys
    ensures forall c :: c in SortedSet(Owners(g, keys) + named) ==> c in g.tools
  {
    hide Owners;
    OwnersExist(g, keys);
    forall c | c in SortedSet(Owners(g, keys) + named) ensures c in g.tools {
      assert c in Elements(SortedSet(Owners(g, keys) + named));
    }
  }

  lemma {:induction false} SortedSetOfNone()
    ensures SortedSet({}) == []
  {
    SameSetSorted([], SortedSet({}), Self);
  }

  // The branch that resolves.
  lemma {:induction false} ResolvedShape(g: Registry, urls: seq<string>, named: set<string>)
    requires ResolveOutcome(g, urls, named).status == Resolved
    ensures var r := ResolveOutcome(g, urls, named);
            var owners := Owners(g, Keys(r.identifiers));
            && |owners| == 1 && Keys(r.identifiers) <= OwnedKeys(g, owners)
            && r.toolId == Some(Only(owners)) && r.candidates == SortedSet(owners + named) && r.reason == ExistingIdentifierMatch
  {
    hide Owners, OwnedKeys, Normalised, Sort, Keys, AllValid, SortedSet;
  }

  lemma {:induction false} ResolvedIsValid(tools: seq<ListedTool>, g: Registry, urls: seq<string>, named: set<string>)
    requires RegistryInv(g) && Listing(tools, g) && OneOwner(g) && ExistingIds(tools) == g.tools.Keys
    requires forall p :: p in g.ids ==> g.ids[p].toolId in g.tools
    requires ResolveOutcome(g, urls, named).status == Resolved
    ensures StatusValid(IdentifierOwners(tools), ExistingIds(tools), ResolveOutcome(g, urls, named))
  {
    hide RegistryInv, Listing, OneOwner, OwnsKey, Owners, OwnedKeys, IdentifierOwners, Key, ExistingIds, SortedSet, ResolveOutcome;
    ResolvedShape(g, urls, named);
    var r := ResolveOutcome(g, urls, named);
    var keys, t := Keys(r.identifiers), r.toolId.value;
    OwnersExist(g, keys);
    OwnsAllOfOne(g, keys, t);
    assert t in Owners(g, keys) + named;
    assert t in Elements(r.candidates);
    forall id | id in r.identifiers ensures Key(id) in IdentifierOwners(tools) && IdentifierOwners(tools)[Key(id)] == t {
      assert Key(id) in keys;
      OwnerIsUnique(g, Key(id));
      OwnersAgree(tools, g, Key(id));
    }
  }

  // The resolver proposes to create a tool for this identifier.
  ghost predicate Proposes(g: Registry, urls: seq<string>, named: set<string>, id: Identifier) {
    var r := ResolveOutcome(g, urls, named);
    r.status == CreateCandidate && r.identifiers == [id]
  }

  // The branch that proposes a tool.
  lemma {:induction false} CandidateShape(g: Registry, urls: seq<string>, named: set<string>)
    requires ResolveOutcome(g, urls, named).status == CreateCandidate
    ensures var r := ResolveOutcome(g, urls, named);
            && r.identifiers == Sort(Normalised(urls), Key) && |r.identifiers| == 1
            && Owners(g, Keys(r.identifiers)) == {} && named == {}
            && r.toolId == Some(Key(r.identifiers[0])) && r.reason == NewStrongIdentifier
            && r.candidates == SortedSet(Owners(g, Keys(r.identifiers)) + named)
  {
    hide Owners, OwnedKeys, Normalised, Sort, Keys, Key, AllValid, SortedSet;
  }

  // It proposes one identifier, of one of the URLs, whose key no tool has or owns, and nothing else.
  lemma {:induction false} CandidateIsFree(g: Registry, urls: seq<string>, named: set<string>) returns (id: Identifier)
    requires RegistryInv(g) && ResolveOutcome(g, urls, named).status == CreateCandidate
    ensures ResolveOutcome(g, urls, named) == Resolution(CreateCandidate, [id], Some(Key(id)), [], NewStrongIdentifier)
    ensures Names(urls, id) && Key(id) !in g.tools && forall t :: !OwnsKey(g, t, Key(id))
  {
    hide JsonAgrees, KeyChecked, OwnsKey, Owners, OwnedKeys, Key, Normalised, Names, SortedSet, ResolveOutcome, Sort;
    CandidateShape(g, urls, named);
    var r := ResolveOutcome(g, urls, named);
    id := r.identifiers[0];
    NormalisedLists(urls);
    SortSorts(Normalised(urls), Key);
    SameElements(r.identifiers, Normalised(urls));
    SortedSetOfNone();
    assert Owners(g, Keys(r.identifiers)) + named == {};
    assert r.identifiers == [id];
    assert id in r.identifiers;
    forall t ensures !OwnsKey(g, t, Key(id)) { OwnersAre(g, Keys(r.identifiers), t); }
  }

  lemma {:induction false} CandidateIsValid(tools: seq<ListedTool>, g: Registry, urls: seq<string>, named: set<string>)
    requires RegistryInv(g) && OneOwner(g) && Listing(tools, g) && ExistingIds(tools) == g.tools.Keys
    requires ResolveOutcome(g, urls, named).status == CreateCandidate
    ensures StatusValid(IdentifierOwners(tools), ExistingIds(tools), ResolveOutcome(g, urls, named))
  {
    hide RegistryInv, Listing, OneOwner, OwnsKey, IdentifierOwners, ResolveOutcome, Key, ExistingIds;
    var id := CandidateIsFree(g, urls, named);
    OwnersAgree(tools, g, Key(id));
  }

  lemma {:induction false} ReviewIsValid(owners: map<string, string>, existing: set<string>, g: Registry, urls: seq<string>,
                                         named: set<string>)
    requires ResolveOutcome(g, urls, named).status == NeedsReview
    ensures StatusValid(owners, existing, ResolveOutcome(g, urls, named))
  {
    hide Owners, OwnedKeys, Normalised, AllValid, Key, SortedSet;
  }

  lemma {:induction false} ListedOnce(g: Registry, urls: seq<string>, named: set<string>)
    requires RegistryInv(g) && named <= g.tools.Keys
    ensures DistinctKeys(ResolveOutcome(g, urls, named).identifiers, Key)
    ensures forall c :: c in ResolveOutcome(g, urls, named).candidates ==> c in g.tools
  {
    hide OwnsKey, Owners, OwnedKeys, Normalised, AllValid, JsonAgrees, KeyChecked, Key, SortedSet;
    NormalisedLists(urls);
    SortDistinct(Normalised(urls), Key);
    StrictIsDistinct(Sort(Normalised(urls), Key));
    CandidatesExist(g, Keys(Sort(Normalised(urls), Key)), named);
  }

  // A resolution passes every published check but, possibly, that its identifiers are canonical; so it
  // passes them all exactly when each of its identifiers normalises to itself.
  lemma {:induction false} ResolutionsAreValid(tools: seq<ListedTool>, g: Registry, urls: seq<string>, named: set<string>)
    requires RegistryInv(g) && OneOwner(g) && Listing(tools, g) && ExistingIds(tools) == g.tools.Keys && named <= g.tools.Keys
    ensures var r := ResolveOutcome(g, urls, named);
            ValidResolution(tools, r) <==> Canonical(r.identifiers)
  {
    hide Listing, OneOwner, IdentifierOwners, OwnsKey, JsonAgrees, KeyChecked, Key, ExistingIds, Canonical, StatusValid, ResolveOutcome;
    var r := ResolveOutcome(g, urls, named);
    ListedOnce(g, urls, named);
    match r.status
    case Resolved => ResolvedIsValid(tools, g, urls, named);
    case CreateCandidate => CandidateIsValid(tools, g, urls, named);
    case NeedsReview => ReviewIsValid(IdentifierOwners(tools), ExistingIds(tools), g, urls, named);
  }

  lemma {:induction false} StrictIsDistinct(ids: seq<Identifier>)
    requires StrictlySorted(ids, Key)
    ensures DistinctKeys(ids, Key)
  {
    hide Key;
  }

  // ── The round trip ──

  // The request a caller would build from a candidate.
  function RequestFor(id: Identifier, name: string, toolType: string): CreateToolRequest {
    CreateToolRequest(Key(id), name, toolType, id.canonicalUrl, [id], [])
  }

  lemma {:induction false} CanonicalIsChecked(urls: seq<string>, id: Identifier)
    requires Names(urls, id)
    ensures KeyChecked(id) <==> NormalizeUrl(id.canonicalUrl) == Some(id)
    ensures ToolIdFormat(Key(id))
  {
    hide NormalizeUrl, ToolIdFormat;
    var u :| u in urls && NormalizeUrl(u) == Some(id);
    KeyIsToolId(u);
    if KeyChecked(id) { KeysDetermineIdentifiers(id.canonicalUrl, u); }
  }

  lemma {:induction false} NonSpaceFound(s: string)
    requires Text.Trim(s) != ""
    ensures Checked(s)
  {
    if !Checked(s) { SpacesTrim(s); }
  }

  lemma {:induction false} SpacesTrim(s: string)
    requires forall i :: 0 <= i < |s| ==> s[i] == ' '
    ensures Text.TrimStart(s) == ""
  {
    if s != "" { SpacesTrim(s[1..]); }
  }

  lemma {:induction false} OneIdRequest(id: Identifier, name: string, toolType: string)
    requires Required(name, 200) && Required(id.canonicalUrl, 2048) && ToolIdFormat(Key(id))
    ensures CreateRequestOk(RequestFor(id, name, toolType)) <==> KeyChecked(id)
  {
    hide KeyChecked, Required, ToolIdFormat;
    var r := RequestFor(id, name, toolType);
    assert id in r.identifiers;
    assert CountKey([id], Key(id)) == 1 by { assert [id][1..] == []; }
  }

  // Within the length limits, a candidate can be created exactly when its identifier normalises to
  // itself: no other tool has its id or its key.
  lemma {:induction false} CandidateCreates(g: Registry, urls: seq<string>, named: set<string>, id: Identifier, name: string,
                                            toolType: string, now: int)
    requires RegistryInv(g) && Proposes(g, urls, named, id) && Required(name, 200) && Required(id.canonicalUrl, 2048)
    ensures var request := RequestFor(id, name, toolType);
            CreateRequestOk(request) && CreateToolTx(g, RowOf(request, now), []).Ok? <==> NormalizeUrl(id.canonicalUrl) == Some(id)
  {
    hide ResolveOutcome, RegistryInv, OwnsKey, ToolIdFormat, KeyChecked, NormalizeUrl, Names, CreateRequestOk, CreateToolTx, Required;
    var proposed := CandidateIsFree(g, urls, named);
    assert [id][0] == [proposed][0];
    CanonicalIsChecked(urls, id);
    OneIdRequest(id, name, toolType);
    if NormalizeUrl(id.canonicalUrl) == Some(id) { FreeInserts(g, id, name, toolType, now); }
  }

  lemma {:induction false} FreeInserts(g: Registry, id: Identifier, name: string, toolType: string, now: int)
    requires NormalizeUrl(id.canonicalUrl) == Some(id) && Key(id) !in g.tools && forall t :: !OwnsKey(g, t, Key(id))
    requires Required(name, 200) && Required(id.canonicalUrl, 2048) && ToolIdFormat(Key(id))
    ensures CreateToolTx(g, RowOf(RequestFor(id, name, toolType), now), []).Ok?
  {
    hide NormalizeUrl, Checked;
    ToolIdIsTrimmed(Key(id));
    RequiredIsChecked(name, 200);
    RequiredIsChecked(id.canonicalUrl, 2048);
    IdPartsChecked(id);
    UnownedHasNoRow(g, id);
    assert InsertIds(g.ids, [id][..0], Key(id)) == Ok(g.ids);
    assert [id][..|[id]| - 1] == [id][..0];
  }

  lemma {:induction false} UnownedHasNoRow(g: Registry, id: Identifier)
    requires forall t :: !OwnsKey(g, t, Key(id))
    ensures (id.ns, id.value) !in g.ids
  {
    assert RowKey((id.ns, id.value)) == Key(id);
    if (id.ns, id.value) in g.ids {
      OwnsByRow(g, (id.ns, id.value));
    }
  }

  lemma {:induction false} OwnsByRow(g: Registry, p: IdKey)
    requires p in g.ids
    ensures OwnsKey(g, g.ids[p].toolId, RowKey(p))
  {
  }

  lemma {:induction false} RequiredIsChecked(s: string, n: nat)
    requires Required(s, n)
    ensures Checked(s) && Checked(Text.Trim(s))
  {
    hide Checked;
    NonSpaceFound(s);
    Text.TrimIsProjection(s);
    NonSpaceFound(Text.Trim(s));
  }

  lemma {:induction false} IdPartsChecked(id: Identifier)
    requires NormalizeUrl(id.canonicalUrl) == Some(id)
    ensures Checked(id.ns) && Checked(id.value) && Checked(Key(id))
  {
    hide NormalizeUrl, PathOk, EndsWith, StripSlashes;
    var a, b := Image(id.canonicalUrl);
    if id.ns != "url" { GithubValue(id, a, b); }
    assert id.ns[0] != ' ' && Key(id)[0] == id.ns[0];
    assert id.value[0] == a[0] && Plain(a[0]);
  }

  // The registry after a candidate was created, and anything else after it.
  ghost function AfterCreating(g: Registry, id: Identifier, name: string, toolType: string, now: int, steps: seq<Step>): Registry {
    Execute(Next(g, CreateTool(RequestFor(id, name, toolType), now)), steps)
  }

  // From then on, whatever else is created and added, the tool owns its key; and while every key has one
  // owner, every intake whose URLs all name that identifier resolves to the tool, and an intake resolves
  // to it exactly when all it names is owned by it.
  lemma {:induction false} RoundTrip(g: Registry, urls: seq<string>, named: set<string>, id: Identifier, name: string, toolType: string,
                                     now: int, steps: seq<Step>, later: seq<string>, laterNamed: set<string>)
    requires RegistryInv(g) && Proposes(g, urls, named, id)
    requires Required(name, 200) && Required(id.canonicalUrl, 2048) && NormalizeUrl(id.canonicalUrl) == Some(id)
    ensures var h := AfterCreating(g, id, name, toolType, now, steps);
            var r := ResolveOutcome(h, later, laterNamed);
            && OwnsKey(h, Key(id), Key(id))
            && (OneOwner(h) ==> (
                  ResolvedTo(r, Key(id)) <==>
                    AllValid(later) && (exists m :: Names(later, m)) && forall m :: Names(later, m) ==> OwnsKey(h, Key(id), Key(m))))
            && (OneOwner(h) && later != [] && (forall u :: u in later ==> NormalizeUrl(u) == Some(id)) ==> ResolvedTo(r, Key(id)))
            && (PlainRows(g) && (forall s :: s in steps ==> PlainStep(s)) ==> OneOwner(h))
  {
    hide ResolveOutcome, RegistryInv, OwnsKey, KeyChecked, NormalizeUrl, CreateRequestOk, CreateToolTx, OneOwner, PlainRows, Execute, Next,
         Required, RequestFor;
    var create := CreateTool(RequestFor(id, name, toolType), now);
    CandidateCreates(g, urls, named, id, name, toolType, now);
    var proposed := CandidateIsFree(g, urls, named);
    assert [id][0] == [proposed][0];
    CreatedOwns(g, urls, id, name, toolType, now);
    var h := AfterCreating(g, id, name, toolType, now, steps);
    RegistryIsConsistent(Next(g, create), steps);
    OwnsForever(Next(g, create), h, Key(id), Key(id));
    if PlainRows(g) && forall s :: s in steps ==> PlainStep(s) {
      PlainForever(Next(g, create), steps);
      PlainIsOneOwner(h);
    }
    if OneOwner(h) { ResolvedExactly(h, later, laterNamed, Key(id)); }
    if later != [] && forall u :: u in later ==> NormalizeUrl(u) == Some(id) { AllName(later, id); }
  }

  lemma {:induction false} AllName(urls: seq<string>, id: Identifier)
    requires urls != [] && forall u :: u in urls ==> NormalizeUrl(u) == Some(id)
    ensures AllValid(urls) && Names(urls, id) && forall m :: Names(urls, m) ==> m == id
  {
    hide NormalizeUrl;
    assert urls[0] in urls;
  }

  lemma {:induction false} CreatedOwns(g: Registry, urls: seq<string>, id: Identifier, name: string, toolType: string, now: int)
    requires RegistryInv(g) && Names(urls, id)
    requires CreateRequestOk(RequestFor(id, name, toolType)) && CreateToolTx(g, RowOf(RequestFor(id, name, toolType), now), []).Ok?
    ensures var h := Next(g, CreateTool(RequestFor(id, name, toolType), now));
            RegistryInv(h) && (PlainRows(g) ==> PlainRows(h)) && OwnsKey(h, Key(id), Key(id))
  {
    hide CreateRequestOk, CreateToolTx, NormalizeUrl, KeyChecked, JsonAgrees, OwnsKey;
    var r := RequestFor(id, name, toolType);
    CreateToolKeeps(g, r, now);
    NamesPlain(urls, id);
    if PlainRows(g) { PlainNext(g, CreateTool(r, now)); }
    assert r.aliases == [];
  }

  lemma {:induction false} NamesPlain(urls: seq<string>, id: Identifier)
    requires Names(urls, id)
    ensures PlainNamespace(id.ns)
  {
    hide NormalizeUrl;
    var u :| u in urls && NormalizeUrl(u) == Some(id);
    ImageCanonical(u);
  }

  lemma {:induction false} PlainForever(g: Registry, steps: seq<Step>)
    requires RegistryInv(g) && PlainRows(g) && forall s :: s in steps ==> PlainStep(s)
    ensures PlainRows(Execute(g, steps))
  {
    hide RegistryInv, Next, PlainRows, PlainStep;
    if steps != [] {
      var before := steps[..|steps| - 1];
      assert forall s :: s in before ==> s in steps;
      assert steps[|steps| - 1] in steps;
      PlainForever(g, before);
      RegistryIsConsistent(g, before);
      PlainNext(Execute(g, before), steps[|steps| - 1]);
    }
  }

  // ── Without plain namespaces ──

  // A namespace and a value that split a key at another of its colons.
  const PLAIN: Identifier := Identifier("url", "a.b/c:d", "https://a.b/c:d")
  const SPLIT: Identifier := Identifier("url:a.b/c", "d", "https://a.b/c:d")
  const OTHER: Identifier := Identifier("url", "x.y", "https://x.y")

  const FIRST: CreateToolRequest := CreateToolRequest("url:a.b/c:d", "A", "generic", "https://a.b/c:d", [PLAIN], [])
  const SECOND: CreateToolRequest := CreateToolRequest("url:x.y", "B", "generic", "https://x.y", [OTHER, SPLIT], [])

  lemma {:induction false} ExampleHostsAreGood()
    ensures GoodHost("a.b") && GoodHost("x.y")
  {
  }

  lemma {:induction false} ColonPathIsGood()
    ensures GoodHost("a.b") && GoodPath("/c:d") && GoodHost("x.y") && GoodPath("")
  {
    hide GoodHost;
    ExampleHostsAreGood();
    var p := "/c:d";
    assert forall i :: 0 < i < |p| ==> p[i] != '/';
    forall pattern | pattern == "//" || pattern == "/./" || pattern == "/../" ensures !Contains(p, pattern) {
      forall i: nat | i <= |p| ensures !OccursAt(p, pattern, i) {
        if i + |pattern| <= |p| { assert p[i..i + |pattern|][|pattern| - 1] == p[i + |pattern| - 1]; }
      }
    }
    assert StripSlashes(p) == p;
  }

  lemma {:induction false} ExamplesNormalise()
    ensures NormalizeUrl(PLAIN.canonicalUrl) == Some(PLAIN) && NormalizeUrl(OTHER.canonicalUrl) == Some(OTHER)
    ensures Key(SPLIT) == Key(PLAIN) == FIRST.toolId && Key(OTHER) == SECOND.toolId
  {
    hide GoodHost, GoodPath, SplitUrl;
    ColonPathIsGood();
    CanonicalParses("a.b", "/c:d");
    CanonicalParses("x.y", "");
    assert "https://" + "a.b" + "/c:d" == PLAIN.canonicalUrl && "https://" + "x.y" + "" == OTHER.canonicalUrl;
    assert "x.y" + "" == "x.y" && "a.b" + "/c:d" == "a.b/c:d";
  }

  lemma {:induction false} TrimmedIsRequired(s: string, n: nat)
    requires s != "" && Text.Trimmed(s) && |s| <= n
    ensures Required(s, n) && Text.Trim(s) == s
  {
    Text.TrimIsProjection(s);
  }

  lemma {:induction false} SecondIsAccepted()
    ensures CreateRequestOk(SECOND) && Text.Trim(SECOND.toolId) == SECOND.toolId
  {
    hide NormalizeUrl, Key, Required, ToolIdFormat;
    ExamplesNormalise();
    ExampleKeysDiffer();
    TrimmedIsRequired("B", 200);
    TrimmedIsRequired(SECOND.canonicalUrl, 2048);
    KeyIsToolId(OTHER.canonicalUrl);
    ToolIdIsTrimmed(SECOND.toolId);
    assert OTHER in SECOND.identifiers;
    assert CountKey([SPLIT], SECOND.toolId) == 0 by { assert [SPLIT][1..] == []; }
    assert CountKey([OTHER, SPLIT], SECOND.toolId) == 1 by { assert [OTHER, SPLIT][1..] == [SPLIT]; }
  }

  lemma {:induction false} ExampleKeysDiffer()
    ensures Key(SPLIT) != SECOND.toolId && Key(PLAIN) != Key(OTHER)
  {
    assert Key(SPLIT)[4] == 'a' && SECOND.toolId[4] == 'x' && Key(PLAIN)[4] == 'a' && Key(OTHER)[4] == 'x';
  }

  lemma {:induction false} InsertedOnce(ids: map<IdKey, Owned>, id: Identifier, t: string)
    requires IdChecked(id) && (id.ns, id.value) !in ids
    ensures InsertIds(ids, [id], t) == Ok(ids[(id.ns, id.value) := Owned(t, id.canonicalUrl)])
  {
    hide IdChecked;
    assert [id][..0] == [];
    assert InsertIds(ids, [id][..0], t) == Ok(ids);
  }

  lemma {:induction false} InsertedTwice(ids: map<IdKey, Owned>, a: Identifier, b: Identifier, t: string)
    requires IdChecked(a) && (a.ns, a.value) !in ids && IdChecked(b) && (b.ns, b.value) !in ids && (a.ns, a.value) != (b.ns, b.value)
    ensures InsertIds(ids, [a, b], t) == Ok(ids[(a.ns, a.value) := Owned(t, a.canonicalUrl)][(b.ns, b.value) := Owned(t, b.canonicalUrl)])
  {
    hide IdChecked;
    InsertedOnce(ids, a, t);
    assert [a, b][..1] == [a];
  }

  lemma {:induction false} ExamplesChecked()
    ensures IdChecked(PLAIN) && IdChecked(SPLIT) && IdChecked(OTHER)
    ensures Checked(SECOND.toolId) && Checked(SECOND.name) && Checked(SECOND.canonicalUrl)
    ensures Checked(FIRST.toolId) && Checked(FIRST.name) && Checked(FIRST.canonicalUrl)
  {
    assert PLAIN.ns[0] != ' ' && PLAIN.value[0] != ' ' && PLAIN.canonicalUrl[0] != ' ';
    assert SPLIT.ns[0] != ' ' && SPLIT.value[0] != ' ';
    assert OTHER.value[0] != ' ' && OTHER.canonicalUrl[0] != ' ';
    assert SECOND.toolId[0] != ' ' && SECOND.name[0] != ' ' && FIRST.toolId[0] != ' ' && FIRST.name[0] != ' ';
  }

  // Where a namespace may hold a colon, a key can come to be owned by two tools: creating the first of
  // these and then the second is accepted, and both own the key of the first.
  lemma {:induction false} ColonNamespacesSplitAKey()
    ensures var g := Execute(EMPTY, [CreateTool(FIRST, 0), CreateTool(SECOND, 0)]);
            OwnsKey(g, FIRST.toolId, FIRST.toolId) && OwnsKey(g, SECOND.toolId, FIRST.toolId) && !OneOwner(g)
  {
    hide NormalizeUrl, Key, CreateRequestOk, IdChecked, Checked, InsertIds, Text.Trim;
    ExamplesNormalise();
    ExampleKeysDiffer();
    ExamplesChecked();
    TrimmedIsRequired("A", 200);
    TrimmedIsRequired("B", 200);
    TrimmedIsRequired(PLAIN.canonicalUrl, 2048);
    TrimmedIsRequired(OTHER.canonicalUrl, 2048);
    KeyIsToolId(PLAIN.canonicalUrl);
    ToolIdIsTrimmed(FIRST.toolId);
    OneIdRequest(PLAIN, "A", "generic");
    SecondIsAccepted();
    InsertedOnce(map[], PLAIN, FIRST.toolId);
    var one := Next(EMPTY, CreateTool(FIRST, 0));
    InsertedTwice(one.ids, OTHER, SPLIT, SECOND.toolId);
    var two := Next(one, CreateTool(SECOND, 0));
    assert ("url", "a.b/c:d") in one.ids && one.tools.Keys == {FIRST.toolId};
    TwoSteps(CreateTool(FIRST, 0), CreateTool(SECOND, 0));
    assert RowKey(("url", "a.b/c:d")) == Key(PLAIN) == Key(SPLIT) == RowKey(("url:a.b/c", "d")) by { RowKeysAre(); }
    assert ("url", "a.b/c:d") in two.ids && ("url:a.b/c", "d") in two.ids;
  }

  lemma {:induction false} ExampleIsReadAlike(literal: string -> bool)
    ensures ReferenceUrl(PLAIN.canonicalUrl, literal) == Read(NormalizeUrl(PLAIN.canonicalUrl))
  {
    hide GoodHost, GoodPath, NormalizeUrl, ReferenceUrl, AllReferencePlain;
    ColonPathIsGood();
    ExampleIsPlain();
    assert MarkFree("a.b") && !Bracketed("a.b");
    assert "https://" + "a.b" + "/c:d" == PLAIN.canonicalUrl;
    CanonicalReadAlike("a.b", "/c:d", literal);
  }

  lemma {:induction false} ExampleIsPlain()
    ensures AllReferencePlain(PLAIN.canonicalUrl)
  {
  }

  // There the service and its reference part: the service reports that two tools own the key, and the
  // reference resolves to the one it listed last.
  lemma {:induction false} SplitKeysResolveApart(tools: seq<ListedTool>, named: set<string>, literal: string -> bool)
    requires Listing(tools, Execute(EMPTY, [CreateTool(FIRST, 0), CreateTool(SECOND, 0)]))
    ensures var g := Execute(EMPTY, [CreateTool(FIRST, 0), CreateTool(SECOND, 0)]);
            var reference := ReferenceOutcome(tools, [PLAIN.canonicalUrl], named, literal);
            && ResolveOutcome(g, [PLAIN.canonicalUrl], named).reason == ConflictingExistingIdentifiers
            && reference.Some? && reference.value.status == Resolved
  {
    hide NormalizeUrl, ReferenceUrl, Key, Execute, OwnsKey, ResolveOutcome, ReferenceOutcome, Listing, OneOwner, RegistryInv;
    ExampleIsReadAlike(literal);
    var steps := [CreateTool(FIRST, 0), CreateTool(SECOND, 0)];
    var g := Execute(EMPTY, steps);
    EmptyInv();
    RegistryIsConsistent(EMPTY, steps);
    ColonNamespacesSplitAKey();
    ExamplesNormalise();
    assert FIRST.toolId != SECOND.toolId by { assert FIRST.toolId[4] == 'a' && SECOND.toolId[4] == 'x'; }
    assert OwnsKey(g, FIRST.toolId, Key(PLAIN)) && OwnsKey(g, SECOND.toolId, Key(PLAIN));
    OneUrlAgreesExactly(tools, g, PLAIN.canonicalUrl, PLAIN, named, literal);
  }

  lemma {:induction false} RowKeysAre()
    ensures RowKey(("url", "a.b/c:d")) == Key(PLAIN) && Key(SPLIT) == RowKey(("url:a.b/c", "d"))
  {
  }

  lemma {:induction false} TwoSteps(a: Step, b: Step)
    ensures Execute(EMPTY, [a, b]) == Next(Next(EMPTY, a), b)
  {
    hide Next;
    assert [a, b][..1] == [a] && [a][..0] == [];
    assert Execute(EMPTY, [a][..0]) == EMPTY;
  }
}
