/** The resolver against its reference, against the checks of a resolution, and against the registry. */
module ResolverProperties {
  import opened Wrappers
  import opened Sorting
  import opened Normalizer
  import opened NormalizerProperties
  import opened ReferenceNormalizer
  import opened ToolRegistry
  import opened RegistryProperties
  import opened Resolver
  import Text

  // ── The identifiers of a URL list ──

  ghost predicate Names(urls: seq<string>, id: Identifier) {
    exists u :: u in urls && NormalizeUrl(u) == Some(id)
  }

  lemma {:induction false} NamesAppend(urls: seq<string>, u: string, id: Identifier)
    ensures Names(urls + [u], id) <==> Names(urls, id) || NormalizeUrl(u) == Some(id)
  {
    hide NormalizeUrl;
    assert u in urls + [u] && forall v :: v in urls ==> v in urls + [u];
  }

  // A key names one identifier, whichever of its spellings is kept.
  lemma {:induction false} NamedKeys(urls: seq<string>, a: Identifier, b: Identifier)
    requires Names(urls, a) && Names(urls, b) && Key(a) == Key(b)
    ensures a == b
  {
    hide NormalizeUrl;
    var u :| u in urls && NormalizeUrl(u) == Some(a);
    var v :| v in urls && NormalizeUrl(v) == Some(b);
    KeysDetermineIdentifiers(u, v);
  }

  lemma {:induction false} NormalisedLists(urls: seq<string>)
    ensures forall id :: id in Normalised(urls) <==> Names(urls, id)
    ensures DistinctKeys(Normalised(urls), Key)
  {
    hide NormalizeUrl, Key;
    if urls != [] {
      var before, last := urls[..|urls| - 1], urls[|urls| - 1];
      assert urls == before + [last];
      NormalisedLists(before);
      forall id ensures id in Normalised(urls) <==> Names(urls, id) {
        NamesAppend(before, last, id);
        if NormalizeUrl(last) == Some(id) && id !in Normalised(before) && id !in Normalised(urls) {
          var m :| m in Normalised(before) && Key(m) == Key(id);
          NamesAppend(before, last, m);
          NamedKeys(urls, m, id);
        }
      }
    }
  }

  lemma {:induction false} ByKeyLists(urls: seq<string>)
    ensures forall key :: key in ByKey(NormalizeUrl, urls) ==>
              Names(urls, ByKey(NormalizeUrl, urls)[key]) && Key(ByKey(NormalizeUrl, urls)[key]) == key
    ensures forall id :: Names(urls, id) ==> Key(id) in ByKey(NormalizeUrl, urls) && ByKey(NormalizeUrl, urls)[Key(id)] == id
  {
    hide NormalizeUrl, Key;
    if urls != [] {
      var before, last := urls[..|urls| - 1], urls[|urls| - 1];
      assert urls == before + [last];
      ByKeyLists(before);
      forall key | key in ByKey(NormalizeUrl, urls)
        ensures Names(urls, ByKey(NormalizeUrl, urls)[key]) && Key(ByKey(NormalizeUrl, urls)[key]) == key
      {
        NamesAppend(before, last, ByKey(NormalizeUrl, urls)[key]);
      }
      forall id | Names(urls, id) ensures Key(id) in ByKey(NormalizeUrl, urls) && ByKey(NormalizeUrl, urls)[Key(id)] == id {
        NamesAppend(before, last, id);
        if NormalizeUrl(last).Some? {
          NamesAppend(before, last, NormalizeUrl(last).value);
          if Key(NormalizeUrl(last).value) == Key(id) { NamedKeys(urls, id, NormalizeUrl(last).value); }
        }
      }
    }
  }

  lemma {:induction false} InKeyOrderLists(byKey: map<string, Identifier>)
    requires forall key :: key in byKey ==> Key(byKey[key]) == key
    ensures StrictlySorted(InKeyOrder(byKey), Key)
    ensures forall id :: id in InKeyOrder(byKey) <==> Key(id) in byKey && byKey[Key(id)] == id
  {
    hide Key;
    var keys, ids := SortedSet(byKey.Keys), InKeyOrder(byKey);
    forall i | 0 <= i < |keys| ensures keys[i] in byKey && Key(ids[i]) == keys[i] && ids[i] == byKey[keys[i]] {
      assert keys[i] in Elements(keys);
    }
    forall i, j | 0 <= i < j < |ids| ensures Text.Less(Key(ids[i]), Key(ids[j])) {
      assert Text.Less(Self(keys[i]), Self(keys[j]));
    }
    forall id | Key(id) in byKey && byKey[Key(id)] == id ensures id in ids {
      assert Key(id) in Elements(keys);
      var i :| 0 <= i < |keys| && keys[i] == Key(id);
      assert ids[i] == id;
    }
  }

  // Keeping the first of each key and sorting gives the list that keeping the last and sorting gives.
  lemma {:induction false} SameIdentifiers(urls: seq<string>)
    ensures Sort(Normalised(urls), Key) == InKeyOrder(ByKey(NormalizeUrl, urls))
    ensures Keys(Sort(Normalised(urls), Key)) == ByKey(NormalizeUrl, urls).Keys
  {
    hide NormalizeUrl, Key, InKeyOrder, Names;
    NormalisedLists(urls);
    ByKeyLists(urls);
    InKeyOrderLists(ByKey(NormalizeUrl, urls));
    var a, b := Sort(Normalised(urls), Key), InKeyOrder(ByKey(NormalizeUrl, urls));
    SortDistinct(Normalised(urls), Key);
    SortSorts(Normalised(urls), Key);
    SameElements(a, Normalised(urls));
    forall id ensures id in a <==> id in b {}
    SameSetSorted(a, b, Key);
  }

  // ── The owners ──

  ghost predicate ListedRow(g: Registry, tool: ListedTool, id: Identifier) {
    (id.ns, id.value) in g.ids && g.ids[(id.ns, id.value)].toolId == tool.toolId
  }

  ghost predicate RowListed(tools: seq<ListedTool>, p: IdKey, toolId: string) {
    exists tool, id :: tool in tools && id in tool.identifiers && (id.ns, id.value) == p && tool.toolId == toolId
  }

  // The tools listed with their identifiers, in any order.
  ghost predicate Listing(tools: seq<ListedTool>, g: Registry) {
    && (forall tool, id :: tool in tools && id in tool.identifiers ==> ListedRow(g, tool, id))
    && (forall p :: p in g.ids ==> RowListed(tools, p, g.ids[p].toolId))
  }

  ghost predicate KeyListed(ids: seq<Identifier>, key: string) { exists id :: id in ids && Key(id) == key }

  // Who may be recorded for a key: a listed tool with an identifier of that key.
  ghost predicate MayOwn(tools: seq<ListedTool>, key: string, toolId: string) {
    exists tool :: tool in tools && KeyListed(tool.identifiers, key) && tool.toolId == toolId
  }

  lemma {:induction false} KeyListedAppend(ids: seq<Identifier>, id: Identifier, key: string)
    ensures KeyListed(ids + [id], key) <==> KeyListed(ids, key) || Key(id) == key
  {
    assert id in ids + [id] && forall m :: m in ids ==> m in ids + [id];
  }

  lemma {:induction false} MayOwnAppend(tools: seq<ListedTool>, tool: ListedTool, key: string, t: string)
    ensures MayOwn(tools + [tool], key, t) <==> MayOwn(tools, key, t) || (KeyListed(tool.identifiers, key) && tool.toolId == t)
  {
    hide KeyListed;
    assert tool in tools + [tool] && forall m :: m in tools ==> m in tools + [tool];
  }

  lemma {:induction false} OwnersOfToolShape(owners: map<string, string>, ids: seq<Identifier>, toolId: string, key: string)
    ensures key in OwnersOfTool(owners, ids, toolId) <==> key in owners || KeyListed(ids, key)
    ensures KeyListed(ids, key) ==> OwnersOfTool(owners, ids, toolId)[key] == toolId
    ensures key in owners && !KeyListed(ids, key) ==> OwnersOfTool(owners, ids, toolId)[key] == owners[key]
  {
    hide Key;
    if ids != [] {
      var before, last := ids[..|ids| - 1], ids[|ids| - 1];
      assert ids == before + [last];
      OwnersOfToolShape(owners, before, toolId, key);
      KeyListedAppend(before, last, key);
    }
  }

  lemma {:induction false} OwnersShape(tools: seq<ListedTool>, key: string)
    ensures key in IdentifierOwners(tools) ==> MayOwn(tools, key, IdentifierOwners(tools)[key])
    ensures forall t :: MayOwn(tools, key, t) ==> key in IdentifierOwners(tools)
  {
    hide KeyListed, OwnersOfTool, MayOwn;
    if tools != [] {
      var before, last := tools[..|tools| - 1], tools[|tools| - 1];
      assert tools == before + [last];
      OwnersShape(before, key);
      OwnersOfToolShape(IdentifierOwners(before), last.identifiers, last.toolId, key);
      forall t ensures MayOwn(tools, key, t) <==> MayOwn(before, key, t) || (KeyListed(last.identifiers, key) && last.toolId == t) {
        MayOwnAppend(before, last, key, t);
      }
    } else {
      NobodyOwns(key);
    }
  }

  lemma {:induction false} NobodyOwns(key: string)
    ensures forall t :: !MayOwn([], key, t)
  {
  }

  lemma {:induction false} ListedOwns(tools: seq<ListedTool>, g: Registry, key: string, t: string)
    requires Listing(tools, g)
    ensures MayOwn(tools, key, t) <==> OwnsKey(g, t, key)
  {
    if MayOwn(tools, key, t) {
      var tool :| tool in tools && KeyListed(tool.identifiers, key) && tool.toolId == t;
      var id :| id in tool.identifiers && Key(id) == key;
      assert ListedRow(g, tool, id);
      assert RowKey((id.ns, id.value)) == key;
    }
    if OwnsKey(g, t, key) {
      var p :| p in g.ids && RowKey(p) == key && g.ids[p].toolId == t;
      assert RowListed(tools, p, t);
      var tool, id :| tool in tools && id in tool.identifiers && (id.ns, id.value) == p && tool.toolId == t;
      assert Key(id) == key && KeyListed(tool.identifiers, key);
    }
  }

  ghost predicate OneOwnerOf(g: Registry, key: string) {
    forall t, s :: OwnsKey(g, t, key) && OwnsKey(g, s, key) ==> t == s
  }

  lemma {:induction false} OwnerIsUnique(g: Registry, key: string)
    requires OneOwner(g)
    ensures OneOwnerOf(g, key)
  {
    forall t, s | OwnsKey(g, t, key) && OwnsKey(g, s, key) ensures t == s {
      var p :| p in g.ids && RowKey(p) == key && g.ids[p].toolId == t;
      var q :| q in g.ids && RowKey(q) == key && g.ids[q].toolId == s;
    }
  }

  // Where a key has one owner, the reference's dictionary is the table.
  lemma {:induction false} OwnersAgree(tools: seq<ListedTool>, g: Registry, key: string)
    requires Listing(tools, g) && OneOwnerOf(g, key)
    ensures forall t :: OwnsKey(g, t, key) ==> key in IdentifierOwners(tools) && IdentifierOwners(tools)[key] == t
    ensures key in IdentifierOwners(tools) ==> OwnsKey(g, IdentifierOwners(tools)[key], key)
  {
    hide Listing, MayOwn, OwnsKey, IdentifierOwners;
    OwnersShape(tools, key);
    forall t ensures MayOwn(tools, key, t) <==> OwnsKey(g, t, key) { ListedOwns(tools, g, key, t); }
  }

  lemma {:induction false} OwnersAre(g: Registry, keys: set<string>, t: string)
    ensures t in Owners(g, keys) <==> exists key :: key in keys && OwnsKey(g, t, key)
  {
    if t in Owners(g, keys) {
      var p :| p in g.ids && p.0 + ":" + p.1 in keys && g.ids[p].toolId == t;
      assert RowKey(p) in keys && OwnsKey(g, t, RowKey(p));
    }
    if key :| key in keys && OwnsKey(g, t, key) {
      var p :| p in g.ids && RowKey(p) == key && g.ids[p].toolId == t;
      assert p.0 + ":" + p.1 in keys;
    }
  }

  // The JSON arrays of the matched tools, which the service reads, hold the keys of their rows.
  lemma {:induction false} OwnedKeysAre(g: Registry, tools: set<string>, key: string)
    requires RegistryInv(g)
    ensures key in OwnedKeys(g, tools) <==> exists t :: t in tools && OwnsKey(g, t, key)
  {
    hide KeyChecked;
    if key in OwnedKeys(g, tools) {
      var t, id :| t in tools && t in g.tools && id in g.tools[t].identifiers && Key(id) == key;
      assert JsonAgrees(g, t);
      assert (id.ns, id.value) in g.ids && RowKey((id.ns, id.value)) == key && OwnsKey(g, t, key);
    }
    if t :| t in tools && OwnsKey(g, t, key) {
      var p :| p in g.ids && RowKey(p) == key && g.ids[p].toolId == t;
      assert JsonAgrees(g, t);
      assert Key(Identifier(p.0, p.1, g.ids[p].canonicalUrl)) == key;
    }
  }

  ghost function ReferenceMatched(tools: seq<ListedTool>, keys: set<string>): set<string> {
    set key | key in keys && key in IdentifierOwners(tools) :: IdentifierOwners(tools)[key]
  }

  lemma {:induction false} SameMatched(tools: seq<ListedTool>, g: Registry, keys: set<string>)
    requires Listing(tools, g) && forall key :: key in keys ==> OneOwnerOf(g, key)
    ensures Owners(g, keys) == ReferenceMatched(tools, keys)
  {
    hide Listing, OneOwnerOf, Owners, IdentifierOwners, OwnsKey;
    forall t ensures t in Owners(g, keys) <==> t in ReferenceMatched(tools, keys) {
      OwnersAre(g, keys, t);
      if key :| key in keys && OwnsKey(g, t, key) { OwnersAgree(tools, g, key); }
      if t in ReferenceMatched(tools, keys) {
        var key :| key in keys && key in IdentifierOwners(tools) && IdentifierOwners(tools)[key] == t;
        OwnersAgree(tools, g, key);
      }
    }
  }

  // With one matched tool, the keys that it does not own are the keys that nobody owns.
  lemma {:induction false} SameUnmatched(tools: seq<ListedTool>, g: Registry, keys: set<string>)
    requires RegistryInv(g) && Listing(tools, g) && |Owners(g, keys)| == 1 && forall key :: key in keys ==> OneOwnerOf(g, key)
    ensures keys <= OwnedKeys(g, Owners(g, keys)) <==> keys - IdentifierOwners(tools).Keys == {}
  {
    hide RegistryInv, Listing, OneOwnerOf, Owners, OwnedKeys, IdentifierOwners, OwnsKey;
    forall key | key in keys ensures key in OwnedKeys(g, Owners(g, keys)) <==> key in IdentifierOwners(tools) {
      OwnedKeysAre(g, Owners(g, keys), key);
      OwnersAgree(tools, g, key);
      if t :| OwnsKey(g, t, key) { OwnersAre(g, keys, t); }
    }
    assert keys - IdentifierOwners(tools).Keys == {} <==> forall key :: key in keys ==> key in IdentifierOwners(tools) by {
      if keys - IdentifierOwners(tools).Keys == {} {
        forall key | key in keys ensures key in IdentifierOwners(tools) {
          assert key !in keys - IdentifierOwners(tools).Keys;
        }
      }
    }
  }

  // Both normalisers read every URL alike.
  ghost predicate SameReadings(urls: seq<string>, literal: string -> bool) {
    forall u :: u in urls ==> ReferenceUrl(u, literal) == Read(NormalizeUrl(u))
  }

  lemma {:induction false} SameByKey(urls: seq<string>, literal: string -> bool)
    requires SameReadings(urls, literal)
    ensures ByKey(ReferenceReader(literal), urls) == ByKey(NormalizeUrl, urls)
    ensures AllValid(urls) <==> !exists u :: u in urls && Named(ReferenceUrl(u, literal)) == None
    ensures !exists u :: u in urls && ReferenceUrl(u, literal) == Raised
  {
    hide NormalizeUrl, ReferenceUrl, Key;
    if urls != [] {
      var before := urls[..|urls| - 1];
      assert forall u :: u in before ==> u in urls;
      SameByKey(before, literal);
      assert urls[|urls| - 1] in urls;
    }
  }

  // The resolver gives what its reference gives, as long as every key that the URLs yield has one owner
  // and both normalisers read the URLs alike.
  lemma {:induction false} ResolverMatchesReference(tools: seq<ListedTool>, g: Registry, urls: seq<string>, named: set<string>,
                                                    literal: string -> bool)
    requires RegistryInv(g) && Listing(tools, g) && SameReadings(urls, literal)
    requires forall id :: Names(urls, id) ==> OneOwnerOf(g, Key(id))
    ensures ReferenceOutcome(tools, urls, named, literal) == Some(ResolveOutcome(g, urls, named))
  {
    hide RegistryInv, ReferenceReader, Listing, SameReadings, NormalizeUrl, ReferenceUrl, Key, OneOwnerOf, Owners, OwnedKeys,
         IdentifierOwners, Normalised, ByKey, Keys, InKeyOrder, SortedSet, AllValid, Names;
    SameByKey(urls, literal);
    SameIdentifiers(urls);
    ByKeyLists(urls);
    var keys := ByKey(NormalizeUrl, urls).Keys;
    SameMatched(tools, g, keys);
    assert (set key | key in ByKey(NormalizeUrl, urls) && key in IdentifierOwners(tools) :: IdentifierOwners(tools)[key]) ==
        ReferenceMatched(tools, keys);
    if |Owners(g, keys)| == 1 { SameUnmatched(tools, g, keys); }
  }

  lemma {:induction false} OneUrl(u: string, id: Identifier)
    requires NormalizeUrl(u) == Some(id)
    ensures ByKey(NormalizeUrl, [u]) == map[Key(id) := id] && AllValid([u]) && Keys(Sort(Normalised([u]), Key)) == {Key(id)}
    ensures Names([u], id) && forall m :: Names([u], m) ==> m == id
  {
    hide NormalizeUrl, Key;
    assert [u][..0] == [] && u in [u];
    assert ByKey(NormalizeUrl, [u][..0]) == map[] && Normalised([u][..0]) == [];
    SortSorts(Normalised([u]), Key);
    SameElements(Sort(Normalised([u]), Key), Normalised([u]));
    assert id in Sort(Normalised([u]), Key);
  }

  lemma {:induction false} TwoOfThem(s: set<string>, a: string, b: string)
    requires a in s && b in s && a != b
    ensures |s| > 1
  {
    assert {a, b} <= s;
    Subset({a, b}, s);
  }

  lemma {:induction false} Subset(a: set<string>, b: set<string>)
    requires a <= b
    ensures |a| <= |b|
  {
    assert b == a + (b - a);
  }

  lemma {:induction false} OwnerIsListed(tools: seq<ListedTool>, g: Registry, key: string, t: string)
    requires Listing(tools, g) && OwnsKey(g, t, key)
    ensures key in IdentifierOwners(tools)
  {
    hide Listing, OwnsKey, IdentifierOwners, MayOwn;
    ListedOwns(tools, g, key, t);
    OwnersShape(tools, key);
  }

  // ── Lists of URLs ──

  lemma {:induction false} MatchedOwns(tools: seq<ListedTool>, g: Registry, keys: set<string>)
    requires Listing(tools, g)
    ensures ReferenceMatched(tools, keys) <= Owners(g, keys)
    ensures ReferenceMatched(tools, keys) == {} ==> Owners(g, keys) == {}
  {
    hide Listing, Owners, IdentifierOwners, OwnsKey, MayOwn;
    forall t | t in ReferenceMatched(tools, keys) ensures t in Owners(g, keys) {
      var key :| key in keys && key in IdentifierOwners(tools) && IdentifierOwners(tools)[key] == t;
      OwnersShape(tools, key);
      ListedOwns(tools, g, key, t);
      OwnersAre(g, keys, t);
    }
    if t :| t in Owners(g, keys) {
      OwnersAre(g, keys, t);
      var key :| key in keys && OwnsKey(g, t, key);
      OwnerIsListed(tools, g, key, t);
      assert IdentifierOwners(tools)[key] in ReferenceMatched(tools, keys);
    }
  }

  lemma {:induction false} OneMatchedIsUnique(g: Registry, keys: set<string>, key: string)
    requires |Owners(g, keys)| <= 1 && key in keys
    ensures OneOwnerOf(g, key)
  {
    hide Owners, OwnsKey;
    forall t, s | OwnsKey(g, t, key) && OwnsKey(g, s, key) ensures t == s {
      OwnersAre(g, keys, t);
      OwnersAre(g, keys, s);
      if t != s { TwoOfThem(Owners(g, keys), t, s); }
    }
  }

  lemma {:induction false} SortedSetsDiffer(a: set<string>, b: set<string>)
    ensures SortedSet(a) == SortedSet(b) <==> a == b
  {
    assert Elements(SortedSet(a)) == a && Elements(SortedSet(b)) == b;
  }

  // The decision that both take, from the tools that they match and from whether a key has no owner among them.
  ghost function Decided(ids: seq<Identifier>, valid: bool, matched: set<string>, unowned: bool, named: set<string>): Resolution {
    var candidates := SortedSet(matched + named);
    if !valid then Review(ids, candidates, InvalidOrAmbiguousUrl)
    else if |matched| > 1 then Review(ids, candidates, ConflictingExistingIdentifiers)
    else if |matched| == 1 then
      if unowned then Review(ids, candidates, AdditionalIdentifierRequiresReview)
      else Resolution(Resolved, ids, Some(Only(matched)), candidates, ExistingIdentifierMatch)
    else if ids == [] then Review(ids, candidates, if named != {} then NameMatchOnly else NameOnly)
    else if |ids| > 1 then Review(ids, candidates, MultipleStrongIdentifiers)
    else if named != {} then Review(ids, candidates, PossibleForkOrSourceMigration)
    else Resolution(CreateCandidate, ids, Some(Key(ids[0])), candidates, NewStrongIdentifier)
  }

  lemma {:induction false} ServiceDecides(g: Registry, urls: seq<string>, named: set<string>)
    ensures var ids := Sort(Normalised(urls), Key);
            var owners := Owners(g, Keys(ids));
            ResolveOutcome(g, urls, named) == Decided(ids, AllValid(urls), owners, !(Keys(ids) <= OwnedKeys(g, owners)), named)
  {
    hide Key, Owners, OwnedKeys, Normalised, Keys, SortedSet, AllValid, Sort;
  }

  lemma {:induction false} ReferenceDecides(tools: seq<ListedTool>, urls: seq<string>, named: set<string>, literal: string -> bool)
    requires SameReadings(urls, literal)
    ensures var ids := Sort(Normalised(urls), Key);
            var unowned := Keys(ids) - IdentifierOwners(tools).Keys != {};
            ReferenceOutcome(tools, urls, named, literal) ==
            Some(Decided(ids, AllValid(urls), ReferenceMatched(tools, Keys(ids)), unowned, named))
  {
    hide ReferenceReader, SameReadings, NormalizeUrl, ReferenceUrl, Key, IdentifierOwners, Normalised, ByKey, Keys, InKeyOrder, SortedSet,
         AllValid, Sort;
    SameByKey(urls, literal);
    SameIdentifiers(urls);
    var byKey := ByKey(NormalizeUrl, urls);
    assert (set key | key in byKey && key in IdentifierOwners(tools) :: IdentifierOwners(tools)[key]) ==
        ReferenceMatched(tools, byKey.Keys);
  }

  lemma {:induction false} DecisionsDiffer(ids: seq<Identifier>, valid: bool, owners: set<string>, a: bool, matched: set<string>, b: bool,
                                           named: set<string>)
    requires matched <= owners && (matched == {} ==> owners == {})
    requires |owners| <= 1 ==> matched == owners
    requires |owners| == 1 ==> a == b
    ensures Decided(ids, valid, owners, a, named) == Decided(ids, valid, matched, b, named) <==>
            owners + named == matched + named && (owners == matched || !valid || |matched| > 1)
  {
    hide SortedSet, Key;
    SortedSetsDiffer(owners + named, matched + named);
  }

  // On URLs that both normalisers read alike, they agree exactly when they have the same candidates, and
  // match the same tools unless each of them asks for a review before it looks at a single match.
  lemma {:induction false} ResolversAgreeExactly(tools: seq<ListedTool>, g: Registry, urls: seq<string>, named: set<string>,
                                                 literal: string -> bool)
    requires RegistryInv(g) && Listing(tools, g) && SameReadings(urls, literal)
    ensures var keys := Keys(Sort(Normalised(urls), Key));
            var owners, matched := Owners(g, keys), ReferenceMatched(tools, keys);
            ReferenceOutcome(tools, urls, named, literal) == Some(ResolveOutcome(g, urls, named)) <==>
            owners + named == matched + named && (owners == matched || !AllValid(urls) || |matched| > 1)
  {
    hide RegistryInv, Listing, SameReadings, NormalizeUrl, ReferenceUrl, Key, OneOwnerOf, Owners, OwnedKeys, IdentifierOwners, Normalised,
         Keys, SortedSet, AllValid, Sort, Decided, ResolveOutcome, ReferenceOutcome, ReferenceMatched;
    var ids := Sort(Normalised(urls), Key);
    var keys := Keys(ids);
    var owners, matched := Owners(g, keys), ReferenceMatched(tools, keys);
    ServiceDecides(g, urls, named);
    ReferenceDecides(tools, urls, named, literal);
    MatchedOwns(tools, g, keys);
    if |owners| <= 1 {
      forall key | key in keys ensures OneOwnerOf(g, key) { OneMatchedIsUnique(g, keys, key); }
      SameMatched(tools, g, keys);
      if |owners| == 1 { SameUnmatched(tools, g, keys); }
    }
    var a, b := !(keys <= OwnedKeys(g, owners)), keys - IdentifierOwners(tools).Keys != {};
    DecisionsDiffer(ids, AllValid(urls), owners, a, matched, b, named);
  }

  // Of one key with two owners, the reference matches one.
  lemma {:induction false} LastIsMatched(tools: seq<ListedTool>, g: Registry, key: string)
    requires Listing(tools, g) && !OneOwnerOf(g, key)
    ensures |Owners(g, {key})| > 1 && |ReferenceMatched(tools, {key})| == 1 && key in IdentifierOwners(tools)
  {
    hide Listing, Owners, OwnsKey, IdentifierOwners;
    var t, s :| OwnsKey(g, t, key) && OwnsKey(g, s, key) && t != s;
    OwnersAre(g, {key}, t);
    OwnersAre(g, {key}, s);
    TwoOfThem(Owners(g, {key}), t, s);
    OwnerIsListed(tools, g, key, t);
    assert ReferenceMatched(tools, {key}) == {IdentifierOwners(tools)[key]};
  }

  // On one URL they agree exactly when its key has at most one owner: of two owners the reference takes
  // the one it listed last, where the service reports the conflict.
  lemma {:induction false} OneUrlAgreesExactly(tools: seq<ListedTool>, g: Registry, u: string, id: Identifier, named: set<string>,
                                               literal: string -> bool)
    requires RegistryInv(g) && Listing(tools, g) && NormalizeUrl(u) == Some(id) && ReferenceUrl(u, literal) == Read(Some(id))
    ensures ReferenceOutcome(tools, [u], named, literal) == Some(ResolveOutcome(g, [u], named)) <==> OneOwnerOf(g, Key(id))
    ensures var reference := ReferenceOutcome(tools, [u], named, literal);
            !OneOwnerOf(g, Key(id)) ==>
              && ResolveOutcome(g, [u], named).reason == ConflictingExistingIdentifiers
              && reference.Some? && reference.value.status == Resolved
  {
    hide RegistryInv, Listing, NormalizeUrl, ReferenceUrl, Key, OneOwnerOf, Owners, OwnedKeys, IdentifierOwners, Normalised, Keys,
         SortedSet, AllValid, Sort, ResolveOutcome, ReferenceOutcome, ReferenceMatched, Names;
    OneUrl(u, id);
    if OneOwnerOf(g, Key(id)) {
      ResolverMatchesReference(tools, g, [u], named, literal);
    } else {
      ServiceDecides(g, [u], named);
      ReferenceDecides(tools, [u], named, literal);
      LastIsMatched(tools, g, Key(id));
      assert {Key(id)} - IdentifierOwners(tools).Keys == {};
    }
  }
}
