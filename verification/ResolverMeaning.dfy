/** What an intake is resolved to, told from the identifier rows, the tools and the readings of the URLs. */
module ResolverMeaning {
  import opened Wrappers
  import opened Sorting
  import opened Normalizer
  import opened NormalizerProperties
  import opened ToolRegistry
  import opened Resolver
  import opened ResolverProperties
  import Text

  // One of the URLs reads as this identifier.
  ghost predicate Read(urls: seq<string>, n: Identifier) { exists u :: u in urls && NormalizeUrl(u) == Some(n) }

  ghost predicate AllRead(urls: seq<string>) { forall i :: 0 <= i < |urls| ==> NormalizeUrl(urls[i]).Some? }

  // A row of the tool has the key of an identifier that was read.
  ghost predicate RowOwns(g: Registry, p: IdKey, n: Identifier, t: string) {
    p in g.ids && g.ids[p].toolId == t && p.0 + ":" + p.1 == n.ns + ":" + n.value
  }

  ghost predicate Owns(g: Registry, urls: seq<string>, t: string) { exists p, n :: Read(urls, n) && RowOwns(g, p, n, t) }

  // The array of the tool has the key of every identifier that was read.
  ghost predicate Lists(g: Registry, t: string, n: Identifier) {
    t in g.tools && exists m :: m in g.tools[t].identifiers && m.ns + ":" + m.value == n.ns + ":" + n.value
  }

  ghost predicate ListsAll(g: Registry, urls: seq<string>, t: string) { forall n :: Read(urls, n) ==> Lists(g, t, n) }

  // The identifiers read, each once in the order of their keys; and the owners and the tools of that name.
  ghost predicate Reports(g: Registry, urls: seq<string>, named: set<string>, r: Resolution) {
    && (forall n :: n in r.identifiers <==> Read(urls, n))
    && (forall i, j :: 0 <= i < j < |r.identifiers| ==>
          Text.Less(r.identifiers[i].ns + ":" + r.identifiers[i].value, r.identifiers[j].ns + ":" + r.identifiers[j].value))
    && (forall t :: t in r.candidates <==> Owns(g, urls, t) || t in named)
    && (forall i, j :: 0 <= i < j < |r.candidates| ==> Text.Less(r.candidates[i], r.candidates[j]))
  }

  predicate Says(r: Resolution, status: Status, toolId: Option<string>, reason: Reason) {
    r.status == status && r.toolId == toolId && r.reason == reason
  }

  ghost predicate TwoOwners(g: Registry, urls: seq<string>) { exists s, t :: s != t && Owns(g, urls, s) && Owns(g, urls, t) }

  ghost predicate OneOwnerIs(g: Registry, urls: seq<string>, t: string) {
    Owns(g, urls, t) && forall s :: Owns(g, urls, s) ==> s == t
  }

  ghost predicate NoOwner(g: Registry, urls: seq<string>) { forall t :: !Owns(g, urls, t) }

  // Every case there is, with what the service says.
  ghost predicate Decides(g: Registry, urls: seq<string>, named: set<string>, r: Resolution) {
    && (!AllRead(urls) ==> Says(r, NeedsReview, None, InvalidOrAmbiguousUrl))
    && (AllRead(urls) ==>
          && (TwoOwners(g, urls) ==> Says(r, NeedsReview, None, ConflictingExistingIdentifiers))
          && (forall t :: OneOwnerIs(g, urls, t) ==>
                if ListsAll(g, urls, t) then Says(r, Resolved, Some(t), ExistingIdentifierMatch)
                else Says(r, NeedsReview, None, AdditionalIdentifierRequiresReview))
          && (NoOwner(g, urls) ==> DecidesNew(urls, named, r)))
  }

  // With no owner: by how many identifiers there are, and whether a tool has the name.
  ghost predicate DecidesNew(urls: seq<string>, named: set<string>, r: Resolution) {
    && (urls == [] ==> Says(r, NeedsReview, None, if named == {} then NameOnly else NameMatchOnly))
    && (forall m, n :: m != n && Read(urls, m) && Read(urls, n) ==> Says(r, NeedsReview, None, MultipleStrongIdentifiers))
    && (forall n :: Read(urls, n) && (forall m :: Read(urls, m) ==> m == n) ==>
          if named != {} then Says(r, NeedsReview, None, PossibleForkOrSourceMigration)
          else Says(r, CreateCandidate, Some(n.ns + ":" + n.value), NewStrongIdentifier))
  }

  lemma {:induction false} IdsAreRead(urls: seq<string>)
    ensures var ids := Sort(Normalised(urls), Key);
            && (forall n :: n in ids <==> Read(urls, n))
            && (forall i, j :: 0 <= i < j < |ids| ==> Text.Less(ids[i].ns + ":" + ids[i].value, ids[j].ns + ":" + ids[j].value))
    ensures forall n :: Read(urls, n) ==> n.ns + ":" + n.value in Keys(Sort(Normalised(urls), Key))
    ensures forall k :: k in Keys(Sort(Normalised(urls), Key)) ==> exists n :: Read(urls, n) && n.ns + ":" + n.value == k
  {
    hide NormalizeUrl;
    NormalisedLists(urls);
    SortDistinct(Normalised(urls), Key);
    SortSorts(Normalised(urls), Key);
    var ids := Sort(Normalised(urls), Key);
    SameElements(ids, Normalised(urls));
    forall n ensures Names(urls, n) <==> Read(urls, n) {}
    forall n | Read(urls, n) ensures n.ns + ":" + n.value in Keys(ids) { assert Key(n) in Keys(ids); }
    forall i, j | 0 <= i < j < |ids| ensures Text.Less(ids[i].ns + ":" + ids[i].value, ids[j].ns + ":" + ids[j].value) {
      assert Text.Less(Key(ids[i]), Key(ids[j]));
    }
    forall k | k in Keys(ids) ensures exists n :: Read(urls, n) && n.ns + ":" + n.value == k {
      var n :| n in ids && Key(n) == k;
      assert Read(urls, n) && n.ns + ":" + n.value == k;
    }
  }

  lemma {:induction false} OwnersOwn(g: Registry, urls: seq<string>, t: string)
    ensures t in Owners(g, Keys(Sort(Normalised(urls), Key))) <==> Owns(g, urls, t)
  {
    hide NormalizeUrl, Sort, Keys, Normalised, Read;
    var keys := Keys(Sort(Normalised(urls), Key));
    IdsAreRead(urls);
    if t in Owners(g, keys) {
      var p :| p in g.ids && p.0 + ":" + p.1 in keys && g.ids[p].toolId == t;
      var n :| Read(urls, n) && n.ns + ":" + n.value == p.0 + ":" + p.1;
      assert RowOwns(g, p, n, t);
    }
    if p, n :| Read(urls, n) && RowOwns(g, p, n, t) { assert p.0 + ":" + p.1 in keys; }
  }

  lemma {:induction false} UnmatchedLists(g: Registry, urls: seq<string>, t: string)
    ensures Keys(Sort(Normalised(urls), Key)) <= OwnedKeys(g, {t}) <==> ListsAll(g, urls, t)
  {
    hide NormalizeUrl, Sort, Keys, Normalised, Read;
    var keys := Keys(Sort(Normalised(urls), Key));
    IdsAreRead(urls);
    if keys <= OwnedKeys(g, {t}) {
      forall n | Read(urls, n) ensures Lists(g, t, n) {
        assert n.ns + ":" + n.value in OwnedKeys(g, {t});
        var m :| t in g.tools && m in g.tools[t].identifiers && Key(m) == n.ns + ":" + n.value;
      }
    }
    if ListsAll(g, urls, t) {
      forall k | k in keys ensures k in OwnedKeys(g, {t}) {
        var n :| Read(urls, n) && n.ns + ":" + n.value == k;
        assert Lists(g, t, n);
        var m :| m in g.tools[t].identifiers && m.ns + ":" + m.value == n.ns + ":" + n.value;
        assert Key(m) == k;
      }
    }
  }

  lemma {:induction false} HowMany(s: set<string>, a: string, b: string)
    ensures a in s && b in s && a != b ==> |s| > 1
    ensures a in s && (forall x :: x in s ==> x == a) ==> s == {a} && |s| == 1
  {
    if a in s && b in s && a != b { TwoOfThem(s, a, b); }
    if a in s && forall x :: x in s ==> x == a { assert s == {a}; }
  }

  lemma {:induction false} NoneRead(urls: seq<string>)
    requires AllRead(urls)
    ensures urls == [] <==> Sort(Normalised(urls), Key) == []
    ensures AllValid(urls)
  {
    hide NormalizeUrl, Normalised, Sort;
    IdsAreRead(urls);
    var ids := Sort(Normalised(urls), Key);
    if urls != [] {
      assert urls[0] in urls && Read(urls, NormalizeUrl(urls[0]).value);
      assert NormalizeUrl(urls[0]).value in ids;
    } else {
      NothingRead();
    }
  }

  lemma {:induction false} NothingRead()
    ensures Sort(Normalised([]), Key) == []
  {
  }

  lemma {:induction false} CountsRead(urls: seq<string>)
    ensures var ids := Sort(Normalised(urls), Key);
            && (forall m, n :: m != n && Read(urls, m) && Read(urls, n) ==> |ids| > 1)
            && (forall n :: Read(urls, n) && (forall m :: Read(urls, m) ==> m == n) ==> ids == [n])
  {
    hide NormalizeUrl, Normalised, Sort, Read;
    IdsAreRead(urls);
    var ids := Sort(Normalised(urls), Key);
    forall m, n | m != n && Read(urls, m) && Read(urls, n) ensures |ids| > 1 {
      assert m in ids && n in ids;
      var i, j :| 0 <= i < |ids| && ids[i] == m && 0 <= j < |ids| && ids[j] == n;
    }
    forall n | Read(urls, n) && (forall m :: Read(urls, m) ==> m == n) ensures ids == [n] {
      assert n in ids;
      forall i | 0 <= i < |ids| ensures ids[i] == n { assert ids[i] in ids; }
      assert |ids| > 1 ==> Text.Less(ids[0].ns + ":" + ids[0].value, ids[1].ns + ":" + ids[1].value);
    }
  }

  lemma {:induction false} CandidatesListed(owners: set<string>, named: set<string>)
    ensures var c := SortedSet(owners + named);
            && (forall t :: t in c <==> t in owners || t in named)
            && (forall i, j :: 0 <= i < j < |c| ==> Text.Less(c[i], c[j]))
  {
    var c := SortedSet(owners + named);
    forall t ensures t in c <==> t in owners || t in named { assert t in c <==> t in Elements(c); }
    forall i, j | 0 <= i < j < |c| ensures Text.Less(c[i], c[j]) { assert Text.Less(Self(c[i]), Self(c[j])); }
  }

  lemma {:induction false} ValidIsRead(urls: seq<string>)
    ensures AllValid(urls) <==> AllRead(urls)
  {
    hide NormalizeUrl;
    assert forall u :: u in urls <==> exists i :: 0 <= i < |urls| && urls[i] == u;
  }

  lemma {:induction false} DecidesInvalid(g: Registry, urls: seq<string>, named: set<string>)
    requires !AllRead(urls)
    ensures Decides(g, urls, named, ResolveOutcome(g, urls, named))
  {
    hide NormalizeUrl, Normalised, Keys, Key, Owners, OwnedKeys, Sort, Owns, ListsAll, SortedSet, AllValid, AllRead;
    ValidIsRead(urls);
  }

  lemma {:induction false} DecidesConflict(g: Registry, urls: seq<string>, named: set<string>)
    requires AllRead(urls) && TwoOwners(g, urls)
    ensures Says(ResolveOutcome(g, urls, named), NeedsReview, None, ConflictingExistingIdentifiers)
  {
    hide NormalizeUrl, Normalised, Keys, Key, Owners, OwnedKeys, Sort, Owns, SortedSet, AllValid, AllRead;
    ValidIsRead(urls);
    var s, t :| s != t && Owns(g, urls, s) && Owns(g, urls, t);
    OwnersOwn(g, urls, s);
    OwnersOwn(g, urls, t);
    HowMany(Owners(g, Keys(Sort(Normalised(urls), Key))), s, t);
  }

  lemma {:induction false} DecidesOwned(g: Registry, urls: seq<string>, named: set<string>)
    requires AllRead(urls)
    ensures forall t :: OneOwnerIs(g, urls, t) ==>
              if ListsAll(g, urls, t) then Says(ResolveOutcome(g, urls, named), Resolved, Some(t), ExistingIdentifierMatch)
              else Says(ResolveOutcome(g, urls, named), NeedsReview, None, AdditionalIdentifierRequiresReview)
  {
    hide NormalizeUrl, Normalised, Keys, Key, Owners, OwnedKeys, Sort, Owns, ListsAll, SortedSet, AllValid, AllRead;
    ValidIsRead(urls);
    var owners := Owners(g, Keys(Sort(Normalised(urls), Key)));
    forall t | OneOwnerIs(g, urls, t)
      ensures if ListsAll(g, urls, t) then Says(ResolveOutcome(g, urls, named), Resolved, Some(t), ExistingIdentifierMatch)
              else Says(ResolveOutcome(g, urls, named), NeedsReview, None, AdditionalIdentifierRequiresReview)
    {
      forall s ensures s in owners <==> Owns(g, urls, s) { OwnersOwn(g, urls, s); }
      HowMany(owners, t, t);
      UnmatchedLists(g, urls, t);
    }
  }

  lemma {:induction false} DecidesUnowned(g: Registry, urls: seq<string>, named: set<string>)
    requires AllRead(urls) && NoOwner(g, urls)
    ensures DecidesNew(urls, named, ResolveOutcome(g, urls, named))
  {
    hide NormalizeUrl, Normalised, Keys, Owners, OwnedKeys, Sort, Read, Owns, SortedSet, AllValid, AllRead;
    var owners := Owners(g, Keys(Sort(Normalised(urls), Key)));
    forall t ensures t !in owners { OwnersOwn(g, urls, t); }
    assert owners == {};
    NoneRead(urls);
    CountsRead(urls);
  }

  // Whatever is in the registry, the service reports what it read and found, and decides each case so.
  lemma {:induction false} ResolveDecides(g: Registry, urls: seq<string>, named: set<string>)
    ensures var r := ResolveOutcome(g, urls, named); Reports(g, urls, named, r) && Decides(g, urls, named, r)
  {
    hide ResolveOutcome, TwoOwners, OneOwnerIs, ListsAll, DecidesNew, Says, AllRead, Reports;
    ResolveReports(g, urls, named);
    if AllRead(urls) {
      if TwoOwners(g, urls) { DecidesConflict(g, urls, named); }
      DecidesOwned(g, urls, named);
      if NoOwner(g, urls) { DecidesUnowned(g, urls, named); }
    } else {
      DecidesInvalid(g, urls, named);
    }
  }

  lemma {:induction false} ResolveReports(g: Registry, urls: seq<string>, named: set<string>)
    ensures Reports(g, urls, named, ResolveOutcome(g, urls, named))
  {
    hide NormalizeUrl, Normalised, Keys, Owners, Sort, Read, Owns, SortedSet, ResolveOutcome;
    IdsAreRead(urls);
    var owners := Owners(g, Keys(Sort(Normalised(urls), Key)));
    forall t ensures t in owners <==> Owns(g, urls, t) { OwnersOwn(g, urls, t); }
    CandidatesListed(owners, named);
    OutcomeLists(g, urls, named);
  }

  lemma {:induction false} OutcomeLists(g: Registry, urls: seq<string>, named: set<string>)
    ensures var r, ids := ResolveOutcome(g, urls, named), Sort(Normalised(urls), Key);
            r.identifiers == ids && r.candidates == SortedSet(Owners(g, Keys(ids)) + named)
  {
    hide NormalizeUrl, Normalised, Keys, Key, Owners, OwnedKeys, Sort, AllValid, SortedSet, ResolveOutcome;
    ServiceDecides(g, urls, named);
  }
}
