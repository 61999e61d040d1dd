/** A frozen board does not depend on the order in which the caller listed anything, and freezing
    a frozen board again changes nothing. */
module FreezeProperties {
  import opened Wrappers
  import opened Domain
  import opened Sorting
  import opened EvidenceFreeze
  import Text

  // ── Reordering the request ──

  ghost predicate SameClaim(a: Claim, b: Claim) {
    && a.(supports := b.supports, contradicts := b.contradicts) == b
    && multiset(a.supports) == multiset(b.supports)
    && multiset(a.contradicts) == multiset(b.contradicts)
  }

  ghost predicate PointwiseSame(a: seq<Claim>, b: seq<Claim>) {
    |a| == |b| && forall i :: 0 <= i < |a| ==> SameClaim(a[i], b[i])
  }

  // The evidence ids, claims and gaps are permuted, and so are the references inside each claim.
  ghost predicate SameUpToOrder(a: FreezeRequest, b: FreezeRequest) {
    && a.schemaVersion == b.schemaVersion && a.version == b.version && a.freezeReason == b.freezeReason
    && multiset(a.evidenceIds) == multiset(b.evidenceIds)
    && multiset(a.gaps) == multiset(b.gaps)
    && exists mid :: PointwiseSame(a.claims, mid) && multiset(mid) == multiset(b.claims)
  }

  lemma {:induction false} SortIdsIgnoresOrder(a: seq<Uuid>, b: seq<Uuid>)
    requires multiset(a) == multiset(b)
    ensures Sort(a, IdKey) == Sort(b, IdKey)
  {
    SortIgnoresOrder(a, b, IdKey);
  }

  lemma {:induction false} RefsIgnoreOrder(a: seq<Uuid>, b: seq<Uuid>, board: set<Uuid>)
    requires multiset(a) == multiset(b)
    ensures RefsOk(a, board) <==> RefsOk(b, board)
  {
    DistinctIgnoresOrder(a, b, IdKey);
    SameElements(a, b);
  }

  lemma {:induction false} SameClaimSameForm(a: Claim, b: Claim, checkIds: set<string>, board: set<Uuid>)
    requires SameClaim(a, b)
    ensures ClaimOk(a, checkIds, board) <==> ClaimOk(b, checkIds, board)
    ensures NormClaim(a) == NormClaim(b)
  {
    RefsIgnoreOrder(a.supports, b.supports, board);
    RefsIgnoreOrder(a.contradicts, b.contradicts, board);
    SortIdsIgnoresOrder(a.supports, b.supports);
    SortIdsIgnoresOrder(a.contradicts, b.contradicts);
  }

  lemma {:induction false} PointwiseSameForm(a: seq<Claim>, b: seq<Claim>, checkIds: set<string>, board: set<Uuid>)
    requires PointwiseSame(a, b)
    ensures ClaimsOk(a, checkIds, board) <==> ClaimsOk(b, checkIds, board)
    ensures Map(a, NormClaim) == Map(b, NormClaim)
  {
    forall i | 0 <= i < |a|
      ensures ClaimOk(a[i], checkIds, board) <==> ClaimOk(b[i], checkIds, board)
      ensures NormClaim(a[i]) == NormClaim(b[i]) && ClaimKey(a[i]) == ClaimKey(b[i])
    {
      SameClaimSameForm(a[i], b[i], checkIds, board);
    }
    assert DistinctKeys(a, ClaimKey) <==> DistinctKeys(b, ClaimKey);
    if ClaimsOk(a, checkIds, board) {
      forall c | c in b ensures ClaimOk(c, checkIds, board) {
        var i :| 0 <= i < |b| && b[i] == c;
        assert a[i] in a;
      }
    }
    if ClaimsOk(b, checkIds, board) {
      forall c | c in a ensures ClaimOk(c, checkIds, board) {
        var i :| 0 <= i < |a| && a[i] == c;
        assert b[i] in b;
      }
    }
  }

  function Without<T>(s: seq<T>, i: nat): seq<T>
    requires i < |s|
  {
    s[..i] + s[i + 1..]
  }

  lemma {:induction false} RemoveAt<T>(s: seq<T>, i: nat)
    requires i < |s|
    ensures multiset(Without(s, i)) == multiset(s) - multiset{s[i]}
  {
    assert s == s[..i] + [s[i]] + s[i + 1..];
  }

  lemma {:induction false} MapRemoveAt<T, U>(s: seq<T>, i: nat, f: T -> U)
    requires i < |s|
    ensures multiset(Map(s, f)) == multiset{f(s[i])} + multiset(Map(Without(s, i), f))
  {
    var m := Map(s, f);
    assert Without(m, i) == Map(Without(s, i), f);
    assert m == m[..i] + [m[i]] + m[i + 1..];
  }

  lemma {:induction false} MapPermutes<T, U>(a: seq<T>, b: seq<T>, f: T -> U)
    requires multiset(a) == multiset(b)
    ensures multiset(Map(a, f)) == multiset(Map(b, f))
    decreases |a|
  {
    SameElements(a, b);
    if a != [] {
      assert a[0] in b;
      var i :| 0 <= i < |b| && b[i] == a[0];
      RemoveAt(a, 0);
      RemoveAt(b, i);
      MapPermutes(Without(a, 0), Without(b, i), f);
      MapRemoveAt(a, 0, f);
      MapRemoveAt(b, i, f);
    }
  }

  lemma {:induction false} ClaimsIgnoreOrder(a: seq<Claim>, b: seq<Claim>, checkIds: set<string>, board: set<Uuid>)
    requires multiset(a) == multiset(b)
    ensures ClaimsOk(a, checkIds, board) <==> ClaimsOk(b, checkIds, board)
    ensures ClaimsOk(a, checkIds, board) ==> Sort(Map(a, NormClaim), ClaimKey) == Sort(Map(b, NormClaim), ClaimKey)
  {
    SameElements(a, b);
    DistinctIgnoresOrder(a, b, ClaimKey);
    if ClaimsOk(a, checkIds, board) {
      MapPermutes(a, b, NormClaim);
      DistinctIsInjective(Map(a, NormClaim), ClaimKey);
      SortIgnoresOrder(Map(a, NormClaim), Map(b, NormClaim), ClaimKey);
    }
  }

  lemma {:induction false} GapsIgnoreOrder(a: seq<Gap>, b: seq<Gap>, checkIds: set<string>)
    requires multiset(a) == multiset(b)
    ensures GapsOk(a, checkIds) <==> GapsOk(b, checkIds)
    ensures GapsOk(a, checkIds) ==> Sort(Map(a, NormGap), GapKey) == Sort(Map(b, NormGap), GapKey)
  {
    SameElements(a, b);
    DistinctIgnoresOrder(a, b, GapKey);
    if GapsOk(a, checkIds) {
      MapPermutes(a, b, NormGap);
      DistinctIsInjective(Map(a, NormGap), GapKey);
      SortIgnoresOrder(Map(a, NormGap), Map(b, NormGap), GapKey);
    }
  }

  // The commitment does not depend on caller order: a reordered request is accepted or refused
  // alike, and yields the same board and the same manifest.
  lemma {:induction false} FreezeIgnoresOrder(run: Run, a: FreezeRequest, b: FreezeRequest, checkIds: Option<set<string>>,
                                              evidence: map<Uuid, Evidence>, artifacts: map<Uuid, Artifact>, now: int)
    requires SameUpToOrder(a, b)
    ensures FreezeOutcome(run, a, checkIds, evidence, artifacts, now) == FreezeOutcome(run, b, checkIds, evidence, artifacts, now)
  {
    if checkIds.Some? {
      var mid :| PointwiseSame(a.claims, mid) && multiset(mid) == multiset(b.claims);
      var board := Elements(a.evidenceIds);
      SameElements(a.evidenceIds, b.evidenceIds);
      assert board == Elements(b.evidenceIds);
      RefsIgnoreOrder(a.evidenceIds, b.evidenceIds, evidence.Keys);
      SortIdsIgnoresOrder(a.evidenceIds, b.evidenceIds);
      PointwiseSameForm(a.claims, mid, checkIds.value, board);
      ClaimsIgnoreOrder(mid, b.claims, checkIds.value, board);
      GapsIgnoreOrder(a.gaps, b.gaps, checkIds.value);
      if Acceptable(a, checkIds.value, evidence.Keys) {
        assert CanonicalBoard(run, a, now) == CanonicalBoard(run, b, now);
      }
    }
  }

  // ── The canonical board ──

  ghost predicate CanonicalClaim(c: Claim, board: seq<Uuid>) {
    && Text.Trimmed(c.statement)
    && StrictlySorted(c.supports, IdKey) && StrictlySorted(c.contradicts, IdKey)
    && (forall u :: u in c.supports || u in c.contradicts ==> u in board)
  }

  lemma {:induction false} SortKeeps<T>(a: seq<T>, key: T -> string)
    ensures forall x :: x in Sort(a, key) <==> x in a
  {
    SortSorts(a, key);
    SameElements(Sort(a, key), a);
  }

  lemma {:induction false} NormClaimIsCanonical(c: Claim, checkIds: set<string>, requested: seq<Uuid>)
    requires ClaimBodyOk(c, checkIds, Elements(requested))
    ensures CanonicalClaim(NormClaim(c), Sort(requested, IdKey))
    ensures ClaimBodyOk(NormClaim(c), checkIds, Elements(requested))
    ensures NormClaim(NormClaim(c)) == NormClaim(c)
  {
    Text.TrimIsProjection(c.statement);
    SortKeeps(requested, IdKey);
    forall refs | refs == c.supports || refs == c.contradicts
      ensures StrictlySorted(Sort(refs, IdKey), IdKey) && RefsOk(Sort(refs, IdKey), Elements(requested))
      ensures Sort(Sort(refs, IdKey), IdKey) == Sort(refs, IdKey)
      ensures forall u :: u in Sort(refs, IdKey) ==> u in Elements(requested)
    {
      SortDistinct(refs, IdKey);
      SortKeeps(refs, IdKey);
      SortFixesSorted(Sort(refs, IdKey), IdKey);
    }
  }

  // Claims are stored trimmed, in strict id order, with strictly sorted references inside the board.
  lemma {:induction false} BoardIsCanonical(run: Run, req: FreezeRequest, checkIds: set<string>, evidence: map<Uuid, Evidence>,
                                            artifacts: map<Uuid, Artifact>, now: int)
    requires FreezeOutcome(run, req, Some(checkIds), evidence, artifacts, now).Ok?
    ensures var frozen := FreezeOutcome(run, req, Some(checkIds), evidence, artifacts, now).value;
            && StrictlySorted(frozen.board.evidenceIds, IdKey)
            && StrictlySorted(frozen.board.claims, ClaimKey)
            && StrictlySorted(frozen.board.gaps, GapKey)
            && (forall c :: c in frozen.board.claims ==> CanonicalClaim(c, frozen.board.evidenceIds))
            && (forall u :: u in frozen.board.evidenceIds <==> u in req.evidenceIds)
            && ManifestMatches(frozen.manifest, frozen.board, evidence, artifacts)
  {
    var board := CanonicalBoard(run, req, now);
    SortDistinct(req.evidenceIds, IdKey);
    SortKeeps(req.evidenceIds, IdKey);
    SortDistinct(Map(req.claims, NormClaim), ClaimKey);
    SortKeeps(Map(req.claims, NormClaim), ClaimKey);
    SortDistinct(Map(req.gaps, NormGap), GapKey);
    forall c | c in board.claims ensures CanonicalClaim(c, board.evidenceIds) {
      var i :| 0 <= i < |req.claims| && Map(req.claims, NormClaim)[i] == c;
      assert req.claims[i] in req.claims;
      NormClaimIsCanonical(req.claims[i], checkIds, req.evidenceIds);
    }
  }

  // ── Freezing again ──

  // The request a caller would send to freeze a frozen board once more.
  function Resubmit(board: Board): FreezeRequest {
    FreezeRequest("0.1.0", board.version, board.evidenceIds, board.claims, board.gaps, board.freezeReason)
  }

  lemma {:induction false} NormGapIdempotent(g: Gap, checkIds: set<string>)
    ensures NormGap(NormGap(g)) == NormGap(g)
    ensures GapOk(g, checkIds) ==> GapOk(NormGap(g), checkIds)
  {
    Text.TrimIsProjection(g.description);
    if g.resolution.Some? { Text.TrimIsProjection(g.resolution.value); }
  }

  lemma {:induction false} ClaimsFreezeAgain(claims: seq<Claim>, checkIds: set<string>, requested: seq<Uuid>, frozen: seq<Claim>)
    requires ClaimsOk(claims, checkIds, Elements(requested))
    requires frozen == Sort(Map(claims, NormClaim), ClaimKey)
    ensures ClaimsOk(frozen, checkIds, Elements(requested))
    ensures Sort(Map(frozen, NormClaim), ClaimKey) == frozen
  {
    var normal := Map(claims, NormClaim);
    SortDistinct(normal, ClaimKey);
    SortKeeps(normal, ClaimKey);
    forall c | c in frozen ensures ClaimOk(c, checkIds, Elements(requested)) && NormClaim(c) == c {
      var i :| 0 <= i < |claims| && normal[i] == c;
      assert claims[i] in claims;
      NormClaimIsCanonical(claims[i], checkIds, requested);
    }
    assert Map(frozen, NormClaim) == frozen;
    DistinctIsInjective(frozen, ClaimKey);
    SortFixesSorted(frozen, ClaimKey);
  }

  lemma {:induction false} GapsFreezeAgain(gaps: seq<Gap>, checkIds: set<string>, frozen: seq<Gap>)
    requires GapsOk(gaps, checkIds)
    requires frozen == Sort(Map(gaps, NormGap), GapKey)
    ensures GapsOk(frozen, checkIds)
    ensures Sort(Map(frozen, NormGap), GapKey) == frozen
  {
    var normal := Map(gaps, NormGap);
    SortDistinct(normal, GapKey);
    SortKeeps(normal, GapKey);
    forall g | g in frozen ensures GapOk(g, checkIds) && NormGap(g) == g {
      var i :| 0 <= i < |gaps| && normal[i] == g;
      assert gaps[i] in gaps;
      NormGapIdempotent(gaps[i], checkIds);
    }
    assert Map(frozen, NormGap) == frozen;
    DistinctIsInjective(frozen, GapKey);
    SortFixesSorted(frozen, GapKey);
  }

  // A frozen board is a fixed point: submitted again, it freezes to itself and to the same manifest.
  lemma {:induction false} FreezeIsIdempotent(run: Run, req: FreezeRequest, checkIds: set<string>, evidence: map<Uuid, Evidence>,
                                              artifacts: map<Uuid, Artifact>, now: int)
    requires FreezeOutcome(run, req, Some(checkIds), evidence, artifacts, now).Ok?
    ensures var frozen := FreezeOutcome(run, req, Some(checkIds), evidence, artifacts, now).value;
            FreezeOutcome(run, Resubmit(frozen.board), Some(checkIds), evidence, artifacts, now) == Ok(frozen)
  {
    var board := CanonicalBoard(run, req, now);
    SortDistinct(req.evidenceIds, IdKey);
    SortKeeps(req.evidenceIds, IdKey);
    SortFixesSorted(board.evidenceIds, IdKey);
    assert Elements(board.evidenceIds) == Elements(req.evidenceIds);
    ClaimsFreezeAgain(req.claims, checkIds, req.evidenceIds, board.claims);
    GapsFreezeAgain(req.gaps, checkIds, board.gaps);
    Text.TrimIsProjection(req.freezeReason);
    assert Acceptable(Resubmit(board), checkIds, evidence.Keys);
    assert CanonicalBoard(run, Resubmit(board), now) == board;
  }
}
