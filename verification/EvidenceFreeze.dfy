/** Freezing an evidence board: what is accepted, and the canonical board and manifest. */
module EvidenceFreeze {
  import opened Wrappers
  import opened Domain
  import opened Sorting
  import opened StableIds
  import Text

  const MAX_VERSION: int := 9223372036854775807

  datatype FreezeRequest = FreezeRequest(
    schemaVersion: string, version: nat, evidenceIds: seq<Uuid>, claims: seq<Claim>, gaps: seq<Gap>,
    freezeReason: string)

  datatype Frozen = Frozen(board: Board, manifest: Manifest)

  datatype FreezeError = InvalidRequest | MissingSnapshot

  function IdKey(u: Uuid): string { u }
  function ClaimKey(c: Claim): string { c.claimId }
  function GapKey(g: Gap): string { g.gapId }

  function Blank(s: string): bool { Text.Trim(s) == "" }

  predicate VersionOk(version: int) { 1 <= version <= MAX_VERSION }

  // ── What is accepted ──

  ghost predicate RefsOk(refs: seq<Uuid>, board: set<Uuid>) {
    DistinctKeys(refs, IdKey) && forall u :: u in refs ==> u in board
  }

  ghost predicate ClaimOk(c: Claim, checkIds: set<string>, board: set<Uuid>) {
    StableId(c.claimId) && ClaimBodyOk(c, checkIds, board)
  }

  ghost predicate ClaimBodyOk(c: Claim, checkIds: set<string>, board: set<Uuid>) {
    && c.checkId in checkIds
    && !Blank(c.statement)
    && c.confidence.Finite? && 0.0 <= c.confidence.value <= 1.0
    && RefsOk(c.supports, board) && RefsOk(c.contradicts, board)
  }

  ghost predicate GapOk(g: Gap, checkIds: set<string>) {
    && StableId(g.gapId)
    && g.checkId in checkIds
    && !Blank(g.description)
    && (g.resolution.Some? ==> !Blank(g.resolution.value))
  }

  ghost predicate ClaimsOk(claims: seq<Claim>, checkIds: set<string>, board: set<Uuid>) {
    DistinctKeys(claims, ClaimKey) && forall c :: c in claims ==> ClaimOk(c, checkIds, board)
  }

  ghost predicate GapsOk(gaps: seq<Gap>, checkIds: set<string>) {
    DistinctKeys(gaps, GapKey) && forall g :: g in gaps ==> GapOk(g, checkIds)
  }

  predicate HeaderOk(req: FreezeRequest) {
    req.schemaVersion == "0.1.0" && VersionOk(req.version) && !Blank(req.freezeReason)
  }

  ghost predicate Acceptable(req: FreezeRequest, checkIds: set<string>, known: set<Uuid>) {
    && HeaderOk(req)
    && RefsOk(req.evidenceIds, known)
    && ClaimsOk(req.claims, checkIds, Elements(req.evidenceIds))
    && GapsOk(req.gaps, checkIds)
  }

  // ── The canonical form ──

  function NormClaim(c: Claim): Claim {
    c.(statement := Text.Trim(c.statement), supports := Sort(c.supports, IdKey), contradicts := Sort(c.contradicts, IdKey))
  }

  function NormGap(g: Gap): Gap {
    g.(description := Text.Trim(g.description),
       resolution := match g.resolution case Some(r) => Some(Text.Trim(r)) case None => None)
  }

  function Map<T, U>(s: seq<T>, f: T -> U): (r: seq<U>)
    ensures |r| == |s| && forall i :: 0 <= i < |s| ==> r[i] == f(s[i])
  {
    seq(|s|, i requires 0 <= i < |s| => f(s[i]))
  }

  function CanonicalBoard(run: Run, req: FreezeRequest, now: int): Board {
    Board(run.runId, req.version, run.binding, Sort(req.evidenceIds, IdKey),
          Sort(Map(req.claims, NormClaim), ClaimKey), Sort(Map(req.gaps, NormGap), GapKey),
          Text.Trim(req.freezeReason), now)
  }

  predicate SnapshotPresent(e: Evidence, artifacts: map<Uuid, Artifact>) {
    e.snapshotArtifactId.Some? ==> e.snapshotArtifactId.value in artifacts
  }

  function EntryFor(u: Uuid, evidence: map<Uuid, Evidence>, artifacts: map<Uuid, Artifact>): ManifestEntry
    requires u in evidence && SnapshotPresent(evidence[u], artifacts)
  {
    var e := evidence[u];
    ManifestEntry(u, e.contentHash, e.snapshotArtifactId,
                  match e.snapshotArtifactId case Some(a) => Some(artifacts[a].sha256) case None => None)
  }

  // The manifest lists the board's evidence in board order, with the stored hashes.
  ghost predicate ManifestMatches(manifest: Manifest, board: Board, evidence: map<Uuid, Evidence>, artifacts: map<Uuid, Artifact>) {
    && manifest.runId == board.runId && manifest.boardVersion == board.version
    && |manifest.entries| == |board.evidenceIds|
    && forall i :: 0 <= i < |board.evidenceIds| ==>
         && board.evidenceIds[i] in evidence
         && SnapshotPresent(evidence[board.evidenceIds[i]], artifacts)
         && manifest.entries[i] == EntryFor(board.evidenceIds[i], evidence, artifacts)
  }

  ghost predicate SnapshotsPresent(ids: seq<Uuid>, evidence: map<Uuid, Evidence>, artifacts: map<Uuid, Artifact>) {
    forall i :: 0 <= i < |ids| ==> ids[i] in evidence && SnapshotPresent(evidence[ids[i]], artifacts)
  }

  ghost function Entries(ids: seq<Uuid>, evidence: map<Uuid, Evidence>, artifacts: map<Uuid, Artifact>): seq<ManifestEntry>
    requires SnapshotsPresent(ids, evidence, artifacts)
  {
    seq(|ids|, i requires 0 <= i < |ids| => EntryFor(ids[i], evidence, artifacts))
  }

  // What a freeze request yields, from the run, the profile's checks and the rows listed for the run.
  ghost function FreezeOutcome(run: Run, req: FreezeRequest, checkIds: Option<set<string>>, evidence: map<Uuid, Evidence>,
                         artifacts: map<Uuid, Artifact>, now: int): Result<Frozen, FreezeError>
  {
    var board := CanonicalBoard(run, req, now);
    if checkIds.None? || !Acceptable(req, checkIds.value, evidence.Keys) then Err(InvalidRequest)
    else if !SnapshotsPresent(board.evidenceIds, evidence, artifacts) then Err(MissingSnapshot)
    else Ok(Frozen(board, Manifest(run.runId, req.version, Entries(board.evidenceIds, evidence, artifacts))))
  }

  // ── The service's procedure ──

  // `ensure_unique_uuids`
  method EnsureUnique(values: seq<Uuid>) returns (ok: bool)
    ensures ok <==> DistinctKeys(values, IdKey)
  {
    var unique: set<Uuid> := {};
    for i := 0 to |values|
      invariant unique == Elements(values[..i])
      invariant DistinctKeys(values[..i], IdKey)
    {
      assert values[..i + 1] == values[..i] + [values[i]];
      if values[i] in unique {
        var k :| 0 <= k < i && values[..i][k] == values[i];
        assert IdKey(values[k]) == IdKey(values[i]);
        return false;
      }
      unique := unique + {values[i]};
    }
    assert values[..|values|] == values;
    ok := true;
  }

  // `normalize_evidence_references`
  method NormalizeReferences(values: seq<Uuid>, board: set<Uuid>) returns (r: Option<seq<Uuid>>)
    ensures r == if RefsOk(values, board) then Some(Sort(values, IdKey)) else None
  {
    var unique := EnsureUnique(values);
    if !unique { return None; }
    for i := 0 to |values|
      invariant forall k :: 0 <= k < i ==> values[k] in board
    {
      if values[i] !in board { return None; }
    }
    r := Some(Sort(values, IdKey));
  }

  // The body of the claim loop, after the claim's id.
  method NormalizeClaim(claim: Claim, checkIds: set<string>, board: set<Uuid>) returns (r: Option<Claim>)
    ensures r == if ClaimBodyOk(claim, checkIds, board) then Some(NormClaim(claim)) else None
  {
    if claim.checkId !in checkIds { return None; }
    if Blank(claim.statement) { return None; }
    if !claim.confidence.Finite? || !(0.0 <= claim.confidence.value <= 1.0) { return None; }
    var supports := NormalizeReferences(claim.supports, board);
    if supports.None? { return None; }
    var contradicts := NormalizeReferences(claim.contradicts, board);
    if contradicts.None? { return None; }
    r := Some(claim.(supports := supports.value, contradicts := contradicts.value, statement := Text.Trim(claim.statement)));
  }

  lemma {:induction false} ClaimsOkStep(claims: seq<Claim>, i: nat, checkIds: set<string>, board: set<Uuid>)
    requires i < |claims|
    ensures ClaimsOk(claims[..i + 1], checkIds, board) <==>
            && ClaimsOk(claims[..i], checkIds, board)
            && ClaimOk(claims[i], checkIds, board)
            && claims[i].claimId !in KeySet(claims[..i], ClaimKey)
    ensures ClaimsOk(claims, checkIds, board) ==> ClaimsOk(claims[..i + 1], checkIds, board)
    ensures KeySet(claims[..i + 1], ClaimKey) == KeySet(claims[..i], ClaimKey) + {claims[i].claimId}
  {
    var before := claims[..i];
    assert claims[..i + 1] == before + [claims[i]];
    assert claims[i] in claims[..i + 1];
    DistinctAppend(before, claims[i], ClaimKey);
  }

  // The claim loop, in place: when it succeeds every claim is valid and normalised.
  method NormalizeClaims(claims: array<Claim>, checkIds: set<string>, board: set<Uuid>) returns (ok: bool)
    modifies claims
    ensures ok <==> ClaimsOk(old(claims[..]), checkIds, board)
    ensures ok ==> claims[..] == Map(old(claims[..]), NormClaim)
  {
    hide StableId, ClaimBodyOk, NormClaim;
    ghost var was := claims[..];
    var claimIds: set<string> := {};
    for i := 0 to claims.Length
      invariant claimIds == KeySet(was[..i], ClaimKey)
      invariant ClaimsOk(was[..i], checkIds, board)
      invariant forall k :: 0 <= k < i ==> claims[k] == NormClaim(was[k])
      invariant forall k :: i <= k < claims.Length ==> claims[k] == was[k]
    {
      ClaimsOkStep(was, i, checkIds, board);
      var claim := claims[i];
      var stable := ValidateStableId(claim.claimId);
      if !stable || claim.claimId in claimIds { return false; }
      claimIds := claimIds + {claim.claimId};
      var normal := NormalizeClaim(claim, checkIds, board);
      if normal.None? { return false; }
      claims[i] := normal.value;
    }
    assert was[..claims.Length] == was;
    ok := true;
  }

  lemma {:induction false} GapsOkStep(gaps: seq<Gap>, i: nat, checkIds: set<string>)
    requires i < |gaps|
    ensures GapsOk(gaps[..i + 1], checkIds) <==>
            GapsOk(gaps[..i], checkIds) && GapOk(gaps[i], checkIds) && gaps[i].gapId !in KeySet(gaps[..i], GapKey)
    ensures GapsOk(gaps, checkIds) ==> GapsOk(gaps[..i + 1], checkIds)
    ensures KeySet(gaps[..i + 1], GapKey) == KeySet(gaps[..i], GapKey) + {gaps[i].gapId}
  {
    assert gaps[..i + 1] == gaps[..i] + [gaps[i]];
    assert gaps[i] in gaps[..i + 1];
    DistinctAppend(gaps[..i], gaps[i], GapKey);
  }

  // The body of the gap loop.
  method NormalizeGap(gap: Gap, checkIds: set<string>) returns (r: Option<Gap>)
    ensures r == if GapOk(gap, checkIds) then Some(NormGap(gap)) else None
  {
    hide StableId;
    var stable := ValidateStableId(gap.gapId);
    if !stable || gap.checkId !in checkIds || Blank(gap.description) { return None; }
    var normal := gap.(description := Text.Trim(gap.description));
    if gap.resolution.Some? {
      if Blank(gap.resolution.value) { return None; }
      normal := normal.(resolution := Some(Text.Trim(gap.resolution.value)));
    }
    r := Some(normal);
  }

  // The gap loop, in place
  method NormalizeGaps(gaps: array<Gap>, checkIds: set<string>) returns (ok: bool)
    modifies gaps
    ensures ok <==> GapsOk(old(gaps[..]), checkIds)
    ensures ok ==> gaps[..] == Map(old(gaps[..]), NormGap)
  {
    hide GapOk, NormGap;
    ghost var was := gaps[..];
    var gapIds: set<string> := {};
    for i := 0 to gaps.Length
      invariant gapIds == KeySet(was[..i], GapKey)
      invariant GapsOk(was[..i], checkIds)
      invariant forall k :: 0 <= k < i ==> gaps[k] == NormGap(was[k])
      invariant forall k :: i <= k < gaps.Length ==> gaps[k] == was[k]
    {
      GapsOkStep(was, i, checkIds);
      var normal := NormalizeGap(gaps[i], checkIds);
      if normal.None? || gaps[i].gapId in gapIds { return false; }
      gapIds := gapIds + {gaps[i].gapId};
      gaps[i] := normal.value;
    }
    assert was[..gaps.Length] == was;
    ok := true;
  }

  method ManifestEntries(ids: seq<Uuid>, evidence: map<Uuid, Evidence>, artifacts: map<Uuid, Artifact>)
    returns (r: Option<seq<ManifestEntry>>)
    requires forall i :: 0 <= i < |ids| ==> ids[i] in evidence
    ensures r.Some? <==> SnapshotsPresent(ids, evidence, artifacts)
    ensures r.Some? ==> r.value == Entries(ids, evidence, artifacts)
  {
    var entries: seq<ManifestEntry> := [];
    for i := 0 to |ids|
      invariant |entries| == i
      invariant forall k :: 0 <= k < i ==>
                  SnapshotPresent(evidence[ids[k]], artifacts) && entries[k] == EntryFor(ids[k], evidence, artifacts)
    {
      var e := evidence[ids[i]];
      var snapshotHash: Option<Hash> := None;
      if e.snapshotArtifactId.Some? {
        if e.snapshotArtifactId.value !in artifacts { return None; }
        snapshotHash := Some(artifacts[e.snapshotArtifactId.value].sha256);
      }
      entries := entries + [ManifestEntry(ids[i], e.contentHash, e.snapshotArtifactId, snapshotHash)];
    }
    r := Some(entries);
  }

  // The evidence ids of the board: unique, sorted, and each of the run.
  method BoardEvidence(requested: seq<Uuid>, evidence: map<Uuid, Evidence>) returns (r: Option<seq<Uuid>>)
    ensures r == if RefsOk(requested, evidence.Keys) then Some(Sort(requested, IdKey)) else None
    ensures r.Some? ==> Elements(r.value) == Elements(requested)
  {
    var unique := EnsureUnique(requested);
    if !unique { return None; }
    var ids := Sort(requested, IdKey);
    SortSorts(requested, IdKey);
    SameElements(requested, ids);
    for i := 0 to |ids|
      invariant forall k :: 0 <= k < i ==> ids[k] in evidence
    {
      if ids[i] !in evidence {
        assert ids[i] in requested;
        return None;
      }
    }
    r := Some(ids);
  }

  // `freeze_evidence_board`, up to the transaction.
  method FreezeEvidenceBoard(run: Run, req: FreezeRequest, checkIds: Option<set<string>>, evidence: map<Uuid, Evidence>,
                             artifacts: map<Uuid, Artifact>, now: int)
    returns (r: Result<Frozen, FreezeError>)
    ensures r == FreezeOutcome(run, req, checkIds, evidence, artifacts, now)
  {
    hide ClaimOk, GapOk, NormClaim, NormGap, Sort, DistinctKeys;
    if req.schemaVersion != "0.1.0" || !VersionOk(req.version) || Blank(req.freezeReason) { return Err(InvalidRequest); }
    if checkIds.None? { return Err(InvalidRequest); }
    var ids := BoardEvidence(req.evidenceIds, evidence);
    if ids.None? { return Err(InvalidRequest); }
    var claims := new Claim[|req.claims|](i requires 0 <= i < |req.claims| => req.claims[i]);
    var gaps := new Gap[|req.gaps|](i requires 0 <= i < |req.gaps| => req.gaps[i]);
    assert claims[..] == req.claims && gaps[..] == req.gaps;
    var ok := NormalizeClaims(claims, checkIds.value, Elements(ids.value));
    if !ok { return Err(InvalidRequest); }
    ok := NormalizeGaps(gaps, checkIds.value);
    if !ok { return Err(InvalidRequest); }
    assert Acceptable(req, checkIds.value, evidence.Keys);
    ElementsOfSort(req.evidenceIds, IdKey);
    BoardIdsStored(req.evidenceIds, ids.value, evidence);
    var entries := ManifestEntries(ids.value, evidence, artifacts);
    if entries.None? { return Err(MissingSnapshot); }
    r := Ok(Frozen(
      Board(run.runId, req.version, run.binding, ids.value, Sort(claims[..], ClaimKey), Sort(gaps[..], GapKey),
            Text.Trim(req.freezeReason), now),
      Manifest(run.runId, req.version, entries.value)));
  }

  lemma {:induction false} BoardIdsStored(requested: seq<Uuid>, ids: seq<Uuid>, evidence: map<Uuid, Evidence>)
    requires RefsOk(requested, evidence.Keys) && Elements(ids) == Elements(requested)
    ensures forall i :: 0 <= i < |ids| ==> ids[i] in evidence
  {
    forall i | 0 <= i < |ids| ensures ids[i] in evidence {
      assert ids[i] in Elements(ids);
    }
  }
}
