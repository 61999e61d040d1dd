/** Every step of every request keeps the invariant, so it holds in every reachable state. */
module ProtocolSteps {
  import opened Wrappers
  import opened Domain
  import opened Sorting
  import opened EventChain
  import opened Projection
  import opened Repository
  import opened EvidenceFreeze
  import opened PassportDraft
  import opened RunProtocol
  import opened FreezeProperties
  import opened ProtocolInvariant
  import opened ProtocolProofs
  import opened ApprovalProofs
  import Scoring
  import Text

  // What one step of a request owes.
  ghost predicate StepKept(t: Tables, m: Move) {
    Kept(t, m.tables) && Knows(m.tables, m.stage)
  }

  lemma {:induction false} ExtendsReflexive(t: Tables)
    ensures Extends(t, t)
  {
  }

  lemma {:induction false} CommitKeeps(t: Tables, c: Choice, r: Result<Tables, RepositoryError>)
    requires TablesInv(t) && (r.Ok? ==> Kept(t, r.value))
    ensures StepKept(t, Commit(t, c, r))
  {
    hide TablesInv, Extends;
    ExtendsReflexive(t);
  }

  // ── What a stage does not claim ──

  predicate AddsNoRows(stage: Stage) {
    ForPassport(stage) || ForApproval(stage) || ForAttestation(stage) || (stage.Done? && stage.reply != CorruptData)
  }

  lemma {:induction false} KnowsNoRows(t: Tables, stage: Stage)
    requires AddsNoRows(stage)
    ensures KnowsRows(t, stage)
  {
  }

  lemma {:induction false} KnowsNoPassport(t: Tables, stage: Stage)
    requires !ForPassport(stage)
    ensures KnowsPassport(t, stage)
  {
  }

  lemma {:induction false} KnowsNoApproval(t: Tables, stage: Stage)
    requires !ForApproval(stage)
    ensures KnowsApproval(t, stage)
  {
  }

  lemma {:induction false} KnowsNoAttestation(t: Tables, stage: Stage)
    requires !ForAttestation(stage)
    ensures KnowsAttestation(t, stage)
  {
  }

  // A stage of one kind of request knows nothing of the other kinds.
  lemma {:induction false} KnowsGroups(t: Tables, stage: Stage)
    ensures AddsNoRows(stage) ==> KnowsRows(t, stage)
    ensures !ForPassport(stage) ==> KnowsPassport(t, stage)
    ensures !ForApproval(stage) ==> KnowsApproval(t, stage)
    ensures !ForAttestation(stage) ==> KnowsAttestation(t, stage)
  {
    hide KnowsRows, KnowsPassport, KnowsApproval, KnowsAttestation;
    if AddsNoRows(stage) { KnowsNoRows(t, stage); }
    if !ForPassport(stage) { KnowsNoPassport(t, stage); }
    if !ForApproval(stage) { KnowsNoApproval(t, stage); }
    if !ForAttestation(stage) { KnowsNoAttestation(t, stage); }
  }

  // ── Freezing ──

  lemma {:induction false} ListedMatches(manifest: Manifest, board: Board, listed: map<Uuid, Evidence>, t: Tables)
    requires ManifestMatches(manifest, board, listed, t.artifacts) && Grows(listed, t.evidence)
    ensures ManifestMatches(manifest, board, t.evidence, t.artifacts)
  {
    forall i | 0 <= i < |board.evidenceIds|
      ensures board.evidenceIds[i] in t.evidence && SnapshotPresent(t.evidence[board.evidenceIds[i]], t.artifacts)
      ensures manifest.entries[i] == EntryFor(board.evidenceIds[i], t.evidence, t.artifacts)
    {
      assert board.evidenceIds[i] in listed;
    }
  }

  // Evidence is listed before artifacts, and neither is ever deleted, so every snapshot is found.
  lemma {:induction false} SnapshotsAreFound(t: Tables, ids: seq<Uuid>, listed: map<Uuid, Evidence>)
    requires EvidenceInv(t) && Grows(listed, t.evidence) && forall u :: u in ids ==> u in listed
    ensures SnapshotsPresent(ids, listed, t.artifacts)
  {
    forall i | 0 <= i < |ids| ensures ids[i] in listed && SnapshotPresent(listed[ids[i]], t.artifacts) {
      assert ids[i] in ids;
      assert listed[ids[i]] == t.evidence[ids[i]];
    }
  }

  lemma {:induction false} FreezeSucceedsOrRefuses(t: Tables, run: Run, req: FreezeRequest, checkIds: Option<set<string>>,
                                                   listed: map<Uuid, Evidence>, now: int)
    requires EvidenceInv(t) && Grows(listed, t.evidence) && SameRun(run, t.run)
    ensures var r := FreezeOutcome(run, req, checkIds, listed, t.artifacts, now);
            && r != Err(MissingSnapshot)
            && (r.Ok? ==> BoardGood(t, r.value.board, r.value.manifest))
  {
    var r := FreezeOutcome(run, req, checkIds, listed, t.artifacts, now);
    if checkIds.Some? && Acceptable(req, checkIds.value, listed.Keys) {
      SortKeeps(req.evidenceIds, IdKey);
      SnapshotsAreFound(t, CanonicalBoard(run, req, now).evidenceIds, listed);
      BoardIsCanonical(run, req, checkIds.value, listed, t.artifacts, now);
      ListedMatches(r.value.manifest, r.value.board, listed, t);
    }
  }

  lemma {:induction false} AdvanceFreezeKnows(catalog: Scoring.Catalog, t: Tables, stage: Stage, c: Choice)
    requires EvidenceInv(t) && stage.FreezeListed? && KnowsRows(t, stage)
    ensures var m := AdvanceFreeze(catalog, t, stage, c);
            m.tables == t && KnowsRows(t, m.stage) && (m.stage.FreezeReady? || m.stage.Done?)
  {
    hide EvidenceInv, BoardGood, FreezeOutcome;
    FreezeSucceedsOrRefuses(t, stage.run, stage.freeze, Scoring.BindingCheckIds(catalog, stage.run.binding), stage.listed, c.now);
  }

  // ── Scoring ──

  lemma {:induction false} ScoredCitesBoard(catalog: Scoring.Catalog, binding: AuditBinding, sub: Scoring.Submission, board: seq<Uuid>,
                                            runId: Uuid, id: Uuid, now: int)
    requires Scoring.ScoreOutcome(catalog, binding, sub, Elements(board), {}, runId, id, now).Some?
    ensures var r := Scoring.ScoreOutcome(catalog, binding, sub, Elements(board), {}, runId, id, now).value;
            && r.runId == runId && r.boardVersion == sub.boardVersion
            && forall i, u :: 0 <= i < |r.results| && u in r.results[i].evidenceIds ==> u in board
  {
    hide Scoring.BaseRating, Scoring.DimensionScores, Scoring.TotalScore, Scoring.CapsParse, Scoring.Capped, Scoring.CatalogBinds,
         DistinctKeys;
    var profile := Scoring.LoadCatalog(catalog, binding).value;
    var r := Scoring.ScoreOutcome(catalog, binding, sub, Elements(board), {}, runId, id, now).value;
    forall i, u | 0 <= i < |r.results| && u in r.results[i].evidenceIds ensures u in board {
      var check := profile.checks[i];
      assert check in profile.checks;
      assert Scoring.CheckAccepted(catalog.standard, check, sub.findings, Elements(board), {});
    }
  }

  ghost predicate ScoredBy(catalog: Scoring.Catalog, t: Tables, stage: Stage, c: Choice)
    requires stage.ScoreRun? && stage.submission.boardVersion in t.boards
  {
    var board := Elements(t.boards[stage.submission.boardVersion].evidenceIds);
    Scoring.ScoreOutcome(catalog, stage.run.binding, stage.submission, board, {}, stage.run.runId, c.freshId, c.now).Some?
  }

  lemma {:induction false} AdvanceScoreKnows(catalog: Scoring.Catalog, t: Tables, stage: Stage, c: Choice)
    requires BoardsInv(t) && stage.ScoreRun? && KnowsRows(t, stage)
    ensures var m := AdvanceScore(catalog, t, stage, c);
            m.tables == t && KnowsRows(t, m.stage) && (m.stage.ScoreReady? || m.stage.Done?)
  {
    hide BoardGood, Scoring.ScoreOutcome;
    var v := stage.submission.boardVersion;
    if v in t.boards && ScoredBy(catalog, t, stage, c) {
      ScoredCitesBoard(catalog, stage.run.binding, stage.submission, t.boards[v].evidenceIds, stage.run.runId, c.freshId, c.now);
    }
  }

  // ── Passports ──

  lemma {:induction false} NextPassportFollows(t: Tables, log: seq<Event>)
    requires PassportsInv(t, log)
    ensures NextPassportSequence(t) == |t.passports| + 1
    ensures NextPassportSequence(t) == 1 || NextPassportSequence(t) - 1 in t.passports
  {
    hide PassportRow;
    if |t.passports| > 0 {
      assert |t.passports| in t.passports;
    } else {
      assert t.passports.Keys == {};
    }
  }

  lemma {:induction false} PassportScoredKnows(t: Tables, log: seq<Event>, request: PassportRequest, run: Run, board: Board,
                                               manifest: Manifest, results: CheckResults, c: Choice)
    requires PassportsInv(t, log) && SameRun(run, t.run) && HasBoard(t, request.boardVersion, board, manifest)
    requires request.boardVersion in t.checkResults && t.checkResults[request.boardVersion] == results && results.binding == run.binding
    requires NarrativeOk(request.narrative, Elements(board.evidenceIds))
    ensures var p := PassportOf(run, request, results, NextPassportSequence(t));
            && PassportGood(t, p) && ProvenanceGood(t, p, ProvenanceOf(p, manifest, c.now))
            && (p.sequence == 1 || p.sequence - 1 in t.passports)
  {
    hide PassportsInv, NarrativeOk, CitesOnly, NormNarrative, NextPassportSequence;
    NextPassportFollows(t, log);
    NormalisedCitesBoard(request.narrative, board.evidenceIds);
  }

  // ── Approval ──

  lemma {:induction false} AdvanceBindingKnows(t: Tables, log: seq<Event>, stage: Stage, c: Choice)
    requires PassportsInv(t, log) && stage.ApprovalSequence? && ApprovalRequestOk(stage.approvalRequest)
    ensures AdvanceBinding(t, stage, c).tables == t && Knows(t, AdvanceBinding(t, stage, c).stage)
  {
    hide PassportGood, ProvenanceGood, ApprovalPayload, KnowsRows, KnowsPassport, KnowsAttestation;
    if stage.sequence in t.passports { assert PassportRow(t, log, stage.sequence); }
    KnowsGroups(t, AdvanceBinding(t, stage, c).stage);
  }

  lemma {:induction false} AdvanceClaimKeeps(t: Tables, stage: Stage, c: Choice)
    requires TablesInv(t) && stage.AttestBound? && KnowsAttestation(t, stage)
    ensures StepKept(t, AdvanceClaim(t, stage, c))
  {
    hide TablesInv, Extends, KnowsRows, KnowsPassport, KnowsApproval;
    ExtendsReflexive(t);
    if ClaimAttemptTx(t, stage.approval.approvalId).Ok? { ClaimKeeps(t, stage.approval); }
    KnowsGroups(AdvanceClaim(t, stage, c).tables, AdvanceClaim(t, stage, c).stage);
  }

  // ── Any step ──

  // A step that only reads.
  predicate Reading(stage: Stage) {
    !(stage.AppendReady? || stage.ArtifactReady? || stage.EvidenceReady? || stage.FreezeReady? || stage.ScoreReady?
      || stage.PassportReady? || stage.ApprovalReady? || stage.AttestBound? || stage.AttestSubmitted?)
  }

  lemma {:induction false} ReadingRows(catalog: Scoring.Catalog, t: Tables, stage: Stage, c: Choice)
    requires EvidenceInv(t) && BoardsInv(t) && KnowsRows(t, stage) && Reading(stage)
    requires !ForPassport(stage) && !ForApproval(stage) && !ForAttestation(stage)
    ensures var m := AdvanceRows(catalog, t, stage, c); m.tables == t && Knows(t, m.stage)
  {
    hide EvidenceInv, BoardsInv, BoardGood, ResultsGood, AdvanceFreeze, AdvanceScore, Project, KnowsPassport, KnowsApproval,
         KnowsAttestation;
    match stage {
      case FreezeListed(_, _, _) => AdvanceFreezeKnows(catalog, t, stage, c);
      case ScoreRun(_, _) => AdvanceScoreKnows(catalog, t, stage, c);
      case _ =>
    }
    KnowsGroups(t, AdvanceRows(catalog, t, stage, c).stage);
  }

  lemma {:induction false} ReadingForPassport(t: Tables, log: seq<Event>, stage: Stage, c: Choice)
    requires PassportsInv(t, log) && KnowsPassport(t, stage) && Reading(stage) && ForPassport(stage)
    ensures var m := AdvancePassport(t, stage, c); m.tables == t && Knows(t, m.stage)
  {
    hide PassportsInv, PassportGood, ProvenanceGood, PassportHeaderOk, NarrativeOk, KnowsRows, KnowsApproval, KnowsAttestation;
    hide Commit, CreatePassportFreezeTx, PassportOf, ProvenanceOf, ProvenancePayload, NextPassportSequence;
    match stage {
      case PassportScored(request, run, board, manifest, results) =>
        PassportScoredKnows(t, log, request, run, board, manifest, results, c);
      case _ =>
    }
    KnowsGroups(t, AdvancePassport(t, stage, c).stage);
  }

  lemma {:induction false} ReadingForApproval(t: Tables, log: seq<Event>, stage: Stage, c: Choice)
    requires PassportsInv(t, log) && KnowsApproval(t, stage) && Reading(stage) && ForApproval(stage)
    ensures var m := AdvanceApproval(t, stage, c); m.tables == t && Knows(t, m.stage)
  {
    hide PassportsInv, ApprovalGood, ApprovalRequestOk, AdvanceBinding, KnowsRows, KnowsPassport, KnowsAttestation;
    if stage.ApprovalSequence? { AdvanceBindingKnows(t, log, stage, c); }
    KnowsGroups(t, AdvanceApproval(t, stage, c).stage);
  }

  lemma {:induction false} ReadingForAttestation(t: Tables, stage: Stage, c: Choice)
    requires KnowsAttestation(t, stage) && Reading(stage) && ForAttestation(stage)
    ensures var m := AdvanceAttestation(t, stage, c); m.tables == t && Knows(t, m.stage)
  {
    hide BoundCommitment, KnowsRows, KnowsPassport, KnowsApproval;
    KnowsGroups(t, AdvanceAttestation(t, stage, c).stage);
  }

  lemma {:induction false} WritingRows(catalog: Scoring.Catalog, t: Tables, stage: Stage, c: Choice)
    requires TablesInv(t) && KnowsRows(t, stage) && !Reading(stage)
    requires !ForPassport(stage) && !ForApproval(stage) && !ForAttestation(stage)
    ensures StepKept(t, AdvanceRows(catalog, t, stage, c))
  {
    hide TablesInv, BoardGood, ResultsGood, Project, StepKept, Commit;
    hide AppendEventTx, CreateArtifactTx, CreateEvidenceTx, CreateEvidenceFreezeTx, CreateCheckResultsTx;
    match stage
    case AppendReady(nodeId, draft, expected, p) =>
      var r := AppendEventTx(t, draft, expected, p.status, p.currentNode, c.tail);
      if r.Ok? { AppendEventKeeps(t, nodeId, draft, expected, p, c.tail); }
      CommitKeeps(t, c, r);
    case ArtifactReady(artifact, draft) =>
      var r := CreateArtifactTx(t, artifact, draft, c.tail);
      if r.Ok? { CreateArtifactKeeps(t, artifact, draft, c.tail); }
      CommitKeeps(t, c, r);
    case EvidenceReady(evidence, draft) =>
      var r := CreateEvidenceTx(t, evidence, draft, c.tail);
      if r.Ok? { CreateEvidenceKeeps(t, evidence, draft, c.tail); }
      CommitKeeps(t, c, r);
    case FreezeReady(frozen, draft) =>
      var r := CreateEvidenceFreezeTx(t, frozen.board, frozen.manifest, draft, c.tail);
      if r.Ok? { CreateEvidenceFreezeKeeps(t, frozen.board, frozen.manifest, draft, c.tail); }
      CommitKeeps(t, c, r);
    case ScoreReady(results, draft) =>
      var r := CreateCheckResultsTx(t, results, draft, c.tail);
      if r.Ok? { CreateCheckResultsKeeps(t, results, draft, c.tail); }
      CommitKeeps(t, c, r);
  }

  lemma {:induction false} WritingPassport(t: Tables, stage: Stage, c: Choice)
    requires TablesInv(t) && stage.PassportReady? && KnowsPassport(t, stage)
    ensures StepKept(t, AdvancePassport(t, stage, c))
  {
    hide TablesInv, PassportGood, ProvenanceGood, StepKept, Commit, CreatePassportFreezeTx;
    match stage
    case PassportReady(passport, provenance, draft) =>
      var r := CreatePassportFreezeTx(t, passport, provenance, draft, c.tail);
      if r.Ok? { CreatePassportFreezeKeeps(t, passport, provenance, draft, c.tail); }
      CommitKeeps(t, c, r);
  }

  lemma {:induction false} WritingApproval(t: Tables, stage: Stage, c: Choice)
    requires TablesInv(t) && stage.ApprovalReady? && KnowsApproval(t, stage)
    ensures StepKept(t, AdvanceApproval(t, stage, c))
  {
    hide TablesInv, ApprovalGood, StepKept, Commit, CreateApprovalTx;
    match stage
    case ApprovalReady(approval, draft) =>
      var r := CreateApprovalTx(t, approval, draft, WaitingApproval, StatusAfter(approval.decision), c.tail);
      if r.Ok? { CreateApprovalKeeps(t, approval, draft, c.tail); }
      CommitKeeps(t, c, r);
  }

  lemma {:induction false} WritingReceipt(t: Tables, stage: Stage, c: Choice)
    requires TablesInv(t) && stage.AttestSubmitted? && KnowsAttestation(t, stage)
    ensures StepKept(t, AdvanceAttestation(t, stage, c))
  {
    hide TablesInv, BoundCommitment, StepKept, Commit, CreateReceiptTx;
    match stage
    case AttestSubmitted(commitment, hash, claimedAt) =>
      var receipt := ReceiptOf(c.freshId, commitment, hash, claimedAt, c.now);
      var r := CreateReceiptTx(t, receipt, SubmittedDraft(c, receipt), ConfirmedDraft(c, receipt), Running, c.tail, c.nextTail);
      if r.Ok? { CreateReceiptKeeps(t, receipt, SubmittedDraft(c, receipt), ConfirmedDraft(c, receipt), c.tail, c.nextTail); }
      CommitKeeps(t, c, r);
  }

  lemma {:induction false} AttestationStep(t: Tables, stage: Stage, c: Choice)
    requires TablesInv(t) && ForAttestation(stage) && KnowsAttestation(t, stage)
    ensures StepKept(t, AdvanceAttestation(t, stage, c))
  {
    hide TablesInv, KnowsAttestation, Extends, Commit, CreateReceiptTx;
    ExtendsReflexive(t);
    if stage.AttestBound? {
      AdvanceClaimKeeps(t, stage, c);
    } else if stage.AttestSubmitted? {
      WritingReceipt(t, stage, c);
    } else {
      ReadingForAttestation(t, stage, c);
    }
  }

  // One step of one request: the invariant holds of the new rows, which contain the old ones, and what
  // the request has now read holds of them.
  lemma {:induction false} AdvanceKeeps(catalog: Scoring.Catalog, t: Tables, stage: Stage, c: Choice)
    requires TablesInv(t) && Knows(t, stage)
    ensures StepKept(t, Advance(catalog, t, stage, c))
  {
    hide AdvanceRows, AdvancePassport, AdvanceApproval, AdvanceAttestation;
    hide KnowsRows, KnowsPassport, KnowsApproval, KnowsAttestation, Extends, Log;
    hide EvidenceInv, BoardsInv, ResultsInv, PassportsInv, LogInv, SummaryInv, ApprovalInv, AttestationInv, CountInv;
    ExtendsReflexive(t);
    if ForPassport(stage) {
      if Reading(stage) { ReadingForPassport(t, Log(t.events), stage, c); } else { WritingPassport(t, stage, c); }
    } else if ForApproval(stage) {
      if Reading(stage) { ReadingForApproval(t, Log(t.events), stage, c); } else { WritingApproval(t, stage, c); }
    } else if ForAttestation(stage) {
      AttestationStep(t, stage, c);
    } else if Reading(stage) {
      ReadingRows(catalog, t, stage, c);
    } else {
      WritingRows(catalog, t, stage, c);
    }
  }
}
