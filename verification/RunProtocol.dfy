/** The service calls on one run as a system of interleaved steps.

    Each pending request is at a stage that holds the values it has read. One step is one read of the
    database, one transaction that commits or aborts, one external submission, or the crash of a
    request. Requests of different runs share no rows, so a system per run is the whole system. */
module RunProtocol {
  import opened Wrappers
  import opened Domain
  import opened Projection
  import opened Repository
  import opened Sorting
  import opened EvidenceFreeze
  import opened PassportDraft
  import Scoring
  import Text

  // ── Requests ──

  datatype ApprovalRequest = ApprovalRequest(
    schemaVersion: string, decision: Decision, passportSequence: int,
    passportHash: Hash, auditLogHash: Hash, manifestHash: Hash,
    chainId: Option<nat>, registryContract: Option<string>)

  datatype Reply = Accepted | Refused | Conflict | CorruptData

  datatype Stage =
    | AppendStart(nodeId: string, eventType: EventType, payload: Payload)
    | AppendReady(nodeId: string, draft: Draft, expected: RunStatus, projected: Projected)
    | ArtifactStart(content: seq<int>)
    | ArtifactReady(artifact: Artifact, draft: Draft)
    | EvidenceStart(snapshot: Option<Uuid>, content: seq<int>)
    | EvidenceRun(snapshot: Option<Uuid>, content: seq<int>)
    | EvidenceReady(evidence: Evidence, draft: Draft)
    | FreezeStart(freeze: FreezeRequest)
    | FreezeRun(freeze: FreezeRequest, run: Run)
    | FreezeListed(freeze: FreezeRequest, run: Run, listed: map<Uuid, Evidence>)
    | FreezeReady(frozen: Frozen, draft: Draft)
    | ScoreStart(submission: Scoring.Submission)
    | ScoreRun(submission: Scoring.Submission, run: Run)
    | ScoreReady(results: CheckResults, draft: Draft)
    | PassportStart(request: PassportRequest)
    | PassportRun(request: PassportRequest, run: Run)
    | PassportBoard(request: PassportRequest, run: Run, board: Board, manifest: Manifest)
    | PassportScored(request: PassportRequest, run: Run, board: Board, manifest: Manifest, results: CheckResults)
    | PassportReady(passport: Passport, provenance: Provenance, draft: Draft)
    | ApprovalStart(approvalRequest: ApprovalRequest)
    | ApprovalRun(approvalRequest: ApprovalRequest)
    | ApprovalSequence(approvalRequest: ApprovalRequest, sequence: int)
    | ApprovalReady(approval: Approval, draft: Draft)
    | AttestStart
    | AttestRun(run: Run)
    | AttestUnattested(run: Run)
    | AttestApproved(run: Run, approval: Approval)
    | AttestBound(run: Run, approval: Approval, provenance: Provenance)
    | AttestClaimed(commitment: Commitment, claimedAt: int)
    | AttestSubmitted(commitment: Commitment, transactionHash: string, claimedAt: int)
    | Done(reply: Reply)

  predicate Starting(stage: Stage) {
    stage.AppendStart? || stage.ArtifactStart? || stage.EvidenceStart? || stage.FreezeStart? || stage.ScoreStart?
    || stage.PassportStart? || stage.ApprovalStart? || stage.AttestStart?
  }

  // What a step does not decide itself: clock, fresh ids, what the tail query sees, whether the
  // database lets the transaction commit, and what the chain answers.
  datatype Choice = Choice(
    now: int, eventId: Uuid, nextEventId: Uuid, freshId: Uuid, tail: TailRead, nextTail: TailRead,
    commits: bool, transaction: Option<string>)

  datatype Move = Move(tables: Tables, stage: Stage, submitted: Option<Commitment>)

  // ── Small steps of the services ──

  function Generated(c: Choice, ty: EventType, payload: Payload): Draft {
    Draft(c.eventId, "trust_core", ty, payload, c.now)
  }

  function Stay(t: Tables, stage: Stage): Move { Move(t, stage, None) }

  // Ends a request with its transaction: the new rows, or the old ones when it fails or is aborted.
  function Commit(t: Tables, c: Choice, r: Result<Tables, RepositoryError>): Move {
    if !c.commits then Stay(t, Done(Refused))
    else
      match r
      case Ok(u) => Stay(u, Done(Reply.Accepted))
      case Err(RunStateChanged) => Stay(t, Done(Conflict))
      case Err(UniqueViolation) => Stay(t, Done(Conflict))
      case Err(Database) => Stay(t, Done(Refused))
  }

  predicate NodeIdOk(nodeId: string) {
    !Blank(nodeId) && |Text.Trim(nodeId)| <= 200
  }

  // `next_passport_sequence`
  function NextPassportSequence(t: Tables): int {
    if t.passports.Keys == {} then 1 else MaxOf(t.passports.Keys) + 1
  }

  function PassportScoresOf(results: CheckResults): PassportScores {
    PassportScores(seq(|results.dimensionScores|, i requires 0 <= i < |results.dimensionScores| => results.dimensionScores[i].score),
                   results.totalScore, results.rating)
  }

  function PassportOf(run: Run, request: PassportRequest, results: CheckResults, sequence: int): Passport {
    Passport(sequence, run.toolId, run.runId, run.toolType, run.binding, request.boardVersion, results.checkResultsId,
             NormNarrative(request.narrative), PassportScoresOf(results))
  }

  // The commitments of a freeze, before the repository stamps the audit log hash.
  function ProvenanceOf(passport: Passport, manifest: Manifest, now: int): Provenance {
    Provenance(passport.runId, passport.sequence, passport.boardVersion, passport.sequence,
               OfPassport(passport), Zero, OfManifest(manifest), OfRunId(passport.runId), now)
  }

  function ProvenancePayload(passport: Passport): Payload {
    map["evidence_board_version" := Number(passport.boardVersion),
        "freeze_version" := Number(passport.sequence),
        "passport_hash" := HashText(OfPassport(passport)),
        "passport_sequence" := Number(passport.sequence)]
  }

  const SEPOLIA: nat := 11155111

  predicate HexDigit(c: char) { '0' <= c <= '9' || 'a' <= c <= 'f' || 'A' <= c <= 'F' }

  predicate AddressOk(s: string) {
    |s| == 42 && s[..2] == "0x" && forall i :: 2 <= i < 42 ==> HexDigit(s[i])
  }

  // `validate_approval_request`; hashes are well formed by construction.
  predicate ApprovalRequestOk(r: ApprovalRequest) {
    && r.schemaVersion == "0.1.0"
    && VersionOk(r.passportSequence)
    && (if r.decision == ApproveTestnetAttestation then
          r.chainId == Some(SEPOLIA) && r.registryContract.Some? && AddressOk(r.registryContract.value)
        else r.chainId.None? && r.registryContract.None?)
  }

  function StatusAfter(d: Decision): RunStatus {
    match d case ApproveOffchain => Success case ApproveTestnetAttestation => Running case Reject => RunStatus.Failed
  }

  function OptionalNumber(n: Option<nat>): Json { match n case Some(v) => Number(v) case None => Null }

  function OptionalText(s: Option<string>): Json { match s case Some(v) => Json.Text(v) case None => Null }

  function ApprovalPayload(a: Approval): Payload {
    map["approval_id" := Json.Text(a.approvalId),
        "decision" := Json.Text(DecisionText(a.decision)),
        "passport_sequence" := Number(a.passportSequence),
        "chain_id" := OptionalNumber(a.chainId),
        "registry_contract" := OptionalText(a.registryContract)]
  }

  // Does an approval (or a request for one) name this provenance?
  predicate Binds(passportHash: Hash, auditLogHash: Hash, manifestHash: Hash, p: Provenance) {
    passportHash == p.passportHash && auditLogHash == p.auditLogHash && manifestHash == p.manifestHash
  }

  function CommitmentOf(run: Run, p: Provenance, chainId: nat, registry: string): Commitment {
    Commitment(run.runId, run.toolId, run.toolType, p.passportHash, p.auditLogHash, p.manifestHash, p.onchainRunId, chainId, registry)
  }

  function ReceiptOf(id: Uuid, commitment: Commitment, transactionHash: string, claimedAt: int, now: int): Receipt {
    Receipt(id, commitment, transactionHash, claimedAt, now)
  }

  function SubmittedPayload(r: Receipt): Payload {
    map["attestation_id" := Json.Text(r.attestationId), "chain_id" := Number(r.commitment.chainId),
        "registry_contract" := Json.Text(r.commitment.registryContract), "transaction_hash" := Json.Text(r.transactionHash)]
  }

  function ConfirmedPayload(r: Receipt): Payload {
    map["attestation_id" := Json.Text(r.attestationId), "chain_id" := Number(r.commitment.chainId),
        "transaction_hash" := Json.Text(r.transactionHash)]
  }

  function SubmittedDraft(c: Choice, r: Receipt): Draft {
    Draft(c.eventId, "trust_core", EventType.AttestationSubmitted, SubmittedPayload(r), r.submittedAt)
  }

  function ConfirmedDraft(c: Choice, r: Receipt): Draft {
    Draft(c.nextEventId, "trust_core", AttestationConfirmed, ConfirmedPayload(r), c.now)
  }

  // ── The next step of a request ──

  predicate ForPassport(stage: Stage) {
    stage.PassportStart? || stage.PassportRun? || stage.PassportBoard? || stage.PassportScored? || stage.PassportReady?
  }

  predicate ForApproval(stage: Stage) {
    stage.ApprovalStart? || stage.ApprovalRun? || stage.ApprovalSequence? || stage.ApprovalReady?
  }

  predicate ForAttestation(stage: Stage) {
    || stage.AttestStart? || stage.AttestRun? || stage.AttestUnattested? || stage.AttestApproved? || stage.AttestBound?
    || stage.AttestClaimed? || stage.AttestSubmitted?
  }

  ghost function Advance(catalog: Scoring.Catalog, t: Tables, stage: Stage, c: Choice): Move {
    if ForPassport(stage) then AdvancePassport(t, stage, c)
    else if ForApproval(stage) then AdvanceApproval(t, stage, c)
    else if ForAttestation(stage) then AdvanceAttestation(t, stage, c)
    else AdvanceRows(catalog, t, stage, c)
  }

  // `append_event`, `create_artifact`, `create_evidence`, `freeze_evidence_board` and `create_check_results`
  ghost function AdvanceRows(catalog: Scoring.Catalog, t: Tables, stage: Stage, c: Choice): Move {
    match stage
    case AppendStart(_, _, _) => AdvanceAppend(t, stage, c)
    case AppendReady(_, draft, expected, projected) =>
      Commit(t, c, AppendEventTx(t, draft, expected, projected.status, projected.currentNode, c.tail))
    case ArtifactStart(content) =>
      var artifact := Artifact(c.freshId, t.run.runId, OfBytes(content));
      Stay(t, ArtifactReady(artifact, Generated(c, ArtifactCreated,
        map["artifact_id" := Json.Text(artifact.artifactId), "sha256_hash" := HashText(artifact.sha256),
            "size_bytes" := Number(|content|)])))
    case ArtifactReady(artifact, draft) => Commit(t, c, CreateArtifactTx(t, artifact, draft, c.tail))
    case EvidenceStart(snapshot, content) => Stay(t, EvidenceRun(snapshot, content))
    case EvidenceRun(_, _) => AdvanceEvidence(t, stage, c)
    case EvidenceReady(evidence, draft) => Commit(t, c, CreateEvidenceTx(t, evidence, draft, c.tail))
    case FreezeStart(freeze) => Stay(t, FreezeRun(freeze, t.run))
    case FreezeRun(freeze, run) => Stay(t, FreezeListed(freeze, run, t.evidence))
    case FreezeListed(_, _, _) => AdvanceFreeze(catalog, t, stage, c)
    case FreezeReady(frozen, draft) => Commit(t, c, CreateEvidenceFreezeTx(t, frozen.board, frozen.manifest, draft, c.tail))
    case ScoreStart(submission) => Stay(t, ScoreRun(submission, t.run))
    case ScoreRun(_, _) => AdvanceScore(catalog, t, stage, c)
    case ScoreReady(results, draft) => Commit(t, c, CreateCheckResultsTx(t, results, draft, c.tail))
    case _ => Stay(t, stage)
  }

  // `freeze_passport`
  ghost function AdvancePassport(t: Tables, stage: Stage, c: Choice): Move
    requires ForPassport(stage)
  {
    match stage
    case PassportStart(request) =>
      Stay(t, if PassportHeaderOk(request) then PassportRun(request, t.run) else Done(Refused))
    case PassportRun(request, run) =>
      var v := request.boardVersion;
      Stay(t, if v in t.boards && v in t.manifests then PassportBoard(request, run, t.boards[v], t.manifests[v]) else Done(Refused))
    case PassportBoard(request, run, board, manifest) =>
      var v := request.boardVersion;
      Stay(t, if v in t.checkResults && t.checkResults[v].binding == run.binding
                 && NarrativeOk(request.narrative, Elements(board.evidenceIds))
              then PassportScored(request, run, board, manifest, t.checkResults[v]) else Done(Refused))
    case PassportScored(request, run, board, manifest, results) =>
      var passport := PassportOf(run, request, results, NextPassportSequence(t));
      Stay(t, PassportReady(passport, ProvenanceOf(passport, manifest, c.now), Generated(c, ProvenanceFrozen, ProvenancePayload(passport))))
    case PassportReady(passport, provenance, draft) => Commit(t, c, CreatePassportFreezeTx(t, passport, provenance, draft, c.tail))
  }

  // `create_approval`
  function AdvanceApproval(t: Tables, stage: Stage, c: Choice): Move
    requires ForApproval(stage)
  {
    match stage
    case ApprovalStart(r) =>
      Stay(t, if t.run.status != WaitingApproval then Done(Conflict) else if !ApprovalRequestOk(r) then Done(Refused) else ApprovalRun(r))
    case ApprovalRun(r) => Stay(t, ApprovalSequence(r, NextPassportSequence(t) - 1))
    case ApprovalSequence(_, _) => AdvanceBinding(t, stage, c)
    case ApprovalReady(approval, draft) =>
      Commit(t, c, CreateApprovalTx(t, approval, draft, WaitingApproval, StatusAfter(approval.decision), c.tail))
  }

  // `submit_attestation`
  function AdvanceAttestation(t: Tables, stage: Stage, c: Choice): Move
    requires ForAttestation(stage)
  {
    match stage
    case AttestStart => Stay(t, if t.run.status == Running then AttestRun(t.run) else Done(Conflict))
    case AttestRun(run) => Stay(t, if t.receipt.Some? then Done(Conflict) else AttestUnattested(run))
    case AttestUnattested(run) =>
      Stay(t, if t.approval.Some? && t.approval.value.decision == ApproveTestnetAttestation
              then AttestApproved(run, t.approval.value) else Done(Refused))
    case AttestApproved(run, a) =>
      Stay(t, if a.passportSequence in t.passports && a.passportSequence in t.provenances
                 && Binds(a.passportHash, a.auditLogHash, a.manifestHash, t.provenances[a.passportSequence])
                 && a.chainId.Some? && a.registryContract.Some?
              then AttestBound(run, a, t.provenances[a.passportSequence]) else Done(Conflict))
    case AttestBound(_, _, _) => AdvanceClaim(t, stage, c)
    case AttestClaimed(commitment, claimedAt) =>
      Move(t, match c.transaction
              case Some(hash) => Stage.AttestSubmitted(commitment, hash, claimedAt)
              case None => Done(Refused), Some(commitment))
    case AttestSubmitted(commitment, hash, claimedAt) =>
      var receipt := ReceiptOf(c.freshId, commitment, hash, claimedAt, c.now);
      Commit(t, c, CreateReceiptTx(t, receipt, SubmittedDraft(c, receipt), ConfirmedDraft(c, receipt), Running, c.tail, c.nextTail))
  }

  // `append_event`: the projection is computed from the row read here, and the transaction later
  // demands that the status is still the one that was read.
  function AdvanceAppend(t: Tables, stage: Stage, c: Choice): Move
    requires stage.AppendStart?
  {
    if !NodeIdOk(stage.nodeId) then Stay(t, Done(Refused))
    else
      match Project(t.run.status, stage.nodeId, stage.eventType, stage.payload)
      case Err(_) => Stay(t, Done(Refused))
      case Ok(p) =>
        var draft := Draft(c.eventId, Text.Trim(stage.nodeId), stage.eventType, stage.payload, c.now);
        Stay(t, AppendReady(stage.nodeId, draft, t.run.status, p))
  }

  function AdvanceEvidence(t: Tables, stage: Stage, c: Choice): Move
    requires stage.EvidenceRun?
  {
    if stage.snapshot.Some? && stage.snapshot.value !in t.artifacts then Stay(t, Done(Refused))
    else
      var evidence := Evidence(c.freshId, t.run.runId, stage.snapshot, OfBytes(stage.content));
      Stay(t, EvidenceReady(evidence, Generated(c, EvidenceCreated,
        map["content_hash" := HashText(evidence.contentHash), "evidence_id" := Json.Text(evidence.evidenceId),
            "snapshot_artifact_id" := OptionalText(evidence.snapshotArtifactId)])))
  }

  // Artifacts are listed after evidence, and the two lists decide the freeze.
  ghost function AdvanceFreeze(catalog: Scoring.Catalog, t: Tables, stage: Stage, c: Choice): Move
    requires stage.FreezeListed?
  {
    match FreezeOutcome(stage.run, stage.freeze, Scoring.BindingCheckIds(catalog, stage.run.binding), stage.listed, t.artifacts, c.now)
    case Err(InvalidRequest) => Stay(t, Done(Refused))
    case Err(MissingSnapshot) => Stay(t, Done(CorruptData))
    case Ok(frozen) =>
      Stay(t, FreezeReady(frozen, Generated(c, EvidenceBoardFrozen,
        map["claim_count" := Number(|frozen.board.claims|), "evidence_board_version" := Number(frozen.board.version),
            "evidence_count" := Number(|frozen.board.evidenceIds|), "gap_count" := Number(|frozen.board.gaps|)])))
  }

  ghost function AdvanceScore(catalog: Scoring.Catalog, t: Tables, stage: Stage, c: Choice): Move
    requires stage.ScoreRun?
  {
    var v := stage.submission.boardVersion;
    if v !in t.boards || v !in t.manifests then Stay(t, Done(Refused))
    else
      match Scoring.ScoreOutcome(catalog, stage.run.binding, stage.submission, Elements(t.boards[v].evidenceIds), {},
                                 stage.run.runId, c.freshId, c.now)
      case None => Stay(t, Done(Refused))
      case Some(results) =>
        Stay(t, ScoreReady(results, Generated(c, ScoreChanged,
          map["check_results_id" := Json.Text(results.checkResultsId), "evidence_board_version" := Number(results.boardVersion),
              "profile_id" := Json.Text(results.binding.profileId + "@" + results.binding.profileVersion),
              "standard_id" := Json.Text(results.binding.standardId + "@" + results.binding.standardVersion),
              "total_score" := Number(results.totalScore), "rating" := Json.Text(RatingText(results.rating))])))
  }

  // The newest provenance is read, and the request must name it.
  function AdvanceBinding(t: Tables, stage: Stage, c: Choice): Move
    requires stage.ApprovalSequence?
  {
    var s, r := stage.sequence, stage.approvalRequest;
    if s !in t.passports || s !in t.provenances then Stay(t, Done(Refused))
    else if r.passportSequence != t.passports[s].sequence
            || !Binds(r.passportHash, r.auditLogHash, r.manifestHash, t.provenances[s]) then Stay(t, Done(Conflict))
    else
      var approval := Approval(c.freshId, t.run.runId, r.decision, r.passportSequence, r.passportHash, r.auditLogHash, r.manifestHash,
                               r.chainId, r.registryContract, c.now);
      Stay(t, ApprovalReady(approval, Generated(c, ApprovalResolved, ApprovalPayload(approval))))
  }

  // `claim_attestation_attempt`: only the request whose insert commits goes on to submit.
  function AdvanceClaim(t: Tables, stage: Stage, c: Choice): Move
    requires stage.AttestBound?
  {
    var a := stage.approval;
    if !c.commits || a.chainId.None? || a.registryContract.None? then Stay(t, Done(Refused))
    else
      match ClaimAttemptTx(t, a.approvalId)
      case Err(_) => Stay(t, Done(Conflict))
      case Ok(u) => Stay(u, AttestClaimed(CommitmentOf(stage.run, stage.provenance, a.chainId.value, a.registryContract.value), c.now))
  }

  // ── The system of one run ──

  // `submissions` records what reached the chain, in order.
  datatype System = System(tables: Tables, requests: map<nat, Stage>, submissions: seq<Commitment>)

  datatype Step =
    | Arrive(id: nat, request: Stage)
    | Continue(id: nat, choice: Choice)
    | Crash(id: nat)

  ghost function Next(catalog: Scoring.Catalog, s: System, step: Step): System {
    match step
    case Arrive(id, request) =>
      if id in s.requests || !Starting(request) then s else s.(requests := s.requests[id := request])
    case Continue(id, choice) =>
      if id !in s.requests then s
      else
        var move := Advance(catalog, s.tables, s.requests[id], choice);
        System(move.tables, s.requests[id := move.stage],
               match move.submitted case Some(commitment) => s.submissions + [commitment] case None => s.submissions)
    case Crash(id) => s.(requests := map q | q in s.requests && q != id :: s.requests[q])
  }

  // ── Creating a run ──

  datatype NewRun = NewRun(runId: Uuid, toolId: string, toolType: string, binding: AuditBinding, eventId: Uuid, now: int)

  // `create_run`: the first row and the first event commit together.
  function Created(n: NewRun): System {
    var run := Run(n.runId, n.toolId, n.toolType, n.binding, Pending, None, n.now, n.now);
    var created := Draft(n.eventId, "run", RunCreated, map["status" := Json.Text("pending")], n.now);
    var events := map[1 := Seal(n.runId, 1, created, Zero)];
    System(Tables(run, events, map[], map[], map[], map[], map[], map[], map[], None, None, None), map[], [])
  }

  ghost function Execute(catalog: Scoring.Catalog, s: System, steps: seq<Step>): System {
    if steps == [] then s else Next(catalog, Execute(catalog, s, steps[..|steps| - 1]), steps[|steps| - 1])
  }

  // ── All runs ──

  datatype WorldStep = Create(newRun: NewRun) | On(runId: Uuid, step: Step)

  ghost function WorldNext(catalog: Scoring.Catalog, w: map<Uuid, System>, step: WorldStep): map<Uuid, System> {
    match step
    case Create(n) => if n.runId in w then w else w[n.runId := Created(n)]
    case On(r, s) => if r in w then w[r := Next(catalog, w[r], s)] else w
  }

  ghost function WorldExecute(catalog: Scoring.Catalog, steps: seq<WorldStep>): map<Uuid, System> {
    if steps == [] then map[] else WorldNext(catalog, WorldExecute(catalog, steps[..|steps| - 1]), steps[|steps| - 1])
  }
}
