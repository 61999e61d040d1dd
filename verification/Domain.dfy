/** The records the trust core stores, and the free model of its hashes.

    UUIDs and strings are strings, timestamps are integers. A hash is a term that names what was
    hashed, so two hashes are equal exactly when the hashed documents are: collision freedom is the
    only property of SHA-256 over RFC 8785 canonical JSON that the model uses. */
module Domain {
  import opened Wrappers

  type Uuid = string

  datatype RunStatus = Pending | Running | Success | Failed | WaitingApproval | Cancelled

  // `RunStatus::parse`
  function ParseStatus(s: string): Option<RunStatus> {
    if s == "pending" then Some(Pending)
    else if s == "running" then Some(Running)
    else if s == "success" then Some(Success)
    else if s == "failed" then Some(Failed)
    else if s == "waiting_approval" then Some(WaitingApproval)
    else if s == "cancelled" then Some(Cancelled)
    else None
  }

  datatype EventType =
    | RunCreated | RunStatusChanged | NodeStarted | NodeFinished
    | ArtifactCreated | EvidenceCreated | ApprovalRequired | ApprovalResolved
    | AttestationSubmitted | AttestationConfirmed | ErrorReported
    | ProfileSelected | HypothesisCreated | HypothesisUpdated | ResearchQueryPlanned
    | GapDetected | EvidenceLinked | ClaimContradicted | EvidenceBoardFrozen
    | ReviewIssueFound | ScoreChanged | DirectivesAccepted | HumanFeedbackReceived
    | ProvenanceFrozen

  datatype Json =
    | Null
    | Number(n: int)
    | Text(s: string)
    | HashText(h: Hash)
    | Array(items: seq<Json>)
    | Object(fields: map<string, Json>)

  type Payload = map<string, Json>

  datatype Hash =
    | Zero
    | OfEvent(runId: Uuid, sequence: int, nodeId: string, eventType: EventType,
              payload: Payload, createdAt: int, prev: Hash)
    | OfPassport(passport: Passport)
    | OfManifest(manifest: Manifest)
    | OfRunId(runId: Uuid)
    | OfBytes(bytes: seq<int>)

  datatype Event = Event(
    eventId: Uuid, runId: Uuid, sequence: int, nodeId: string, eventType: EventType,
    payload: Payload, createdAt: int, eventHash: Hash, prevEventHash: Hash)

  datatype AuditBinding = AuditBinding(
    standardId: string, standardVersion: string, profileId: string, profileVersion: string)

  datatype Run = Run(
    runId: Uuid, toolId: string, toolType: string, binding: AuditBinding,
    status: RunStatus, currentNode: Option<string>, createdAt: int, updatedAt: int)

  datatype Artifact = Artifact(artifactId: Uuid, runId: Uuid, sha256: Hash)

  datatype Evidence = Evidence(
    evidenceId: Uuid, runId: Uuid, snapshotArtifactId: Option<Uuid>, contentHash: Hash)

  // ── Evidence boards ──

  // A JSON number as f64: finite, or an infinity or NaN.
  datatype Float = Finite(value: real) | NotFinite

  datatype ClaimStatus = Supported | PartiallySupported | Unsupported | Contradicted | NotChecked

  datatype Claim = Claim(
    claimId: string, checkId: string, statement: string, status: ClaimStatus, confidence: Float,
    supports: seq<Uuid>, contradicts: seq<Uuid>)

  datatype Priority = High | Medium | Low

  datatype GapStatus = Open | Resolved | Accepted

  datatype Gap = Gap(
    gapId: string, checkId: string, description: string, priority: Priority, status: GapStatus,
    resolution: Option<string>)

  datatype Board = Board(
    runId: Uuid, version: nat, binding: AuditBinding, evidenceIds: seq<Uuid>,
    claims: seq<Claim>, gaps: seq<Gap>, freezeReason: string, frozenAt: int)

  datatype ManifestEntry = ManifestEntry(
    evidenceId: Uuid, contentHash: Hash, snapshotArtifactId: Option<Uuid>, snapshotHash: Option<Hash>)

  datatype Manifest = Manifest(runId: Uuid, boardVersion: nat, entries: seq<ManifestEntry>)

  // ── Check results ──

  datatype Finding = Pass | Partial | Fail | Unknown | NotApplicable

  datatype Rating = NotRecommended | ManualOnly | Trial | LowRisk | CoreCandidate

  function RatingText(r: Rating): string {
    match r
    case NotRecommended => "not_recommended"
    case ManualOnly => "manual_only"
    case Trial => "trial"
    case LowRisk => "low_risk"
    case CoreCandidate => "core_candidate"
  }

  datatype CheckResult = CheckResult(
    checkId: string, dimension: string, finding: Finding, rationale: string, evidenceIds: seq<Uuid>,
    notApplicableReason: Option<string>, weight: real, highRisk: bool, scoringRuleId: string,
    rulePoints: real, weightedPoints: real, applicable: bool)

  datatype DimensionScore = DimensionScore(score: int, earnedWeightedPoints: real, applicableWeight: real)

  // `dimensionScores` lists the seven dimensions in the order of the `DimensionScores` record.
  datatype CheckResults = CheckResults(
    checkResultsId: Uuid, runId: Uuid, boardVersion: nat, binding: AuditBinding,
    results: seq<CheckResult>, dimensionScores: seq<DimensionScore>, totalScore: int, rating: Rating,
    computedAt: int)

  // ── Passports and provenance ──

  datatype Statement = Statement(
    statementId: string, statement: string, status: ClaimStatus, evidenceIds: seq<Uuid>)

  datatype Severity = SevCritical | SevHigh | SevMedium | SevLow | SevUnknown

  datatype Risk = Risk(
    riskId: string, title: string, severity: Severity, description: string,
    mitigation: Option<string>, evidenceIds: seq<Uuid>)

  datatype Recommendation = Recommendation(summary: string, conditions: seq<string>)

  datatype PassportScores = PassportScores(dimensions: seq<int>, totalScore: int, rating: Rating)

  // What the caller supplies for a passport, before and after normalisation.
  datatype Narrative = Narrative(
    targetRevision: Option<string>, auditScope: string,
    capabilityClaims: seq<Statement>, interfaces: seq<Statement>, risks: seq<Risk>,
    knownGaps: seq<string>, recommendation: Recommendation)

  datatype Passport = Passport(
    sequence: int, toolId: string, runId: Uuid, toolType: string, binding: AuditBinding,
    boardVersion: nat, checkResultsId: Uuid, narrative: Narrative, scores: PassportScores)

  datatype Provenance = Provenance(
    runId: Uuid, freezeVersion: int, boardVersion: nat, passportSequence: int,
    passportHash: Hash, auditLogHash: Hash, manifestHash: Hash, onchainRunId: Hash, frozenAt: int)

  // ── Approval and attestation ──

  datatype Decision = ApproveOffchain | ApproveTestnetAttestation | Reject

  function DecisionText(d: Decision): string {
    match d
    case ApproveOffchain => "approve_offchain"
    case ApproveTestnetAttestation => "approve_testnet_attestation"
    case Reject => "reject"
  }

  datatype Approval = Approval(
    approvalId: Uuid, runId: Uuid, decision: Decision, passportSequence: int,
    passportHash: Hash, auditLogHash: Hash, manifestHash: Hash,
    chainId: Option<nat>, registryContract: Option<string>, decidedAt: int)

  datatype Commitment = Commitment(
    runId: Uuid, toolId: string, toolType: string,
    passportHash: Hash, auditLogHash: Hash, manifestHash: Hash, onchainRunId: Hash,
    chainId: nat, registryContract: string)

  datatype Receipt = Receipt(
    attestationId: Uuid, commitment: Commitment, transactionHash: string,
    submittedAt: int, confirmedAt: int)
}
