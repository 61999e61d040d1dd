/** The inductive invariant of the run protocol, and why what a request has read stays true. */
module ProtocolInvariant {
  import opened Wrappers
  import opened Domain
  import opened Sorting
  import opened EventChain
  import opened Projection
  import opened Repository
  import opened EvidenceFreeze
  import opened PassportDraft
  import opened RunProtocol
  import opened FreezeProperties
  import Scoring
  import Text

  // ── Rows only accumulate ──

  ghost predicate Grows<K, V>(a: map<K, V>, b: map<K, V>) {
    forall k :: k in a ==> k in b && b[k] == a[k]
  }

  ghost predicate Stays<T>(a: Option<T>, b: Option<T>) {
    a.Some? ==> b == a
  }

  ghost predicate SameRun(a: Run, b: Run) {
    a.(status := b.status, currentNode := b.currentNode, updatedAt := b.updatedAt) == b
  }

  // The later rows contain the earlier ones, and a terminal status has not changed.
  ghost predicate Extends(t: Tables, u: Tables) {
    && SameRun(t.run, u.run)
    && (Terminal(t.run.status) ==> u.run.status == t.run.status)
    && Grows(t.events, u.events)
    && Grows(t.artifacts, u.artifacts) && Grows(t.evidence, u.evidence)
    && Grows(t.boards, u.boards) && Grows(t.manifests, u.manifests)
    && Grows(t.checkResults, u.checkResults)
    && Grows(t.passports, u.passports) && Grows(t.provenances, u.provenances)
    && Stays(t.approval, u.approval) && Stays(t.attempt, u.attempt) && Stays(t.receipt, u.receipt)
  }

  lemma {:induction false} ExtendsTransitive(t: Tables, u: Tables, v: Tables)
    requires Extends(t, u) && Extends(u, v)
    ensures Extends(t, v)
  {
  }

  // ── The log and the summary ──

  ghost predicate LogInv(t: Tables, log: seq<Event>) {
    Chained(t.run.runId, log) && log != [] && log[0].eventType == RunCreated
  }

  // Once the log has led to `success` or `failed`, no later event led elsewhere.
  ghost predicate TerminalAbsorbs(log: seq<Event>) {
    forall k :: 0 <= k <= |log| && Terminal(Replay(log[..k]).status) ==> Replay(log).status == Replay(log[..k]).status
  }

  // After the first, every event was allowed by the status that those before it led to.
  ghost predicate AllAllowed(log: seq<Event>) {
    forall i :: 1 <= i < |log| ==> Allowed(Replay(log[..i]).status, log[i].eventType, log[i].payload)
  }

  ghost predicate SummaryInv(t: Tables, log: seq<Event>) {
    SummaryOf(t.run) == Replay(log) && t.run.status != Cancelled && TerminalAbsorbs(log) && AllAllowed(log)
  }

  // ── Evidence, boards, results ──

  ghost predicate EvidenceInv(t: Tables) {
    && (forall a :: a in t.artifacts ==> t.artifacts[a].artifactId == a && t.artifacts[a].runId == t.run.runId)
    && (forall e :: e in t.evidence ==>
          t.evidence[e].evidenceId == e && t.evidence[e].runId == t.run.runId && SnapshotPresent(t.evidence[e], t.artifacts))
  }

  ghost predicate BoardGood(t: Tables, board: Board, manifest: Manifest) {
    && board.runId == t.run.runId && board.binding == t.run.binding
    && StrictlySorted(board.evidenceIds, IdKey)
    && (forall c :: c in board.claims ==> CanonicalClaim(c, board.evidenceIds))
    && ManifestMatches(manifest, board, t.evidence, t.artifacts)
  }

  ghost predicate BoardsInv(t: Tables) {
    && t.boards.Keys == t.manifests.Keys
    && forall v :: v in t.boards ==> t.boards[v].version == v && BoardGood(t, t.boards[v], t.manifests[v])
  }

  ghost predicate ResultsGood(t: Tables, r: CheckResults) {
    && r.runId == t.run.runId
    && r.boardVersion in t.boards
    && forall i, u :: 0 <= i < |r.results| && u in r.results[i].evidenceIds ==> u in t.boards[r.boardVersion].evidenceIds
  }

  ghost predicate ResultsInv(t: Tables) {
    forall v :: v in t.checkResults ==> t.checkResults[v].boardVersion == v && ResultsGood(t, t.checkResults[v])
  }

  // ── Passports ──

  ghost predicate PassportGood(t: Tables, p: Passport) {
    && p.runId == t.run.runId && p.toolId == t.run.toolId && p.toolType == t.run.toolType && p.binding == t.run.binding
    && var v := p.boardVersion;
    && v in t.boards && v in t.checkResults
    && p.checkResultsId == t.checkResults[v].checkResultsId
    && p.scores == PassportScoresOf(t.checkResults[v])
    && t.checkResults[v].binding == p.binding
    && CitesOnly(p.narrative, t.boards[v].evidenceIds)
  }

  // Everything but the audit log hash, which the repository stamps.
  ghost predicate ProvenanceGood(t: Tables, p: Passport, prov: Provenance) {
    && prov.runId == p.runId
    && prov.freezeVersion == p.sequence && prov.passportSequence == p.sequence
    && prov.boardVersion == p.boardVersion
    && prov.passportHash == OfPassport(p)
    && p.boardVersion in t.manifests && prov.manifestHash == OfManifest(t.manifests[p.boardVersion])
    && prov.onchainRunId == OfRunId(p.runId)
  }

  ghost predicate PassportEvent(e: Event, p: Passport, prov: Provenance) {
    && e.eventType == ProvenanceFrozen
    && e.payload == ProvenancePayload(p)
    && e.eventHash == prov.auditLogHash
  }

  ghost predicate PassportRow(t: Tables, log: seq<Event>, k: int) {
    && k in t.passports && k in t.provenances
    && t.passports[k].sequence == k
    && PassportGood(t, t.passports[k])
    && ProvenanceGood(t, t.passports[k], t.provenances[k])
    && var frozen := OfType(log, ProvenanceFrozen);
    && 1 <= k <= |frozen|
    && PassportEvent(frozen[k - 1], t.passports[k], t.provenances[k])
  }

  ghost predicate PassportsInv(t: Tables, log: seq<Event>) {
    && (forall k :: k in t.passports <==> 1 <= k <= |t.passports|)
    && t.provenances.Keys == t.passports.Keys
    && |OfType(log, ProvenanceFrozen)| == |t.passports|
    && (forall k {:trigger PassportRow(t, log, k)} :: 1 <= k <= |t.passports| ==> PassportRow(t, log, k))
  }

  // ── Approval and attestation ──

  ghost predicate ApprovalGood(t: Tables, a: Approval) {
    && a.runId == t.run.runId
    && a.passportSequence in t.provenances
    && Binds(a.passportHash, a.auditLogHash, a.manifestHash, t.provenances[a.passportSequence])
    && (a.decision == ApproveTestnetAttestation <==> a.chainId.Some?)
    && (a.decision == ApproveTestnetAttestation <==> a.registryContract.Some?)
  }

  ghost predicate IsFreezeOf(e: Event, auditLogHash: Hash) {
    e.eventType == ProvenanceFrozen && e.eventHash == auditLogHash
  }

  ghost predicate IsDecision(e: Event, a: Approval) {
    e.eventType == ApprovalResolved && e.payload == ApprovalPayload(a)
  }

  // The approval event comes after the freeze it binds.
  ghost predicate ApprovedAt(log: seq<Event>, a: Approval, i: nat, j: nat) {
    i < j < |log| && IsFreezeOf(log[i], a.auditLogHash) && IsDecision(log[j], a)
  }

  ghost predicate ApprovalInv(t: Tables, log: seq<Event>) {
    && |OfType(log, ApprovalResolved)| == (if t.approval.Some? then 1 else 0)
    && (t.approval.Some? ==>
          && ApprovalGood(t, t.approval.value)
          && (t.approval.value.decision != ApproveTestnetAttestation ==> t.run.status == StatusAfter(t.approval.value.decision))
          && exists i: nat, j: nat :: ApprovedAt(log, t.approval.value, i, j))
  }

  // The commitment that the stored approval and the provenance it names determine.
  ghost predicate BoundCommitment(t: Tables, m: Commitment) {
    && t.approval.Some?
    && var a := t.approval.value;
    && a.decision == ApproveTestnetAttestation
    && a.passportSequence in t.provenances
    && a.chainId.Some? && a.registryContract.Some?
    && m == CommitmentOf(t.run, t.provenances[a.passportSequence], a.chainId.value, a.registryContract.value)
    && Binds(m.passportHash, m.auditLogHash, m.manifestHash, t.provenances[a.passportSequence])
    && Binds(a.passportHash, a.auditLogHash, a.manifestHash, t.provenances[a.passportSequence])
  }

  // The two attestation events stand together, after the approval event and the freeze it binds.
  ghost predicate AttestedAt(log: seq<Event>, a: Approval, r: Receipt, i: nat, j: nat, s: nat) {
    && ApprovedAt(log, a, i, j)
    && j < s < |log| - 1
    && log[s].eventType == EventType.AttestationSubmitted && log[s].payload == SubmittedPayload(r)
    && log[s + 1].eventType == AttestationConfirmed && log[s + 1].payload == ConfirmedPayload(r)
  }

  ghost predicate AttestationInv(t: Tables, log: seq<Event>) {
    && |OfType(log, EventType.AttestationSubmitted)| == |OfType(log, AttestationConfirmed)| == (if t.receipt.Some? then 1 else 0)
    && (t.attempt.Some? ==>
          t.approval.Some? && t.approval.value.approvalId == t.attempt.value && t.approval.value.decision == ApproveTestnetAttestation)
    && (t.receipt.Some? ==>
          && t.attempt.Some?
          && t.run.status == Success
          && BoundCommitment(t, t.receipt.value.commitment)
          && exists i: nat, j: nat, s: nat :: AttestedAt(log, t.approval.value, t.receipt.value, i, j, s))
  }

  // Rows and the events announcing them are in one-to-one correspondence by number.
  ghost predicate CountInv(t: Tables, log: seq<Event>) {
    && |OfType(log, EvidenceBoardFrozen)| == |t.boards|
    && |OfType(log, ScoreChanged)| == |t.checkResults|
  }

  // The rows against the log, the log being the events in sequence order.
  ghost predicate RowsInv(t: Tables, log: seq<Event>) {
    && LogInv(t, log) && SummaryInv(t, log)
    && EvidenceInv(t) && BoardsInv(t) && ResultsInv(t)
    && PassportsInv(t, log) && ApprovalInv(t, log) && AttestationInv(t, log) && CountInv(t, log)
  }

  ghost predicate TablesInv(t: Tables) {
    Numbered(t.events) && RowsInv(t, Log(t.events))
  }

  // ── What a request knows ──

  // Requests that add artifacts, evidence, boards, results or events of their own.
  ghost predicate KnowsRows(t: Tables, stage: Stage) {
    match stage
    case AppendReady(nodeId, draft, expected, p) =>
      Project(expected, nodeId, draft.eventType, draft.payload) == Ok(p) && draft.nodeId == Text.Trim(nodeId)
    case ArtifactReady(artifact, draft) => artifact.runId == t.run.runId && draft.eventType == ArtifactCreated
    case EvidenceReady(evidence, draft) =>
      evidence.runId == t.run.runId && SnapshotPresent(evidence, t.artifacts) && draft.eventType == EvidenceCreated
    case FreezeRun(_, run) => SameRun(run, t.run)
    case FreezeListed(_, run, listed) => SameRun(run, t.run) && Grows(listed, t.evidence)
    case FreezeReady(frozen, draft) => BoardGood(t, frozen.board, frozen.manifest) && draft.eventType == EvidenceBoardFrozen
    case ScoreRun(_, run) => SameRun(run, t.run)
    case ScoreReady(results, draft) => ResultsGood(t, results) && draft.eventType == ScoreChanged
    case Done(reply) => reply != CorruptData
    case _ => true
  }

  ghost predicate KnowsPassport(t: Tables, stage: Stage) {
    match stage
    case PassportRun(_, run) => SameRun(run, t.run)
    case PassportBoard(request, run, board, manifest) => SameRun(run, t.run) && HasBoard(t, request.boardVersion, board, manifest)
    case PassportScored(request, run, board, manifest, results) =>
      && SameRun(run, t.run) && HasBoard(t, request.boardVersion, board, manifest)
      && request.boardVersion in t.checkResults && t.checkResults[request.boardVersion] == results
      && results.binding == run.binding
      && NarrativeOk(request.narrative, Elements(board.evidenceIds))
    case PassportReady(passport, provenance, draft) =>
      && PassportGood(t, passport) && ProvenanceGood(t, passport, provenance)
      && (passport.sequence == 1 || passport.sequence - 1 in t.passports)
      && draft.eventType == ProvenanceFrozen && draft.payload == ProvenancePayload(passport)
    case _ => true
  }

  ghost predicate KnowsApproval(t: Tables, stage: Stage) {
    match stage
    case ApprovalRun(r) => ApprovalRequestOk(r)
    case ApprovalSequence(r, _) => ApprovalRequestOk(r)
    case ApprovalReady(approval, draft) =>
      ApprovalGood(t, approval) && draft.eventType == ApprovalResolved && draft.payload == ApprovalPayload(approval)
    case _ => true
  }

  ghost predicate KnowsAttestation(t: Tables, stage: Stage) {
    match stage
    case AttestRun(run) => SameRun(run, t.run)
    case AttestUnattested(run) => SameRun(run, t.run)
    case AttestApproved(run, a) => SameRun(run, t.run) && t.approval == Some(a) && a.decision == ApproveTestnetAttestation
    case AttestBound(run, a, provenance) =>
      && SameRun(run, t.run) && t.approval == Some(a) && a.decision == ApproveTestnetAttestation
      && a.passportSequence in t.provenances && t.provenances[a.passportSequence] == provenance
      && Binds(a.passportHash, a.auditLogHash, a.manifestHash, provenance)
      && a.chainId.Some? && a.registryContract.Some?
    case AttestClaimed(commitment, _) => t.attempt.Some? && BoundCommitment(t, commitment)
    case AttestSubmitted(commitment, _, _) => t.attempt.Some? && BoundCommitment(t, commitment)
    case _ => true
  }

  // What a request has read, and still holds of the rows.
  ghost predicate Knows(t: Tables, stage: Stage) {
    KnowsRows(t, stage) && KnowsPassport(t, stage) && KnowsApproval(t, stage) && KnowsAttestation(t, stage)
  }

  ghost predicate HasBoard(t: Tables, v: nat, board: Board, manifest: Manifest) {
    v in t.boards && t.boards[v] == board && v in t.manifests && t.manifests[v] == manifest
  }

  // ── What is known stays true ──

  lemma {:induction false} ManifestStable(t: Tables, u: Tables, manifest: Manifest, board: Board)
    requires Extends(t, u) && ManifestMatches(manifest, board, t.evidence, t.artifacts)
    ensures ManifestMatches(manifest, board, u.evidence, u.artifacts)
  {
    forall i | 0 <= i < |board.evidenceIds|
      ensures board.evidenceIds[i] in u.evidence && SnapshotPresent(u.evidence[board.evidenceIds[i]], u.artifacts)
      ensures manifest.entries[i] == EntryFor(board.evidenceIds[i], u.evidence, u.artifacts)
    {
      assert board.evidenceIds[i] in t.evidence;
    }
  }

  lemma {:induction false} BoardStable(t: Tables, u: Tables, board: Board, manifest: Manifest)
    requires Extends(t, u) && BoardGood(t, board, manifest)
    ensures BoardGood(u, board, manifest)
  {
    ManifestStable(t, u, manifest, board);
  }

  lemma {:induction false} PassportStable(t: Tables, u: Tables, p: Passport, prov: Provenance)
    requires Extends(t, u) && PassportGood(t, p) && ProvenanceGood(t, p, prov)
    ensures PassportGood(u, p) && ProvenanceGood(u, p, prov)
  {
  }

  lemma {:induction false} ResultsStable(t: Tables, u: Tables, r: CheckResults)
    requires Extends(t, u) && ResultsGood(t, r)
    ensures ResultsGood(u, r)
  {
  }

  lemma {:induction false} StableParts(t: Tables, u: Tables)
    requires Extends(t, u)
    ensures SameRun(t.run, u.run) && Grows(t.artifacts, u.artifacts) && Grows(t.evidence, u.evidence)
    ensures Grows(t.boards, u.boards) && Grows(t.manifests, u.manifests) && Grows(t.checkResults, u.checkResults)
    ensures Grows(t.passports, u.passports)
  {
  }

  lemma {:induction false} RowKnowledgeIsStable(t: Tables, u: Tables, stage: Stage)
    requires Extends(t, u) && KnowsRows(t, stage)
    ensures KnowsRows(u, stage)
  {
    hide Project, Extends, BoardGood, ResultsGood;
    StableParts(t, u);
    match stage
    case FreezeReady(frozen, _) => BoardStable(t, u, frozen.board, frozen.manifest);
    case ScoreReady(results, _) => ResultsStable(t, u, results);
    case _ =>
  }

  lemma {:induction false} PassportKnowledgeIsStable(t: Tables, u: Tables, stage: Stage)
    requires Extends(t, u) && KnowsPassport(t, stage)
    ensures KnowsPassport(u, stage)
  {
    hide PassportGood, ProvenanceGood, NarrativeOk, Extends, ProvenancePayload;
    StableParts(t, u);
    match stage
    case PassportReady(passport, provenance, _) => PassportStable(t, u, passport, provenance);
    case _ =>
  }

  lemma {:induction false} DecisionKnowledgeIsStable(t: Tables, u: Tables, stage: Stage)
    requires Extends(t, u) && KnowsApproval(t, stage) && KnowsAttestation(t, stage)
    ensures KnowsApproval(u, stage) && KnowsAttestation(u, stage)
  {
    hide ApprovalRequestOk, ApprovalPayload;
  }

  // Whatever a request has read stays true while others commit.
  lemma {:induction false} KnowledgeIsStable(t: Tables, u: Tables, stage: Stage)
    requires Extends(t, u) && Knows(t, stage)
    ensures Knows(u, stage)
  {
    hide Extends, KnowsRows, KnowsPassport, KnowsApproval, KnowsAttestation;
    RowKnowledgeIsStable(t, u, stage);
    PassportKnowledgeIsStable(t, u, stage);
    DecisionKnowledgeIsStable(t, u, stage);
  }

  // ── The system ──

  // Stages that only the request whose claim committed can reach.
  predicate HoldsClaim(stage: Stage) { stage.AttestClaimed? || stage.AttestSubmitted? }

  ghost predicate SubmissionInv(s: System) {
    && (s.tables.attempt.None? ==> s.submissions == [] && forall q :: q in s.requests ==> !HoldsClaim(s.requests[q]))
    && (forall p, q :: p in s.requests && q in s.requests && HoldsClaim(s.requests[p]) && HoldsClaim(s.requests[q]) ==> p == q)
    && (forall q :: q in s.requests && s.requests[q].AttestClaimed? ==> s.submissions == [])
    && (forall q :: q in s.requests && s.requests[q].AttestSubmitted? ==> s.submissions == [s.requests[q].commitment])
    && |s.submissions| <= 1
    && (forall i :: 0 <= i < |s.submissions| ==> BoundCommitment(s.tables, s.submissions[i]))
    && (s.tables.receipt.Some? ==> s.submissions == [s.tables.receipt.value.commitment])
  }

  ghost predicate Inv(s: System) {
    && TablesInv(s.tables)
    && (forall q :: q in s.requests ==> Knows(s.tables, s.requests[q]))
    && SubmissionInv(s)
  }
}
