/** Who may submit to the chain, and the invariant over a whole run of the system. */
module Submissions {
  import opened Wrappers
  import opened Domain
  import opened EventChain
  import opened Projection
  import opened Repository
  import opened EvidenceFreeze
  import opened RunProtocol
  import opened ProtocolInvariant
  import opened ProtocolProofs
  import opened ApprovalProofs
  import opened ProtocolSteps
  import Scoring

  // ── What a step does to the attempt, the receipt and the chain ──

  // Neither claims, nor submits, nor records.
  ghost predicate Quiet(t: Tables, m: Move) {
    m.submitted.None? && !HoldsClaim(m.stage) && m.tables.attempt == t.attempt && m.tables.receipt == t.receipt
  }

  lemma {:induction false} CommitIsQuiet(t: Tables, c: Choice, r: Result<Tables, RepositoryError>)
    requires r.Ok? ==> r.value.attempt == t.attempt && r.value.receipt == t.receipt
    ensures Quiet(t, Commit(t, c, r))
  {
  }

  predicate Writes(stage: Stage) {
    stage.AppendReady? || stage.ArtifactReady? || stage.EvidenceReady? || stage.FreezeReady? || stage.ScoreReady?
  }

  lemma {:induction false} WritesAreQuiet(catalog: Scoring.Catalog, t: Tables, stage: Stage, c: Choice)
    requires Writes(stage)
    ensures Quiet(t, AdvanceRows(catalog, t, stage, c))
  {
    hide Commit, InsertEvent, Quiet;
    match stage
    case AppendReady(_, draft, expected, p) =>
      InsertKeepsRows(t.(run := t.run.(status := Coalesce(p.status, t.run.status),
          currentNode := CoalesceNode(p.currentNode, t.run.currentNode),
                                       updatedAt := draft.createdAt)), draft, c.tail);
      CommitIsQuiet(t, c, AppendEventTx(t, draft, expected, p.status, p.currentNode, c.tail));
    case ArtifactReady(artifact, draft) =>
      InsertKeepsRows(t.(artifacts := t.artifacts[artifact.artifactId := artifact]), draft, c.tail);
      CommitIsQuiet(t, c, CreateArtifactTx(t, artifact, draft, c.tail));
    case EvidenceReady(evidence, draft) =>
      InsertKeepsRows(t.(evidence := t.evidence[evidence.evidenceId := evidence]), draft, c.tail);
      CommitIsQuiet(t, c, CreateEvidenceTx(t, evidence, draft, c.tail));
    case FreezeReady(frozen, draft) =>
      InsertKeepsRows(WithBoard(t, frozen.board, frozen.manifest), draft, c.tail);
      CommitIsQuiet(t, c, CreateEvidenceFreezeTx(t, frozen.board, frozen.manifest, draft, c.tail));
    case ScoreReady(results, draft) =>
      InsertKeepsRows(t.(checkResults := t.checkResults[results.boardVersion := results]), draft, c.tail);
      CommitIsQuiet(t, c, CreateCheckResultsTx(t, results, draft, c.tail));
  }

  lemma {:induction false} RowsAreQuiet(catalog: Scoring.Catalog, t: Tables, stage: Stage, c: Choice)
    requires !ForPassport(stage) && !ForApproval(stage) && !ForAttestation(stage)
    ensures Quiet(t, AdvanceRows(catalog, t, stage, c))
  {
    hide Commit, Scoring.ScoreOutcome, FreezeOutcome, Project;
    hide AppendEventTx, CreateArtifactTx, CreateEvidenceTx, CreateEvidenceFreezeTx, CreateCheckResultsTx;
    if Writes(stage) { WritesAreQuiet(catalog, t, stage, c); }
  }

  lemma {:induction false} InsertKeepsRows(t: Tables, draft: Draft, tail: TailRead)
    ensures InsertEvent(t, draft, tail).Ok? ==>
              InsertEvent(t, draft, tail).value.attempt == t.attempt && InsertEvent(t, draft, tail).value.receipt == t.receipt
  {
  }

  lemma {:induction false} PassportIsQuiet(t: Tables, stage: Stage, c: Choice)
    requires ForPassport(stage)
    ensures Quiet(t, AdvancePassport(t, stage, c))
  {
    hide Commit, InsertEvent, PassportOf, ProvenanceOf;
    match stage
    case PassportReady(passport, provenance, draft) =>
      InsertKeepsRows(t, draft, c.tail);
      CommitIsQuiet(t, c, CreatePassportFreezeTx(t, passport, provenance, draft, c.tail));
    case _ =>
  }

  lemma {:induction false} ApprovalIsQuiet(t: Tables, stage: Stage, c: Choice)
    requires ForApproval(stage)
    ensures Quiet(t, AdvanceApproval(t, stage, c))
  {
    hide Commit, InsertEvent;
    match stage
    case ApprovalReady(approval, draft) =>
      InsertKeepsRows(WithApproval(t, approval), draft, c.tail);
      CommitIsQuiet(t, c, CreateApprovalTx(t, approval, draft, WaitingApproval, StatusAfter(approval.decision), c.tail));
    case _ =>
  }

  // The three steps of an attestation that touch the attempt, the chain and the receipt.
  ghost predicate AttestationMove(t: Tables, stage: Stage, m: Move) {
    || Quiet(t, m)
    || (stage.AttestBound? && m.submitted.None? && m.stage.AttestClaimed?
        && t.attempt.None? && m.tables.attempt.Some? && m.tables.receipt == t.receipt)
    || (stage.AttestClaimed? && m.submitted == Some(stage.commitment) && m.tables == t
        && (m.stage.Done? || (m.stage.AttestSubmitted? && m.stage.commitment == stage.commitment)))
    || (stage.AttestSubmitted? && m.submitted.None? && m.stage.Done? && m.tables.attempt == t.attempt
        && t.receipt.None? && m.tables.receipt.Some? && m.tables.receipt.value.commitment == stage.commitment)
  }

  lemma {:induction false} AttestationMoves(t: Tables, stage: Stage, c: Choice)
    requires ForAttestation(stage)
    ensures AttestationMove(t, stage, AdvanceAttestation(t, stage, c))
    ensures stage.AttestClaimed? ==> !Quiet(t, AdvanceAttestation(t, stage, c))
  {
    hide CreateReceiptTx;
    if stage.AttestSubmitted? {
      var receipt := ReceiptOf(c.freshId, stage.commitment, stage.transactionHash, stage.claimedAt, c.now);
      ReceiptRows(t, receipt, SubmittedDraft(c, receipt), ConfirmedDraft(c, receipt), c.tail, c.nextTail);
    }
  }

  lemma {:induction false} GeneratedKeepsRows(t: Tables, draft: Draft, tail: TailRead)
    ensures InsertGeneratedEvent(t, draft, tail).Ok? ==>
              InsertGeneratedEvent(t, draft, tail).value.attempt == t.attempt
                  && InsertGeneratedEvent(t, draft, tail).value.receipt == t.receipt
  {
  }

  lemma {:induction false} ReceiptRows(t: Tables, r: Receipt, submitted: Draft, confirmed: Draft, tail1: TailRead, tail2: TailRead)
    ensures var tx := CreateReceiptTx(t, r, submitted, confirmed, Running, tail1, tail2);
            tx.Ok? ==> t.receipt.None? && tx.value.receipt == Some(r) && tx.value.attempt == t.attempt
  {
    hide InsertGeneratedEvent;
    GeneratedKeepsRows(WithReceipt(t, r), submitted, tail1);
    var mid := InsertGeneratedEvent(WithReceipt(t, r), submitted, tail1);
    if mid.Ok? { GeneratedKeepsRows(mid.value, confirmed, tail2); }
  }

  lemma {:induction false} StepMoves(catalog: Scoring.Catalog, t: Tables, stage: Stage, c: Choice)
    ensures AttestationMove(t, stage, Advance(catalog, t, stage, c))
    ensures stage.AttestClaimed? ==> !Quiet(t, Advance(catalog, t, stage, c))
  {
    hide AdvanceRows, AdvancePassport, AdvanceApproval, AdvanceAttestation, Quiet;
    if ForPassport(stage) { PassportIsQuiet(t, stage, c); }
    else if ForApproval(stage) { ApprovalIsQuiet(t, stage, c); }
    else if ForAttestation(stage) { AttestationMoves(t, stage, c); }
    else { RowsAreQuiet(catalog, t, stage, c); }
  }

  // ── The claim is held once ──

  // After request `id` has moved.
  ghost function Moved(s: System, id: nat, m: Move): System {
    System(m.tables, s.requests[id := m.stage],
           match m.submitted case Some(commitment) => s.submissions + [commitment] case None => s.submissions)
  }

  lemma {:induction false} SubmissionsBound(s: System, u: Tables)
    requires SubmissionInv(s) && Extends(s.tables, u)
    ensures forall i :: 0 <= i < |s.submissions| ==> BoundCommitment(u, s.submissions[i])
  {
    hide BoundCommitment, Extends;
    forall i | 0 <= i < |s.submissions| ensures BoundCommitment(u, s.submissions[i]) {
      BoundStays(s.tables, u, s.submissions[i]);
    }
  }

  lemma {:induction false} MoveKeepsSubmissions(s: System, id: nat, m: Move)
    requires SubmissionInv(s) && id in s.requests && AttestationMove(s.tables, s.requests[id], m)
    requires s.requests[id].AttestClaimed? ==> !Quiet(s.tables, m) && BoundCommitment(s.tables, s.requests[id].commitment)
    requires Extends(s.tables, m.tables)
    ensures SubmissionInv(Moved(s, id, m))
  {
    hide BoundCommitment, Extends;
    SubmissionsBound(s, m.tables);
    if s.requests[id].AttestClaimed? { BoundStays(s.tables, m.tables, s.requests[id].commitment); }
  }

  // ── Every step of the system ──

  lemma {:induction false} OthersKnow(s: System, u: Tables)
    requires Extends(s.tables, u) && forall q :: q in s.requests ==> Knows(s.tables, s.requests[q])
    ensures forall q :: q in s.requests ==> Knows(u, s.requests[q])
  {
    hide Knows, Extends;
    forall q | q in s.requests ensures Knows(u, s.requests[q]) { KnowledgeIsStable(s.tables, u, s.requests[q]); }
  }

  lemma {:induction false} ArrivalKnows(t: Tables, stage: Stage)
    requires Starting(stage)
    ensures Knows(t, stage) && !HoldsClaim(stage)
  {
  }

  lemma {:induction false} ClaimIsBound(t: Tables, stage: Stage)
    requires Knows(t, stage) && stage.AttestClaimed?
    ensures BoundCommitment(t, stage.commitment)
  {
  }

  lemma {:induction false} ContinueKeeps(catalog: Scoring.Catalog, s: System, id: nat, c: Choice)
    requires Inv(s) && id in s.requests
    ensures Inv(Next(catalog, s, Continue(id, c))) && Extends(s.tables, Next(catalog, s, Continue(id, c)).tables)
  {
    hide Advance, TablesInv, Knows, Extends, AttestationMove, Quiet, SubmissionInv, BoundCommitment;
    var stage, m := s.requests[id], Advance(catalog, s.tables, s.requests[id], c);
    AdvanceKeeps(catalog, s.tables, stage, c);
    StepMoves(catalog, s.tables, stage, c);
    OthersKnow(s, m.tables);
    if stage.AttestClaimed? { ClaimIsBound(s.tables, stage); }
    MoveKeepsSubmissions(s, id, m);
    assert Next(catalog, s, Continue(id, c)) == Moved(s, id, m);
  }

  // One step of the system keeps the invariant and loses no row.
  lemma {:induction false} NextKeeps(catalog: Scoring.Catalog, s: System, step: Step)
    requires Inv(s)
    ensures Inv(Next(catalog, s, step)) && Extends(s.tables, Next(catalog, s, step).tables)
  {
    hide Advance, TablesInv, Knows, Extends, BoundCommitment;
    ExtendsReflexive(s.tables);
    match step
    case Arrive(id, request) =>
      if Starting(request) { ArrivalKnows(s.tables, request); }
    case Continue(id, c) =>
      if id in s.requests { ContinueKeeps(catalog, s, id, c); }
    case Crash(id) =>
  }

  // A claim is stored, and the request that held it is gone without a receipt.
  ghost predicate Stranded(s: System) {
    && s.tables.attempt.Some? && s.tables.receipt.None?
    && forall q :: q in s.requests ==> !HoldsClaim(s.requests[q])
  }

  // Nobody takes such a claim over.
  lemma {:induction false} StrandedStays(catalog: Scoring.Catalog, s: System, step: Step)
    requires Stranded(s)
    ensures Stranded(Next(catalog, s, step)) && Next(catalog, s, step).submissions == s.submissions
  {
    hide Advance;
    match step
    case Arrive(_, _) =>
    case Continue(id, c) => if id in s.requests { StepMoves(catalog, s.tables, s.requests[id], c); }
    case Crash(_) =>
  }

  lemma {:induction false} CreatedLog(n: NewRun) returns (e: Event)
    ensures HasLog(Created(n).tables, [e]) && e.eventType == RunCreated && e.createdAt == n.now
    ensures LinkedAt(n.runId, [e], 0)
  {
    var events := Created(n).tables.events;
    e := events[1];
    assert events.Keys == {1} && |events| == 1;
    assert Log(events) == [e];
  }

  lemma {:induction false} FirstEvent(e: Event, ty: EventType)
    ensures OfType([e], ty) == (if e.eventType == ty then [e] else [])
    ensures Replay([e]) == ReplayStep(Summary(Pending, None, 0), e)
  {
    OfTypeAppend([], e, ty);
    ReplayAppend([], e);
    assert [] + [e] == [e];
  }

  lemma {:induction false} OneEventAbsorbs(e: Event)
    requires e.eventType == RunCreated
    ensures TerminalAbsorbs([e])
  {
    assert [e][..0] == [] && [e][..1] == [e];
  }

  lemma {:induction false} CreatedLogInv(n: NewRun, e: Event)
    requires HasLog(Created(n).tables, [e]) && e.eventType == RunCreated && e.createdAt == n.now && LinkedAt(n.runId, [e], 0)
    ensures LogInv(Created(n).tables, [e]) && SummaryInv(Created(n).tables, [e])
  {
    hide HasLog, Replay;
    FirstEvent(e, RunCreated);
    OneEventAbsorbs(e);
  }

  lemma {:induction false} CreatedRows(n: NewRun, e: Event)
    requires e.eventType == RunCreated
    ensures var t := Created(n).tables;
            && EvidenceInv(t) && BoardsInv(t) && ResultsInv(t)
            && PassportsInv(t, [e]) && ApprovalInv(t, [e]) && AttestationInv(t, [e]) && CountInv(t, [e])
  {
    hide OfType, PassportRow, ApprovedAt, AttestedAt, BoardGood, ResultsGood;
    FirstEvent(e, ProvenanceFrozen);
    FirstEvent(e, ApprovalResolved);
    FirstEvent(e, EventType.AttestationSubmitted);
    FirstEvent(e, AttestationConfirmed);
    FirstEvent(e, EvidenceBoardFrozen);
    FirstEvent(e, ScoreChanged);
  }

  lemma {:induction false} CreatedKeeps(n: NewRun)
    ensures Inv(Created(n))
  {
    hide Numbered, Log, LogInv, SummaryInv, EvidenceInv, BoardsInv, ResultsInv, PassportsInv, ApprovalInv, AttestationInv, CountInv, Knows;
    var e := CreatedLog(n);
    CreatedLogInv(n, e);
    CreatedRows(n, e);
    assert RowsInv(Created(n).tables, [e]);
  }

  // The invariant holds in every reachable state.
  lemma {:induction false} AlwaysInv(catalog: Scoring.Catalog, n: NewRun, steps: seq<Step>)
    ensures Inv(Execute(catalog, Created(n), steps))
  {
    hide Inv, Next, Created;
    if steps == [] {
      CreatedKeeps(n);
    } else {
      AlwaysInv(catalog, n, steps[..|steps| - 1]);
      NextKeeps(catalog, Execute(catalog, Created(n), steps[..|steps| - 1]), steps[|steps| - 1]);
    }
  }
}
