/** Which steps a stored approval and a stored receipt come from, whatever else went on in between. */
module RequestHistory {
  import opened Wrappers
  import opened Domain
  import opened Projection
  import opened Repository
  import opened RunProtocol
  import opened ProtocolInvariant
  import opened ProtocolProofs
  import opened ApprovalProofs
  import opened ProtocolSteps
  import opened Submissions
  import opened ProtocolTheorems
  import EvidenceFreeze
  import Scoring

  // ── The life of a request ──

  // After the first `k` steps.
  ghost function At(catalog: Scoring.Catalog, n: NewRun, steps: seq<Step>, k: nat): System
    requires k <= |steps|
  {
    Reached(catalog, n, steps[..k])
  }

  // Step `i` is the arrival of the request, and it is pending from then on up to step `j`.
  ghost predicate Lives(catalog: Scoring.Catalog, n: NewRun, steps: seq<Step>, id: nat, request: Stage, i: nat, j: nat) {
    && i < j <= |steps| && steps[i] == Arrive(id, request) && Starting(request)
    && id !in At(catalog, n, steps, i).requests
    && forall k :: i < k <= j ==> id in At(catalog, n, steps, k).requests
  }

  ghost predicate Continues(steps: seq<Step>, id: nat, j: nat) {
    j < |steps| && steps[j].Continue? && steps[j].id == id
  }

  // After some of the steps from `i` on, up to `j`, the newest passport was number `s`.
  ghost predicate NewestBetween(catalog: Scoring.Catalog, n: NewRun, steps: seq<Step>, s: int, i: nat, j: nat) {
    exists k :: i < k <= j && k <= |steps| && |At(catalog, n, steps, k).tables.passports| == s
  }

  // The decision is the one asked for, on the passport asked for.
  ghost predicate DecidesAs(r: ApprovalRequest, a: Approval) {
    && a.decision == r.decision && a.passportSequence == r.passportSequence
    && a.passportHash == r.passportHash && a.auditLogHash == r.auditLogHash && a.manifestHash == r.manifestHash
    && a.chainId == r.chainId && a.registryContract == r.registryContract
  }

  // Step `j` claims the run's one attempt for the request, at that time.
  ghost predicate Claims(catalog: Scoring.Catalog, n: NewRun, steps: seq<Step>, id: nat, j: nat, at: int) {
    && Continues(steps, id, j) && steps[j].choice.now == at
    && At(catalog, n, steps, j).tables.attempt.None? && At(catalog, n, steps, j + 1).tables.attempt.Some?
  }

  // Step `k` submits the commitment, and the chain answers with the transaction.
  ghost predicate Submits(catalog: Scoring.Catalog, n: NewRun, steps: seq<Step>, id: nat, k: nat, m: Commitment, hash: string) {
    && Continues(steps, id, k) && steps[k].choice.transaction == Some(hash)
    && At(catalog, n, steps, k).submissions == [] && At(catalog, n, steps, k + 1).submissions == [m]
  }

  ghost predicate ClaimedBetween(catalog: Scoring.Catalog, n: NewRun, steps: seq<Step>, id: nat, i: nat, j: nat, at: int) {
    exists c :: i < c < j && Claims(catalog, n, steps, id, c, at)
  }

  ghost predicate SubmittedBetween(catalog: Scoring.Catalog, n: NewRun, steps: seq<Step>, id: nat, i: nat, j: nat, m: Commitment,
                                   hash: string, at: int)
  {
    exists k :: i < k < j && Submits(catalog, n, steps, id, k, m, hash) && ClaimedBetween(catalog, n, steps, id, i, k, at)
  }

  // What a stage of an approval or of an attestation has behind it, of a request that arrived at step `i`.
  ghost predicate Follows(catalog: Scoring.Catalog, n: NewRun, steps: seq<Step>, id: nat, request: Stage, i: nat, stage: Stage) {
    (ForAttestation(stage) ==> request == AttestStart) &&
    match stage
    case ApprovalStart(_) => request == stage
    case ApprovalRun(r) => request == ApprovalStart(r)
    case ApprovalSequence(r, s) => request == ApprovalStart(r) && NewestBetween(catalog, n, steps, s, i, |steps|)
    case ApprovalReady(a, _) =>
      && request.ApprovalStart? && DecidesAs(request.approvalRequest, a)
      && NewestBetween(catalog, n, steps, a.passportSequence, i, |steps|)
    case AttestClaimed(_, at) => ClaimedBetween(catalog, n, steps, id, i, |steps|, at)
    case AttestSubmitted(m, hash, at) => SubmittedBetween(catalog, n, steps, id, i, |steps|, m, hash, at)
    case _ => true
  }

  ghost predicate Traced(catalog: Scoring.Catalog, n: NewRun, steps: seq<Step>, id: nat, stage: Stage) {
    exists request, i :: Lives(catalog, n, steps, id, request, i, |steps|) && Follows(catalog, n, steps, id, request, i, stage)
  }

  // ── Where a stage comes from ──

  // A stage of an approval comes from the one before it, with what it has read.
  ghost predicate FromApproval(t: Tables, stage: Stage, m: Stage) {
    match m
    case ApprovalStart(_) => false
    case ApprovalRun(r) => stage == ApprovalStart(r)
    case ApprovalSequence(r, s) => stage == ApprovalRun(r) && s == |t.passports|
    case ApprovalReady(a, _) =>
      stage.ApprovalSequence? && DecidesAs(stage.approvalRequest, a) && a.passportSequence == stage.sequence
    case _ => true
  }

  ghost predicate Ordered(t: Tables) {
    NextPassportSequence(t) == |t.passports| + 1 && forall k :: k in t.passports ==> t.passports[k].sequence == k
  }

  lemma {:induction false} ApprovalComesFrom(t: Tables, stage: Stage, c: Choice)
    requires ForApproval(stage) && Ordered(t)
    ensures var m := AdvanceApproval(t, stage, c); FromApproval(t, stage, m.stage) && !ForAttestation(m.stage)
  {
    hide CreateApprovalTx, ApprovalRequestOk, NextPassportSequence, ApprovalPayload;
  }

  // A claim is stored by the step that makes it, and the chain answers in the step that submits.
  ghost predicate FromAttestation(t: Tables, stage: Stage, c: Choice, m: Move) {
    && (ForAttestation(m.stage) ==> ForAttestation(stage))
    && (m.stage.AttestClaimed? ==>
          stage.AttestBound? && m.stage.claimedAt == c.now && t.attempt.None? && m.tables.attempt.Some? && m.submitted.None?)
    && (m.stage.AttestSubmitted? ==>
          && stage.AttestClaimed? && m.stage.commitment == stage.commitment && m.stage.claimedAt == stage.claimedAt
          && m.submitted == Some(stage.commitment) && c.transaction == Some(m.stage.transactionHash))
    && (m.tables.receipt != t.receipt ==>
          && stage.AttestSubmitted? && t.receipt.None? && m.tables.receipt.Some? && var r := m.tables.receipt.value;
          && r.commitment == stage.commitment && r.transactionHash == stage.transactionHash && r.submittedAt == stage.claimedAt
          && r.confirmedAt == c.now && r.attestationId == c.freshId)
    && m.tables.approval == t.approval
  }

  lemma {:induction false} ReceiptFrom(t: Tables, r: Receipt, first: Draft, second: Draft, tail1: TailRead, tail2: TailRead)
    ensures var tx := CreateReceiptTx(t, r, first, second, Running, tail1, tail2);
            tx.Ok? ==> t.receipt.None? && tx.value.receipt == Some(r) && tx.value.approval == t.approval
  {
    hide InsertEvent;
    InsertKeepsApproval(WithReceipt(t, r), first, tail1);
    var mid := InsertGeneratedEvent(WithReceipt(t, r), first, tail1);
    if mid.Ok? { InsertKeepsApproval(mid.value, second, tail2); }
  }

  lemma {:induction false} InsertKeepsApproval(t: Tables, draft: Draft, tail: TailRead)
    ensures var r := InsertEvent(t, draft, tail);
            r.Ok? ==> r.value.approval == t.approval && r.value.receipt == t.receipt && r.value.run == t.run
  {
  }

  lemma {:induction false} AttestationComesFrom(t: Tables, stage: Stage, c: Choice)
    requires ForAttestation(stage)
    ensures var m := AdvanceAttestation(t, stage, c); FromAttestation(t, stage, c, m) && !ForApproval(m.stage)
  {
    hide CreateReceiptTx;
    if stage.AttestSubmitted? {
      var r := ReceiptOf(c.freshId, stage.commitment, stage.transactionHash, stage.claimedAt, c.now);
      ReceiptFrom(t, r, SubmittedDraft(c, r), ConfirmedDraft(c, r), c.tail, c.nextTail);
    }
  }

  ghost predicate Elsewhere(t: Tables, m: Move) {
    !ForApproval(m.stage) && !ForAttestation(m.stage) && m.tables.approval == t.approval && m.tables.receipt == t.receipt
  }

  lemma {:induction false} CommitElsewhere(t: Tables, c: Choice, r: Result<Tables, RepositoryError>)
    requires r.Ok? ==> r.value.approval == t.approval && r.value.receipt == t.receipt
    ensures Elsewhere(t, Commit(t, c, r))
  {
  }

  lemma {:induction false} RowsElsewhere(catalog: Scoring.Catalog, t: Tables, stage: Stage, c: Choice)
    requires !ForPassport(stage) && !ForApproval(stage) && !ForAttestation(stage)
    ensures Elsewhere(t, AdvanceRows(catalog, t, stage, c))
  {
    hide Commit, InsertEvent, Elsewhere, Scoring.ScoreOutcome, EvidenceFreeze.FreezeOutcome, Project;
    match stage
    case AppendReady(_, draft, expected, p) =>
      InsertKeepsApproval(t.(run := t.run.(status := Coalesce(p.status, t.run.status),
                                           currentNode := CoalesceNode(p.currentNode, t.run.currentNode),
                                           updatedAt := draft.createdAt)), draft, c.tail);
      CommitElsewhere(t, c, AppendEventTx(t, draft, expected, p.status, p.currentNode, c.tail));
    case ArtifactReady(artifact, draft) =>
      InsertKeepsApproval(t.(artifacts := t.artifacts[artifact.artifactId := artifact]), draft, c.tail);
      CommitElsewhere(t, c, CreateArtifactTx(t, artifact, draft, c.tail));
    case EvidenceReady(evidence, draft) =>
      InsertKeepsApproval(t.(evidence := t.evidence[evidence.evidenceId := evidence]), draft, c.tail);
      CommitElsewhere(t, c, CreateEvidenceTx(t, evidence, draft, c.tail));
    case FreezeReady(frozen, draft) =>
      InsertKeepsApproval(WithBoard(t, frozen.board, frozen.manifest), draft, c.tail);
      CommitElsewhere(t, c, CreateEvidenceFreezeTx(t, frozen.board, frozen.manifest, draft, c.tail));
    case ScoreReady(results, draft) =>
      InsertKeepsApproval(t.(checkResults := t.checkResults[results.boardVersion := results]), draft, c.tail);
      CommitElsewhere(t, c, CreateCheckResultsTx(t, results, draft, c.tail));
    case _ => ReadsElsewhere(catalog, t, stage, c);
  }

  lemma {:induction false} ReadsElsewhere(catalog: Scoring.Catalog, t: Tables, stage: Stage, c: Choice)
    requires !ForPassport(stage) && !ForApproval(stage) && !ForAttestation(stage) && !Writes(stage)
    ensures Elsewhere(t, AdvanceRows(catalog, t, stage, c))
  {
    hide Commit, Scoring.ScoreOutcome, EvidenceFreeze.FreezeOutcome, Project;
  }

  lemma {:induction false} PassportElsewhere(t: Tables, stage: Stage, c: Choice)
    requires ForPassport(stage)
    ensures Elsewhere(t, AdvancePassport(t, stage, c))
  {
    hide Commit, InsertEvent, PassportOf, ProvenanceOf;
    match stage
    case PassportReady(passport, provenance, draft) =>
      InsertKeepsApproval(t, draft, c.tail);
      CommitElsewhere(t, c, CreatePassportFreezeTx(t, passport, provenance, draft, c.tail));
    case _ =>
  }

  // An approval is stored by the last step of its request only.
  ghost predicate ApprovalBy(t: Tables, stage: Stage, m: Move) {
    && m.tables.receipt == t.receipt
    && (m.tables.approval != t.approval ==> stage.ApprovalReady? && t.approval.None? && m.tables.approval == Some(stage.approval))
  }

  lemma {:induction false} ApprovalIsBy(t: Tables, stage: Stage, c: Choice)
    requires ForApproval(stage)
    ensures ApprovalBy(t, stage, AdvanceApproval(t, stage, c))
  {
    hide InsertEvent, AdvanceBinding;
    match stage
    case ApprovalReady(a, draft) => InsertKeepsApproval(WithApproval(t, a), draft, c.tail);
    case ApprovalSequence(_, _) => BindingReads(t, stage, c);
    case _ =>
  }

  lemma {:induction false} BindingReads(t: Tables, stage: Stage, c: Choice)
    requires stage.ApprovalSequence?
    ensures AdvanceBinding(t, stage, c).tables == t
  {
  }

  // All that a step of one request can do to the approval, the receipt and the stages that lead to them.
  ghost predicate ComesFrom(t: Tables, stage: Stage, c: Choice, m: Move) {
    && FromApproval(t, stage, m.stage)
    && FromAttestation(t, stage, c, m.(tables := m.tables.(approval := t.approval)))
    && (m.tables.approval != t.approval ==> stage.ApprovalReady? && t.approval.None? && m.tables.approval == Some(stage.approval))
  }

  lemma {:induction false} StepComesFrom(catalog: Scoring.Catalog, t: Tables, stage: Stage, c: Choice)
    requires Ordered(t)
    ensures ComesFrom(t, stage, c, Advance(catalog, t, stage, c))
  {
    hide AdvanceRows, AdvancePassport, AdvanceApproval, AdvanceAttestation, Ordered;
    if ForPassport(stage) { PassportElsewhere(t, stage, c); }
    else if ForApproval(stage) { ApprovalComesFrom(t, stage, c); ApprovalIsBy(t, stage, c); }
    else if ForAttestation(stage) { AttestationComesFrom(t, stage, c); }
    else { RowsElsewhere(catalog, t, stage, c); }
  }

  // ── Every request has arrived ──

  lemma {:induction false} AtPrefix(catalog: Scoring.Catalog, n: NewRun, steps: seq<Step>, m: nat, k: nat)
    requires k <= m <= |steps|
    ensures At(catalog, n, steps[..m], k) == At(catalog, n, steps, k)
  {
    assert steps[..m][..k] == steps[..k];
  }

  lemma {:induction false} LastStep(catalog: Scoring.Catalog, n: NewRun, steps: seq<Step>, j: nat)
    requires j < |steps|
    ensures At(catalog, n, steps, j + 1) == Next(catalog, At(catalog, n, steps, j), steps[j])
  {
    hide Next, Created;
    assert steps[..j + 1][..j] == steps[..j];
  }

  lemma {:induction false} WholeRun(catalog: Scoring.Catalog, n: NewRun, steps: seq<Step>)
    ensures At(catalog, n, steps, |steps|) == Reached(catalog, n, steps)
  {
    assert steps[..|steps|] == steps;
  }

  // What has happened by step `m` has happened.
  lemma {:induction false} LivesLater(catalog: Scoring.Catalog, n: NewRun, steps: seq<Step>, m: nat, id: nat, request: Stage, i: nat,
                                     j: nat)
    requires m <= |steps| && Lives(catalog, n, steps[..m], id, request, i, j)
    ensures Lives(catalog, n, steps, id, request, i, j)
  {
    hide At;
    forall k: nat | k <= m ensures At(catalog, n, steps[..m], k) == At(catalog, n, steps, k) { AtPrefix(catalog, n, steps, m, k); }
  }

  lemma {:induction false} FollowsLater(catalog: Scoring.Catalog, n: NewRun, steps: seq<Step>, m: nat, id: nat, request: Stage, i: nat,
                                        stage: Stage)
    requires m <= |steps| && Follows(catalog, n, steps[..m], id, request, i, stage)
    ensures Follows(catalog, n, steps, id, request, i, stage)
  {
    hide NewestBetween, ClaimedBetween, SubmittedBetween, ForAttestation, DecidesAs, Follows;
    if stage.ApprovalSequence? || stage.ApprovalReady? {
      DecisionLater(catalog, n, steps, m, id, request, i, stage);
    } else if stage.AttestClaimed? || stage.AttestSubmitted? {
      AttestationLater(catalog, n, steps, m, id, request, i, stage);
    } else {
      OtherLater(catalog, n, steps, m, id, request, i, stage);
    }
  }

  lemma {:induction false} DecisionLater(catalog: Scoring.Catalog, n: NewRun, steps: seq<Step>, m: nat, id: nat, request: Stage, i: nat,
                                         stage: Stage)
    requires m <= |steps| && Follows(catalog, n, steps[..m], id, request, i, stage) && (stage.ApprovalSequence? || stage.ApprovalReady?)
    ensures Follows(catalog, n, steps, id, request, i, stage)
  {
    hide NewestBetween, ClaimedBetween, SubmittedBetween, DecidesAs;
    NewestLater(catalog, n, steps, m, if stage.ApprovalSequence? then stage.sequence else stage.approval.passportSequence, i, m, |steps|);
  }

  lemma {:induction false} AttestationLater(catalog: Scoring.Catalog, n: NewRun, steps: seq<Step>, m: nat, id: nat, request: Stage, i: nat,
                                            stage: Stage)
    requires m <= |steps| && Follows(catalog, n, steps[..m], id, request, i, stage) && (stage.AttestClaimed? || stage.AttestSubmitted?)
    ensures Follows(catalog, n, steps, id, request, i, stage)
  {
    hide NewestBetween, ClaimedBetween, SubmittedBetween, DecidesAs;
    if stage.AttestClaimed? {
      ClaimedLater(catalog, n, steps, m, id, i, m, |steps|, stage.claimedAt);
    } else {
      SubmittedLater(catalog, n, steps, m, id, i, m, |steps|, stage.commitment, stage.transactionHash, stage.claimedAt);
    }
  }

  lemma {:induction false} OtherLater(catalog: Scoring.Catalog, n: NewRun, steps: seq<Step>, m: nat, id: nat, request: Stage, i: nat,
                                      stage: Stage)
    requires m <= |steps| && Follows(catalog, n, steps[..m], id, request, i, stage)
    requires !stage.ApprovalSequence? && !stage.ApprovalReady? && !stage.AttestClaimed? && !stage.AttestSubmitted?
    ensures Follows(catalog, n, steps, id, request, i, stage)
  {
    hide NewestBetween, ClaimedBetween, SubmittedBetween, DecidesAs;
  }

  lemma {:induction false} NewestLater(catalog: Scoring.Catalog, n: NewRun, steps: seq<Step>, m: nat, s: int, i: nat, j: nat, l: nat)
    requires j <= l && m <= |steps| && NewestBetween(catalog, n, steps[..m], s, i, j)
    ensures NewestBetween(catalog, n, steps, s, i, l)
  {
    hide At;
    var k :| i < k <= j && k <= m && |At(catalog, n, steps[..m], k).tables.passports| == s;
    AtPrefix(catalog, n, steps, m, k);
  }

  lemma {:induction false} ClaimedLater(catalog: Scoring.Catalog, n: NewRun, steps: seq<Step>, m: nat, id: nat, i: nat, j: nat, l: nat,
                                       at: int)
    requires j <= l && m <= |steps| && ClaimedBetween(catalog, n, steps[..m], id, i, j, at)
    ensures ClaimedBetween(catalog, n, steps, id, i, l, at)
  {
    hide At;
    var c :| i < c < j && Claims(catalog, n, steps[..m], id, c, at);
    AtPrefix(catalog, n, steps, m, c);
    AtPrefix(catalog, n, steps, m, c + 1);
    assert Claims(catalog, n, steps, id, c, at);
  }

  lemma {:induction false} SubmittedLater(catalog: Scoring.Catalog, n: NewRun, steps: seq<Step>, m: nat, id: nat, i: nat, j: nat, l: nat,
                                          commitment: Commitment, hash: string, at: int)
    requires j <= l && m <= |steps| && SubmittedBetween(catalog, n, steps[..m], id, i, j, commitment, hash, at)
    ensures SubmittedBetween(catalog, n, steps, id, i, l, commitment, hash, at)
  {
    hide At, ClaimedBetween;
    var k :| i < k < j && Submits(catalog, n, steps[..m], id, k, commitment, hash) && ClaimedBetween(catalog, n, steps[..m], id, i, k, at);
    AtPrefix(catalog, n, steps, m, k);
    AtPrefix(catalog, n, steps, m, k + 1);
    ClaimedLater(catalog, n, steps, m, id, i, k, k, at);
    assert Submits(catalog, n, steps, id, k, commitment, hash);
  }

  // One step more of a request that is still pending.
  lemma {:induction false} LivesOn(catalog: Scoring.Catalog, n: NewRun, steps: seq<Step>, id: nat, request: Stage, i: nat)
    requires steps != [] && var m := |steps| - 1; Lives(catalog, n, steps[..m], id, request, i, m)
    requires id in Reached(catalog, n, steps).requests
    ensures Lives(catalog, n, steps, id, request, i, |steps|)
  {
    hide At, Reached;
    LivesLater(catalog, n, steps, |steps| - 1, id, request, i, |steps| - 1);
    WholeRun(catalog, n, steps);
  }

  lemma {:induction false} TracedOn(catalog: Scoring.Catalog, n: NewRun, steps: seq<Step>, id: nat, stage: Stage)
    requires steps != [] && Traced(catalog, n, steps[..|steps| - 1], id, stage) && id in Reached(catalog, n, steps).requests
    ensures Traced(catalog, n, steps, id, stage)
  {
    hide Lives, Follows, Reached;
    var m := |steps| - 1;
    var request, i: nat :| Lives(catalog, n, steps[..m], id, request, i, m) && Follows(catalog, n, steps[..m], id, request, i, stage);
    LivesOn(catalog, n, steps, id, request, i);
    FollowsLater(catalog, n, steps, m, id, request, i, stage);
  }

  lemma {:induction false} ReachedIsOrdered(catalog: Scoring.Catalog, n: NewRun, steps: seq<Step>)
    ensures Ordered(Reached(catalog, n, steps).tables)
  {
    hide Execute, Created, LogInv, SummaryInv, EvidenceInv, BoardsInv, ResultsInv, ApprovalInv, AttestationInv, CountInv, Knows,
         SubmissionInv, PassportGood, ProvenanceGood, Log, Numbered, NextPassportSequence;
    AlwaysInv(catalog, n, steps);
    var t := Reached(catalog, n, steps).tables;
    NextPassportFollows(t, Log(t.events));
    forall k | k in t.passports ensures t.passports[k].sequence == k { assert PassportRow(t, Log(t.events), k); }
  }

  // The step that the request itself takes.
  lemma {:induction false} FollowsOn(catalog: Scoring.Catalog, n: NewRun, steps: seq<Step>, id: nat, request: Stage, i: nat)
    requires steps != [] && var m := |steps| - 1;
             && Continues(steps, id, m) && i < m && id in At(catalog, n, steps, m).requests
             && Follows(catalog, n, steps, id, request, i, At(catalog, n, steps, m).requests[id])
             && Ordered(At(catalog, n, steps, m).tables) && SubmissionInv(At(catalog, n, steps, m))
    ensures id in At(catalog, n, steps, |steps|).requests
    ensures Follows(catalog, n, steps, id, request, i, At(catalog, n, steps, |steps|).requests[id])
  {
    hide At, Advance, Ordered, BoundCommitment, NewestBetween, ClaimedBetween, SubmittedBetween, DecidesAs, ForAttestation, FromAttestation,
         FromApproval;
    var m := |steps| - 1;
    var s, c := At(catalog, n, steps, m), steps[m].choice;
    LastStep(catalog, n, steps, m);
    StepComesFrom(catalog, s.tables, s.requests[id], c);
    var move := Advance(catalog, s.tables, s.requests[id], c);
    assert At(catalog, n, steps, |steps|).requests[id] == move.stage;
    ApprovalFollows(catalog, n, steps, id, request, i, move.stage);
    AttestationFollows(catalog, n, steps, id, request, i, move);
  }

  lemma {:induction false} ApprovalFollows(catalog: Scoring.Catalog, n: NewRun, steps: seq<Step>, id: nat, request: Stage, i: nat,
                                          next: Stage)
    requires steps != [] && var m := |steps| - 1;
             && i < m && id in At(catalog, n, steps, m).requests
             && Follows(catalog, n, steps, id, request, i, At(catalog, n, steps, m).requests[id])
             && FromApproval(At(catalog, n, steps, m).tables, At(catalog, n, steps, m).requests[id], next)
    ensures ForApproval(next) ==> Follows(catalog, n, steps, id, request, i, next)
  {
    hide At, ClaimedBetween, SubmittedBetween;
    if next.ApprovalSequence? { assert |At(catalog, n, steps, |steps| - 1).tables.passports| == next.sequence; }
  }

  lemma {:induction false} AttestationFollows(catalog: Scoring.Catalog, n: NewRun, steps: seq<Step>, id: nat, request: Stage, i: nat,
                                             m: Move)
    requires steps != [] && var l := |steps| - 1; var s := At(catalog, n, steps, l);
             && i < l && Continues(steps, id, l) && id in s.requests && SubmissionInv(s)
             && Follows(catalog, n, steps, id, request, i, s.requests[id])
             && FromAttestation(s.tables, s.requests[id], steps[l].choice, m.(tables := m.tables.(approval := s.tables.approval)))
             && At(catalog, n, steps, |steps|) == Moved(s, id, m)
    ensures !ForApproval(m.stage) ==> Follows(catalog, n, steps, id, request, i, m.stage)
  {
    hide At, NewestBetween, BoundCommitment;
    var l := |steps| - 1;
    if m.stage.AttestClaimed? { assert Claims(catalog, n, steps, id, l, m.stage.claimedAt); }
    if m.stage.AttestSubmitted? {
      assert Submits(catalog, n, steps, id, l, m.stage.commitment, m.stage.transactionHash);
      ClaimedEarlier(catalog, n, steps, id, i, m.stage.claimedAt);
    }
  }

  // The last step makes no claim if a claim was there before.
  lemma {:induction false} ClaimedEarlier(catalog: Scoring.Catalog, n: NewRun, steps: seq<Step>, id: nat, i: nat, at: int)
    requires steps != [] && ClaimedBetween(catalog, n, steps, id, i, |steps|, at)
    requires At(catalog, n, steps, |steps| - 1).tables.attempt.Some?
    ensures ClaimedBetween(catalog, n, steps, id, i, |steps| - 1, at)
  {
    hide At;
    var c :| i < c < |steps| && Claims(catalog, n, steps, id, c, at);
  }

  // Every pending request has arrived at some step, and is where its own steps have brought it.
  lemma {:induction false} AlwaysTraced(catalog: Scoring.Catalog, n: NewRun, steps: seq<Step>)
    ensures forall id :: id in Reached(catalog, n, steps).requests ==>
              Traced(catalog, n, steps, id, Reached(catalog, n, steps).requests[id])
  {
    hide Reached, Traced, Next;
    if steps == [] {
      NothingYet(catalog, n);
    } else {
      AlwaysTraced(catalog, n, steps[..|steps| - 1]);
      forall id | id in Reached(catalog, n, steps).requests
        ensures Traced(catalog, n, steps, id, Reached(catalog, n, steps).requests[id])
      {
        StepTraced(catalog, n, steps, id);
      }
    }
  }

  lemma {:induction false} NothingYet(catalog: Scoring.Catalog, n: NewRun)
    ensures Reached(catalog, n, []).requests == map[]
  {
  }

  lemma {:induction false} StepTraced(catalog: Scoring.Catalog, n: NewRun, steps: seq<Step>, id: nat)
    requires steps != [] && id in Reached(catalog, n, steps).requests
    requires var before := Reached(catalog, n, steps[..|steps| - 1]);
             forall q :: q in before.requests ==> Traced(catalog, n, steps[..|steps| - 1], q, before.requests[q])
    ensures Traced(catalog, n, steps, id, Reached(catalog, n, steps).requests[id])
  {
    hide Reached, Traced, Advance;
    var m := |steps| - 1;
    var before, after := Reached(catalog, n, steps[..m]), Reached(catalog, n, steps);
    LastStep(catalog, n, steps, m);
    WholeRun(catalog, n, steps);
    if id in before.requests && after.requests[id] == before.requests[id] {
      TracedOn(catalog, n, steps, id, before.requests[id]);
    } else if id in before.requests {
      assert Continues(steps, id, m);
      ContinueTraced(catalog, n, steps, id);
    } else {
      assert steps[m].Arrive? && steps[m].id == id;
      ArrivalTraced(catalog, n, steps, id, steps[m].request);
    }
  }

  lemma {:induction false} ContinueTraced(catalog: Scoring.Catalog, n: NewRun, steps: seq<Step>, id: nat)
    requires steps != [] && var m := |steps| - 1;
             && Continues(steps, id, m) && id in Reached(catalog, n, steps[..m]).requests
             && Traced(catalog, n, steps[..m], id, Reached(catalog, n, steps[..m]).requests[id])
    requires id in Reached(catalog, n, steps).requests
    ensures Traced(catalog, n, steps, id, Reached(catalog, n, steps).requests[id])
  {
    hide Reached, Lives, Follows, TablesInv, Knows, Ordered, SubmissionInv;
    var m := |steps| - 1;
    var stage := Reached(catalog, n, steps[..m]).requests[id];
    var request, i: nat :| Lives(catalog, n, steps[..m], id, request, i, m) && Follows(catalog, n, steps[..m], id, request, i, stage);
    assert i < m by { LivesBefore(catalog, n, steps[..m], id, request, i, m); }
    LivesOn(catalog, n, steps, id, request, i);
    FollowsLater(catalog, n, steps, m, id, request, i, stage);
    ReachedIsOrdered(catalog, n, steps[..m]);
    SubmissionsKept(catalog, n, steps[..m]);
    FollowsOn(catalog, n, steps, id, request, i);
    WholeRun(catalog, n, steps);
  }

  lemma {:induction false} LivesBefore(catalog: Scoring.Catalog, n: NewRun, steps: seq<Step>, id: nat, request: Stage, i: nat, j: nat)
    requires Lives(catalog, n, steps, id, request, i, j)
    ensures i < j && id in At(catalog, n, steps, j).requests
  {
    hide At;
  }

  lemma {:induction false} SubmissionsKept(catalog: Scoring.Catalog, n: NewRun, steps: seq<Step>)
    ensures SubmissionInv(Reached(catalog, n, steps))
  {
    hide Execute, Created, TablesInv, Knows, SubmissionInv;
    AlwaysInv(catalog, n, steps);
  }

  lemma {:induction false} ArrivalTraced(catalog: Scoring.Catalog, n: NewRun, steps: seq<Step>, id: nat, request: Stage)
    requires steps != [] && var m := |steps| - 1;
             && steps[m] == Arrive(id, request) && Starting(request) && id !in Reached(catalog, n, steps[..m]).requests
    requires id in Reached(catalog, n, steps).requests && Reached(catalog, n, steps).requests[id] == request
    ensures Traced(catalog, n, steps, id, request)
  {
    hide Reached;
    WholeRun(catalog, n, steps);
    assert Lives(catalog, n, steps, id, request, |steps| - 1, |steps|);
    assert Follows(catalog, n, steps, id, request, |steps| - 1, request);
  }

  // ── Where the approval comes from ──

  // The approval was stored at step `j` by a request that arrived at step `i`: it decides what that asked for,
  // on the passport that was the newest at some moment while the request was pending.
  ghost predicate DecidedIn(catalog: Scoring.Catalog, n: NewRun, steps: seq<Step>, a: Approval, id: nat, r: ApprovalRequest, i: nat,
                            j: nat)
  {
    && Lives(catalog, n, steps, id, ApprovalStart(r), i, j) && Continues(steps, id, j)
    && At(catalog, n, steps, j).tables.approval.None? && At(catalog, n, steps, j + 1).tables.approval == Some(a)
    && DecidesAs(r, a) && NewestBetween(catalog, n, steps, a.passportSequence, i, j)
  }

  lemma {:induction false} DecidedLater(catalog: Scoring.Catalog, n: NewRun, steps: seq<Step>, m: nat, a: Approval, id: nat,
                                        r: ApprovalRequest, i: nat, j: nat)
    requires m <= |steps| && DecidedIn(catalog, n, steps[..m], a, id, r, i, j)
    ensures DecidedIn(catalog, n, steps, a, id, r, i, j)
  {
    hide At, Lives, NewestBetween, DecidesAs;
    LivesLater(catalog, n, steps, m, id, ApprovalStart(r), i, j);
    NewestLater(catalog, n, steps, m, a.passportSequence, i, j, j);
    AtPrefix(catalog, n, steps, m, j);
    AtPrefix(catalog, n, steps, m, j + 1);
  }

  // What the last step has done, if it stored the approval or the receipt.
  lemma {:induction false} LastStores(catalog: Scoring.Catalog, n: NewRun, steps: seq<Step>) returns (id: nat)
    requires steps != [] && var m := |steps| - 1; var t, u := At(catalog, n, steps, m).tables, Reached(catalog, n, steps).tables;
             t.approval != u.approval || t.receipt != u.receipt
    ensures var m := |steps| - 1; var s, u := At(catalog, n, steps, m), Reached(catalog, n, steps).tables;
            && Continues(steps, id, m) && id in s.requests
            && (s.tables.approval != u.approval ==>
                  s.requests[id].ApprovalReady? && s.tables.approval.None? && u.approval == Some(s.requests[id].approval))
            && (s.tables.receipt != u.receipt ==>
                  && s.requests[id].AttestSubmitted? && s.tables.receipt.None? && u.receipt.Some?
                  && u.receipt.value == Receipt(steps[m].choice.freshId, s.requests[id].commitment, s.requests[id].transactionHash,
                                                s.requests[id].claimedAt, steps[m].choice.now))
  {
    hide Reached, Advance, Ordered;
    var m := |steps| - 1;
    LastStep(catalog, n, steps, m);
    WholeRun(catalog, n, steps);
    ReachedIsOrdered(catalog, n, steps[..m]);
    var s := At(catalog, n, steps, m);
    id := steps[m].id;
    StepComesFrom(catalog, s.tables, s.requests[id], steps[m].choice);
  }

  lemma {:induction false} DecidedNow(catalog: Scoring.Catalog, n: NewRun, steps: seq<Step>) returns (id: nat, r: ApprovalRequest, i: nat)
    requires steps != [] && Reached(catalog, n, steps).tables.approval.Some?
    requires At(catalog, n, steps, |steps| - 1).tables.approval.None?
    ensures DecidedIn(catalog, n, steps, Reached(catalog, n, steps).tables.approval.value, id, r, i, |steps| - 1)
  {
    hide Reached, Lives, NewestBetween, DecidesAs;
    var m := |steps| - 1;
    id := LastStores(catalog, n, steps);
    AlwaysTraced(catalog, n, steps[..m]);
    WholeRun(catalog, n, steps);
    var stage := Reached(catalog, n, steps[..m]).requests[id];
    assert Traced(catalog, n, steps[..m], id, stage);
    var request;
    request, i :| Lives(catalog, n, steps[..m], id, request, i, m) && Follows(catalog, n, steps[..m], id, request, i, stage);
    r := request.approvalRequest;
    LivesLater(catalog, n, steps, m, id, request, i, m);
    NewestLater(catalog, n, steps, m, stage.approval.passportSequence, i, m, m);
  }

  // A stored approval is the decision of a request, on the passport it names, which was the newest at some
  // moment between the arrival of the request and its commit: an outdated passport is never approved unless it
  // was outdated by a freeze that committed in that time.
  lemma {:induction false} ApprovalWasAsked(catalog: Scoring.Catalog, n: NewRun, steps: seq<Step>)
    returns (id: nat, r: ApprovalRequest, i: nat, j: nat)
    requires Reached(catalog, n, steps).tables.approval.Some?
    ensures DecidedIn(catalog, n, steps, Reached(catalog, n, steps).tables.approval.value, id, r, i, j)
  {
    hide Reached, DecidedIn, Extends;
    var m := |steps| - 1;
    if steps == [] {
      CreatedUndecided(catalog, n);
      assert false;
    } else if At(catalog, n, steps, m).tables.approval.Some? {
      ApprovalStays(catalog, n, steps, m);
      id, r, i, j := ApprovalWasAsked(catalog, n, steps[..m]);
      DecidedLater(catalog, n, steps, m, Reached(catalog, n, steps).tables.approval.value, id, r, i, j);
    } else {
      id, r, i := DecidedNow(catalog, n, steps);
      j := m;
    }
  }

  lemma {:induction false} CreatedUndecided(catalog: Scoring.Catalog, n: NewRun)
    ensures Reached(catalog, n, []).tables.approval.None? && Reached(catalog, n, []).tables.receipt.None?
  {
  }

  lemma {:induction false} ApprovalStays(catalog: Scoring.Catalog, n: NewRun, steps: seq<Step>, m: nat)
    requires m <= |steps|
    ensures var t, u := At(catalog, n, steps, m).tables, Reached(catalog, n, steps).tables;
            Stays(t.approval, u.approval) && Stays(t.receipt, u.receipt)
  {
    hide Reached;
    RowsAreNeverLost(catalog, n, steps, m);
  }

  // ── Where the receipt comes from ──

  // The receipt was stored at step `l` by a request that arrived at step `i`, made the claim at the time of
  // submission in between, and then submitted the commitment, which the chain answered with the transaction.
  ghost predicate ReceivedIn(catalog: Scoring.Catalog, n: NewRun, steps: seq<Step>, r: Receipt, id: nat, i: nat, l: nat) {
    && Lives(catalog, n, steps, id, AttestStart, i, l) && Continues(steps, id, l)
    && At(catalog, n, steps, l).tables.receipt.None? && At(catalog, n, steps, l + 1).tables.receipt == Some(r)
    && r.confirmedAt == steps[l].choice.now && r.attestationId == steps[l].choice.freshId
    && SubmittedBetween(catalog, n, steps, id, i, l, r.commitment, r.transactionHash, r.submittedAt)
  }

  lemma {:induction false} ReceivedLater(catalog: Scoring.Catalog, n: NewRun, steps: seq<Step>, m: nat, r: Receipt, id: nat, i: nat, l: nat)
    requires m <= |steps| && ReceivedIn(catalog, n, steps[..m], r, id, i, l)
    ensures ReceivedIn(catalog, n, steps, r, id, i, l)
  {
    hide At, Lives, SubmittedBetween;
    LivesLater(catalog, n, steps, m, id, AttestStart, i, l);
    SubmittedLater(catalog, n, steps, m, id, i, l, l, r.commitment, r.transactionHash, r.submittedAt);
    AtPrefix(catalog, n, steps, m, l);
    AtPrefix(catalog, n, steps, m, l + 1);
  }

  lemma {:induction false} ReceivedNow(catalog: Scoring.Catalog, n: NewRun, steps: seq<Step>) returns (id: nat, i: nat)
    requires steps != [] && Reached(catalog, n, steps).tables.receipt.Some?
    requires At(catalog, n, steps, |steps| - 1).tables.receipt.None?
    ensures ReceivedIn(catalog, n, steps, Reached(catalog, n, steps).tables.receipt.value, id, i, |steps| - 1)
  {
    hide Reached, Lives, SubmittedBetween;
    var m := |steps| - 1;
    id := LastStores(catalog, n, steps);
    AlwaysTraced(catalog, n, steps[..m]);
    WholeRun(catalog, n, steps);
    var stage := Reached(catalog, n, steps[..m]).requests[id];
    assert Traced(catalog, n, steps[..m], id, stage);
    var request;
    request, i :| Lives(catalog, n, steps[..m], id, request, i, m) && Follows(catalog, n, steps[..m], id, request, i, stage);
    LivesLater(catalog, n, steps, m, id, request, i, m);
    SubmittedLater(catalog, n, steps, m, id, i, m, m, stage.commitment, stage.transactionHash, stage.claimedAt);
  }

  // A stored receipt carries what one request did: the time of its claim, the commitment that it then
  // submitted, the transaction that the chain answered, and the time of the confirmation, in that order.
  lemma {:induction false} ReceiptWasSubmitted(catalog: Scoring.Catalog, n: NewRun, steps: seq<Step>) returns (id: nat, i: nat, l: nat)
    requires Reached(catalog, n, steps).tables.receipt.Some?
    ensures ReceivedIn(catalog, n, steps, Reached(catalog, n, steps).tables.receipt.value, id, i, l)
  {
    hide Reached, ReceivedIn, Extends;
    var m := |steps| - 1;
    if steps == [] {
      CreatedUndecided(catalog, n);
      assert false;
    } else if At(catalog, n, steps, m).tables.receipt.Some? {
      ApprovalStays(catalog, n, steps, m);
      id, i, l := ReceiptWasSubmitted(catalog, n, steps[..m]);
      ReceivedLater(catalog, n, steps, m, Reached(catalog, n, steps).tables.receipt.value, id, i, l);
    } else {
      id, i := ReceivedNow(catalog, n, steps);
      l := m;
    }
  }
}
