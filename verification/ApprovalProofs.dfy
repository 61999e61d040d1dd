/** The approval, the attempt and the receipt keep the invariant. */
module ApprovalProofs {
  import opened Wrappers
  import opened Domain
  import opened EventChain
  import opened Projection
  import opened Repository
  import opened RunProtocol
  import opened ProtocolInvariant
  import opened ProtocolProofs

  // ── The decision ──

  // The replayed decision is the status that the service stored.
  lemma {:induction false} DecisionReplays(a: Approval, status: RunStatus)
    ensures DecidedStatus(ApprovalPayload(a), status) == StatusAfter(a.decision)
  {
    assert ApprovalPayload(a)["decision"] == Json.Text(DecisionText(a.decision));
  }

  function WithApproval(t: Tables, a: Approval): Tables {
    t.(run := t.run.(status := StatusAfter(a.decision), currentNode := Some("human_review_gate"), updatedAt := a.decidedAt),
       approval := Some(a))
  }

  // Sets the status of a run that is not in a terminal one, and adds to the approvals or the receipts.
  lemma {:induction false} StatusMoved(t: Tables, u: Tables)
    requires u == t.(run := u.run, events := u.events, approval := u.approval, receipt := u.receipt)
    requires SameRun(t.run, u.run) && Grows(t.events, u.events) && !Terminal(t.run.status)
    requires Stays(t.approval, u.approval) && Stays(t.receipt, u.receipt)
    ensures Extends(t, u)
  {
  }

  lemma {:induction false} ApprovalInsert(t: Tables, log: seq<Event>, a: Approval, draft: Draft, tail: TailRead) returns (e: Event)
    requires HasLog(t, log) && draft.eventType == ApprovalResolved && draft.payload == ApprovalPayload(a)
    requires CreateApprovalTx(t, a, draft, WaitingApproval, StatusAfter(a.decision), tail).Ok?
    ensures var u := CreateApprovalTx(t, a, draft, WaitingApproval, StatusAfter(a.decision), tail).value;
            && HasLog(u, log + [e]) && Appended(t, log, u, e) && Extends(t, u)
            && u == t.(run := u.run, events := u.events, approval := Some(a)) && t.approval.None? && u.run.status == StatusAfter(a.decision)
            && e.eventType == ApprovalResolved && e.payload == ApprovalPayload(a)
  {
    hide Log, Numbered, Extends, Grows, Appended, ApprovalPayload;
    DecisionReplays(a, t.run.status);
    e := GeneratedInsert(t, log, WithApproval(t, a), draft, tail);
    StatusMoved(t, CreateApprovalTx(t, a, draft, WaitingApproval, StatusAfter(a.decision), tail).value);
  }

  // The freeze that an approval binds is in the log.
  lemma {:induction false} FreezeIsLogged(t: Tables, log: seq<Event>, a: Approval) returns (i: nat)
    requires PassportsInv(t, log) && ApprovalGood(t, a)
    ensures i < |log| && IsFreezeOf(log[i], a.auditLogHash)
  {
    hide PassportGood, ProvenanceGood;
    assert PassportRow(t, log, a.passportSequence);
    i := OfTypeOccurs(log, ProvenanceFrozen, a.passportSequence - 1);
  }

  lemma {:induction false} ApprovalAdded(t: Tables, log: seq<Event>, u: Tables, e: Event, a: Approval)
    requires ApprovalInv(t, log) && PassportsInv(t, log) && ApprovalGood(t, a) && t.approval.None?
    requires IsDecision(e, a) && Extends(t, u) && u.approval == Some(a) && u.run.status == StatusAfter(a.decision)
    ensures ApprovalInv(u, log + [e])
  {
    hide PassportsInv;
    OfTypeAppend(log, e, ApprovalResolved);
    var i := FreezeIsLogged(t, log, a);
    assert ApprovedAt(log + [e], a, i, |log|);
  }

  lemma {:induction false} CreateApprovalKeeps(t: Tables, a: Approval, draft: Draft, tail: TailRead)
    requires TablesInv(t) && ApprovalGood(t, a)
    requires draft.eventType == ApprovalResolved && draft.payload == ApprovalPayload(a)
    requires CreateApprovalTx(t, a, draft, WaitingApproval, StatusAfter(a.decision), tail).Ok?
    ensures Kept(t, CreateApprovalTx(t, a, draft, WaitingApproval, StatusAfter(a.decision), tail).value)
  {
    hide Log, Extends, Appended, CreateApprovalTx, ApprovalPayload, ApprovalGood;
    hide LogInv, SummaryInv, EvidenceInv, BoardsInv, ResultsInv, PassportsInv, ApprovalInv, AttestationInv, CountInv;
    var log, u := Log(t.events), CreateApprovalTx(t, a, draft, WaitingApproval, StatusAfter(a.decision), tail).value;
    var e := ApprovalInsert(t, log, a, draft, tail);
    AppendedSameRun(t, log, u, e);
    LogKept(t, log, u, e);
    ApprovalAdded(t, log, u, e, a);
    PassportsKept(t, log, u, e);
    AttestationKept(t, log, u, e);
    EvidenceKept(t, u);
    BoardsKept(t, u);
    ResultsKept(t, u);
    CountKept(t, log, u, e);
  }

  // ── The attempt ──

  lemma {:induction false} PassportsUnchanged(t: Tables, log: seq<Event>, u: Tables)
    requires PassportsInv(t, log) && Extends(t, u) && u.passports == t.passports && u.provenances == t.provenances
    ensures PassportsInv(u, log)
  {
    hide PassportGood, ProvenanceGood;
    forall k | 1 <= k <= |u.passports| ensures PassportRow(u, log, k) {
      assert PassportRow(t, log, k);
      PassportStable(t, u, t.passports[k], t.provenances[k]);
    }
  }

  lemma {:induction false} AttemptClaimed(t: Tables, log: seq<Event>, u: Tables, a: Approval)
    requires ApprovalInv(t, log) && AttestationInv(t, log) && t.attempt.None?
    requires t.approval == Some(a) && a.decision == ApproveTestnetAttestation && u == t.(attempt := Some(a.approvalId))
    ensures ApprovalInv(u, log) && AttestationInv(u, log) && Extends(t, u)
  {
  }

  lemma {:induction false} ClaimKeeps(t: Tables, a: Approval)
    requires TablesInv(t) && t.approval == Some(a) && a.decision == ApproveTestnetAttestation
    requires ClaimAttemptTx(t, a.approvalId).Ok?
    ensures Kept(t, ClaimAttemptTx(t, a.approvalId).value)
  {
    hide Log, Numbered, Extends, EvidenceInv, BoardsInv, ResultsInv, PassportsInv, ApprovalInv, AttestationInv;
    var log, u := Log(t.events), ClaimAttemptTx(t, a.approvalId).value;
    AttemptClaimed(t, log, u, a);
    PassportsUnchanged(t, log, u);
    EvidenceKept(t, u);
    BoardsKept(t, u);
    ResultsKept(t, u);
  }

  // ── The receipt ──

  function WithReceipt(t: Tables, r: Receipt): Tables {
    t.(run := t.run.(status := Success, currentNode := Some("attest_onchain"), updatedAt := r.confirmedAt), receipt := Some(r))
  }

  lemma {:induction false} FirstInsert(t: Tables, log: seq<Event>, r: Receipt, submitted: Draft, tail: TailRead) returns (e: Event)
    requires HasLog(t, log) && t.run.status == Running && t.receipt.None? && submitted.eventType == EventType.AttestationSubmitted
    requires InsertGeneratedEvent(WithReceipt(t, r), submitted, tail).Ok?
    ensures var u := InsertGeneratedEvent(WithReceipt(t, r), submitted, tail).value;
            && HasLog(u, log + [e]) && Appended(t, log, u, e) && Extends(t, u)
            && u == t.(run := u.run, events := u.events, receipt := Some(r))
            && u.run.status == Success && u.run.currentNode == Some("attest_onchain")
            && e.eventType == EventType.AttestationSubmitted && e.payload == submitted.payload
  {
    hide Log, Numbered, Extends, Grows, Appended, HasLog;
    e := GeneratedInsert(t, log, WithReceipt(t, r), submitted, tail);
    StatusMoved(t, InsertGeneratedEvent(WithReceipt(t, r), submitted, tail).value);
  }

  lemma {:induction false} SecondInsert(t: Tables, log: seq<Event>, confirmed: Draft, tail: TailRead) returns (e: Event)
    requires HasLog(t, log) && t.run.status == Success && t.run.currentNode == Some("attest_onchain")
    requires confirmed.eventType == AttestationConfirmed && InsertGeneratedEvent(t, confirmed, tail).Ok?
    ensures var u := InsertGeneratedEvent(t, confirmed, tail).value;
            && HasLog(u, log + [e]) && Appended(t, log, u, e) && Extends(t, u)
            && u == t.(run := u.run, events := u.events) && u.run.status == Success
            && e.eventType == AttestationConfirmed && e.payload == confirmed.payload
  {
    hide Log, Numbered, Extends, Grows, Appended, HasLog;
    e := GeneratedInsert(t, log, t, confirmed, tail);
    RunMoved(t, InsertGeneratedEvent(t, confirmed, tail).value);
  }

  // The rows between the two events of a receipt, and after both.
  lemma {:induction false} ReceiptInsert(t: Tables, log: seq<Event>, r: Receipt, submitted: Draft, confirmed: Draft, tail1: TailRead,
                                         tail2: TailRead)
    returns (mid: Tables, first: Event, second: Event)
    requires HasLog(t, log)
    requires submitted.eventType == EventType.AttestationSubmitted && confirmed.eventType == AttestationConfirmed
    requires CreateReceiptTx(t, r, submitted, confirmed, Running, tail1, tail2).Ok?
    ensures var u := CreateReceiptTx(t, r, submitted, confirmed, Running, tail1, tail2).value;
            && HasLog(mid, log + [first]) && HasLog(u, log + [first] + [second])
            && Appended(t, log, mid, first) && Appended(mid, log + [first], u, second)
            && Extends(t, mid) && Extends(mid, u)
            && mid == t.(run := mid.run, events := mid.events, receipt := Some(r)) && u == mid.(run := u.run, events := u.events)
            && t.receipt.None? && u.run.status == Success
            && first.eventType == EventType.AttestationSubmitted && first.payload == submitted.payload
            && second.eventType == AttestationConfirmed && second.payload == confirmed.payload
  {
    hide InsertGeneratedEvent, Extends, Appended, HasLog;
    mid := InsertGeneratedEvent(WithReceipt(t, r), submitted, tail1).value;
    first := FirstInsert(t, log, r, submitted, tail1);
    second := SecondInsert(mid, log + [first], confirmed, tail2);
  }

  ghost predicate ReceiptEvents(first: Event, second: Event, r: Receipt) {
    && first.eventType == EventType.AttestationSubmitted && first.payload == SubmittedPayload(r)
    && second.eventType == AttestationConfirmed && second.payload == ConfirmedPayload(r)
  }

  lemma {:induction false} CountTwo(log: seq<Event>, first: Event, second: Event, ty: EventType)
    ensures |OfType(log + [first] + [second], ty)| ==
            |OfType(log, ty)| + (if first.eventType == ty then 1 else 0) + (if second.eventType == ty then 1 else 0)
  {
    OfTypeAppend(log, first, ty);
    OfTypeAppend(log + [first], second, ty);
  }

  lemma {:induction false} AttestedNow(log: seq<Event>, a: Approval, r: Receipt, first: Event, second: Event)
    requires ReceiptEvents(first, second, r) && exists i: nat, j: nat :: ApprovedAt(log, a, i, j)
    ensures exists i: nat, j: nat, s: nat :: AttestedAt(log + [first] + [second], a, r, i, j, s)
  {
    hide SubmittedPayload, ConfirmedPayload, ApprovalPayload;
    var i: nat, j: nat :| ApprovedAt(log, a, i, j);
    var all := log + [first] + [second];
    assert all[i] == log[i] && all[j] == log[j] && all[|log|] == first && all[|log| + 1] == second;
    assert AttestedAt(all, a, r, i, j, |log|);
  }

  lemma {:induction false} AttestationAdded(t: Tables, log: seq<Event>, u: Tables, first: Event, second: Event, r: Receipt)
    requires ApprovalInv(t, log) && AttestationInv(t, log) && t.receipt.None? && t.attempt.Some?
    requires ReceiptEvents(first, second, r)
    requires BoundCommitment(u, r.commitment) && u.attempt == t.attempt && u.approval == t.approval
    requires u.receipt == Some(r) && u.run.status == Success
    ensures AttestationInv(u, log + [first] + [second])
  {
    hide BoundCommitment, ApprovalGood, ApprovedAt, AttestedAt, OfType, SubmittedPayload, ConfirmedPayload;
    CountTwo(log, first, second, EventType.AttestationSubmitted);
    CountTwo(log, first, second, AttestationConfirmed);
    AttestedNow(log, t.approval.value, r, first, second);
  }

  lemma {:induction false} BoundStays(t: Tables, u: Tables, m: Commitment)
    requires BoundCommitment(t, m) && Extends(t, u)
    ensures BoundCommitment(u, m)
  {
  }

  // The parts of the invariant that a receipt does not touch, over both of its events.
  lemma {:induction false} ReceiptOthersKept(t: Tables, log: seq<Event>, mid: Tables, first: Event, u: Tables, second: Event)
    requires RowsInv(t, log)
    requires Appended(t, log, mid, first) && Appended(mid, log + [first], u, second) && Extends(t, mid) && Extends(mid, u)
    requires AttestationEvent(first.eventType) && AttestationEvent(second.eventType)
    requires mid == t.(run := mid.run, events := mid.events, receipt := mid.receipt) && u == mid.(run := u.run, events := u.events)
    ensures var all := log + [first] + [second];
            && LogInv(u, all) && SummaryInv(u, all) && EvidenceInv(u) && BoardsInv(u) && ResultsInv(u)
            && PassportsInv(u, all) && ApprovalInv(u, all) && CountInv(u, all) && Extends(t, u)
  {
    hide Extends, Appended, LogInv, SummaryInv, EvidenceInv, BoardsInv, ResultsInv, PassportsInv, ApprovalInv, AttestationInv, CountInv;
    LogKept(t, log, mid, first);
    LogKept(mid, log + [first], u, second);
    PassportsKept(t, log, mid, first);
    PassportsKept(mid, log + [first], u, second);
    ApprovalKept(t, log, mid, first);
    ApprovalKept(mid, log + [first], u, second);
    CountKept(t, log, mid, first);
    CountKept(mid, log + [first], u, second);
    ExtendsTransitive(t, mid, u);
    AppendedSameRun(t, log, mid, first);
    AppendedSameRun(mid, log + [first], u, second);
    EvidenceKept(t, u);
    BoardsKept(t, u);
    ResultsKept(t, u);
  }

  lemma {:induction false} CreateReceiptKeeps(t: Tables, r: Receipt, submitted: Draft, confirmed: Draft, tail1: TailRead, tail2: TailRead)
    requires TablesInv(t) && t.attempt.Some? && BoundCommitment(t, r.commitment)
    requires submitted.eventType == EventType.AttestationSubmitted && submitted.payload == SubmittedPayload(r)
    requires confirmed.eventType == AttestationConfirmed && confirmed.payload == ConfirmedPayload(r)
    requires CreateReceiptTx(t, r, submitted, confirmed, Running, tail1, tail2).Ok?
    ensures Kept(t, CreateReceiptTx(t, r, submitted, confirmed, Running, tail1, tail2).value)
    ensures CreateReceiptTx(t, r, submitted, confirmed, Running, tail1, tail2).value.receipt == Some(r)
  {
    hide Log, Extends, Appended, CreateReceiptTx, BoundCommitment, SubmittedPayload, ConfirmedPayload;
    hide LogInv, SummaryInv, EvidenceInv, BoardsInv, ResultsInv, PassportsInv, ApprovalInv, AttestationInv, CountInv;
    var log, u := Log(t.events), CreateReceiptTx(t, r, submitted, confirmed, Running, tail1, tail2).value;
    var mid, first, second := ReceiptInsert(t, log, r, submitted, confirmed, tail1, tail2);
    ReceiptOthersKept(t, log, mid, first, u, second);
    BoundStays(t, u, r.commitment);
    AttestationAdded(t, log, u, first, second, r);
  }
}
