/** What an approval and an attestation come to, when nothing disturbs them: the reply, what is submitted to
    the chain, and the rows and events that are stored. */
module DecisionServices {
  import opened Wrappers
  import opened Domain
  import opened EventChain
  import opened Projection
  import opened Repository
  import opened RunProtocol
  import opened ServiceMeaning
  import opened FreezeServices
  import Scoring

  // ── An approval ──

  predicate Address(s: string) {
    |s| == 42 && s[0] == '0' && s[1] == 'x' && forall i :: 2 <= i < 42 ==> s[i] in "0123456789abcdefABCDEF"
  }

  // A well-formed request: a testnet approval names the chain and a contract, any other decision neither.
  predicate ApprovalAsked(r: ApprovalRequest) {
    && r.schemaVersion == "0.1.0" && 1 <= r.passportSequence <= 9223372036854775807
    && (r.decision == ApproveTestnetAttestation ==>
          r.chainId == Some(11155111) && r.registryContract.Some? && Address(r.registryContract.value))
    && (r.decision != ApproveTestnetAttestation ==> r.chainId.None? && r.registryContract.None?)
  }

  ghost predicate SequencesNumbered(t: Tables) {
    PassportsNumbered(t) && forall k :: k in t.passports ==> t.passports[k].sequence == k
  }

  // The request names the newest passport, by its number and the three hashes of its provenance.
  predicate NamesNewest(t: Tables, r: ApprovalRequest) {
    && r.passportSequence == |t.passports| && r.passportSequence in t.provenances
    && var q := t.provenances[r.passportSequence];
    && r.passportHash == q.passportHash && r.auditLogHash == q.auditLogHash && r.manifestHash == q.manifestHash
  }

  function ApprovalReply(t: Tables, r: ApprovalRequest): Reply {
    if t.run.status != WaitingApproval then Conflict
    else if !ApprovalAsked(r) || t.passports == map[] then Refused
    else if !NamesNewest(t, r) || t.approval.Some? then Conflict
    else Reply.Accepted
  }

  function Decided(d: Decision): (string, RunStatus) {
    match d
    case ApproveOffchain => ("approve_offchain", Success)
    case ApproveTestnetAttestation => ("approve_testnet_attestation", Running)
    case Reject => ("reject", RunStatus.Failed)
  }

  // What the request asks for, decided when it was checked.
  function ApprovalOf(runId: Uuid, r: ApprovalRequest, c: Choice): Approval {
    Approval(c.freshId, runId, r.decision, r.passportSequence, r.passportHash, r.auditLogHash, r.manifestHash, r.chainId,
             r.registryContract, c.now)
  }

  function DecisionPayload(r: ApprovalRequest, id: Uuid): Payload {
    map["approval_id" := Json.Text(id), "decision" := Json.Text(Decided(r.decision).0), "passport_sequence" := Number(r.passportSequence),
        "chain_id" := match r.chainId case Some(n) => Number(n) case None => Null,
        "registry_contract" := match r.registryContract case Some(s) => Json.Text(s) case None => Null]
  }

  lemma {:induction false} HexDigits(c: char)
    ensures HexDigit(c) <==> c in "0123456789abcdefABCDEF"
  {
    var s := "0123456789abcdefABCDEF";
    if '0' <= c <= '9' { assert s[c as int - '0' as int] == c; }
    if 'a' <= c <= 'f' { assert s[c as int - 'a' as int + 10] == c; }
    if 'A' <= c <= 'F' { assert s[c as int - 'A' as int + 16] == c; }
  }

  lemma {:induction false} AskedExactly(r: ApprovalRequest)
    ensures ApprovalRequestOk(r) <==> ApprovalAsked(r)
  {
    hide HexDigit;
    forall c: char ensures HexDigit(c) <==> c in "0123456789abcdefABCDEF" { HexDigits(c); }
  }

  lemma {:induction false} ApprovalReads(t: Tables, r: ApprovalRequest, b: Choice)
    requires PassportsNumbered(t)
    ensures AdvanceApproval(t, ApprovalStart(r), b) ==
            Stay(t, if t.run.status != WaitingApproval then Done(Conflict) else if ApprovalAsked(r) then ApprovalRun(r) else Done(Refused))
    ensures AdvanceApproval(t, ApprovalRun(r), b) == Stay(t, ApprovalSequence(r, |t.passports|))
  {
    hide ApprovalRequestOk, ApprovalAsked, AdvanceBinding, Commit, NextPassportSequence;
    AskedExactly(r);
    NextAfter(t);
  }

  lemma {:induction false} ApprovalComputes(t: Tables, r: ApprovalRequest, c: Choice)
    requires SequencesNumbered(t)
    ensures AdvanceApproval(t, ApprovalSequence(r, |t.passports|), c) ==
            Stay(t, if t.passports == map[] then Done(Refused) else if !NamesNewest(t, r) then Done(Conflict)
                    else ApprovalReady(ApprovalOf(t.run.runId, r, c),
                                       Draft(c.eventId, "trust_core", ApprovalResolved, DecisionPayload(r, c.freshId), c.now)))
  {
    hide Commit;
    assert t.passports == map[] <==> |t.passports| == 0;
    assert DecisionPayload(r, c.freshId) == ApprovalPayload(ApprovalOf(t.run.runId, r, c));
  }

  lemma {:induction false} ApprovalWrites(t: Tables, a: Approval, draft: Draft, c: Choice) returns (u: Tables)
    requires Numbered(t.events) && t.events != map[] && c.commits && SeesAll(t, c.tail) && t.run.status == WaitingApproval
    requires draft.nodeId == "trust_core" && draft.eventType == ApprovalResolved && draft.createdAt == a.decidedAt
    ensures AdvanceApproval(t, ApprovalReady(a, draft), c) ==
            if t.approval.Some? then Stay(t, Done(Conflict)) else Stay(u, Done(Reply.Accepted))
    ensures t.approval.None? ==>
              Writes(t, t.(run := t.run.(status := Decided(a.decision).1, currentNode := Some("human_review_gate")),
                           approval := Some(a)), u,
                     ApprovalResolved, draft.payload, a.decidedAt)
  {
    hide InsertGeneratedEvent, Numbered, Log, SeesAll;
    var rows := t.(run := t.run.(status := Decided(a.decision).1, currentNode := Some("human_review_gate"), updatedAt := a.decidedAt),
                   approval := Some(a));
    GeneratedWrites(t, rows, draft, c.tail);
    u := InsertGeneratedEvent(rows, draft, c.tail).value;
  }

  lemma {:induction false} AdvancesApproval(catalog: Scoring.Catalog, t: Tables, stage: Stage, c: Choice)
    requires ForApproval(stage)
    ensures Advance(catalog, t, stage, c) == AdvanceApproval(t, stage, c)
  {
    hide AdvanceApproval;
  }

  // The decision is stored, and the run goes where it sends it, exactly when the run waits for approval, the
  // request is well formed and names the newest passport, and there is no approval yet. A request that names
  // another passport is a conflict.
  lemma {:induction false} ApprovalAlone(catalog: Scoring.Catalog, t: Tables, r: ApprovalRequest, choices: seq<Choice>)
    returns (u: Tables)
    requires Free(t, choices) && SequencesNumbered(t)
    ensures ApprovalReply(t, r) == Reply.Accepted ==>
              var c := choices[2];
              Writes(t, t.(run := t.run.(status := Decided(r.decision).1, currentNode := Some("human_review_gate")),
                           approval := Some(ApprovalOf(t.run.runId, r, c))), u,
                     ApprovalResolved, DecisionPayload(r, c.freshId), c.now)
    ensures ApprovalReply(t, r) != Reply.Accepted ==> u == t
    ensures Comes(catalog, t, ApprovalStart(r), choices, ApprovalReply(t, r), u)
  {
    hide Advance, AdvanceApproval, Writes, Numbered, SeesAll, SequencesNumbered, ApprovalAsked, NamesNewest, Log;
    var start, run, sequence, c := ApprovalStart(r), ApprovalRun(r), ApprovalSequence(r, |t.passports|), choices[2];
    assert PassportsNumbered(t) by { Numbering(t); }
    u := t;
    ApprovalReads(t, r, choices[0]);
    ApprovalReads(t, r, choices[1]);
    ApprovalComputes(t, r, c);
    AdvancesApproval(catalog, t, start, choices[0]);
    AdvancesApproval(catalog, t, run, choices[1]);
    AdvancesApproval(catalog, t, sequence, c);
    if t.run.status != WaitingApproval || !ApprovalAsked(r) {
      Answers(catalog, t, choices, [start], Stay(t, Done(ApprovalReply(t, r))));
    } else if t.passports == map[] || !NamesNewest(t, r) {
      Answers(catalog, t, choices, [start, run, sequence], Stay(t, Done(ApprovalReply(t, r))));
    } else {
      u := ApprovalEnds(catalog, t, r, choices);
    }
  }

  lemma {:induction false} Numbering(t: Tables)
    requires SequencesNumbered(t)
    ensures PassportsNumbered(t)
  {
  }

  lemma {:induction false} ApprovalEnds(catalog: Scoring.Catalog, t: Tables, r: ApprovalRequest, choices: seq<Choice>) returns (u: Tables)
    requires Free(t, choices) && t.run.status == WaitingApproval && ApprovalAsked(r) && t.passports != map[] && NamesNewest(t, r)
    requires var draft := Draft(choices[2].eventId, "trust_core", ApprovalResolved, DecisionPayload(r, choices[2].freshId), choices[2].now);
             var ready := ApprovalReady(ApprovalOf(t.run.runId, r, choices[2]), draft);
             Passes(catalog, t, choices, [ApprovalStart(r), ApprovalRun(r), ApprovalSequence(r, |t.passports|), ready])
    ensures ApprovalReply(t, r) == Reply.Accepted ==>
              var c := choices[2];
              Writes(t, t.(run := t.run.(status := Decided(r.decision).1, currentNode := Some("human_review_gate")),
                           approval := Some(ApprovalOf(t.run.runId, r, c))), u,
                     ApprovalResolved, DecisionPayload(r, c.freshId), c.now)
    ensures ApprovalReply(t, r) != Reply.Accepted ==> u == t
    ensures Comes(catalog, t, ApprovalStart(r), choices, ApprovalReply(t, r), u)
  {
    hide Advance, AdvanceApproval, Writes, Numbered, SeesAll, ApprovalAsked, NamesNewest, Log;
    var c := choices[2];
    var draft := Draft(c.eventId, "trust_core", ApprovalResolved, DecisionPayload(r, c.freshId), c.now);
    var ready := ApprovalReady(ApprovalOf(t.run.runId, r, c), draft);
    assert Lets(t, choices[3]);
    u := ApprovalWrites(t, ApprovalOf(t.run.runId, r, c), draft, choices[3]);
    if t.approval.Some? { u := t; }
    AdvancesApproval(catalog, t, ready, choices[3]);
    Answers(catalog, t, choices, [ApprovalStart(r), ApprovalRun(r), ApprovalSequence(r, |t.passports|), ready],
            Stay(u, Done(ApprovalReply(t, r))));
  }

  // ── An attestation ──

  // The stored approval is for the testnet and names a stored passport by the hashes of its provenance.
  predicate Bindable(t: Tables, a: Approval) {
    && a.passportSequence in t.passports && a.passportSequence in t.provenances && a.chainId.Some? && a.registryContract.Some?
    && var q := t.provenances[a.passportSequence];
    && a.passportHash == q.passportHash && a.auditLogHash == q.auditLogHash && a.manifestHash == q.manifestHash
  }

  predicate Attestable(t: Tables) {
    && t.run.status == Running && t.receipt.None?
    && t.approval.Some? && t.approval.value.decision == ApproveTestnetAttestation && Bindable(t, t.approval.value)
    && t.attempt.None?
  }

  function AttestReply(t: Tables, transaction: Option<string>): Reply {
    if t.run.status != Running || t.receipt.Some? then Conflict
    else if t.approval.None? || t.approval.value.decision != ApproveTestnetAttestation then Refused
    else if !Bindable(t, t.approval.value) || t.attempt.Some? then Conflict
    else if transaction.None? then Refused
    else Reply.Accepted
  }

  // The commitment names the run and its tool, the passport by its hashes, and the chain and contract approved.
  ghost predicate CommitmentSays(t: Tables, m: Commitment) {
    && m.runId == t.run.runId && m.toolId == t.run.toolId && m.toolType == t.run.toolType
    && t.approval.Some? && var a := t.approval.value;
    && Some(m.chainId) == a.chainId && Some(m.registryContract) == a.registryContract
    && a.passportSequence in t.provenances && var q := t.provenances[a.passportSequence];
    && m.passportHash == q.passportHash && m.auditLogHash == q.auditLogHash && m.manifestHash == q.manifestHash
    && m.onchainRunId == q.onchainRunId
  }

  ghost predicate EventSays(e: Event, ty: EventType, payload: Payload, at: int) {
    e.nodeId == "trust_core" && e.eventType == ty && e.payload == payload && e.createdAt == at
  }

  // The receipt, and its submission and confirmation after the log.
  ghost predicate Attested(t: Tables, u: Tables, m: Commitment, id: Uuid, hash: string, claimedAt: int, confirmedAt: int)
    requires Numbered(t.events)
  {
    && u == t.(run := t.run.(status := Success, currentNode := Some("attest_onchain"), updatedAt := confirmedAt),
               receipt := Some(Receipt(id, m, hash, claimedAt, confirmedAt)), attempt := u.attempt, events := u.events)
    && Numbered(u.events)
    && var log, after := Log(t.events), Log(u.events);
    && |after| == |log| + 2 && after[..|log|] == log
    && EventSays(after[|log|], EventType.AttestationSubmitted,
                 map["attestation_id" := Json.Text(id), "chain_id" := Number(m.chainId),
                     "registry_contract" := Json.Text(m.registryContract), "transaction_hash" := Json.Text(hash)], claimedAt)
    && EventSays(after[|log| + 1], AttestationConfirmed,
                 map["attestation_id" := Json.Text(id), "chain_id" := Number(m.chainId), "transaction_hash" := Json.Text(hash)],
                 confirmedAt)
  }

  lemma {:induction false} AttestReads(t: Tables, b: Choice)
    ensures AdvanceAttestation(t, AttestStart, b) == Stay(t, if t.run.status == Running then AttestRun(t.run) else Done(Conflict))
    ensures AdvanceAttestation(t, AttestRun(t.run), b) == Stay(t, if t.receipt.Some? then Done(Conflict) else AttestUnattested(t.run))
    ensures AdvanceAttestation(t, AttestUnattested(t.run), b) ==
            Stay(t, if t.approval.Some? && t.approval.value.decision == ApproveTestnetAttestation
                    then AttestApproved(t.run, t.approval.value) else Done(Refused))
    ensures t.approval.Some? ==>
              var a := t.approval.value;
              AdvanceAttestation(t, AttestApproved(t.run, a), b) ==
              Stay(t, if Bindable(t, a) then AttestBound(t.run, a, t.provenances[a.passportSequence]) else Done(Conflict))
  {
    hide AdvanceClaim, Commit;
  }

  lemma {:induction false} AttestClaims(t: Tables, c: Choice) returns (m: Commitment)
    requires t.approval.Some? && Bindable(t, t.approval.value) && c.commits
    ensures var a := t.approval.value;
            AdvanceAttestation(t, AttestBound(t.run, a, t.provenances[a.passportSequence]), c) ==
            if t.attempt.Some? then Stay(t, Done(Conflict)) else Stay(t.(attempt := Some(a.approvalId)), AttestClaimed(m, c.now))
    ensures CommitmentSays(t, m)
  {
    hide Commit;
    var a := t.approval.value;
    m := CommitmentOf(t.run, t.provenances[a.passportSequence], a.chainId.value, a.registryContract.value);
  }

  lemma {:induction false} TwoAdds(t: Tables, rows: Tables, first: Draft, second: Draft, mid: Tables, tail: TailRead)
    requires Numbered(t.events) && t.events != map[] && rows.events == t.events
    requires first.nodeId == "trust_core" && second.nodeId == "trust_core"
    requires Writes(t, rows, mid, first.eventType, first.payload, first.createdAt) && tail.Snapshot? && tail.upTo >= |t.events| + 1
    ensures var r := InsertGeneratedEvent(mid, second, tail);
            && r.Ok? && Numbered(r.value.events)
            && r.value == rows.(run := rows.run.(updatedAt := second.createdAt), events := r.value.events)
            && var log, after := Log(t.events), Log(r.value.events);
            && |after| == |log| + 2 && after[..|log|] == log
            && EventSays(after[|log|], first.eventType, first.payload, first.createdAt)
            && EventSays(after[|log| + 1], second.eventType, second.payload, second.createdAt)
  {
    hide InsertGeneratedEvent, Numbered;
    var log, between := Log(t.events), Log(mid.events);
    assert mid.events != map[] by { assert |mid.events| == |t.events| + 1; }
    GeneratedWrites(mid, mid, second, tail);
    var after := Log(InsertGeneratedEvent(mid, second, tail).value.events);
    assert after[..|log| + 1] == between;
    assert after[..|log|] == between[..|log|];
    assert after[|log|] == between[|log|];
  }

  lemma {:induction false} AttestWrites(t: Tables, m: Commitment, hash: string, claimedAt: int, c: Choice) returns (u: Tables)
    requires Numbered(t.events) && t.events != map[] && Lets(t, c) && t.run.status == Running && t.receipt.None?
    ensures AdvanceAttestation(t, Stage.AttestSubmitted(m, hash, claimedAt), c) == Stay(u, Done(Reply.Accepted))
    ensures Attested(t, u, m, c.freshId, hash, claimedAt, c.now) && u.attempt == t.attempt
  {
    hide InsertGeneratedEvent, Numbered, Log, AdvanceClaim, Writes;
    var receipt := Receipt(c.freshId, m, hash, claimedAt, c.now);
    var first, second := SubmittedDraft(c, receipt), ConfirmedDraft(c, receipt);
    var rows := t.(run := t.run.(status := Success, currentNode := Some("attest_onchain"), updatedAt := c.now), receipt := Some(receipt));
    GeneratedWrites(t, rows, first, c.tail);
    var mid := InsertGeneratedEvent(rows, first, c.tail).value;
    TwoAdds(t, rows, first, second, mid, c.nextTail);
    u := InsertGeneratedEvent(mid, second, c.nextTail).value;
  }

  lemma {:induction false} AdvancesAttestation(catalog: Scoring.Catalog, t: Tables, stage: Stage, c: Choice)
    requires ForAttestation(stage)
    ensures Advance(catalog, t, stage, c) == AdvanceAttestation(t, stage, c)
  {
    hide AdvanceAttestation;
  }

  // What the first four steps come to, when nothing is submitted.
  lemma {:induction false} AttestRefused(catalog: Scoring.Catalog, t: Tables, choices: seq<Choice>)
    requires Free(t, choices) && !Attestable(t)
    ensures Comes(catalog, t, AttestStart, choices, AttestReply(t, choices[5].transaction), t)
  {
    hide Advance, AdvanceAttestation, Bindable, Numbered, SeesAll;
    var reply := Stay(t, Done(AttestReply(t, choices[5].transaction)));
    var run, unattested := AttestRun(t.run), AttestUnattested(t.run);
    AttestReads(t, choices[0]);
    AttestReads(t, choices[1]);
    AttestReads(t, choices[2]);
    AttestReads(t, choices[3]);
    AdvancesAttestation(catalog, t, AttestStart, choices[0]);
    AdvancesAttestation(catalog, t, run, choices[1]);
    AdvancesAttestation(catalog, t, unattested, choices[2]);
    if t.run.status != Running {
      Answers(catalog, t, choices, [AttestStart], reply);
    } else if t.receipt.Some? {
      Answers(catalog, t, choices, [AttestStart, run], reply);
    } else if t.approval.None? || t.approval.value.decision != ApproveTestnetAttestation {
      Answers(catalog, t, choices, [AttestStart, run, unattested], reply);
    } else {
      var approved := AttestApproved(t.run, t.approval.value);
      AdvancesAttestation(catalog, t, approved, choices[3]);
      if !Bindable(t, t.approval.value) {
        Answers(catalog, t, choices, [AttestStart, run, unattested, approved], reply);
      } else {
        assert Lets(t, choices[4]);
        var m := AttestClaims(t, choices[4]);
        var bound := AttestBound(t.run, t.approval.value, t.provenances[t.approval.value.passportSequence]);
        AdvancesAttestation(catalog, t, bound, choices[4]);
        Answers(catalog, t, choices, [AttestStart, run, unattested, approved, bound], reply);
      }
    }
  }

  lemma {:induction false} AttestPasses(catalog: Scoring.Catalog, t: Tables, choices: seq<Choice>)
    requires Free(t, choices) && Attestable(t)
    ensures var a := t.approval.value;
            Ran(catalog, Outcome(t, AttestStart, []), choices) ==
            Ran(catalog, Outcome(t, AttestBound(t.run, a, t.provenances[a.passportSequence]), []), choices[4..])
  {
    hide Advance, AdvanceAttestation, Bindable, Numbered, SeesAll;
    var run, unattested, approved := AttestRun(t.run), AttestUnattested(t.run), AttestApproved(t.run, t.approval.value);
    AttestReads(t, choices[0]);
    AttestReads(t, choices[1]);
    AttestReads(t, choices[2]);
    AttestReads(t, choices[3]);
    AdvancesAttestation(catalog, t, AttestStart, choices[0]);
    AdvancesAttestation(catalog, t, run, choices[1]);
    AdvancesAttestation(catalog, t, unattested, choices[2]);
    AdvancesAttestation(catalog, t, approved, choices[3]);
    assert Bindable(t, t.approval.value) ==> t.approval.value.passportSequence in t.provenances by { BoundIsStored(t, t.approval.value); }
    PassesOn(catalog, t, choices,
             [AttestStart, run, unattested, approved,
              AttestBound(t.run, t.approval.value, t.provenances[t.approval.value.passportSequence])]);
  }

  lemma {:induction false} BoundIsStored(t: Tables, a: Approval)
    ensures Bindable(t, a) ==> a.passportSequence in t.provenances
  {
  }

  // The last three steps: the claim, the submission and, if the chain answers, the receipt.
  lemma {:induction false} AttestEnds(catalog: Scoring.Catalog, t: Tables, choices: seq<Choice>) returns (u: Tables, m: Commitment)
    requires Free(t, choices) && Attestable(t)
    ensures CommitmentSays(t, m) && u.attempt == Some(t.approval.value.approvalId)
    ensures match choices[5].transaction
            case None => u == t.(attempt := u.attempt)
            case Some(hash) => Attested(t, u, m, choices[6].freshId, hash, choices[4].now, choices[6].now)
    ensures var a := t.approval.value;
            Ran(catalog, Outcome(t, AttestBound(t.run, a, t.provenances[a.passportSequence]), []), choices[4..]) ==
            Outcome(u, Done(AttestReply(t, choices[5].transaction)), [m])
  {
    hide Advance, Attested, CommitmentSays, Numbered, Log, AdvanceAttestation, Ran, Bindable;
    var a, c, rest := t.approval.value, choices[4], choices[6..];
    assert Lets(t, c) && Lets(t, choices[6]);
    m := AttestClaims(t, c);
    var w := t.(attempt := Some(a.approvalId));
    ThreeTook(catalog, t, choices, m);
    AttestSubmits(catalog, w, m, c.now, choices[5]);
    match choices[5].transaction
    case None =>
      u := w;
      DoneStays(catalog, Outcome(w, Done(Refused), [m]), rest);
    case Some(hash) =>
      u := AttestWrites(w, m, hash, c.now, choices[6]);
      AttestedWithClaim(t, w, u, m, choices[6].freshId, hash, c.now, choices[6].now);
      LastTook(catalog, Outcome(w, Stage.AttestSubmitted(m, hash, c.now), [m]), rest, u);
  }

  lemma {:induction false} AttestedWithClaim(t: Tables, w: Tables, u: Tables, m: Commitment, id: Uuid, hash: string, at: int, now: int)
    requires w == t.(attempt := w.attempt) && Numbered(t.events) && Attested(w, u, m, id, hash, at, now)
    ensures Attested(t, u, m, id, hash, at, now)
  {
    hide Log, Numbered, EventSays;
  }

  lemma {:induction false} AttestSubmits(catalog: Scoring.Catalog, w: Tables, m: Commitment, at: int, c: Choice)
    ensures Took(catalog, Outcome(w, AttestClaimed(m, at), []), c) ==
            Outcome(w, match c.transaction case None => Done(Refused) case Some(hash) => Stage.AttestSubmitted(m, hash, at), [m])
  {
    hide Advance, AdvanceClaim, Commit;
    AdvancesAttestation(catalog, w, AttestClaimed(m, at), c);
  }

  // The claim and the submission.
  lemma {:induction false} ThreeTook(catalog: Scoring.Catalog, t: Tables, choices: seq<Choice>, m: Commitment)
    requires Free(t, choices) && Attestable(t)
    requires var a := t.approval.value;
             AdvanceAttestation(t, AttestBound(t.run, a, t.provenances[a.passportSequence]), choices[4]) ==
             Stay(t.(attempt := Some(a.approvalId)), AttestClaimed(m, choices[4].now))
    ensures var a := t.approval.value;
            Ran(catalog, Outcome(t, AttestBound(t.run, a, t.provenances[a.passportSequence]), []), choices[4..]) ==
            Ran(catalog, Took(catalog, Outcome(t.(attempt := Some(a.approvalId)), AttestClaimed(m, choices[4].now), []), choices[5]),
                choices[6..])
  {
    hide Advance, AdvanceAttestation, Numbered, SeesAll, Bindable;
    var a := t.approval.value;
    assert a.passportSequence in t.provenances by { BoundIsStored(t, a); }
    var bound := AttestBound(t.run, a, t.provenances[a.passportSequence]);
    AdvancesAttestation(catalog, t, bound, choices[4]);
    assert choices[4..][1..] == choices[5..] && choices[5..][1..] == choices[6..];
    assert Took(catalog, Outcome(t, bound, []), choices[4]) ==
           Outcome(t.(attempt := Some(a.approvalId)), AttestClaimed(m, choices[4].now), []);
  }

  lemma {:induction false} LastTook(catalog: Scoring.Catalog, o: Outcome, choices: seq<Choice>, u: Tables)
    requires choices != [] && o.stage.AttestSubmitted?
    requires AdvanceAttestation(o.tables, o.stage, choices[0]) == Stay(u, Done(Reply.Accepted))
    ensures Ran(catalog, o, choices) == Outcome(u, Done(Reply.Accepted), o.submitted)
  {
    hide Advance, AdvanceAttestation;
    AdvancesAttestation(catalog, o.tables, o.stage, choices[0]);
    assert Took(catalog, o, choices[0]) == Outcome(u, Done(Reply.Accepted), o.submitted);
    DoneStays(catalog, Outcome(u, Done(Reply.Accepted), o.submitted), choices[1..]);
  }

  // The commitment goes to the chain exactly when the run has a testnet approval that names a stored
  // provenance, and no claim yet. The claim stays if the chain refuses; otherwise the receipt is stored with
  // the transaction of the chain and the time of the claim, and announced by two events.
  lemma {:induction false} AttestAlone(catalog: Scoring.Catalog, t: Tables, choices: seq<Choice>) returns (u: Tables, m: Commitment)
    requires Free(t, choices)
    ensures Attestable(t) ==>
              && CommitmentSays(t, m) && u.attempt == Some(t.approval.value.approvalId)
              && match choices[5].transaction
                 case None => u == t.(attempt := u.attempt)
                 case Some(hash) => Attested(t, u, m, choices[6].freshId, hash, choices[4].now, choices[6].now)
    ensures !Attestable(t) ==> u == t
    ensures Ran(catalog, Outcome(t, AttestStart, []), choices) ==
            Outcome(u, Done(AttestReply(t, choices[5].transaction)), if Attestable(t) then [m] else [])
  {
    hide Ran, Attested, CommitmentSays, Free, AttestReply;
    if Attestable(t) {
      AttestPasses(catalog, t, choices);
      u, m := AttestEnds(catalog, t, choices);
    } else {
      u, m := t, *;
      AttestRefused(catalog, t, choices);
    }
  }
}
