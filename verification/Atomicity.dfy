/** What stands in the way of a commit: an abort, a tail that is not the whole log, a status that has moved
    on, or a key that is taken. Nothing is then half done. */
module Atomicity {
  import opened Wrappers
  import opened Domain
  import opened EventChain
  import opened Projection
  import opened Repository
  import opened RunProtocol
  import opened ServiceMeaning
  import EvidenceFreeze
  import Scoring

  predicate Inserts(stage: Stage) {
    stage.AppendReady? || stage.ArtifactReady? || stage.EvidenceReady? || stage.FreezeReady? || stage.ScoreReady?
  }

  // The last step of a request that writes its rows together with an event.
  predicate Commits(stage: Stage) { Inserts(stage) || stage.PassportReady? || stage.ApprovalReady? || stage.AttestSubmitted? }

  // The request was computed for a status that the run no longer has, or for a key that is now taken.
  predicate Late(t: Tables, stage: Stage) {
    match stage
    case AppendReady(_, _, expected, _) => t.run.status != expected
    case FreezeReady(frozen, _) => frozen.board.version in t.boards
    case ScoreReady(results, _) => results.boardVersion in t.checkResults
    case ApprovalReady(_, _) => t.run.status != WaitingApproval || t.approval.Some?
    case AttestSubmitted(_, _, _) => t.run.status != Running || t.receipt.Some?
    case _ => false
  }

  // Committed in full, or refused with nothing changed; late requests are conflicts.
  ghost predicate AllOrNothing(t: Tables, stage: Stage, c: Choice, m: Move) {
    && m.stage.Done? && m.submitted.None?
    && (m.tables != t ==> m.stage.reply == Reply.Accepted)
    && (m.stage.reply == Reply.Accepted ==> c.commits && SeesAll(t, c.tail) && !Late(t, stage) && |m.tables.events| > |t.events|)
    && (c.commits && Late(t, stage) ==> m.stage.reply == Conflict)
    && (!c.commits ==> m.stage.reply == Refused)
  }

  ghost predicate Begun(t: Tables) { Numbered(t.events) && t.events != map[] }

  lemma {:induction false} InsertGrows(t: Tables, rows: Tables, draft: Draft, tail: TailRead)
    requires Begun(t) && rows.events == t.events
    ensures var r := InsertEvent(rows, draft, tail);
            && (r.Ok? ==> SeesAll(t, tail) && Begun(r.value) && |r.value.events| == |t.events| + 1)
            && (r.Err? ==> r == Err(Database))
  {
    hide Log, Numbered, NextSequenceAndPrevHash;
    InsertAdds(t, rows, draft, tail);
  }

  lemma {:induction false} CommitsInFull(t: Tables, stage: Stage, c: Choice, r: Result<Tables, RepositoryError>)
    requires r.Ok? ==> SeesAll(t, c.tail) && !Late(t, stage) && |r.value.events| > |t.events|
    requires Late(t, stage) ==> r == Err(RunStateChanged) || r == Err(UniqueViolation)
    ensures AllOrNothing(t, stage, c, Commit(t, c, r))
  {
    hide SeesAll, Late;
  }

  lemma {:induction false} AppendInFull(catalog: Scoring.Catalog, t: Tables, stage: Stage, c: Choice)
    requires Begun(t) && stage.AppendReady?
    ensures AllOrNothing(t, stage, c, AdvanceRows(catalog, t, stage, c))
  {
    hide Commit, InsertEvent, AllOrNothing, SeesAll, Begun;
    var draft, p := stage.draft, stage.projected;
    InsertGrows(t, t.(run := t.run.(status := Coalesce(p.status, t.run.status),
                                    currentNode := CoalesceNode(p.currentNode, t.run.currentNode), updatedAt := draft.createdAt)),
                draft, c.tail);
    CommitsInFull(t, stage, c, AppendEventTx(t, draft, stage.expected, p.status, p.currentNode, c.tail));
  }

  lemma {:induction false} UploadInFull(catalog: Scoring.Catalog, t: Tables, stage: Stage, c: Choice)
    requires Begun(t) && (stage.ArtifactReady? || stage.EvidenceReady?)
    ensures AllOrNothing(t, stage, c, AdvanceRows(catalog, t, stage, c))
  {
    hide Commit, InsertEvent, AllOrNothing, SeesAll, Begun;
    if stage.ArtifactReady? {
      InsertGrows(t, t.(artifacts := t.artifacts[stage.artifact.artifactId := stage.artifact]), stage.draft, c.tail);
      CommitsInFull(t, stage, c, CreateArtifactTx(t, stage.artifact, stage.draft, c.tail));
    } else {
      InsertGrows(t, t.(evidence := t.evidence[stage.evidence.evidenceId := stage.evidence]), stage.draft, c.tail);
      CommitsInFull(t, stage, c, CreateEvidenceTx(t, stage.evidence, stage.draft, c.tail));
    }
  }

  lemma {:induction false} FreezeInFull(catalog: Scoring.Catalog, t: Tables, stage: Stage, c: Choice)
    requires Begun(t) && (stage.FreezeReady? || stage.ScoreReady?)
    ensures AllOrNothing(t, stage, c, AdvanceRows(catalog, t, stage, c))
  {
    hide Commit, InsertEvent, AllOrNothing, SeesAll, Begun;
    if stage.FreezeReady? {
      var board, manifest := stage.frozen.board, stage.frozen.manifest;
      InsertGrows(t, t.(boards := t.boards[board.version := board], manifests := t.manifests[board.version := manifest]),
                  stage.draft, c.tail);
      CommitsInFull(t, stage, c, CreateEvidenceFreezeTx(t, board, manifest, stage.draft, c.tail));
    } else {
      InsertGrows(t, t.(checkResults := t.checkResults[stage.results.boardVersion := stage.results]), stage.draft, c.tail);
      CommitsInFull(t, stage, c, CreateCheckResultsTx(t, stage.results, stage.draft, c.tail));
    }
  }

  lemma {:induction false} PassportInFull(t: Tables, stage: Stage, c: Choice)
    requires Begun(t) && stage.PassportReady?
    ensures AllOrNothing(t, stage, c, AdvancePassport(t, stage, c))
  {
    hide Commit, InsertEvent, AllOrNothing, SeesAll, Begun;
    InsertGrows(t, t, stage.draft, c.tail);
    CommitsInFull(t, stage, c, CreatePassportFreezeTx(t, stage.passport, stage.provenance, stage.draft, c.tail));
  }

  lemma {:induction false} ApprovalInFull(t: Tables, stage: Stage, c: Choice)
    requires Begun(t) && stage.ApprovalReady?
    ensures AllOrNothing(t, stage, c, AdvanceApproval(t, stage, c))
  {
    hide Commit, InsertEvent, AllOrNothing, SeesAll, Begun;
    var a, next := stage.approval, StatusAfter(stage.approval.decision);
    InsertGrows(t, t.(run := t.run.(status := next, currentNode := Some("human_review_gate"), updatedAt := a.decidedAt),
                      approval := Some(a)),
                stage.draft, c.tail);
    CommitsInFull(t, stage, c, CreateApprovalTx(t, a, stage.draft, WaitingApproval, next, c.tail));
  }

  lemma {:induction false} ReceiptInFull(t: Tables, stage: Stage, c: Choice)
    requires Begun(t) && stage.AttestSubmitted?
    ensures AllOrNothing(t, stage, c, AdvanceAttestation(t, stage, c))
  {
    hide Commit, InsertEvent, AllOrNothing, SeesAll, Begun, AdvanceClaim;
    var r := ReceiptOf(c.freshId, stage.commitment, stage.transactionHash, stage.claimedAt, c.now);
    var rows := t.(run := t.run.(status := Success, currentNode := Some("attest_onchain"), updatedAt := r.confirmedAt), receipt := Some(r));
    InsertGrows(t, rows, SubmittedDraft(c, r), c.tail);
    var first := InsertGeneratedEvent(rows, SubmittedDraft(c, r), c.tail);
    if first.Ok? {
      assert Begun(first.value) by { BegunEvents(InsertEvent(rows, SubmittedDraft(c, r), c.tail).value, first.value); }
      InsertGrows(first.value, first.value, ConfirmedDraft(c, r), c.nextTail);
    }
    CommitsInFull(t, stage, c, CreateReceiptTx(t, r, SubmittedDraft(c, r), ConfirmedDraft(c, r), Running, c.tail, c.nextTail));
  }

  lemma {:induction false} BegunEvents(t: Tables, u: Tables)
    requires Begun(t) && u.events == t.events
    ensures Begun(u)
  {
  }

  // The last step of any request but a claim commits its rows and its events together, and only a transaction
  // that is not aborted, has seen the whole log and is not late commits at all.
  lemma {:induction false} CommitsWhole(catalog: Scoring.Catalog, t: Tables, stage: Stage, c: Choice)
    requires Begun(t) && Commits(stage)
    ensures AllOrNothing(t, stage, c, Advance(catalog, t, stage, c))
  {
    hide AdvanceRows, AdvancePassport, AdvanceApproval, AdvanceAttestation, AllOrNothing, Begun;
    if stage.PassportReady? { PassportInFull(t, stage, c); }
    else if stage.ApprovalReady? { ApprovalInFull(t, stage, c); }
    else if stage.AttestSubmitted? { ReceiptInFull(t, stage, c); }
    else if stage.AppendReady? { AppendInFull(catalog, t, stage, c); }
    else if stage.FreezeReady? || stage.ScoreReady? { FreezeInFull(catalog, t, stage, c); }
    else { UploadInFull(catalog, t, stage, c); }
  }
}
