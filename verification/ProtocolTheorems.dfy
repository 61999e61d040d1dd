/** What holds of a run after any steps whatever: any requests, in any interleaving, with any reads
    failing or stale, any transaction aborting, any request crashing, and any answer of the chain. */
module ProtocolTheorems {
  import opened Wrappers
  import opened Domain
  import opened Sorting
  import opened EventChain
  import opened Projection
  import opened Repository
  import opened EvidenceFreeze
  import opened FreezeProperties
  import opened PassportDraft
  import opened RunProtocol
  import opened ProtocolInvariant
  import opened ProtocolProofs
  import opened ApprovalProofs
  import opened ProtocolSteps
  import opened Submissions
  import Scoring

  ghost function Reached(catalog: Scoring.Catalog, n: NewRun, steps: seq<Step>): System {
    Execute(catalog, Created(n), steps)
  }

  // ── Nothing is lost ──

  // What is stored stays stored, unchanged, and `success` and `failed` are never left.
  lemma {:induction false} RowsAreNeverLost(catalog: Scoring.Catalog, n: NewRun, steps: seq<Step>, i: nat)
    requires i <= |steps|
    ensures Extends(Reached(catalog, n, steps[..i]).tables, Reached(catalog, n, steps).tables)
    decreases |steps|
  {
    hide Inv, Extends, Next, Created;
    var now := Reached(catalog, n, steps).tables;
    if i == |steps| {
      assert steps[..i] == steps;
      ExtendsReflexive(now);
    } else {
      var before := steps[..|steps| - 1];
      RowsAreNeverLost(catalog, n, before, i);
      assert before[..i] == steps[..i];
      AlwaysInv(catalog, n, before);
      NextKeeps(catalog, Reached(catalog, n, before), steps[|steps| - 1]);
      ExtendsTransitive(Reached(catalog, n, steps[..i]).tables, Reached(catalog, n, before).tables, now);
    }
  }

  lemma {:induction false} RunIsFixed(catalog: Scoring.Catalog, n: NewRun, steps: seq<Step>)
    ensures var run := Reached(catalog, n, steps).tables.run;
            run.runId == n.runId && run.toolId == n.toolId && run.toolType == n.toolType && run.binding == n.binding
  {
    hide Grows;
    RowsAreNeverLost(catalog, n, steps, 0);
    assert steps[..0] == [];
  }

  // The first event of every run is that of its creation, at the time of its creation, and says `pending`.
  lemma {:induction false} RunBegins(catalog: Scoring.Catalog, n: NewRun, steps: seq<Step>)
    ensures var t := Reached(catalog, n, steps).tables;
            && t.run.createdAt == n.now && 1 in t.events
            && var e := t.events[1];
            && e.eventId == n.eventId && e.nodeId == "run" && e.eventType == RunCreated && e.createdAt == n.now
            && e.payload == map["status" := Json.Text("pending")]
  {
    RowsAreNeverLost(catalog, n, steps, 0);
    assert steps[..0] == [];
    assert 1 in Reached(catalog, n, []).tables.events;
  }

  // ── The chain ──

  ghost predicate GoodRow(runId: Uuid, events: map<int, Event>, s: int)
    requires s in events && (s != 1 ==> s - 1 in events)
  {
    var e := events[s];
    && e.runId == runId && e.sequence == s
    && e.prevEventHash == (if s == 1 then Zero else events[s - 1].eventHash)
    && e.eventHash == HashOf(e)
  }

  // The events are numbered 1..n, without a gap; the first links to the zero hash and every other to
  // the one before it; and each hash is the hash of its own row.
  lemma {:induction false} ChainIntegrity(catalog: Scoring.Catalog, n: NewRun, steps: seq<Step>)
    ensures var events := Reached(catalog, n, steps).tables.events;
            && |events| >= 1
            && (forall s :: s in events <==> 1 <= s <= |events|)
            && (forall s :: s in events ==> GoodRow(n.runId, events, s))
  {
    hide Execute, Created, SummaryInv, EvidenceInv, BoardsInv, ResultsInv, PassportsInv, ApprovalInv, AttestationInv, CountInv, Knows,
         SubmissionInv;
    AlwaysInv(catalog, n, steps);
    RunIsFixed(catalog, n, steps);
    var events := Reached(catalog, n, steps).tables.events;
    forall s | s in events ensures GoodRow(n.runId, events, s) {
      assert LinkedAt(n.runId, Log(events), s - 1);
    }
  }

  lemma {:induction false} LogIsChained(catalog: Scoring.Catalog, n: NewRun, steps: seq<Step>)
    ensures var events := Reached(catalog, n, steps).tables.events;
            Numbered(events) && Chained(n.runId, Log(events))
  {
    hide Execute, Created, SummaryInv, EvidenceInv, BoardsInv, ResultsInv, PassportsInv, ApprovalInv, AttestationInv, CountInv, Knows,
         SubmissionInv, Chained;
    AlwaysInv(catalog, n, steps);
    RunIsFixed(catalog, n, steps);
  }

  // ── The summary ──

  // Status, current node and time of the run row are those that replaying the log gives, although each
  // was computed from an earlier read; and no run is ever cancelled.
  lemma {:induction false} SummaryIsReplay(catalog: Scoring.Catalog, n: NewRun, steps: seq<Step>)
    ensures var t := Reached(catalog, n, steps).tables;
            Numbered(t.events) && SummaryOf(t.run) == Replay(Log(t.events)) && t.run.status != Cancelled
  {
    hide Execute, Created, LogInv, EvidenceInv, BoardsInv, ResultsInv, PassportsInv, ApprovalInv, AttestationInv, CountInv, Knows,
         SubmissionInv;
    AlwaysInv(catalog, n, steps);
  }

  // Every event after the first was allowed by the status that the events before it led to.
  lemma {:induction false} EventsAreAllowed(catalog: Scoring.Catalog, n: NewRun, steps: seq<Step>)
    ensures var t := Reached(catalog, n, steps).tables;
            && Numbered(t.events) && t.events != map[] && Log(t.events)[0].eventType == RunCreated
            && AllAllowed(Log(t.events))
  {
    hide Execute, Created, EvidenceInv, BoardsInv, ResultsInv, PassportsInv, ApprovalInv, AttestationInv, CountInv, Knows,
         SubmissionInv, AllAllowed;
    AlwaysInv(catalog, n, steps);
  }

  // The ways out of the gate, and the ways to success.
  ghost predicate LeavesGate(e: Event, to: RunStatus) {
    e.eventType == ApprovalResolved || (e.eventType == RunStatusChanged && AsksFor(e.payload, "failed") && to == RunStatus.Failed)
  }

  ghost predicate Succeeds(from: RunStatus, e: Event) {
    || (e.eventType == RunStatusChanged && AsksFor(e.payload, "success") && from == Running)
    || (e.eventType == ApprovalResolved && AsksDecision(e.payload, "approve_offchain") && from == WaitingApproval)
    || (e.eventType == EventType.AttestationSubmitted && from == Running)
  }

  predicate AsksDecision(payload: Payload, decision: string) { "decision" in payload && payload["decision"] == Json.Text(decision) }

  lemma {:induction false} AllowedMoves(before: Summary, e: Event)
    requires Allowed(before.status, e.eventType, e.payload)
    ensures var to := ReplayStep(before, e).status;
            && (before.status == WaitingApproval && to != WaitingApproval ==> LeavesGate(e, to))
            && (to == WaitingApproval && before.status != WaitingApproval ==> e.eventType == ApprovalRequired && before.status == Running)
            && (to == Success && before.status != Success ==> Succeeds(before.status, e))
  {
  }

  // A run waits for approval until a decision is stored or it is made to fail, comes to wait only from
  // `running`, and succeeds only by a caller's word while it runs, by the approval it waits for, or by an
  // attestation while it runs.
  lemma {:induction false} GateIsKept(catalog: Scoring.Catalog, n: NewRun, steps: seq<Step>, i: nat)
    requires 1 <= i < |Reached(catalog, n, steps).tables.events|
    ensures var events := Reached(catalog, n, steps).tables.events;
            && Numbered(events)
            && var log := Log(events); var from, to := Replay(log[..i]).status, Replay(log[..i + 1]).status;
            && (from == WaitingApproval && to != WaitingApproval ==> LeavesGate(log[i], to))
            && (to == WaitingApproval && from != WaitingApproval ==> log[i].eventType == ApprovalRequired && from == Running)
            && (to == Success && from != Success ==> Succeeds(from, log[i]))
  {
    hide Reached, Allowed, LeavesGate, Succeeds, Log, Numbered, ReplayStep;
    EventsAreAllowed(catalog, n, steps);
    var log := Log(Reached(catalog, n, steps).tables.events);
    assert log[..i + 1] == log[..i] + [log[i]];
    ReplayAppend(log[..i], log[i]);
    AllowedMoves(Replay(log[..i]), log[i]);
  }

  // Of what the log says, only this ends a run with the given status.
  ghost predicate Ends(e: Event, to: RunStatus) {
    || (e.eventType == RunStatusChanged && RequestedTerminalStatus(e.payload) == Ok(to))
    || (e.eventType == ApprovalResolved && "decision" in e.payload
        && e.payload["decision"] == Json.Text(DecisionText(if to == Success then ApproveOffchain else Reject)))
    || (to == Success && AttestationEvent(e.eventType))
  }

  lemma {:induction false} TerminalHasCause(log: seq<Event>, to: RunStatus)
    requires Terminal(to) && Replay(log).status == to
    ensures exists i :: 0 <= i < |log| && Ends(log[i], to)
  {
    var n := |log| - 1;
    if Replay(log[..n]).status == to {
      TerminalHasCause(log[..n], to);
      var i :| 0 <= i < n && Ends(log[..n][i], to);
      assert Ends(log[i], to);
    } else {
      assert Ends(log[n], to);
    }
  }

  lemma {:induction false} EndsSetsStatus(s: Summary, e: Event, to: RunStatus)
    requires Terminal(to) && Ends(e, to)
    ensures ReplayStep(s, e).status == to
  {
    if e.eventType == ApprovalResolved { DecisionTextsDiffer(to); }
  }

  lemma {:induction false} CauseIsTerminal(log: seq<Event>, i: nat, to: RunStatus)
    requires Terminal(to) && TerminalAbsorbs(log) && i < |log| && Ends(log[i], to)
    ensures Replay(log).status == to
  {
    hide ReplayStep, Ends;
    assert log[..i + 1] == log[..i] + [log[i]];
    ReplayAppend(log[..i], log[i]);
    EndsSetsStatus(Replay(log[..i]), log[i], to);
  }

  lemma {:induction false} DecisionTextsDiffer(to: RunStatus)
    requires Terminal(to)
    ensures to == Success ==> DecisionText(ApproveOffchain) == "approve_offchain"
    ensures to == RunStatus.Failed ==>
              DecisionText(Reject) == "reject" && "reject" != "approve_offchain" && "reject" != "approve_testnet_attestation"
  {
    assert "reject"[0] == 'r' && "approve_offchain"[0] == 'a' && "approve_testnet_attestation"[0] == 'a';
  }

  // A run has succeeded, or failed, exactly when its log holds an event that says so: an accepted
  // `run_status_changed`, a decision, or (for success) an attestation. An approval is only one way.
  lemma {:induction false} StatusHasCause(catalog: Scoring.Catalog, n: NewRun, steps: seq<Step>, to: RunStatus)
    requires Terminal(to)
    ensures var t := Reached(catalog, n, steps).tables;
            Numbered(t.events) && (t.run.status == to <==> exists i :: 0 <= i < |t.events| && Ends(Log(t.events)[i], to))
  {
    hide Execute, Created, LogInv, EvidenceInv, BoardsInv, ResultsInv, PassportsInv, ApprovalInv, AttestationInv, CountInv, Knows,
         SubmissionInv, Replay, Ends;
    AlwaysInv(catalog, n, steps);
    var t := Reached(catalog, n, steps).tables;
    var log := Log(t.events);
    if t.run.status == to { TerminalHasCause(log, to); }
    if i: nat :| i < |log| && Ends(log[i], to) { CauseIsTerminal(log, i, to); }
  }

  // ── Passports ──

  // The event announces passport k, and its hash is the audit log hash of provenance k.
  ghost predicate Announces(t: Tables, k: int, e: Event) {
    && k in t.passports && k in t.provenances
    && t.passports[k].sequence == k
    && t.provenances[k].passportSequence == k && t.provenances[k].freezeVersion == k
    && t.provenances[k].passportHash == OfPassport(t.passports[k])
    && t.provenances[k].auditLogHash == e.eventHash
    && e.payload == ProvenancePayload(t.passports[k])
  }

  // Passports are numbered 1..n without a gap, and the k-th `provenance_frozen` event announces the
  // k-th passport, carries its hash, and is the event whose hash is the audit log hash of provenance k.
  lemma {:induction false} PassportsFollowTheLog(catalog: Scoring.Catalog, n: NewRun, steps: seq<Step>)
    ensures var t := Reached(catalog, n, steps).tables;
            && Numbered(t.events)
            && (forall k :: k in t.passports <==> 1 <= k <= |t.passports|)
            && t.provenances.Keys == t.passports.Keys
            && var frozen := OfType(Log(t.events), ProvenanceFrozen);
            && |frozen| == |t.passports|
            && forall i :: 0 <= i < |frozen| ==> Announces(t, i + 1, frozen[i])
  {
    hide Execute, Created, LogInv, SummaryInv, EvidenceInv, BoardsInv, ResultsInv, ApprovalInv, AttestationInv, CountInv, Knows,
         SubmissionInv, PassportGood, OfType, Log, Numbered, ProvenancePayload;
    AlwaysInv(catalog, n, steps);
    var t := Reached(catalog, n, steps).tables;
    var frozen := OfType(Log(t.events), ProvenanceFrozen);
    forall i | 0 <= i < |frozen| ensures Announces(t, i + 1, frozen[i]) {
      assert PassportRow(t, Log(t.events), i + 1);
    }
  }

  // The audit log hash of a passport commits to the log up to its freeze: whatever log still checks as
  // a chain and carries that hash anywhere is this run's, has the freeze at the same place, and agrees
  // with the stored log in every hashed field up to there.
  lemma {:induction false} AuditHashCommitsToHistory(catalog: Scoring.Catalog, n: NewRun, steps: seq<Step>, k: int, runId: Uuid,
                                                     other: seq<Event>, j: nat)
    requires k in Reached(catalog, n, steps).tables.provenances
    requires Chained(runId, other) && j < |other|
    requires other[j].eventHash == Reached(catalog, n, steps).tables.provenances[k].auditLogHash
    ensures var t := Reached(catalog, n, steps).tables;
            && Numbered(t.events) && runId == n.runId && j < |t.events|
            && Log(t.events)[j].eventType == ProvenanceFrozen
            && SameHistory(Log(t.events)[..j + 1], other[..j + 1])
  {
    hide Reached, Chained, Log, Numbered, OfType, SameHistory;
    PassportsFollowTheLog(catalog, n, steps);
    LogIsChained(catalog, n, steps);
    var log := Log(Reached(catalog, n, steps).tables.events);
    assert Announces(Reached(catalog, n, steps).tables, k, OfType(log, ProvenanceFrozen)[k - 1]);
    var i := OfTypeOccurs(log, ProvenanceFrozen, k - 1);
    HashCommitsToHistory(n.runId, log, i, runId, other, j);
  }

  // ── References ──

  ghost predicate ResultsCite(t: Tables, r: CheckResults) {
    && r.runId == t.run.runId && r.boardVersion in t.boards
    && forall i, u :: 0 <= i < |r.results| && u in r.results[i].evidenceIds ==> u in t.boards[r.boardVersion].evidenceIds
  }

  // Every reference between the stored rows resolves: a passport names the check results and the board
  // of its own run and version, carries their scores and cites only that board's evidence; check
  // results cite only their board's evidence; a board's evidence is stored, strictly sorted, and its
  // manifest lists it in that order with the stored hashes.
  lemma {:induction false} ReferencesResolve(catalog: Scoring.Catalog, n: NewRun, steps: seq<Step>)
    ensures var t := Reached(catalog, n, steps).tables;
            && (forall k :: k in t.passports ==> PassportGood(t, t.passports[k]))
            && (forall v :: v in t.checkResults ==> t.checkResults[v].boardVersion == v && ResultsCite(t, t.checkResults[v]))
            && (forall v :: v in t.boards ==> v in t.manifests && t.boards[v].version == v && BoardGood(t, t.boards[v], t.manifests[v]))
            && (forall e :: e in t.evidence ==> SnapshotPresent(t.evidence[e], t.artifacts))
  {
    hide Execute, Created, LogInv, SummaryInv, ApprovalInv, AttestationInv, CountInv, Knows, SubmissionInv, PassportGood, ProvenanceGood,
         BoardGood, OfType, Log, Numbered, ProvenancePayload;
    AlwaysInv(catalog, n, steps);
    var t := Reached(catalog, n, steps).tables;
    forall k | k in t.passports ensures PassportGood(t, t.passports[k]) { assert PassportRow(t, Log(t.events), k); }
    forall v | v in t.checkResults ensures ResultsCite(t, t.checkResults[v]) { assert ResultsGood(t, t.checkResults[v]); }
  }

  // The branch that reports a missing snapshot is unreachable.
  lemma {:induction false} NeverCorrupt(catalog: Scoring.Catalog, n: NewRun, steps: seq<Step>)
    ensures forall q :: q in Reached(catalog, n, steps).requests ==> Reached(catalog, n, steps).requests[q] != Done(CorruptData)
  {
    hide Execute, Created, TablesInv, SubmissionInv, KnowsPassport, KnowsApproval, KnowsAttestation;
    AlwaysInv(catalog, n, steps);
  }

  // Boards, check results, approvals and receipts are as many as the events that announce them; a receipt
  // is announced by a submission and a confirmation.
  lemma {:induction false} EventsCountRows(catalog: Scoring.Catalog, n: NewRun, steps: seq<Step>)
    ensures var t := Reached(catalog, n, steps).tables;
            && Numbered(t.events)
            && |OfType(Log(t.events), EvidenceBoardFrozen)| == |t.boards|
            && |OfType(Log(t.events), ScoreChanged)| == |t.checkResults|
            && |OfType(Log(t.events), ApprovalResolved)| == (if t.approval.Some? then 1 else 0)
            && |OfType(Log(t.events), EventType.AttestationSubmitted)| == (if t.receipt.Some? then 1 else 0)
            && |OfType(Log(t.events), AttestationConfirmed)| == (if t.receipt.Some? then 1 else 0)
  {
    hide Execute, Created, LogInv, SummaryInv, EvidenceInv, BoardsInv, ResultsInv, PassportsInv, ApprovalGood, BoundCommitment, OfType,
         Log, Numbered, Knows, SubmissionInv;
    AlwaysInv(catalog, n, steps);
  }

  // ── Approval and attestation ──

  // A stored approval binds a frozen provenance of the run, and its event follows the event of that freeze.
  lemma {:induction false} ApprovalBindsAFreeze(catalog: Scoring.Catalog, n: NewRun, steps: seq<Step>)
    requires Reached(catalog, n, steps).tables.approval.Some?
    ensures var t := Reached(catalog, n, steps).tables; var a := t.approval.value;
            && a.passportSequence in t.provenances
            && Binds(a.passportHash, a.auditLogHash, a.manifestHash, t.provenances[a.passportSequence])
            && (a.decision == ApproveOffchain ==> t.run.status == Success)
            && (a.decision == Reject ==> t.run.status == RunStatus.Failed)
            && Numbered(t.events) && exists i: nat, j: nat :: ApprovedAt(Log(t.events), a, i, j)
  {
    hide Execute, Created, LogInv, SummaryInv, EvidenceInv, BoardsInv, ResultsInv, PassportsInv, AttestationInv, CountInv, OfType, Log,
         Numbered, Knows, SubmissionInv, ApprovedAt;
    AlwaysInv(catalog, n, steps);
  }

  // The chain is called at most once in the life of a run, and then with the commitment that the stored
  // testnet approval and the provenance it names determine. A stored receipt carries that commitment.
  lemma {:induction false} SubmitsAtMostOnce(catalog: Scoring.Catalog, n: NewRun, steps: seq<Step>)
    ensures var s := Reached(catalog, n, steps);
            && |s.submissions| <= 1
            && (|s.submissions| == 1 ==> BoundCommitment(s.tables, s.submissions[0]))
            && (s.tables.receipt.Some? ==> s.submissions == [s.tables.receipt.value.commitment])
            && (s.submissions != [] ==> s.tables.attempt == Some(s.tables.approval.value.approvalId))
  {
    hide Execute, Created, LogInv, SummaryInv, EvidenceInv, BoardsInv, ResultsInv, PassportsInv, ApprovalInv, CountInv, OfType, Log,
         Numbered, Knows, AttestedAt;
    AlwaysInv(catalog, n, steps);
    var s := Reached(catalog, n, steps);
    if s.submissions != [] { assert BoundCommitment(s.tables, s.submissions[0]); }
  }

  // The commitment names the run and its tool as they were created; the passport that the stored approval
  // names, by its hash; the event that froze it, by its hash; the manifest of its board, by its hash; and the
  // chain and the contract of the approval.
  ghost predicate CommitsTo(n: NewRun, t: Tables, m: Commitment)
    requires Numbered(t.events)
  {
    && t.approval.Some? && var a := t.approval.value; var k := a.passportSequence; var frozen := OfType(Log(t.events), ProvenanceFrozen);
    && m.runId == n.runId && m.toolId == n.toolId && m.toolType == n.toolType && m.onchainRunId == OfRunId(n.runId)
    && Some(m.chainId) == a.chainId && Some(m.registryContract) == a.registryContract
    && k in t.passports && m.passportHash == OfPassport(t.passports[k])
    && 1 <= k <= |frozen| && m.auditLogHash == frozen[k - 1].eventHash
    && t.passports[k].boardVersion in t.manifests && m.manifestHash == OfManifest(t.manifests[t.passports[k].boardVersion])
  }

  lemma {:induction false} BoundCommitsTo(n: NewRun, t: Tables, m: Commitment)
    requires TablesInv(t) && BoundCommitment(t, m)
    requires t.run.runId == n.runId && t.run.toolId == n.toolId && t.run.toolType == n.toolType
    ensures CommitsTo(n, t, m)
  {
    hide LogInv, SummaryInv, EvidenceInv, BoardsInv, ResultsInv, ApprovalInv, AttestationInv, CountInv, Log, Numbered, OfType,
         ProvenancePayload;
    assert PassportRow(t, Log(t.events), t.approval.value.passportSequence);
  }

  // Whatever reaches the chain, and whatever a receipt says did, commits to exactly that.
  lemma {:induction false} SubmissionsCommit(catalog: Scoring.Catalog, n: NewRun, steps: seq<Step>)
    ensures var s := Reached(catalog, n, steps);
            && Numbered(s.tables.events)
            && (forall i :: 0 <= i < |s.submissions| ==> CommitsTo(n, s.tables, s.submissions[i]))
            && (s.tables.receipt.Some? ==> CommitsTo(n, s.tables, s.tables.receipt.value.commitment))
  {
    hide Execute, Created, RowsInv, BoundCommitment, Knows, CommitsTo;
    AlwaysInv(catalog, n, steps);
    RunIsFixed(catalog, n, steps);
    var s := Reached(catalog, n, steps);
    forall i | 0 <= i < |s.submissions| ensures CommitsTo(n, s.tables, s.submissions[i]) { BoundCommitsTo(n, s.tables, s.submissions[i]); }
    if s.tables.receipt.Some? { assert s.submissions[0] == s.tables.receipt.value.commitment; }
  }

  // A run with a receipt has succeeded, for good, and its log holds the submission and the confirmation
  // of that receipt side by side, after the approval, which comes after the freeze that it binds.
  lemma {:induction false} ReceiptFollowsApproval(catalog: Scoring.Catalog, n: NewRun, steps: seq<Step>, i: nat)
    requires i <= |steps| && Reached(catalog, n, steps[..i]).tables.receipt.Some?
    ensures var t := Reached(catalog, n, steps).tables;
            && t.receipt == Reached(catalog, n, steps[..i]).tables.receipt
            && t.run.status == Success && t.approval.Some? && BoundCommitment(t, t.receipt.value.commitment)
            && Numbered(t.events)
            && exists f: nat, a: nat, s: nat :: AttestedAt(Log(t.events), t.approval.value, t.receipt.value, f, a, s)
  {
    hide Execute, Created, LogInv, SummaryInv, EvidenceInv, BoardsInv, ResultsInv, PassportsInv, ApprovalInv, CountInv, OfType, Log,
         Numbered, Knows, SubmissionInv, AttestedAt, Grows;
    AlwaysInv(catalog, n, steps);
    RowsAreNeverLost(catalog, n, steps, i);
  }

  // A request that crashes between its claim and its receipt ends the attestation of its run: claims are
  // never deleted, so whatever is requested later, nothing more is submitted and no receipt is stored.
  lemma {:induction false} LostClaimIsFinal(catalog: Scoring.Catalog, n: NewRun, steps: seq<Step>, i: nat)
    requires i <= |steps| && Stranded(Reached(catalog, n, steps[..i]))
    ensures Stranded(Reached(catalog, n, steps)) && Reached(catalog, n, steps).tables.receipt.None?
    ensures Reached(catalog, n, steps).submissions == Reached(catalog, n, steps[..i]).submissions
    decreases |steps|
  {
    hide Next, Created;
    if i == |steps| {
      assert steps[..i] == steps;
    } else {
      var before := steps[..|steps| - 1];
      assert before[..i] == steps[..i];
      LostClaimIsFinal(catalog, n, before, i);
      StrandedStays(catalog, Reached(catalog, n, before), steps[|steps| - 1]);
    }
  }

  // ── All runs ──

  // The steps that reach one run, in order: those addressed to it once it exists.
  ghost function StepsOf(catalog: Scoring.Catalog, steps: seq<WorldStep>, runId: Uuid): seq<Step> {
    if steps == [] then []
    else
      var before, last := steps[..|steps| - 1], steps[|steps| - 1];
      if last.On? && last.runId == runId && runId in WorldExecute(catalog, before) then StepsOf(catalog, before, runId) + [last.step]
      else StepsOf(catalog, before, runId)
  }

  lemma {:induction false} NoStepsBeforeCreation(catalog: Scoring.Catalog, steps: seq<WorldStep>, runId: Uuid)
    requires runId !in WorldExecute(catalog, steps)
    ensures StepsOf(catalog, steps, runId) == []
  {
    hide Next, Created;
    if steps != [] { NoStepsBeforeCreation(catalog, steps[..|steps| - 1], runId); }
  }

  lemma {:induction false} ExecuteAppend(catalog: Scoring.Catalog, s: System, steps: seq<Step>, step: Step)
    ensures Execute(catalog, s, steps + [step]) == Next(catalog, Execute(catalog, s, steps), step)
  {
    hide Next;
    assert (steps + [step])[..|steps|] == steps;
  }

  lemma {:induction false} ExecuteNothing(catalog: Scoring.Catalog, s: System)
    ensures Execute(catalog, s, []) == s
  {
  }

  // A run of the world is what its own steps alone make of it, so all of the above holds of it.
  lemma {:induction false} RunsAreIndependent(catalog: Scoring.Catalog, steps: seq<WorldStep>, runId: Uuid) returns (n: NewRun)
    requires runId in WorldExecute(catalog, steps)
    ensures n.runId == runId && WorldExecute(catalog, steps)[runId] == Reached(catalog, n, StepsOf(catalog, steps, runId))
  {
    hide Next, Created, Execute;
    var before, last := steps[..|steps| - 1], steps[|steps| - 1];
    if runId in WorldExecute(catalog, before) {
      n := RunsAreIndependent(catalog, before, runId);
      if last.On? && last.runId == runId { ExecuteAppend(catalog, Created(n), StepsOf(catalog, before, runId), last.step); }
    } else {
      NoStepsBeforeCreation(catalog, before, runId);
      n := last.newRun;
      ExecuteNothing(catalog, Created(n));
    }
  }

  // An event hash names one event in the whole database: its run and its place.
  lemma {:induction false} HashesAreUnique(catalog: Scoring.Catalog, steps: seq<WorldStep>, a: Uuid, i: int, b: Uuid, j: int)
    requires var w := WorldExecute(catalog, steps);
             && a in w && b in w && i in w[a].tables.events && j in w[b].tables.events
             && w[a].tables.events[i].eventHash == w[b].tables.events[j].eventHash
    ensures a == b && i == j
  {
    hide WorldExecute, Execute, Created, Chained;
    var w := WorldExecute(catalog, steps);
    var n := RunsAreIndependent(catalog, steps, a);
    var m := RunsAreIndependent(catalog, steps, b);
    LogIsChained(catalog, n, StepsOf(catalog, steps, a));
    LogIsChained(catalog, m, StepsOf(catalog, steps, b));
    HashCommitsToHistory(a, Log(w[a].tables.events), i - 1, b, Log(w[b].tables.events), j - 1);
  }
}
