/** Every transaction keeps the invariant and loses no row. */
module ProtocolProofs {
  import opened Wrappers
  import opened Domain
  import opened Sorting
  import opened EventChain
  import opened Projection
  import opened Repository
  import opened EvidenceFreeze
  import opened PassportDraft
  import opened RunProtocol
  import opened FreezeProperties
  import opened ProtocolInvariant
  import Scoring
  import Text

  // ── One event more ──

  // `u` is `t` with one event after its log, linked there and replayed in the summary.
  ghost predicate Appended(t: Tables, log: seq<Event>, u: Tables, e: Event) {
    && SameRun(t.run, u.run)
    && LinkedAt(u.run.runId, log + [e], |log|)
    && SummaryOf(u.run) == ReplayStep(SummaryOf(t.run), e)
    && u.run.status != Cancelled
    && Allowed(t.run.status, e.eventType, e.payload)
  }

  ghost predicate HasLog(t: Tables, log: seq<Event>) { Numbered(t.events) && Log(t.events) == log }

  lemma {:induction false} AbsorbsAppend(log: seq<Event>, e: Event)
    requires TerminalAbsorbs(log)
    requires Terminal(Replay(log).status) ==> ReplayStep(Replay(log), e).status == Replay(log).status
    ensures TerminalAbsorbs(log + [e])
  {
    hide ReplayStep;
    var all := log + [e];
    ReplayAppend(log, e);
    forall k | 0 <= k <= |all| && Terminal(Replay(all[..k]).status) ensures Replay(all).status == Replay(all[..k]).status {
      if k <= |log| { assert all[..k] == log[..k]; } else { assert all[..k] == all; }
    }
  }

  lemma {:induction false} AllowedAppend(log: seq<Event>, e: Event)
    requires AllAllowed(log) && Allowed(Replay(log).status, e.eventType, e.payload)
    ensures AllAllowed(log + [e])
  {
    hide Allowed, Replay;
    var all := log + [e];
    forall i | 1 <= i < |all| ensures Allowed(Replay(all[..i]).status, all[i].eventType, all[i].payload) {
      if i < |log| { assert all[..i] == log[..i]; } else { assert all[..i] == log; }
    }
  }

  lemma {:induction false} LogKept(t: Tables, log: seq<Event>, u: Tables, e: Event)
    requires LogInv(t, log) && SummaryInv(t, log) && Appended(t, log, u, e) && Extends(t, u)
    ensures LogInv(u, log + [e]) && SummaryInv(u, log + [e])
  {
    ReplayAppend(log, e);
    AbsorbsAppend(log, e);
    AllowedAppend(log, e);
    forall i | 0 <= i < |log| + 1 ensures LinkedAt(u.run.runId, log + [e], i) {
      if i < |log| { assert LinkedAt(t.run.runId, log, i); }
    }
  }

  lemma {:induction false} EventsGrow(t: Tables, u: Tables, e: Event)
    requires Numbered(t.events) && HasLog(u, Log(t.events) + [e])
    ensures Grows(t.events, u.events)
  {
    forall s | s in t.events ensures s in u.events && u.events[s] == t.events[s] {
      assert Log(u.events)[s - 1] == Log(t.events)[s - 1];
    }
  }

  // What an insert into the log yields, when it is not refused.
  lemma {:induction false} Inserted(t: Tables, log: seq<Event>, draft: Draft, tail: TailRead) returns (e: Event)
    requires HasLog(t, log) && InsertEvent(t, draft, tail).Ok?
    ensures var u := InsertEvent(t, draft, tail).value;
            && e == Seal(t.run.runId, |log| + 1, draft, LinkBefore(log, |log|))
            && u == t.(events := u.events) && HasLog(u, log + [e]) && Grows(t.events, u.events)
            && LinkedAt(t.run.runId, log + [e], |log|)
            && NextSequenceAndPrevHash(t.events, tail).0 == |log| + 1
            && |log| + 1 in u.events && u.events[|log| + 1] == e
  {
    e := Seal(t.run.runId, |log| + 1, draft, LinkBefore(log, |log|));
    InsertAppendsOrFails(t, draft, tail);
    EventsGrow(t, InsertEvent(t, draft, tail).value, e);
  }

  // Event types that leave the summary alone but for its time.
  predicate Silent(ty: EventType) {
    ty.ArtifactCreated? || ty.EvidenceCreated? || ty.EvidenceBoardFrozen? || ty.ScoreChanged? || ty.ProvenanceFrozen?
  }

  // A generated event inserted after `rows` has changed the run and other tables of `t`.
  lemma {:induction false} GeneratedInsert(t: Tables, log: seq<Event>, rows: Tables, draft: Draft, tail: TailRead) returns (e: Event)
    requires HasLog(t, log) && rows.events == t.events && SameRun(t.run, rows.run)
    requires InsertGeneratedEvent(rows, draft, tail).Ok?
    requires rows.run.status != Cancelled && Allowed(t.run.status, draft.eventType, draft.payload)
    requires forall e: Event :: e.eventType == draft.eventType && e.payload == draft.payload && e.createdAt == draft.createdAt ==>
               ReplayStep(SummaryOf(t.run), e) == SummaryOf(rows.run).(updatedAt := draft.createdAt)
    ensures var u := InsertGeneratedEvent(rows, draft, tail).value;
            && HasLog(u, log + [e]) && Grows(t.events, u.events) && Appended(t, log, u, e)
            && e.eventType == draft.eventType && e.payload == draft.payload
            && u == rows.(events := u.events, run := u.run) && u.run == rows.run.(updatedAt := draft.createdAt)
            && NextSequenceAndPrevHash(t.events, tail).0 == |log| + 1
            && |log| + 1 in u.events && u.events[|log| + 1] == e
  {
    e := Inserted(rows, log, draft, tail);
  }

  // A silent event inserted after a row has been added to another table.
  lemma {:induction false} SilentInsert(t: Tables, log: seq<Event>, rows: Tables, draft: Draft, tail: TailRead) returns (e: Event)
    requires HasLog(t, log) && SummaryInv(t, log) && Silent(draft.eventType)
    requires rows.run == t.run && rows.events == t.events && Extends(t, rows)
    requires InsertGeneratedEvent(rows, draft, tail).Ok?
    ensures var u := InsertGeneratedEvent(rows, draft, tail).value;
            && HasLog(u, log + [e]) && Appended(t, log, u, e) && Extends(t, u)
            && e.eventType == draft.eventType && e.payload == draft.payload
            && u == rows.(events := u.events, run := u.run)
            && NextSequenceAndPrevHash(t.events, tail).0 == |log| + 1
            && |log| + 1 in u.events && u.events[|log| + 1] == e
  {
    hide Log, Numbered, Appended;
    e := GeneratedInsert(t, log, rows, draft, tail);
  }

  // ── Parts of the invariant that an event does not touch ──

  lemma {:induction false} EvidenceKept(t: Tables, u: Tables)
    requires EvidenceInv(t) && SameRun(t.run, u.run) && u.artifacts == t.artifacts && u.evidence == t.evidence
    ensures EvidenceInv(u)
  {
  }

  lemma {:induction false} BoardsKept(t: Tables, u: Tables)
    requires BoardsInv(t) && Extends(t, u) && u.boards == t.boards && u.manifests == t.manifests
    ensures BoardsInv(u)
  {
    forall v | v in u.boards ensures BoardGood(u, u.boards[v], u.manifests[v]) {
      BoardStable(t, u, t.boards[v], t.manifests[v]);
    }
  }

  lemma {:induction false} ResultsKept(t: Tables, u: Tables)
    requires ResultsInv(t) && Extends(t, u) && u.checkResults == t.checkResults
    ensures ResultsInv(u)
  {
    forall v | v in u.checkResults ensures ResultsGood(u, u.checkResults[v]) {
      assert ResultsGood(t, t.checkResults[v]);
    }
  }

  lemma {:induction false} PassportsKept(t: Tables, log: seq<Event>, u: Tables, e: Event)
    requires PassportsInv(t, log) && Extends(t, u) && e.eventType != ProvenanceFrozen
    requires u.passports == t.passports && u.provenances == t.provenances
    ensures PassportsInv(u, log + [e])
  {
    OfTypeAppend(log, e, ProvenanceFrozen);
    forall k | 1 <= k <= |u.passports| ensures PassportRow(u, log + [e], k) {
      assert PassportRow(t, log, k);
      PassportStable(t, u, t.passports[k], t.provenances[k]);
    }
  }

  lemma {:induction false} ApprovedLater(log: seq<Event>, e: Event, a: Approval)
    requires exists i: nat, j: nat :: ApprovedAt(log, a, i, j)
    ensures exists i: nat, j: nat :: ApprovedAt(log + [e], a, i, j)
  {
    var i: nat, j: nat :| ApprovedAt(log, a, i, j);
    assert ApprovedAt(log + [e], a, i, j);
  }

  lemma {:induction false} ApprovalKept(t: Tables, log: seq<Event>, u: Tables, e: Event)
    requires ApprovalInv(t, log) && Extends(t, u) && e.eventType != ApprovalResolved && u.approval == t.approval
    ensures ApprovalInv(u, log + [e])
  {
    OfTypeAppend(log, e, ApprovalResolved);
    if t.approval.Some? { ApprovedLater(log, e, t.approval.value); }
  }

  lemma {:induction false} AttestedLater(log: seq<Event>, e: Event, a: Approval, r: Receipt)
    requires exists i: nat, j: nat, s: nat :: AttestedAt(log, a, r, i, j, s)
    ensures exists i: nat, j: nat, s: nat :: AttestedAt(log + [e], a, r, i, j, s)
  {
    var i: nat, j: nat, s: nat :| AttestedAt(log, a, r, i, j, s);
    assert AttestedAt(log + [e], a, r, i, j, s);
  }

  predicate AttestationEvent(ty: EventType) { ty.AttestationSubmitted? || ty.AttestationConfirmed? }

  lemma {:induction false} AttestationKept(t: Tables, log: seq<Event>, u: Tables, e: Event)
    requires AttestationInv(t, log) && Extends(t, u) && !AttestationEvent(e.eventType)
    requires u.receipt == t.receipt && u.attempt == t.attempt
    ensures AttestationInv(u, log + [e])
  {
    OfTypeAppend(log, e, EventType.AttestationSubmitted);
    OfTypeAppend(log, e, AttestationConfirmed);
    if t.receipt.Some? { AttestedLater(log, e, t.approval.value, t.receipt.value); }
  }

  lemma {:induction false} CountKept(t: Tables, log: seq<Event>, u: Tables, e: Event)
    requires CountInv(t, log)
    requires |u.boards| == |t.boards| + (if e.eventType == EvidenceBoardFrozen then 1 else 0)
    requires |u.checkResults| == |t.checkResults| + (if e.eventType == ScoreChanged then 1 else 0)
    ensures CountInv(u, log + [e])
  {
    OfTypeAppend(log, e, EvidenceBoardFrozen);
    OfTypeAppend(log, e, ScoreChanged);
  }

  // Everything about passports, approvals and attestations, when none of their rows or events is added.
  lemma {:induction false} OthersKept(t: Tables, log: seq<Event>, u: Tables, e: Event)
    requires RowsInv(t, log) && Extends(t, u) && Appended(t, log, u, e)
    requires e.eventType != ProvenanceFrozen && e.eventType != ApprovalResolved && !AttestationEvent(e.eventType)
    requires u.passports == t.passports && u.provenances == t.provenances
    requires u.approval == t.approval && u.receipt == t.receipt && u.attempt == t.attempt
    ensures LogInv(u, log + [e]) && SummaryInv(u, log + [e])
    ensures PassportsInv(u, log + [e]) && ApprovalInv(u, log + [e]) && AttestationInv(u, log + [e])
  {
    hide LogInv, SummaryInv, EvidenceInv, BoardsInv, ResultsInv, PassportsInv, ApprovalInv, AttestationInv, CountInv;
    LogKept(t, log, u, e);
    PassportsKept(t, log, u, e);
    ApprovalKept(t, log, u, e);
    AttestationKept(t, log, u, e);
  }

  // ── The transactions ──

  lemma {:induction false} AppendedSameRun(t: Tables, log: seq<Event>, u: Tables, e: Event)
    requires Appended(t, log, u, e)
    ensures SameRun(t.run, u.run)
  {
  }

  // What a committed transaction owes: the invariant, and no row lost.
  ghost predicate Kept(t: Tables, u: Tables) { TablesInv(u) && Extends(t, u) }

  lemma {:induction false} RunMoved(t: Tables, u: Tables)
    requires u == t.(run := u.run, events := u.events) && SameRun(t.run, u.run) && Grows(t.events, u.events)
    requires Terminal(t.run.status) ==> u.run.status == t.run.status
    ensures Extends(t, u)
  {
  }

  lemma {:induction false} HasLogOf(t: Tables, u: Tables, log: seq<Event>)
    requires HasLog(t, log) && u.events == t.events
    ensures HasLog(u, log)
  {
  }

  // The rows after a caller's event: the run moved as projected, and the event sealed after the log.
  lemma {:induction false} AppendRows(t: Tables, log: seq<Event>, draft: Draft, expected: RunStatus, p: Projected, tail: TailRead)
                                      returns (e: Event)
    requires HasLog(t, log) && AppendEventTx(t, draft, expected, p.status, p.currentNode, tail).Ok?
    ensures var u := AppendEventTx(t, draft, expected, p.status, p.currentNode, tail).value;
            && HasLog(u, log + [e]) && Grows(t.events, u.events) && LinkedAt(t.run.runId, log + [e], |log|)
            && u == t.(run := u.run, events := u.events) && t.run.status == expected
            && u.run == t.run.(status := Coalesce(p.status, expected),
                               currentNode := CoalesceNode(p.currentNode, t.run.currentNode), updatedAt := draft.createdAt)
            && e.eventType == draft.eventType && e.payload == draft.payload && e.nodeId == draft.nodeId && e.createdAt == draft.createdAt
  {
    hide InsertEvent, HasLog, Grows, LinkedAt;
    var rows := t.(run := t.run.(status := Coalesce(p.status, t.run.status),
                                 currentNode := CoalesceNode(p.currentNode, t.run.currentNode), updatedAt := draft.createdAt));
    assert AppendEventTx(t, draft, expected, p.status, p.currentNode, tail) == InsertEvent(rows, draft, tail);
    HasLogOf(t, rows, log);
    e := Inserted(rows, log, draft, tail);
  }

  // The event of a caller, projected from the status that the transaction still finds.
  lemma {:induction false} AppendInsert(t: Tables, log: seq<Event>, nodeId: string, draft: Draft, expected: RunStatus, p: Projected,
                                        tail: TailRead)
    returns (e: Event)
    requires HasLog(t, log) && t.run.status != Cancelled
    requires Project(expected, nodeId, draft.eventType, draft.payload) == Ok(p) && draft.nodeId == Text.Trim(nodeId)
    requires AppendEventTx(t, draft, expected, p.status, p.currentNode, tail).Ok?
    ensures var u := AppendEventTx(t, draft, expected, p.status, p.currentNode, tail).value;
            && HasLog(u, log + [e]) && Appended(t, log, u, e) && Extends(t, u)
            && u == t.(run := u.run, events := u.events)
            && e.eventType == draft.eventType && !Projection.Generated(e.eventType)
  {
    hide AppendEventTx, HasLog, Project, ReplayStep, Extends, Grows;
    e := AppendRows(t, log, draft, expected, p, tail);
    ProjectionIsReplay(SummaryOf(t.run), e, nodeId, p);
    ProjectionRespectsTerminal(expected, nodeId, draft.eventType, draft.payload);
    ProjectAcceptsExactly(expected, nodeId, draft.eventType, draft.payload);
    RunMoved(t, AppendEventTx(t, draft, expected, p.status, p.currentNode, tail).value);
  }

  lemma {:induction false} AppendEventKeeps(t: Tables, nodeId: string, draft: Draft, expected: RunStatus, p: Projected, tail: TailRead)
    requires TablesInv(t)
    requires Project(expected, nodeId, draft.eventType, draft.payload) == Ok(p) && draft.nodeId == Text.Trim(nodeId)
    requires AppendEventTx(t, draft, expected, p.status, p.currentNode, tail).Ok?
    ensures Kept(t, AppendEventTx(t, draft, expected, p.status, p.currentNode, tail).value)
  {
    hide Log, Extends, Appended, Project, AppendEventTx, LogInv, EvidenceInv, BoardsInv, ResultsInv, PassportsInv, ApprovalInv,
         AttestationInv, CountInv;
    var log, u := Log(t.events), AppendEventTx(t, draft, expected, p.status, p.currentNode, tail).value;
    var e := AppendInsert(t, log, nodeId, draft, expected, p, tail);
    AppendedSameRun(t, log, u, e);
    OthersKept(t, log, u, e);
    EvidenceKept(t, u);
    BoardsKept(t, u);
    ResultsKept(t, u);
    CountKept(t, log, u, e);
  }

  lemma {:induction false} ArtifactAdded(t: Tables, artifact: Artifact)
    requires artifact.artifactId !in t.artifacts
    ensures Extends(t, t.(artifacts := t.artifacts[artifact.artifactId := artifact]))
  {
  }

  lemma {:induction false} ArtifactsStayGood(t: Tables, u: Tables, artifact: Artifact)
    requires EvidenceInv(t) && SameRun(t.run, u.run) && artifact.runId == t.run.runId && artifact.artifactId !in t.artifacts
    requires u.artifacts == t.artifacts[artifact.artifactId := artifact] && u.evidence == t.evidence
    ensures EvidenceInv(u)
  {
  }

  lemma {:induction false} CreateArtifactKeeps(t: Tables, artifact: Artifact, draft: Draft, tail: TailRead)
    requires TablesInv(t) && artifact.runId == t.run.runId && draft.eventType == ArtifactCreated
    requires CreateArtifactTx(t, artifact, draft, tail).Ok?
    ensures Kept(t, CreateArtifactTx(t, artifact, draft, tail).value)
  {
    hide Log, Extends, Appended, LogInv, SummaryInv, EvidenceInv, BoardsInv, ResultsInv, PassportsInv, ApprovalInv, AttestationInv,
         CountInv;
    var log, u := Log(t.events), CreateArtifactTx(t, artifact, draft, tail).value;
    ArtifactAdded(t, artifact);
    var e := SilentInsert(t, log, t.(artifacts := t.artifacts[artifact.artifactId := artifact]), draft, tail);
    AppendedSameRun(t, log, u, e);
    ArtifactsStayGood(t, u, artifact);
    OthersKept(t, log, u, e);
    BoardsKept(t, u);
    ResultsKept(t, u);
    CountKept(t, log, u, e);
  }

  lemma {:induction false} EvidenceAdded(t: Tables, evidence: Evidence)
    requires evidence.evidenceId !in t.evidence
    ensures Extends(t, t.(evidence := t.evidence[evidence.evidenceId := evidence]))
  {
  }

  lemma {:induction false} EvidenceStaysGood(t: Tables, u: Tables, evidence: Evidence)
    requires EvidenceInv(t) && SameRun(t.run, u.run) && evidence.runId == t.run.runId && SnapshotPresent(evidence, t.artifacts)
    requires u.evidence == t.evidence[evidence.evidenceId := evidence] && u.artifacts == t.artifacts
    ensures EvidenceInv(u)
  {
  }

  lemma {:induction false} CreateEvidenceKeeps(t: Tables, evidence: Evidence, draft: Draft, tail: TailRead)
    requires TablesInv(t) && evidence.runId == t.run.runId && draft.eventType == EvidenceCreated
    requires CreateEvidenceTx(t, evidence, draft, tail).Ok?
    ensures Kept(t, CreateEvidenceTx(t, evidence, draft, tail).value)
  {
    hide Log, Extends, Appended, LogInv, SummaryInv, EvidenceInv, BoardsInv, ResultsInv, PassportsInv, ApprovalInv, AttestationInv,
         CountInv;
    var log, u := Log(t.events), CreateEvidenceTx(t, evidence, draft, tail).value;
    EvidenceAdded(t, evidence);
    var e := SilentInsert(t, log, t.(evidence := t.evidence[evidence.evidenceId := evidence]), draft, tail);
    AppendedSameRun(t, log, u, e);
    EvidenceStaysGood(t, u, evidence);
    OthersKept(t, log, u, e);
    BoardsKept(t, u);
    ResultsKept(t, u);
    CountKept(t, log, u, e);
  }

  function WithBoard(t: Tables, board: Board, manifest: Manifest): Tables {
    t.(boards := t.boards[board.version := board], manifests := t.manifests[board.version := manifest])
  }

  lemma {:induction false} WithBoardExtends(t: Tables, board: Board, manifest: Manifest)
    requires board.version !in t.boards && board.version !in t.manifests
    ensures Extends(t, WithBoard(t, board, manifest))
  {
  }

  lemma {:induction false} NewKey<K, V>(rows: map<K, V>, k: K, row: V)
    requires k !in rows
    ensures rows[k := row].Keys == rows.Keys + {k} && |rows[k := row]| == |rows| + 1
  {
    assert rows[k := row].Keys == rows.Keys + {k};
  }

  lemma {:induction false} BoardAdded(t: Tables, u: Tables, board: Board, manifest: Manifest)
    requires BoardsInv(t) && Extends(t, u) && BoardGood(t, board, manifest) && board.version !in t.boards
    requires u.boards == t.boards[board.version := board] && u.manifests == t.manifests[board.version := manifest]
    ensures BoardsInv(u) && |u.boards| == |t.boards| + 1
  {
    hide BoardGood, Extends;
    NewKey(t.boards, board.version, board);
    assert u.manifests.Keys == t.manifests.Keys + {board.version} == u.boards.Keys;
    forall v | v in u.boards ensures BoardGood(u, u.boards[v], u.manifests[v]) {
      BoardStable(t, u, u.boards[v], u.manifests[v]);
    }
  }

  lemma {:induction false} CreateEvidenceFreezeKeeps(t: Tables, board: Board, manifest: Manifest, draft: Draft, tail: TailRead)
    requires TablesInv(t) && BoardGood(t, board, manifest) && draft.eventType == EvidenceBoardFrozen
    requires CreateEvidenceFreezeTx(t, board, manifest, draft, tail).Ok?
    ensures Kept(t, CreateEvidenceFreezeTx(t, board, manifest, draft, tail).value)
  {
    hide Log, Appended, Extends, LogInv, SummaryInv, EvidenceInv, BoardsInv, BoardGood, ResultsInv, PassportsInv, ApprovalInv,
         AttestationInv, CountInv;
    var log, u := Log(t.events), CreateEvidenceFreezeTx(t, board, manifest, draft, tail).value;
    WithBoardExtends(t, board, manifest);
    var e := SilentInsert(t, log, WithBoard(t, board, manifest), draft, tail);
    AppendedSameRun(t, log, u, e);
    OthersKept(t, log, u, e);
    EvidenceKept(t, u);
    ResultsKept(t, u);
    BoardAdded(t, u, board, manifest);
    CountKept(t, log, u, e);
  }

  lemma {:induction false} ResultsAdded(t: Tables, u: Tables, results: CheckResults)
    requires ResultsInv(t) && Extends(t, u) && ResultsGood(t, results) && results.boardVersion !in t.checkResults
    requires u.checkResults == t.checkResults[results.boardVersion := results]
    ensures ResultsInv(u) && |u.checkResults| == |t.checkResults| + 1
  {
    forall v | v in u.checkResults ensures u.checkResults[v].boardVersion == v && ResultsGood(u, u.checkResults[v]) {
      assert ResultsGood(t, u.checkResults[v]);
    }
  }

  lemma {:induction false} WithResultsExtends(t: Tables, results: CheckResults)
    requires results.boardVersion !in t.checkResults
    ensures Extends(t, t.(checkResults := t.checkResults[results.boardVersion := results]))
  {
  }

  lemma {:induction false} CreateCheckResultsKeeps(t: Tables, results: CheckResults, draft: Draft, tail: TailRead)
    requires TablesInv(t) && ResultsGood(t, results) && draft.eventType == ScoreChanged
    requires CreateCheckResultsTx(t, results, draft, tail).Ok?
    ensures Kept(t, CreateCheckResultsTx(t, results, draft, tail).value)
  {
    hide Log, Appended, Extends, LogInv, SummaryInv, EvidenceInv, BoardsInv, ResultsInv, ResultsGood, PassportsInv, ApprovalInv,
         AttestationInv, CountInv;
    var log, u := Log(t.events), CreateCheckResultsTx(t, results, draft, tail).value;
    WithResultsExtends(t, results);
    var e := SilentInsert(t, log, t.(checkResults := t.checkResults[results.boardVersion := results]), draft, tail);
    AppendedSameRun(t, log, u, e);
    OthersKept(t, log, u, e);
    EvidenceKept(t, u);
    BoardsKept(t, u);
    ResultsAdded(t, u, results);
    CountKept(t, log, u, e);
  }

  lemma {:induction false} StampKept(t: Tables, p: Passport, prov: Provenance, h: Hash)
    requires ProvenanceGood(t, p, prov)
    ensures ProvenanceGood(t, p, prov.(auditLogHash := h))
  {
  }

  lemma {:induction false} PassportRowKept(t: Tables, log: seq<Event>, u: Tables, e: Event, k: int)
    requires PassportRow(t, log, k) && Extends(t, u)
    ensures PassportRow(u, log + [e], k)
  {
    hide PassportGood, ProvenanceGood;
    OfTypeAppend(log, e, ProvenanceFrozen);
    PassportStable(t, u, t.passports[k], t.provenances[k]);
  }

  ghost predicate FreezesInto(t: Tables, u: Tables, e: Event, p: Passport, prov: Provenance) {
    && e.eventType == ProvenanceFrozen && e.payload == ProvenancePayload(p)
    && u.passports == t.passports[p.sequence := p]
    && u.provenances == t.provenances[p.sequence := prov.(auditLogHash := e.eventHash)]
  }

  lemma {:induction false} NewPassportRow(t: Tables, log: seq<Event>, u: Tables, e: Event, p: Passport, prov: Provenance)
    requires Extends(t, u) && FreezesInto(t, u, e, p, prov) && PassportGood(t, p) && ProvenanceGood(t, p, prov)
    requires p.sequence == |OfType(log, ProvenanceFrozen)| + 1
    ensures PassportRow(u, log + [e], p.sequence)
  {
    hide PassportGood, ProvenanceGood;
    OfTypeAppend(log, e, ProvenanceFrozen);
    PassportStable(t, u, p, prov);
    StampKept(u, p, prov, e.eventHash);
  }

  lemma {:induction false} NextKey<T>(rows: map<int, T>, k: int, row: T)
    requires forall i :: i in rows <==> 1 <= i <= |rows|
    requires (k == 1 || k - 1 in rows) && k !in rows
    ensures var next := rows[k := row];
            k == |rows| + 1 == |next| && forall i :: i in next <==> 1 <= i <= |next|
  {
    var next := rows[k := row];
    assert k == |rows| + 1;
    assert next.Keys == rows.Keys + {k};
    assert |next.Keys| == |rows.Keys| + 1;
    forall i ensures i in next <==> 1 <= i <= |next| {
      assert i in next <==> i in rows || i == k;
    }
  }

  // A passport numbered from a read outside the transaction follows the last one, or meets the primary key.
  lemma {:induction false} PassportAdded(t: Tables, log: seq<Event>, u: Tables, e: Event, p: Passport, prov: Provenance)
    requires PassportsInv(t, log) && Extends(t, u)
    requires (p.sequence == 1 || p.sequence - 1 in t.passports) && p.sequence !in t.passports
    requires FreezesInto(t, u, e, p, prov) && PassportGood(t, p) && ProvenanceGood(t, p, prov)
    ensures PassportsInv(u, log + [e])
  {
    hide PassportGood, ProvenanceGood, Extends, PassportRow;
    OfTypeAppend(log, e, ProvenanceFrozen);
    NextKey(t.passports, p.sequence, p);
    assert u.provenances.Keys == u.passports.Keys;
    NewPassportRow(t, log, u, e, p, prov);
    forall k | 1 <= k <= |u.passports| ensures PassportRow(u, log + [e], k) {
      if k <= |t.passports| { PassportRowKept(t, log, u, e, k); }
    }
  }

  lemma {:induction false} PassportInsert(t: Tables, log: seq<Event>, p: Passport, prov: Provenance, draft: Draft, tail: TailRead)
                                          returns (e: Event)
    requires HasLog(t, log) && SummaryInv(t, log) && draft.eventType == ProvenanceFrozen
    requires CreatePassportFreezeTx(t, p, prov, draft, tail).Ok?
    ensures p.sequence !in t.passports
    ensures var u := CreatePassportFreezeTx(t, p, prov, draft, tail).value;
            && HasLog(u, log + [e]) && Appended(t, log, u, e) && Extends(t, u)
            && e.eventType == ProvenanceFrozen && e.payload == draft.payload
            && u == t.(run := u.run, events := u.events,
                       passports := t.passports[p.sequence := p],
                       provenances := t.provenances[p.sequence := prov.(auditLogHash := e.eventHash)])
  {
    hide SummaryInv, Log, Numbered, InsertGeneratedEvent, NextSequenceAndPrevHash, Allowed, ReplayStep;
    e := SilentInsert(t, log, t, draft, tail);
  }

  lemma {:induction false} CreatePassportFreezeKeeps(t: Tables, p: Passport, prov: Provenance, draft: Draft, tail: TailRead)
    requires TablesInv(t) && PassportGood(t, p) && ProvenanceGood(t, p, prov)
    requires p.sequence == 1 || p.sequence - 1 in t.passports
    requires draft.eventType == ProvenanceFrozen && draft.payload == ProvenancePayload(p)
    requires CreatePassportFreezeTx(t, p, prov, draft, tail).Ok?
    ensures Kept(t, CreatePassportFreezeTx(t, p, prov, draft, tail).value)
  {
    hide Log, Appended, CreatePassportFreezeTx, Extends, LogInv, SummaryInv, EvidenceInv, BoardsInv, ResultsInv, PassportGood,
         ProvenanceGood, PassportsInv, ApprovalInv, AttestationInv, CountInv;
    var log, u := Log(t.events), CreatePassportFreezeTx(t, p, prov, draft, tail).value;
    var e := PassportInsert(t, log, p, prov, draft, tail);
    LogKept(t, log, u, e);
    PassportAdded(t, log, u, e, p, prov);
    ApprovalKept(t, log, u, e);
    AttestationKept(t, log, u, e);
    AppendedSameRun(t, log, u, e);
    EvidenceKept(t, u);
    BoardsKept(t, u);
    ResultsKept(t, u);
    CountKept(t, log, u, e);
  }
}
