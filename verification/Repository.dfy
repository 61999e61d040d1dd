/** The rows of one run and the transactions over them.

    Every table of a run is keyed by its UNIQUE or PRIMARY KEY, and every table but `runs` is only
    ever inserted into. Each transaction is given twice: as a function from rows to rows, which the
    protocol reasons about, and as a method of the store that updates its tables in the order of the
    SQL statements and rolls back when one fails. */
module Repository {
  import opened Wrappers
  import opened Domain
  import opened EventChain

  datatype Tables = Tables(
    run: Run,
    events: map<int, Event>,              // UNIQUE (run_id, sequence)
    artifacts: map<Uuid, Artifact>,
    evidence: map<Uuid, Evidence>,
    boards: map<nat, Board>,              // PRIMARY KEY (run_id, version)
    manifests: map<nat, Manifest>,
    checkResults: map<nat, CheckResults>, // UNIQUE (run_id, evidence_board_version)
    passports: map<int, Passport>,        // PRIMARY KEY (run_id, sequence)
    provenances: map<int, Provenance>,    // PRIMARY KEY (run_id, freeze_version)
    approval: Option<Approval>,           // run_id UNIQUE
    attempt: Option<Uuid>,                // run_id PRIMARY KEY, the approval id
    receipt: Option<Receipt>)             // run_id UNIQUE

  datatype RepositoryError = RunStateChanged | UniqueViolation | Database

  // An event before the repository numbers, links and hashes it.
  datatype Draft = Draft(eventId: Uuid, nodeId: string, eventType: EventType, payload: Payload, createdAt: int)

  // ── Appending an event ──

  // What the query for the tail of the log returns: nothing when it fails, otherwise the newest row of
  // a snapshot, which may be older than the table the insert then meets.
  datatype TailRead = Failed | Snapshot(upTo: int)

  ghost predicate IsMax(m: int, keys: set<int>) { m in keys && forall k :: k in keys ==> k <= m }

  function MaxOf(keys: set<int>): (m: int)
    requires keys != {}
    ensures m in keys && forall k :: k in keys ==> k <= m
  {
    MaxExists(keys);
    assert exists m :: m in keys && forall k :: k in keys ==> k <= m by {
      var m :| IsMax(m, keys);
    }
    var m :| m in keys && forall k :: k in keys ==> k <= m;
    m
  }

  lemma {:induction false} SomeKey(keys: set<int>)
    ensures keys == {} || exists x :: x in keys
  {
    assert (forall x :: x !in keys) ==> keys == {};
  }

  lemma {:induction false} MaxWith(m: int, rest: set<int>, x: int)
    requires IsMax(m, rest)
    ensures IsMax(if m < x then x else m, rest + {x})
  {
  }

  lemma {:induction false} MaxExists(keys: set<int>)
    requires keys != {}
    ensures exists m :: IsMax(m, keys)
  {
    SomeKey(keys);
    var x :| x in keys;
    var rest := keys - {x};
    assert keys == rest + {x};
    var best := x;
    if rest != {} {
      MaxExists(rest);
      var m :| IsMax(m, rest);
      MaxWith(m, rest, x);
      best := if m < x then x else m;
    } else {
      assert IsMax(x, {x});
    }
    assert IsMax(best, keys);
  }

  function RowsUpTo(events: map<int, Event>, upTo: int): map<int, Event> {
    map s | s in events && s <= upTo :: events[s]
  }

  // `next_sequence_and_prev_hash`
  function NextSequenceAndPrevHash(events: map<int, Event>, tail: TailRead): (int, Hash) {
    match tail
    case Failed => (1, Zero)
    case Snapshot(upTo) =>
      var seen := RowsUpTo(events, upTo);
      if seen.Keys == {} then (1, Zero)
      else (MaxOf(seen.Keys) + 1, seen[MaxOf(seen.Keys)].eventHash)
  }

  function Seal(runId: Uuid, sequence: int, draft: Draft, prev: Hash): Event {
    Event(draft.eventId, runId, sequence, draft.nodeId, draft.eventType, draft.payload, draft.createdAt,
          OfEvent(runId, sequence, draft.nodeId, draft.eventType, draft.payload, draft.createdAt, prev), prev)
  }

  // Number, link and hash the draft against the tail that was read, and insert it.
  function InsertEvent(t: Tables, draft: Draft, tail: TailRead): Result<Tables, RepositoryError> {
    var (sequence, prev) := NextSequenceAndPrevHash(t.events, tail);
    if sequence in t.events then Err(Database)
    else Ok(t.(events := t.events[sequence := Seal(t.run.runId, sequence, draft, prev)]))
  }

  // `insert_generated_event`
  function InsertGeneratedEvent(t: Tables, draft: Draft, tail: TailRead): Result<Tables, RepositoryError> {
    match InsertEvent(t, draft, tail)
    case Err(error) => Err(error)
    case Ok(u) => Ok(u.(run := u.run.(updatedAt := draft.createdAt)))
  }

  // ── The transactions ──

  function AppendEventTx(t: Tables, draft: Draft, expected: RunStatus, next: Option<RunStatus>, node: Option<string>, tail: TailRead)
    : Result<Tables, RepositoryError>
  {
    if t.run.status != expected then Err(RunStateChanged)
    else
      InsertEvent(t.(run := t.run.(
        status := (match next case Some(s) => s case None => t.run.status),
        currentNode := (if node.Some? then node else t.run.currentNode),
        updatedAt := draft.createdAt)), draft, tail)
  }

  function CreateArtifactTx(t: Tables, artifact: Artifact, draft: Draft, tail: TailRead): Result<Tables, RepositoryError> {
    if artifact.artifactId in t.artifacts then Err(Database)
    else InsertGeneratedEvent(t.(artifacts := t.artifacts[artifact.artifactId := artifact]), draft, tail)
  }

  // The snapshot column references `artifacts`.
  function CreateEvidenceTx(t: Tables, evidence: Evidence, draft: Draft, tail: TailRead): Result<Tables, RepositoryError> {
    if evidence.evidenceId in t.evidence then Err(Database)
    else if evidence.snapshotArtifactId.Some? && evidence.snapshotArtifactId.value !in t.artifacts then Err(Database)
    else InsertGeneratedEvent(t.(evidence := t.evidence[evidence.evidenceId := evidence]), draft, tail)
  }

  function CreateEvidenceFreezeTx(t: Tables, board: Board, manifest: Manifest, draft: Draft, tail: TailRead)
    : Result<Tables, RepositoryError>
  {
    if board.version in t.boards then Err(UniqueViolation)
    else if board.version in t.manifests then Err(Database)
    else InsertGeneratedEvent(
           t.(boards := t.boards[board.version := board], manifests := t.manifests[board.version := manifest]), draft, tail)
  }

  function CreateCheckResultsTx(t: Tables, results: CheckResults, draft: Draft, tail: TailRead): Result<Tables, RepositoryError> {
    if results.boardVersion in t.checkResults then Err(UniqueViolation)
    else InsertGeneratedEvent(t.(checkResults := t.checkResults[results.boardVersion := results]), draft, tail)
  }

  // The event goes in first, and its hash is stamped into the provenance.
  function CreatePassportFreezeTx(t: Tables, passport: Passport, provenance: Provenance, draft: Draft, tail: TailRead)
    : Result<Tables, RepositoryError>
  {
    match InsertGeneratedEvent(t, draft, tail)
    case Err(error) => Err(error)
    case Ok(u) =>
      var (sequence, _) := NextSequenceAndPrevHash(t.events, tail);
      if passport.sequence in t.passports || passport.sequence in t.provenances then Err(UniqueViolation)
      else Ok(u.(passports := t.passports[passport.sequence := passport],
                 provenances := t.provenances[passport.sequence := provenance.(auditLogHash := u.events[sequence].eventHash)]))
  }

  function CreateApprovalTx(t: Tables, approval: Approval, draft: Draft, expected: RunStatus, next: RunStatus, tail: TailRead)
    : Result<Tables, RepositoryError>
  {
    if t.run.status != expected then Err(RunStateChanged)
    else if t.approval.Some? then Err(UniqueViolation)
    else InsertGeneratedEvent(
           t.(run := t.run.(status := next, currentNode := Some("human_review_gate"), updatedAt := approval.decidedAt),
              approval := Some(approval)), draft, tail)
  }

  function ClaimAttemptTx(t: Tables, approvalId: Uuid): Result<Tables, RepositoryError> {
    if t.attempt.Some? then Err(UniqueViolation) else Ok(t.(attempt := Some(approvalId)))
  }

  function CreateReceiptTx(t: Tables, receipt: Receipt, submitted: Draft, confirmed: Draft, expected: RunStatus,
                           submittedTail: TailRead, confirmedTail: TailRead): Result<Tables, RepositoryError>
  {
    if t.run.status != expected then Err(RunStateChanged)
    else if t.receipt.Some? then Err(UniqueViolation)
    else
      match InsertGeneratedEvent(
        t.(run := t.run.(status := Success, currentNode := Some("attest_onchain"), updatedAt := receipt.confirmedAt),
           receipt := Some(receipt)), submitted, submittedTail)
      case Err(error) => Err(error)
      case Ok(u) => InsertGeneratedEvent(u, confirmed, confirmedTail)
  }

  // The rows after a transaction: the new ones if it committed, the old ones if it rolled back.
  function After(t: Tables, r: Result<Tables, RepositoryError>): Tables {
    match r case Ok(u) => u case Err(_) => t
  }

  // ── The log ──

  // Sequences 1..n, without a gap.
  ghost predicate Numbered(events: map<int, Event>) {
    forall s :: s in events <==> 1 <= s <= |events|
  }

  ghost function Log(events: map<int, Event>): (log: seq<Event>)
    requires Numbered(events)
    ensures |log| == |events| && forall i :: 0 <= i < |log| ==> log[i] == events[i + 1]
  {
    seq(|events|, i requires 0 <= i < |events| => events[i + 1])
  }

  lemma {:induction false} NumberedTail(events: map<int, Event>, upTo: int)
    requires Numbered(events)
    ensures NextSequenceAndPrevHash(events, Snapshot(upTo)) ==
            (var seen := if upTo < 0 then 0 else if upTo > |events| then |events| else upTo;
             (seen + 1, LinkBefore(Log(events), seen)))
  {
    var seen := RowsUpTo(events, upTo);
    if 1 <= upTo && |events| > 0 {
      var last := if upTo > |events| then |events| else upTo;
      assert last in seen;
      assert MaxOf(seen.Keys) == last;
    } else {
      assert seen.Keys == {};
    }
  }

  lemma {:induction false} ExtendLog(events: map<int, Event>, e: Event)
    requires Numbered(events)
    ensures var next := events[|events| + 1 := e];
            Numbered(next) && Log(next) == Log(events) + [e]
  {
    var next := events[|events| + 1 := e];
    assert |events| + 1 !in events;
    assert next.Keys == events.Keys + {|events| + 1};
    assert |next| == |events| + 1;
  }

  // An insert is refused unless the tail it numbered itself from was the whole log. A failed read and
  // a stale snapshot both number the event from too early a place, and meet the UNIQUE key there.
  lemma {:induction false} InsertAppendsOrFails(t: Tables, draft: Draft, tail: TailRead)
    requires Numbered(t.events)
    ensures var n := |t.events|;
            var e := Seal(t.run.runId, n + 1, draft, LinkBefore(Log(t.events), n));
            if (tail.Failed? && n > 0) || (tail.Snapshot? && tail.upTo < n && n > 0) then
              InsertEvent(t, draft, tail) == Err(Database)
            else
              && InsertEvent(t, draft, tail) == Ok(t.(events := t.events[n + 1 := e]))
              && NextSequenceAndPrevHash(t.events, tail).0 == n + 1
              && Numbered(t.events[n + 1 := e])
              && Log(t.events[n + 1 := e]) == Log(t.events) + [e]
  {
    var n := |t.events|;
    ExtendLog(t.events, Seal(t.run.runId, n + 1, draft, LinkBefore(Log(t.events), n)));
    if tail.Snapshot? { NumberedTail(t.events, tail.upTo); }
  }

  // ── The store ──

  class RunStore {
    var run: Run
    var events: map<int, Event>
    var artifacts: map<Uuid, Artifact>
    var evidence: map<Uuid, Evidence>
    var boards: map<nat, Board>
    var manifests: map<nat, Manifest>
    var checkResults: map<nat, CheckResults>
    var passports: map<int, Passport>
    var provenances: map<int, Provenance>
    var approval: Option<Approval>
    var attempt: Option<Uuid>
    var receipt: Option<Receipt>

    function Rows(): Tables
      reads this
    {
      Tables(run, events, artifacts, evidence, boards, manifests, checkResults, passports, provenances, approval, attempt, receipt)
    }

    // `create_run`: the run and its first event, linked from the zero hash.
    constructor (run: Run, created: Draft)
      ensures Rows() == Tables(run, map[1 := Seal(run.runId, 1, created, Zero)],
                               map[], map[], map[], map[], map[], map[], map[], None, None, None)
    {
      this.run := run;
      events := map[1 := Seal(run.runId, 1, created, Zero)];
      artifacts, evidence, boards, manifests := map[], map[], map[], map[];
      checkResults, passports, provenances := map[], map[], map[];
      approval, attempt, receipt := None, None, None;
    }

    // Insert a generated event and touch the run; the hash of the event is returned.
    method InsertGenerated(draft: Draft, tail: TailRead) returns (r: Result<Hash, RepositoryError>)
      modifies this`events, this`run
      ensures match InsertGeneratedEvent(old(Rows()), draft, tail)
              case Ok(u) => r.Ok? && Rows() == u
                            && r.value == u.events[NextSequenceAndPrevHash(old(events), tail).0].eventHash
              case Err(error) => r == Err(error) && Rows() == old(Rows())
    {
      var (sequence, prev) := NextSequenceAndPrevHash(events, tail);
      if sequence in events { return Err(Database); }
      var event := Seal(run.runId, sequence, draft, prev);
      events := events[sequence := event];
      run := run.(updatedAt := draft.createdAt);
      r := Ok(event.eventHash);
    }

    method AppendEvent(draft: Draft, expected: RunStatus, next: Option<RunStatus>, node: Option<string>, tail: TailRead)
      returns (r: Result<Event, RepositoryError>)
      modifies this`events, this`run
      ensures r.Ok? <==> AppendEventTx(old(Rows()), draft, expected, next, node, tail).Ok?
      ensures r.Ok? ==> r.value.sequence in events && r.value == events[r.value.sequence] && r.value.sequence !in old(events)
      ensures r.Err? ==> AppendEventTx(old(Rows()), draft, expected, next, node, tail) == Err(r.error)
      ensures Rows() == After(old(Rows()), AppendEventTx(old(Rows()), draft, expected, next, node, tail))
    {
      var before := run;
      if run.status != expected { return Err(RunStateChanged); }
      var status := match next case Some(s) => s case None => run.status;
      run := run.(status := status, currentNode := if node.Some? then node else run.currentNode, updatedAt := draft.createdAt);
      var (sequence, prev) := NextSequenceAndPrevHash(events, tail);
      if sequence in events {
        run := before;
        return Err(Database);
      }
      var event := Seal(run.runId, sequence, draft, prev);
      events := events[sequence := event];
      r := Ok(event);
    }

    method CreateArtifact(artifact: Artifact, draft: Draft, tail: TailRead) returns (ok: bool)
      modifies this`events, this`run, this`artifacts
      ensures ok <==> CreateArtifactTx(old(Rows()), artifact, draft, tail).Ok?
      ensures Rows() == After(old(Rows()), CreateArtifactTx(old(Rows()), artifact, draft, tail))
    {
      if artifact.artifactId in artifacts { return false; }
      var before := artifacts;
      artifacts := artifacts[artifact.artifactId := artifact];
      var inserted := InsertGenerated(draft, tail);
      if inserted.Err? { artifacts := before; }
      ok := inserted.Ok?;
    }

    method CreateEvidence(item: Evidence, draft: Draft, tail: TailRead) returns (ok: bool)
      modifies this`events, this`run, this`evidence
      ensures ok <==> CreateEvidenceTx(old(Rows()), item, draft, tail).Ok?
      ensures Rows() == After(old(Rows()), CreateEvidenceTx(old(Rows()), item, draft, tail))
    {
      if item.evidenceId in evidence { return false; }
      if item.snapshotArtifactId.Some? && item.snapshotArtifactId.value !in artifacts { return false; }
      var before := evidence;
      evidence := evidence[item.evidenceId := item];
      var inserted := InsertGenerated(draft, tail);
      if inserted.Err? { evidence := before; }
      ok := inserted.Ok?;
    }

    method CreateEvidenceFreeze(board: Board, manifest: Manifest, draft: Draft, tail: TailRead) returns (r: Result<(), RepositoryError>)
      modifies this`events, this`run, this`boards, this`manifests
      ensures r.Ok? <==> CreateEvidenceFreezeTx(old(Rows()), board, manifest, draft, tail).Ok?
      ensures r.Err? ==> CreateEvidenceFreezeTx(old(Rows()), board, manifest, draft, tail) == Err(r.error)
      ensures Rows() == After(old(Rows()), CreateEvidenceFreezeTx(old(Rows()), board, manifest, draft, tail))
    {
      var boardsBefore, manifestsBefore := boards, manifests;
      if board.version in boards { return Err(UniqueViolation); }
      boards := boards[board.version := board];
      if board.version in manifests {
        boards := boardsBefore;
        return Err(Database);
      }
      manifests := manifests[board.version := manifest];
      var inserted := InsertGenerated(draft, tail);
      if inserted.Err? {
        boards, manifests := boardsBefore, manifestsBefore;
        return Err(inserted.error);
      }
      r := Ok(());
    }

    method CreateCheckResults(results: CheckResults, draft: Draft, tail: TailRead) returns (r: Result<(), RepositoryError>)
      modifies this`events, this`run, this`checkResults
      ensures r.Ok? <==> CreateCheckResultsTx(old(Rows()), results, draft, tail).Ok?
      ensures r.Err? ==> CreateCheckResultsTx(old(Rows()), results, draft, tail) == Err(r.error)
      ensures Rows() == After(old(Rows()), CreateCheckResultsTx(old(Rows()), results, draft, tail))
    {
      if results.boardVersion in checkResults { return Err(UniqueViolation); }
      var before := checkResults;
      checkResults := checkResults[results.boardVersion := results];
      var inserted := InsertGenerated(draft, tail);
      if inserted.Err? {
        checkResults := before;
        return Err(inserted.error);
      }
      r := Ok(());
    }

    // `create_passport_freeze`: event first, then the two rows, the provenance stamped with the event's hash.
    method CreatePassportFreeze(passport: Passport, provenance: Provenance, draft: Draft, tail: TailRead)
      returns (r: Result<Provenance, RepositoryError>)
      modifies this`events, this`run, this`passports, this`provenances
      ensures r.Ok? <==> CreatePassportFreezeTx(old(Rows()), passport, provenance, draft, tail).Ok?
      ensures r.Err? ==> CreatePassportFreezeTx(old(Rows()), passport, provenance, draft, tail) == Err(r.error)
      ensures r.Ok? ==> passport.sequence in provenances && r.value == provenances[passport.sequence]
      ensures Rows() == After(old(Rows()), CreatePassportFreezeTx(old(Rows()), passport, provenance, draft, tail))
    {
      var runBefore, eventsBefore, passportsBefore := run, events, passports;
      var inserted := InsertGenerated(draft, tail);
      if inserted.Err? { return Err(inserted.error); }
      var stamped := provenance.(auditLogHash := inserted.value);
      if passport.sequence in passports {
        run, events := runBefore, eventsBefore;
        return Err(UniqueViolation);
      }
      passports := passports[passport.sequence := passport];
      if passport.sequence in provenances {
        run, events, passports := runBefore, eventsBefore, passportsBefore;
        return Err(UniqueViolation);
      }
      provenances := provenances[passport.sequence := stamped];
      r := Ok(stamped);
    }

    method CreateApproval(decided: Approval, draft: Draft, expected: RunStatus, next: RunStatus, tail: TailRead)
      returns (r: Result<(), RepositoryError>)
      modifies this`events, this`run, this`approval
      ensures r.Ok? <==> CreateApprovalTx(old(Rows()), decided, draft, expected, next, tail).Ok?
      ensures r.Err? ==> CreateApprovalTx(old(Rows()), decided, draft, expected, next, tail) == Err(r.error)
      ensures Rows() == After(old(Rows()), CreateApprovalTx(old(Rows()), decided, draft, expected, next, tail))
    {
      var before := run;
      if run.status != expected { return Err(RunStateChanged); }
      run := run.(status := next, currentNode := Some("human_review_gate"), updatedAt := decided.decidedAt);
      if approval.Some? {
        run := before;
        return Err(UniqueViolation);
      }
      approval := Some(decided);
      var inserted := InsertGenerated(draft, tail);
      if inserted.Err? {
        run, approval := before, None;
        return Err(inserted.error);
      }
      r := Ok(());
    }

    method ClaimAttempt(approvalId: Uuid) returns (r: Result<(), RepositoryError>)
      modifies this`attempt
      ensures r.Ok? <==> ClaimAttemptTx(old(Rows()), approvalId).Ok?
      ensures r.Err? ==> ClaimAttemptTx(old(Rows()), approvalId) == Err(r.error)
      ensures Rows() == After(old(Rows()), ClaimAttemptTx(old(Rows()), approvalId))
    {
      if attempt.Some? { return Err(UniqueViolation); }
      attempt := Some(approvalId);
      r := Ok(());
    }

    // `create_attestation_receipt`: the receipt and its two events, or nothing.
    method CreateReceipt(confirmedReceipt: Receipt, submitted: Draft, confirmed: Draft, expected: RunStatus,
                         submittedTail: TailRead, confirmedTail: TailRead)
      returns (r: Result<(), RepositoryError>)
      modifies this`events, this`run, this`receipt
      ensures r.Ok? <==> CreateReceiptTx(old(Rows()), confirmedReceipt, submitted, confirmed, expected, submittedTail, confirmedTail).Ok?
      ensures r.Err? ==>
        CreateReceiptTx(old(Rows()), confirmedReceipt, submitted, confirmed, expected, submittedTail, confirmedTail) == Err(r.error)
      ensures Rows() == After(old(Rows()), CreateReceiptTx(old(Rows()), confirmedReceipt, submitted, confirmed, expected, submittedTail,
              confirmedTail))
    {
      var runBefore, eventsBefore := run, events;
      if run.status != expected { return Err(RunStateChanged); }
      run := run.(status := Success, currentNode := Some("attest_onchain"), updatedAt := confirmedReceipt.confirmedAt);
      if receipt.Some? {
        run := runBefore;
        return Err(UniqueViolation);
      }
      receipt := Some(confirmedReceipt);
      var first := InsertGenerated(submitted, submittedTail);
      if first.Err? {
        run, events, receipt := runBefore, eventsBefore, None;
        return Err(first.error);
      }
      var second := InsertGenerated(confirmed, confirmedTail);
      if second.Err? {
        run, events, receipt := runBefore, eventsBefore, None;
        return Err(second.error);
      }
      r := Ok(());
    }
  }
}
