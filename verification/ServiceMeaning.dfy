/** What each service call does on its own: a request that nothing disturbs, from its arrival to its answer.

    The statements name rows, events and replies, not the functions that compute them. */
module ServiceMeaning {
  import opened Wrappers
  import opened Domain
  import opened Sorting
  import opened EventChain
  import opened Projection
  import opened Repository
  import opened EvidenceFreeze
  import opened PassportDraft
  import opened RunProtocol
  import opened ProtocolInvariant
  import opened RecordMeaning
  import Scoring
  import ScoringMeaning
  import ScoringProperties
  import Text

  // ── Running a request alone ──

  datatype Outcome = Outcome(tables: Tables, stage: Stage, submitted: seq<Commitment>)

  ghost function Took(catalog: Scoring.Catalog, o: Outcome, c: Choice): Outcome {
    var m := Advance(catalog, o.tables, o.stage, c);
    Outcome(m.tables, m.stage, match m.submitted case Some(x) => o.submitted + [x] case None => o.submitted)
  }

  ghost function Ran(catalog: Scoring.Catalog, o: Outcome, choices: seq<Choice>): Outcome
    decreases |choices|
  {
    if choices == [] then o else Ran(catalog, Took(catalog, o, choices[0]), choices[1..])
  }

  lemma {:induction false} DoneStays(catalog: Scoring.Catalog, o: Outcome, choices: seq<Choice>)
    requires o.stage.Done?
    ensures Ran(catalog, o, choices) == o
    decreases |choices|
  {
    hide Advance;
    if choices != [] {
      DoneStep(catalog, o.tables, o.stage, choices[0]);
      DoneStays(catalog, o, choices[1..]);
    }
  }

  lemma {:induction false} DoneStep(catalog: Scoring.Catalog, t: Tables, stage: Stage, c: Choice)
    requires stage.Done?
    ensures Advance(catalog, t, stage, c) == Stay(t, stage)
  {
  }

  // A request that only reads, from stage to stage, and then is answered.
  ghost predicate Passes(catalog: Scoring.Catalog, t: Tables, choices: seq<Choice>, chain: seq<Stage>) {
    && 0 < |chain| <= |choices|
    && forall i :: 0 <= i < |chain| - 1 ==> Advance(catalog, t, chain[i], choices[i]) == Stay(t, chain[i + 1])
  }

  lemma {:induction false} PassesOn(catalog: Scoring.Catalog, t: Tables, choices: seq<Choice>, chain: seq<Stage>)
    requires Passes(catalog, t, choices, chain)
    ensures Ran(catalog, Outcome(t, chain[0], []), choices) ==
            Ran(catalog, Outcome(t, chain[|chain| - 1], []), choices[|chain| - 1..])
    decreases |chain|
  {
    hide Advance;
    if |chain| > 1 {
      assert Took(catalog, Outcome(t, chain[0], []), choices[0]) == Outcome(t, chain[1], []);
      PassesOn(catalog, t, choices[1..], chain[1..]);
      assert choices[1..][|chain| - 2..] == choices[|chain| - 1..];
    } else {
      assert choices[0..] == choices;
    }
  }

  lemma {:induction false} Answers(catalog: Scoring.Catalog, t: Tables, choices: seq<Choice>, chain: seq<Stage>, m: Move)
    requires Passes(catalog, t, choices, chain)
    requires Advance(catalog, t, chain[|chain| - 1], choices[|chain| - 1]) == m && m.stage.Done? && m.submitted.None?
    ensures Ran(catalog, Outcome(t, chain[0], []), choices) == Outcome(m.tables, m.stage, [])
  {
    hide Advance;
    PassesOn(catalog, t, choices, chain);
    var left := choices[|chain| - 1..];
    assert Took(catalog, Outcome(t, chain[|chain| - 1], []), left[0]) == Outcome(m.tables, m.stage, []);
    DoneStays(catalog, Outcome(m.tables, m.stage, []), left[1..]);
  }

  lemma {:induction false} AdvancesRows(catalog: Scoring.Catalog, t: Tables, stage: Stage, c: Choice)
    requires !ForPassport(stage) && !ForApproval(stage) && !ForAttestation(stage)
    ensures Advance(catalog, t, stage, c) == AdvanceRows(catalog, t, stage, c)
  {
    hide AdvanceRows;
  }

  // ── Nothing in the way ──

  predicate SeesAll(t: Tables, tail: TailRead) { tail.Snapshot? && tail.upTo >= |t.events| }

  // The rows as they stand, of a run with a log; and choices that let a request through, with fresh ids.
  ghost predicate Free(t: Tables, choices: seq<Choice>) {
    Numbered(t.events) && t.events != map[] && |choices| >= 7 && forall i :: 0 <= i < |choices| ==> Lets(t, choices[i])
  }

  predicate Lets(t: Tables, c: Choice) {
    && c.commits && SeesAll(t, c.tail) && c.nextTail.Snapshot? && c.nextTail.upTo >= |t.events| + 1
    && c.freshId !in t.artifacts && c.freshId !in t.evidence
  }

  // The log has one event more, with this content.
  ghost predicate Adds(t: Tables, u: Tables, nodeId: string, ty: EventType, payload: Payload, at: int)
    requires Numbered(t.events)
  {
    && Numbered(u.events)
    && var log, after := Log(t.events), Log(u.events);
    && |after| == |log| + 1 && after[..|log|] == log
    && var e := after[|log|];
    && e.nodeId == nodeId && e.eventType == ty && e.payload == payload && e.createdAt == at
  }

  // The rows `rows`, with one event of the trust core more, at whose time the run was updated.
  ghost predicate Writes(t: Tables, rows: Tables, u: Tables, ty: EventType, payload: Payload, at: int)
    requires Numbered(t.events)
  {
    u == rows.(run := rows.run.(updatedAt := at), events := u.events) && Adds(t, u, "trust_core", ty, payload, at)
  }

  lemma {:induction false} InsertAdds(t: Tables, rows: Tables, draft: Draft, tail: TailRead)
    requires Numbered(t.events) && t.events != map[] && rows.events == t.events
    ensures var r := InsertEvent(rows, draft, tail);
            && (r.Ok? <==> SeesAll(t, tail)) && (r.Err? ==> r == Err(Database))
            && (r.Ok? ==> r.value == rows.(events := r.value.events)
                          && Adds(t, r.value, draft.nodeId, draft.eventType, draft.payload, draft.createdAt)
                          && NextSequenceAndPrevHash(t.events, tail).0 == |t.events| + 1
                          && |t.events| + 1 in r.value.events && |r.value.events| == |t.events| + 1
                          && r.value.events[|t.events| + 1] == Log(r.value.events)[|t.events|])
  {
    hide Log, Numbered, NextSequenceAndPrevHash;
    InsertAppendsOrFails(rows, draft, tail);
  }

  lemma {:induction false} GeneratedWrites(t: Tables, rows: Tables, draft: Draft, tail: TailRead)
    requires Numbered(t.events) && t.events != map[] && rows.events == t.events && draft.nodeId == "trust_core"
    ensures var r := InsertGeneratedEvent(rows, draft, tail);
            && (r.Ok? <==> SeesAll(t, tail)) && (r.Err? ==> r == Err(Database))
            && (r.Ok? ==> Writes(t, rows, r.value, draft.eventType, draft.payload, draft.createdAt)
                          && NextSequenceAndPrevHash(t.events, tail).0 == |t.events| + 1
                          && |t.events| + 1 in r.value.events && |r.value.events| == |t.events| + 1
                          && r.value.events[|t.events| + 1] == Log(r.value.events)[|t.events|])
  {
    hide InsertEvent, Numbered, Log;
    InsertAdds(t, rows, draft, tail);
  }

  // What a request comes to: the reply, and the rows after it.
  ghost predicate Comes(catalog: Scoring.Catalog, t: Tables, request: Stage, choices: seq<Choice>, reply: Reply, u: Tables) {
    Ran(catalog, Outcome(t, request, []), choices) == Outcome(u, Done(reply), [])
  }

  // ── Artifacts and evidence ──

  function ArtifactSays(id: Uuid, content: seq<int>): Payload {
    map["artifact_id" := Json.Text(id), "sha256_hash" := HashText(OfBytes(content)), "size_bytes" := Number(|content|)]
  }

  lemma {:induction false} ArtifactSteps(catalog: Scoring.Catalog, t: Tables, content: seq<int>, c: Choice, d: Choice, u: Tables)
    requires c.freshId !in t.artifacts && d.commits
    requires var a := Artifact(c.freshId, t.run.runId, OfBytes(content));
             InsertGeneratedEvent(t.(artifacts := t.artifacts[c.freshId := a]),
                                  Draft(c.eventId, "trust_core", ArtifactCreated, ArtifactSays(c.freshId, content), c.now), d.tail) == Ok(u)
    ensures var ready := ArtifactReady(Artifact(c.freshId, t.run.runId, OfBytes(content)),
                                       Draft(c.eventId, "trust_core", ArtifactCreated, ArtifactSays(c.freshId, content), c.now));
            && AdvanceRows(catalog, t, ArtifactStart(content), c) == Stay(t, ready)
            && AdvanceRows(catalog, t, ready, d) == Stay(u, Done(Reply.Accepted))
  {
    hide InsertGeneratedEvent, AdvanceAppend, AdvanceEvidence, AdvanceFreeze, AdvanceScore;
  }

  // An upload is stored with the hash of its content, and announced with its id, hash and size.
  lemma {:induction false} ArtifactAlone(catalog: Scoring.Catalog, t: Tables, content: seq<int>, choices: seq<Choice>) returns (u: Tables)
    requires Free(t, choices)
    ensures var c := choices[0];
            Writes(t, t.(artifacts := t.artifacts[c.freshId := Artifact(c.freshId, t.run.runId, OfBytes(content))]), u,
                   ArtifactCreated, ArtifactSays(c.freshId, content), c.now)
    ensures Comes(catalog, t, ArtifactStart(content), choices, Reply.Accepted, u)
  {
    hide InsertGeneratedEvent, Advance, AdvanceRows, Writes, Numbered, SeesAll;
    var c, start := choices[0], ArtifactStart(content);
    var artifact := Artifact(c.freshId, t.run.runId, OfBytes(content));
    var draft := Draft(c.eventId, "trust_core", ArtifactCreated, ArtifactSays(c.freshId, content), c.now);
    var ready, rows := ArtifactReady(artifact, draft), t.(artifacts := t.artifacts[c.freshId := artifact]);
    assert Lets(t, c) && Lets(t, choices[1]);
    GeneratedWrites(t, rows, draft, choices[1].tail);
    u := InsertGeneratedEvent(rows, draft, choices[1].tail).value;
    ArtifactSteps(catalog, t, content, c, choices[1], u);
    AdvancesRows(catalog, t, start, c);
    AdvancesRows(catalog, t, ready, choices[1]);
    Answers(catalog, t, choices, [start, ready], Stay(u, Done(Reply.Accepted)));
  }

  function OptionalId(id: Option<Uuid>): Json { match id case Some(v) => Json.Text(v) case None => Null }

  function EvidenceSays(id: Uuid, snapshot: Option<Uuid>, content: seq<int>): Payload {
    map["content_hash" := HashText(OfBytes(content)), "evidence_id" := Json.Text(id), "snapshot_artifact_id" := OptionalId(snapshot)]
  }

  predicate Stored(t: Tables, snapshot: Option<Uuid>) { snapshot.None? || snapshot.value in t.artifacts }

  lemma {:induction false} EvidenceReads(catalog: Scoring.Catalog, t: Tables, snapshot: Option<Uuid>, content: seq<int>, b: Choice,
                                         c: Choice)
    ensures AdvanceRows(catalog, t, EvidenceStart(snapshot, content), b) == Stay(t, EvidenceRun(snapshot, content))
    ensures AdvanceRows(catalog, t, EvidenceRun(snapshot, content), c) ==
            Stay(t, if Stored(t, snapshot)
                    then EvidenceReady(Evidence(c.freshId, t.run.runId, snapshot, OfBytes(content)),
                                       Draft(c.eventId, "trust_core", EvidenceCreated, EvidenceSays(c.freshId, snapshot, content), c.now))
                    else Done(Refused))
  {
    hide AdvanceAppend, AdvanceFreeze, AdvanceScore, Commit;
  }

  lemma {:induction false} EvidenceWrites(catalog: Scoring.Catalog, t: Tables, e: Evidence, draft: Draft, c: Choice, u: Tables)
    requires c.commits && e.evidenceId !in t.evidence && Stored(t, e.snapshotArtifactId)
    requires InsertGeneratedEvent(t.(evidence := t.evidence[e.evidenceId := e]), draft, c.tail) == Ok(u)
    ensures AdvanceRows(catalog, t, EvidenceReady(e, draft), c) == Stay(u, Done(Reply.Accepted))
  {
    hide InsertGeneratedEvent, AdvanceAppend, AdvanceEvidence, AdvanceFreeze, AdvanceScore;
  }

  // Evidence is stored with the hash of its content and the snapshot that was named, exactly when that
  // snapshot is stored or none was named; and announced with both.
  lemma {:induction false} EvidenceAlone(catalog: Scoring.Catalog, t: Tables, snapshot: Option<Uuid>, content: seq<int>,
                                         choices: seq<Choice>)
    returns (u: Tables)
    requires Free(t, choices)
    ensures Stored(t, snapshot) ==>
              var c := choices[1];
              Writes(t, t.(evidence := t.evidence[c.freshId := Evidence(c.freshId, t.run.runId, snapshot, OfBytes(content))]), u,
                     EvidenceCreated, EvidenceSays(c.freshId, snapshot, content), c.now)
    ensures !Stored(t, snapshot) ==> u == t
    ensures Comes(catalog, t, EvidenceStart(snapshot, content), choices, if Stored(t, snapshot) then Reply.Accepted else Refused, u)
  {
    hide InsertGeneratedEvent, Advance, AdvanceRows, Writes, Numbered, SeesAll;
    var start, run, b, c := EvidenceStart(snapshot, content), EvidenceRun(snapshot, content), choices[0], choices[1];
    AdvancesRows(catalog, t, start, b);
    AdvancesRows(catalog, t, run, c);
    EvidenceReads(catalog, t, snapshot, content, b, c);
    if Stored(t, snapshot) {
      var evidence := Evidence(c.freshId, t.run.runId, snapshot, OfBytes(content));
      var draft := Draft(c.eventId, "trust_core", EvidenceCreated, EvidenceSays(c.freshId, snapshot, content), c.now);
      assert Lets(t, c);
      u := EvidenceEnds(catalog, t, [start, run, EvidenceReady(evidence, draft)], evidence, draft, choices);
    } else {
      u := t;
      Answers(catalog, t, choices, [start, run], Stay(t, Done(Refused)));
    }
  }

  lemma {:induction false} EvidenceEnds(catalog: Scoring.Catalog, t: Tables, chain: seq<Stage>, e: Evidence, draft: Draft,
                                        choices: seq<Choice>)
    returns (u: Tables)
    requires Free(t, choices) && e.evidenceId !in t.evidence && Stored(t, e.snapshotArtifactId) && draft.nodeId == "trust_core"
    requires |chain| == 3 && chain[2] == EvidenceReady(e, draft) && Passes(catalog, t, choices, chain)
    ensures Writes(t, t.(evidence := t.evidence[e.evidenceId := e]), u, draft.eventType, draft.payload, draft.createdAt)
    ensures Comes(catalog, t, chain[0], choices, Reply.Accepted, u)
  {
    hide InsertGeneratedEvent, Advance, AdvanceRows, Writes, Numbered, SeesAll;
    var rows, d := t.(evidence := t.evidence[e.evidenceId := e]), choices[2];
    assert Lets(t, d);
    GeneratedWrites(t, rows, draft, d.tail);
    u := InsertGeneratedEvent(rows, draft, d.tail).value;
    EvidenceWrites(catalog, t, e, draft, d, u);
    AdvancesRows(catalog, t, EvidenceReady(e, draft), d);
    Answers(catalog, t, choices, chain, Stay(u, Done(Reply.Accepted)));
  }

  // ── A caller's event ──

  // The run after a caller's event: where the event moves it, if anywhere.
  function Moved(run: Run, node: string, ty: EventType, payload: Payload, at: int): Run {
    run.(status := if ty == NodeStarted && run.status == Pending then Running
                   else if ty == ApprovalRequired then WaitingApproval
                   else if ty == RunStatusChanged then (if AsksFor(payload, "success") then Success else RunStatus.Failed)
                   else run.status,
         currentNode := if ty in {NodeStarted, NodeFinished, ApprovalRequired, RunStatusChanged} then Some(node) else run.currentNode,
         updatedAt := at)
  }

  ghost predicate Postable(t: Tables, node: string, ty: EventType, payload: Payload) {
    node != "" && |node| <= 200 && !Reserved(ty) && Allowed(t.run.status, ty, payload)
  }

  lemma {:induction false} AppendReads(catalog: Scoring.Catalog, t: Tables, nodeId: string, ty: EventType, payload: Payload, c: Choice)
    returns (p: Projected)
    ensures var node := Text.Trim(nodeId);
            var draft := Draft(c.eventId, node, ty, payload, c.now);
            AdvanceRows(catalog, t, AppendStart(nodeId, ty, payload), c) ==
              Stay(t, if Postable(t, node, ty, payload) then AppendReady(nodeId, draft, t.run.status, p) else Done(Refused))
    ensures Postable(t, Text.Trim(nodeId), ty, payload) ==>
              t.run.(status := Coalesce(p.status, t.run.status), currentNode := CoalesceNode(p.currentNode, t.run.currentNode),
                     updatedAt := c.now)
              == Moved(t.run, Text.Trim(nodeId), ty, payload, c.now)
  {
    hide Project, Allowed, Reserved, AdvanceEvidence, AdvanceFreeze, AdvanceScore, Commit, AsksFor;
    ProjectAcceptsExactly(t.run.status, nodeId, ty, payload);
    var r := Project(t.run.status, nodeId, ty, payload);
    p := if r.Ok? then r.value else Projected(None, None);
  }

  lemma {:induction false} AppendWrites(catalog: Scoring.Catalog, t: Tables, nodeId: string, draft: Draft, p: Projected, c: Choice,
                                        u: Tables)
    requires c.commits
    requires InsertEvent(t.(run := t.run.(status := Coalesce(p.status, t.run.status),
                                          currentNode := CoalesceNode(p.currentNode, t.run.currentNode), updatedAt := draft.createdAt)),
                         draft, c.tail) == Ok(u)
    ensures AdvanceRows(catalog, t, AppendReady(nodeId, draft, t.run.status, p), c) == Stay(u, Done(Reply.Accepted))
  {
    hide InsertEvent, AdvanceAppend, AdvanceEvidence, AdvanceFreeze, AdvanceScore;
  }

  // An event is stored, with the node it names, exactly when it names one of at most 200 characters, is not
  // reserved and is allowed by the status; and the run moves as the event says.
  lemma {:induction false} AppendAlone(catalog: Scoring.Catalog, t: Tables, nodeId: string, ty: EventType, payload: Payload,
                                       choices: seq<Choice>)
    returns (u: Tables, node: string)
    requires Free(t, choices)
    ensures Stripped(nodeId, node)
    ensures Postable(t, node, ty, payload) ==>
              && u == t.(run := Moved(t.run, node, ty, payload, choices[0].now), events := u.events)
              && Adds(t, u, node, ty, payload, choices[0].now)
    ensures !Postable(t, node, ty, payload) ==> u == t
    ensures Comes(catalog, t, AppendStart(nodeId, ty, payload), choices,
                  if Postable(t, node, ty, payload) then Reply.Accepted else Refused, u)
  {
    hide InsertEvent, Advance, AdvanceRows, Adds, Numbered, SeesAll, Postable, Moved, Stripped;
    node := Text.Trim(nodeId);
    TrimStrips(nodeId);
    var start, c, d := AppendStart(nodeId, ty, payload), choices[0], choices[1];
    var p := AppendReads(catalog, t, nodeId, ty, payload, c);
    AdvancesRows(catalog, t, start, c);
    if Postable(t, node, ty, payload) {
      var draft := Draft(c.eventId, node, ty, payload, c.now);
      var ready, rows := AppendReady(nodeId, draft, t.run.status, p), t.(run := Moved(t.run, node, ty, payload, c.now));
      assert Lets(t, d);
      InsertAdds(t, rows, draft, d.tail);
      u := InsertEvent(rows, draft, d.tail).value;
      AppendWrites(catalog, t, nodeId, draft, p, d, u);
      AdvancesRows(catalog, t, ready, d);
      Answers(catalog, t, choices, [start, ready], Stay(u, Done(Reply.Accepted)));
    } else {
      u := t;
      Answers(catalog, t, choices, [start], Stay(t, Done(Refused)));
    }
  }
}
