/** What a freeze of a board, a submission of findings and a freeze of a passport come to, when nothing
    disturbs them: the reply, and the rows and the event that are stored. */
module FreezeServices {
  import opened Wrappers
  import opened Domain
  import opened Sorting
  import opened EventChain
  import opened Projection
  import opened Repository
  import opened EvidenceFreeze
  import opened FreezeProperties
  import opened PassportDraft
  import opened RunProtocol
  import opened RecordMeaning
  import opened ServiceMeaning
  import Scoring
  import ScoringProperties
  import opened ScoringMeaning
  import Text

  // ── A board ──

  ghost predicate EntrySays(t: Tables, u: Uuid, e: ManifestEntry) {
    && u in t.evidence && e.evidenceId == u
    && e.contentHash == t.evidence[u].contentHash && e.snapshotArtifactId == t.evidence[u].snapshotArtifactId
    && match e.snapshotArtifactId
       case None => e.snapshotHash.None?
       case Some(a) => a in t.artifacts && e.snapshotHash == Some(t.artifacts[a].sha256)
  }

  // One entry for each piece of evidence on the board, in its order, with the stored hashes.
  ghost predicate ManifestSays(t: Tables, board: Board, manifest: Manifest) {
    && manifest.runId == t.run.runId && manifest.boardVersion == board.version
    && |manifest.entries| == |board.evidenceIds|
    && forall i :: 0 <= i < |manifest.entries| ==> EntrySays(t, board.evidenceIds[i], manifest.entries[i])
  }

  function FreezeSays(req: FreezeRequest): Payload {
    map["claim_count" := Number(|req.claims|), "evidence_board_version" := Number(req.version),
        "evidence_count" := Number(|req.evidenceIds|), "gap_count" := Number(|req.gaps|)]
  }

  ghost predicate FreezeTaken(catalog: Scoring.Catalog, t: Tables, req: FreezeRequest) {
    exists profile :: Names(catalog, t.run.binding, profile)
                      && FreezeAsked(req, set c | c in profile.checks :: c.checkId, t.evidence.Keys)
  }

  ghost predicate SnapshotsStored(t: Tables, req: FreezeRequest) {
    forall u :: u in req.evidenceIds && u in t.evidence ==> Stored(t, t.evidence[u].snapshotArtifactId)
  }

  ghost function FreezeReply(catalog: Scoring.Catalog, t: Tables, req: FreezeRequest): Reply {
    if !FreezeTaken(catalog, t, req) then Refused
    else if !SnapshotsStored(t, req) then CorruptData
    else if req.version in t.boards then Conflict
    else if req.version in t.manifests then Refused
    else Reply.Accepted
  }

  lemma {:induction false} SameCount(a: seq<Uuid>, b: seq<Uuid>)
    requires multiset(a) == multiset(b)
    ensures |a| == |b|
  {
    assert |multiset(a)| == |a| && |multiset(b)| == |b|;
  }

  // What the service finds, from the run and the evidence that it has read.
  lemma {:induction false} FreezeFinds(catalog: Scoring.Catalog, t: Tables, req: FreezeRequest, now: int)
    ensures var r := FreezeOutcome(t.run, req, Scoring.BindingCheckIds(catalog, t.run.binding), t.evidence, t.artifacts, now);
            && (r == Err(InvalidRequest) <==> !FreezeTaken(catalog, t, req))
            && (r.Ok? <==> FreezeTaken(catalog, t, req) && SnapshotsStored(t, req))
            && (r.Ok? ==>
                  && BoardKept(t.run, req, r.value.board) && r.value.board.frozenAt == now
                  && ManifestSays(t, r.value.board, r.value.manifest)
                  && |r.value.board.claims| == |req.claims| && |r.value.board.gaps| == |req.gaps|
                  && |r.value.board.evidenceIds| == |req.evidenceIds|)
  {
    hide FreezeAsked, FreezeOutcome, BoardKept, Names, Scoring.BindingCheckIds;
    var ids := Scoring.BindingCheckIds(catalog, t.run.binding);
    LoadsNamed(catalog, t.run.binding);
    FreezeAcceptsExactly(t.run, req, ids, t.evidence, t.artifacts, now);
    NamedChecks(catalog, t, req);
    if ids.Some? && FreezeAsked(req, ids.value, t.evidence.Keys) { AskedIsStored(req, ids.value, t.evidence.Keys); }
    var r := FreezeOutcome(t.run, req, ids, t.evidence, t.artifacts, now);
    if r.Ok? {
      FrozenBoardKeeps(t.run, req, ids.value, t.evidence, t.artifacts, now);
      KeptCounts(t.run, req, r.value.board);
      ManifestIsSaid(t, req, ids.value, now);
    }
  }

  lemma {:induction false} AskedIsStored(req: FreezeRequest, checkIds: set<string>, known: set<Uuid>)
    requires FreezeAsked(req, checkIds, known)
    ensures forall u :: u in req.evidenceIds ==> u in known
  {
  }

  lemma {:induction false} ManifestIsSaid(t: Tables, req: FreezeRequest, checkIds: set<string>, now: int)
    requires FreezeOutcome(t.run, req, Some(checkIds), t.evidence, t.artifacts, now).Ok?
    ensures var frozen := FreezeOutcome(t.run, req, Some(checkIds), t.evidence, t.artifacts, now).value;
            ManifestSays(t, frozen.board, frozen.manifest)
  {
    hide Acceptable;
  }

  lemma {:induction false} KeptCounts(run: Run, req: FreezeRequest, board: Board)
    requires BoardKept(run, req, board)
    ensures |board.claims| == |req.claims| && |board.gaps| == |req.gaps| && |board.evidenceIds| == |req.evidenceIds|
  {
    hide Stripped;
    SameCount(req.evidenceIds, board.evidenceIds);
  }

  lemma {:induction false} NamedChecks(catalog: Scoring.Catalog, t: Tables, req: FreezeRequest)
    ensures var ids := Scoring.BindingCheckIds(catalog, t.run.binding);
            FreezeTaken(catalog, t, req) <==> ids.Some? && FreezeAsked(req, ids.value, t.evidence.Keys)
  {
    hide FreezeAsked, Names;
    LoadsNamed(catalog, t.run.binding);
  }

  lemma {:induction false} FreezeReads(catalog: Scoring.Catalog, t: Tables, req: FreezeRequest, b: Choice, c: Choice)
    ensures AdvanceRows(catalog, t, FreezeStart(req), b) == Stay(t, FreezeRun(req, t.run))
    ensures AdvanceRows(catalog, t, FreezeRun(req, t.run), c) == Stay(t, FreezeListed(req, t.run, t.evidence))
  {
    hide AdvanceAppend, AdvanceEvidence, AdvanceFreeze, AdvanceScore, Commit;
  }

  lemma {:induction false} FreezeComputes(catalog: Scoring.Catalog, t: Tables, req: FreezeRequest, c: Choice) returns (frozen: Frozen)
    ensures var m := AdvanceRows(catalog, t, FreezeListed(req, t.run, t.evidence), c);
            m == Stay(t, if !FreezeTaken(catalog, t, req) then Done(Refused)
                         else if !SnapshotsStored(t, req) then Done(CorruptData)
                         else FreezeReady(frozen, Draft(c.eventId, "trust_core", EvidenceBoardFrozen, FreezeSays(req), c.now)))
    ensures FreezeTaken(catalog, t, req) && SnapshotsStored(t, req) ==>
              BoardKept(t.run, req, frozen.board) && frozen.board.frozenAt == c.now && ManifestSays(t, frozen.board, frozen.manifest)
  {
    hide FreezeOutcome, FreezeTaken, SnapshotsStored, ManifestSays, AdvanceAppend, AdvanceEvidence, AdvanceScore, Commit;
    hide ClaimsKept, GapsKept, Stripped;
    FreezeFinds(catalog, t, req, c.now);
    var r := FreezeOutcome(t.run, req, Scoring.BindingCheckIds(catalog, t.run.binding), t.evidence, t.artifacts, c.now);
    frozen := if r.Ok? then r.value else Frozen(CanonicalBoard(t.run, req, c.now), Manifest(t.run.runId, req.version, []));
  }

  lemma {:induction false} FreezeWrites(catalog: Scoring.Catalog, t: Tables, frozen: Frozen, draft: Draft, c: Choice, u: Tables)
    requires c.commits
    requires var v := frozen.board.version;
             v !in t.boards && v !in t.manifests ==>
               InsertGeneratedEvent(t.(boards := t.boards[v := frozen.board], manifests := t.manifests[v := frozen.manifest]),
                                    draft, c.tail) == Ok(u)
    ensures var v := frozen.board.version;
            AdvanceRows(catalog, t, FreezeReady(frozen, draft), c) ==
              if v in t.boards then Stay(t, Done(Conflict)) else if v in t.manifests then Stay(t, Done(Refused))
              else Stay(u, Done(Reply.Accepted))
  {
    hide InsertGeneratedEvent, AdvanceAppend, AdvanceEvidence, AdvanceFreeze, AdvanceScore;
  }

  // A board is stored as it was asked for, with the manifest of its evidence, exactly when the service takes
  // the request and the version is new.
  lemma {:induction false} FreezeAlone(catalog: Scoring.Catalog, t: Tables, req: FreezeRequest, choices: seq<Choice>)
    returns (u: Tables, frozen: Frozen)
    requires Free(t, choices)
    ensures FreezeReply(catalog, t, req) == Reply.Accepted ==>
              && BoardKept(t.run, req, frozen.board) && frozen.board.frozenAt == choices[2].now
              && ManifestSays(t, frozen.board, frozen.manifest)
              && Writes(t, t.(boards := t.boards[req.version := frozen.board], manifests := t.manifests[req.version := frozen.manifest]), u,
                        EvidenceBoardFrozen, FreezeSays(req), choices[2].now)
    ensures FreezeReply(catalog, t, req) != Reply.Accepted ==> u == t
    ensures Comes(catalog, t, FreezeStart(req), choices, FreezeReply(catalog, t, req), u)
  {
    hide InsertGeneratedEvent, Advance, AdvanceRows, Writes, Numbered, SeesAll, FreezeTaken, SnapshotsStored, ManifestSays;
    hide ClaimsKept, GapsKept, Stripped;
    var start, run, listed := FreezeStart(req), FreezeRun(req, t.run), FreezeListed(req, t.run, t.evidence);
    var c, d := choices[2], choices[3];
    FreezeReads(catalog, t, req, choices[0], choices[1]);
    frozen := FreezeComputes(catalog, t, req, c);
    AdvancesRows(catalog, t, start, choices[0]);
    AdvancesRows(catalog, t, run, choices[1]);
    AdvancesRows(catalog, t, listed, c);
    u := t;
    if FreezeTaken(catalog, t, req) && SnapshotsStored(t, req) {
      u := FreezeEnds(catalog, t, req, frozen, choices);
    } else {
      var reply := if !FreezeTaken(catalog, t, req) then Refused else CorruptData;
      Answers(catalog, t, choices, [start, run, listed], Stay(t, Done(reply)));
    }
  }

  lemma {:induction false} FreezeEnds(catalog: Scoring.Catalog, t: Tables, req: FreezeRequest, frozen: Frozen, choices: seq<Choice>)
    returns (u: Tables)
    requires Free(t, choices) && FreezeTaken(catalog, t, req) && SnapshotsStored(t, req) && frozen.board.version == req.version
    requires var start, run, listed := FreezeStart(req), FreezeRun(req, t.run), FreezeListed(req, t.run, t.evidence);
             var draft := Draft(choices[2].eventId, "trust_core", EvidenceBoardFrozen, FreezeSays(req), choices[2].now);
             Passes(catalog, t, choices, [start, run, listed, FreezeReady(frozen, draft)])
    ensures FreezeReply(catalog, t, req) == Reply.Accepted ==>
              Writes(t, t.(boards := t.boards[req.version := frozen.board], manifests := t.manifests[req.version := frozen.manifest]), u,
                     EvidenceBoardFrozen, FreezeSays(req), choices[2].now)
    ensures FreezeReply(catalog, t, req) != Reply.Accepted ==> u == t
    ensures Comes(catalog, t, FreezeStart(req), choices, FreezeReply(catalog, t, req), u)
  {
    hide InsertGeneratedEvent, Advance, AdvanceRows, Writes, Numbered, SeesAll, FreezeTaken, SnapshotsStored;
    var draft := Draft(choices[2].eventId, "trust_core", EvidenceBoardFrozen, FreezeSays(req), choices[2].now);
    var ready, d, v := FreezeReady(frozen, draft), choices[3], req.version;
    var rows := t.(boards := t.boards[v := frozen.board], manifests := t.manifests[v := frozen.manifest]);
    assert Lets(t, d);
    GeneratedWrites(t, rows, draft, d.tail);
    u := if v in t.boards || v in t.manifests then t else InsertGeneratedEvent(rows, draft, d.tail).value;
    FreezeWrites(catalog, t, frozen, draft, d, u);
    AdvancesRows(catalog, t, ready, d);
    Answers(catalog, t, choices, [FreezeStart(req), FreezeRun(req, t.run), FreezeListed(req, t.run, t.evidence), ready],
            Stay(u, Done(FreezeReply(catalog, t, req))));
  }

  // ── Check results ──

  function ScorePayload(r: CheckResults): Payload {
    map["check_results_id" := Json.Text(r.checkResultsId), "evidence_board_version" := Number(r.boardVersion),
        "profile_id" := Json.Text(r.binding.profileId + "@" + r.binding.profileVersion),
        "standard_id" := Json.Text(r.binding.standardId + "@" + r.binding.standardVersion),
        "total_score" := Number(r.totalScore), "rating" := Json.Text(RatingText(r.rating))]
  }

  ghost predicate Sound(catalog: Scoring.Catalog, binding: AuditBinding) {
    forall profile :: Names(catalog, binding, profile) ==> ScoringProperties.CatalogRules(catalog.standard, profile)
  }

  ghost predicate ScoreTaken(catalog: Scoring.Catalog, t: Tables, sub: Scoring.Submission) {
    && sub.boardVersion in t.boards && sub.boardVersion in t.manifests
    && exists profile :: Names(catalog, t.run.binding, profile)
                         && ScoreAsked(catalog.standard, profile, sub, Elements(t.boards[sub.boardVersion].evidenceIds), {})
  }

  ghost predicate ResultsRecorded(catalog: Scoring.Catalog, t: Tables, sub: Scoring.Submission, c: Choice, r: CheckResults) {
    && (forall profile :: Names(catalog, t.run.binding, profile) ==> RecordSays(catalog.standard, profile, sub, r))
    && r.runId == t.run.runId && r.checkResultsId == c.freshId && r.computedAt == c.now
  }

  ghost function ScoreReply(catalog: Scoring.Catalog, t: Tables, sub: Scoring.Submission): Reply {
    if !ScoreTaken(catalog, t, sub) then Refused else if sub.boardVersion in t.checkResults then Conflict else Reply.Accepted
  }

  lemma {:induction false} ScoreFinds(catalog: Scoring.Catalog, t: Tables, sub: Scoring.Submission, c: Choice)
    requires Sound(catalog, t.run.binding) && sub.boardVersion in t.boards && sub.boardVersion in t.manifests
    ensures var r := Scoring.ScoreOutcome(catalog, t.run.binding, sub, Elements(t.boards[sub.boardVersion].evidenceIds), {}, t.run.runId,
                                          c.freshId, c.now);
            (r.Some? <==> ScoreTaken(catalog, t, sub)) && (r.Some? ==> ResultsRecorded(catalog, t, sub, c, r.value))
  {
    hide Scoring.Scored, ScoringProperties.CatalogRules, ScoreAsked, Names, RecordSays;
    var binding, available := t.run.binding, Elements(t.boards[sub.boardVersion].evidenceIds);
    LoadsNamed(catalog, binding);
    forall profile | Names(catalog, binding, profile)
      ensures Scoring.ScoreOutcome(catalog, binding, sub, available, {}, t.run.runId, c.freshId, c.now).Some? <==>
              ScoreAsked(catalog.standard, profile, sub, available, {})
    {
      ScoreAcceptsExactly(catalog, binding, profile, sub, available, {}, t.run.runId, c.freshId, c.now);
    }
    if Scoring.ScoreOutcome(catalog, binding, sub, available, {}, t.run.runId, c.freshId, c.now).Some? {
      ScoreSays(catalog, binding, sub, available, {}, t.run.runId, c.freshId, c.now);
    }
  }

  lemma {:induction false} ScoreReads(catalog: Scoring.Catalog, t: Tables, sub: Scoring.Submission, b: Choice)
    ensures AdvanceRows(catalog, t, ScoreStart(sub), b) == Stay(t, ScoreRun(sub, t.run))
  {
    hide AdvanceAppend, AdvanceEvidence, AdvanceFreeze, AdvanceScore, Commit;
  }

  lemma {:induction false} ScoreComputes(catalog: Scoring.Catalog, t: Tables, sub: Scoring.Submission, c: Choice) returns (r: CheckResults)
    requires Sound(catalog, t.run.binding)
    ensures AdvanceRows(catalog, t, ScoreRun(sub, t.run), c) ==
            Stay(t, if ScoreTaken(catalog, t, sub)
                    then ScoreReady(r, Draft(c.eventId, "trust_core", ScoreChanged, ScorePayload(r), c.now)) else Done(Refused))
    ensures ScoreTaken(catalog, t, sub) ==> ResultsRecorded(catalog, t, sub, c, r) && r.boardVersion == sub.boardVersion
  {
    hide Scoring.ScoreOutcome, ResultsRecorded, Sound, AdvanceAppend, AdvanceEvidence, AdvanceFreeze, Commit, Names, ScoreAsked;
    var none := CheckResults("", "", 0, t.run.binding, [], [], 0, NotRecommended, 0);
    r := none;
    if sub.boardVersion in t.boards && sub.boardVersion in t.manifests {
      ScoreFinds(catalog, t, sub, c);
      var outcome := Scoring.ScoreOutcome(catalog, t.run.binding, sub, Elements(t.boards[sub.boardVersion].evidenceIds), {}, t.run.runId,
                                          c.freshId, c.now);
      if outcome.Some? {
        r := outcome.value;
        RecordedVersion(catalog, t, sub, c, r);
      }
    }
  }

  lemma {:induction false} RecordedVersion(catalog: Scoring.Catalog, t: Tables, sub: Scoring.Submission, c: Choice, r: CheckResults)
    requires ScoreTaken(catalog, t, sub) && ResultsRecorded(catalog, t, sub, c, r)
    ensures r.boardVersion == sub.boardVersion
  {
    hide Names, ScoreAsked, ResultsSay, DimensionSays, TotalSays, RatingSays;
  }

  lemma {:induction false} ScoreWrites(catalog: Scoring.Catalog, t: Tables, r: CheckResults, draft: Draft, c: Choice, u: Tables)
    requires c.commits
    requires r.boardVersion !in t.checkResults ==>
               InsertGeneratedEvent(t.(checkResults := t.checkResults[r.boardVersion := r]), draft, c.tail) == Ok(u)
    ensures AdvanceRows(catalog, t, ScoreReady(r, draft), c) ==
            if r.boardVersion in t.checkResults then Stay(t, Done(Conflict)) else Stay(u, Done(Reply.Accepted))
  {
    hide InsertGeneratedEvent, AdvanceAppend, AdvanceEvidence, AdvanceFreeze, AdvanceScore;
  }

  // With a catalogue that keeps its rules, findings are scored as the standard and the profile say, exactly
  // when the service takes them and the board has no results yet.
  lemma {:induction false} ScoreAlone(catalog: Scoring.Catalog, t: Tables, sub: Scoring.Submission, choices: seq<Choice>)
    returns (u: Tables, r: CheckResults)
    requires Free(t, choices) && Sound(catalog, t.run.binding)
    ensures ScoreReply(catalog, t, sub) == Reply.Accepted ==>
              && ResultsRecorded(catalog, t, sub, choices[1], r)
              && Writes(t, t.(checkResults := t.checkResults[sub.boardVersion := r]), u, ScoreChanged, ScorePayload(r), choices[1].now)
    ensures ScoreReply(catalog, t, sub) != Reply.Accepted ==> u == t
    ensures Comes(catalog, t, ScoreStart(sub), choices, ScoreReply(catalog, t, sub), u)
  {
    hide InsertGeneratedEvent, Advance, AdvanceRows, Writes, Numbered, SeesAll, ScoreTaken, ResultsRecorded, Sound;
    var start, run, c := ScoreStart(sub), ScoreRun(sub, t.run), choices[1];
    ScoreReads(catalog, t, sub, choices[0]);
    r := ScoreComputes(catalog, t, sub, c);
    AdvancesRows(catalog, t, start, choices[0]);
    AdvancesRows(catalog, t, run, c);
    u := t;
    if ScoreTaken(catalog, t, sub) {
      u := ScoreEnds(catalog, t, sub, r, choices);
    } else {
      Answers(catalog, t, choices, [start, run], Stay(t, Done(Refused)));
    }
  }

  lemma {:induction false} ScoreEnds(catalog: Scoring.Catalog, t: Tables, sub: Scoring.Submission, r: CheckResults, choices: seq<Choice>)
    returns (u: Tables)
    requires Free(t, choices) && ScoreTaken(catalog, t, sub) && r.boardVersion == sub.boardVersion
    requires var draft := Draft(choices[1].eventId, "trust_core", ScoreChanged, ScorePayload(r), choices[1].now);
             Passes(catalog, t, choices, [ScoreStart(sub), ScoreRun(sub, t.run), ScoreReady(r, draft)])
    ensures sub.boardVersion !in t.checkResults ==>
              Writes(t, t.(checkResults := t.checkResults[sub.boardVersion := r]), u, ScoreChanged, ScorePayload(r), choices[1].now)
    ensures sub.boardVersion in t.checkResults ==> u == t
    ensures Comes(catalog, t, ScoreStart(sub), choices, if sub.boardVersion in t.checkResults then Conflict else Reply.Accepted, u)
  {
    hide InsertGeneratedEvent, Advance, AdvanceRows, Writes, Numbered, SeesAll, ScoreTaken;
    var draft := Draft(choices[1].eventId, "trust_core", ScoreChanged, ScorePayload(r), choices[1].now);
    var rows, d := t.(checkResults := t.checkResults[r.boardVersion := r]), choices[2];
    assert Lets(t, d);
    GeneratedWrites(t, rows, draft, d.tail);
    u := if r.boardVersion in t.checkResults then t else InsertGeneratedEvent(rows, draft, d.tail).value;
    ScoreWrites(catalog, t, r, draft, d, u);
    AdvancesRows(catalog, t, ScoreReady(r, draft), d);
    Answers(catalog, t, choices, [ScoreStart(sub), ScoreRun(sub, t.run), ScoreReady(r, draft)],
            Stay(u, Done(if sub.boardVersion in t.checkResults then Conflict else Reply.Accepted)));
  }

  // ── A passport ──

  // Numbered 1..n, each with its provenance.
  ghost predicate PassportsNumbered(t: Tables) {
    (forall k :: k in t.passports <==> 1 <= k <= |t.passports|) && t.provenances.Keys == t.passports.Keys
  }

  ghost predicate PassportTaken(t: Tables, req: PassportRequest) {
    var v := req.boardVersion;
    && req.version == "0.2.0" && 1 <= v <= 9223372036854775807 && !Spaces(req.narrative.auditScope)
    && v in t.boards && v in t.manifests && v in t.checkResults && t.checkResults[v].binding == t.run.binding
    && NarrativeAsked(req.narrative, Elements(t.boards[v].evidenceIds))
  }

  // The passport is the run's, names the board and its results, and repeats their scores and the narrative.
  ghost predicate PassportSays(t: Tables, req: PassportRequest, p: Passport) {
    var v := req.boardVersion;
    && v in t.checkResults
    && p.toolId == t.run.toolId && p.runId == t.run.runId && p.toolType == t.run.toolType && p.binding == t.run.binding
    && p.boardVersion == v && p.checkResultsId == t.checkResults[v].checkResultsId && p.sequence == |t.passports| + 1
    && NarrativeKept(req.narrative, p.narrative)
    && p.scores.totalScore == t.checkResults[v].totalScore && p.scores.rating == t.checkResults[v].rating
    && |p.scores.dimensions| == |t.checkResults[v].dimensionScores|
    && forall i :: 0 <= i < |p.scores.dimensions| ==> p.scores.dimensions[i] == t.checkResults[v].dimensionScores[i].score
  }

  // The provenance names the passport and commits to it, to the manifest of its board and to the log.
  ghost predicate ProvenanceSays(t: Tables, p: Passport, logHash: Hash, now: int, q: Provenance) {
    && q.runId == t.run.runId && q.freezeVersion == p.sequence && q.passportSequence == p.sequence && q.boardVersion == p.boardVersion
    && p.boardVersion in t.manifests && q.manifestHash == OfManifest(t.manifests[p.boardVersion])
    && q.passportHash == OfPassport(p) && q.onchainRunId == OfRunId(t.run.runId) && q.auditLogHash == logHash && q.frozenAt == now
  }

  function FrozenPayload(p: Passport): Payload {
    map["evidence_board_version" := Number(p.boardVersion), "freeze_version" := Number(p.sequence),
        "passport_hash" := HashText(OfPassport(p)), "passport_sequence" := Number(p.sequence)]
  }

  // The stages of a freeze that is taken.
  lemma {:induction false} PassportReads(t: Tables, req: PassportRequest, b: Choice)
    ensures AdvancePassport(t, PassportStart(req), b) ==
            Stay(t, if req.version == "0.2.0" && 1 <= req.boardVersion <= 9223372036854775807 && !Spaces(req.narrative.auditScope)
                    then PassportRun(req, t.run) else Done(Refused))
    ensures var v := req.boardVersion;
            AdvancePassport(t, PassportRun(req, t.run), b) ==
            Stay(t, if v in t.boards && v in t.manifests then PassportBoard(req, t.run, t.boards[v], t.manifests[v]) else Done(Refused))
    ensures var v := req.boardVersion;
            v in t.boards && v in t.manifests ==>
              AdvancePassport(t, PassportBoard(req, t.run, t.boards[v], t.manifests[v]), b) ==
              Stay(t, if v in t.checkResults && t.checkResults[v].binding == t.run.binding
                         && NarrativeAsked(req.narrative, Elements(t.boards[v].evidenceIds))
                      then PassportScored(req, t.run, t.boards[v], t.manifests[v], t.checkResults[v]) else Done(Refused))
  {
    hide NarrativeOk, NarrativeAsked, Commit, Spaces;
    BlankIsSpaces(req.narrative.auditScope);
    if req.boardVersion in t.boards { NarrativeAcceptsExactly(req.narrative, Elements(t.boards[req.boardVersion].evidenceIds)); }
  }

  lemma {:induction false} NextAfter(t: Tables)
    requires PassportsNumbered(t)
    ensures NextPassportSequence(t) == |t.passports| + 1
  {
    if |t.passports| > 0 { assert |t.passports| in t.passports; } else { assert t.passports.Keys == {}; }
  }

  lemma {:induction false} PassportComputes(t: Tables, req: PassportRequest, c: Choice) returns (p: Passport, q: Provenance)
    requires PassportsNumbered(t) && PassportTaken(t, req)
    ensures var v := req.boardVersion;
            AdvancePassport(t, PassportScored(req, t.run, t.boards[v], t.manifests[v], t.checkResults[v]), c) ==
            Stay(t, PassportReady(p, q, Draft(c.eventId, "trust_core", ProvenanceFrozen, FrozenPayload(p), c.now)))
    ensures PassportSays(t, req, p) && ProvenanceSays(t, p, Zero, c.now, q)
  {
    hide NarrativeOk, NarrativeAsked, NarrativeKept, NormNarrative, NextPassportSequence, Commit, Spaces, PassportsNumbered;
    var v := req.boardVersion;
    NextAfter(t);
    NarrativeAcceptsExactly(req.narrative, Elements(t.boards[v].evidenceIds));
    NarrativeIsKept(req.narrative, Elements(t.boards[v].evidenceIds));
    p := PassportOf(t.run, req, t.checkResults[v], NextPassportSequence(t));
    q := ProvenanceOf(p, t.manifests[v], c.now);
  }

  lemma {:induction false} PassportWrites(t: Tables, p: Passport, q: Provenance, draft: Draft, c: Choice) returns (u: Tables, h: Hash)
    requires Numbered(t.events) && t.events != map[] && c.commits && SeesAll(t, c.tail) && draft.nodeId == "trust_core"
    requires p.sequence !in t.passports && p.sequence !in t.provenances
    ensures Numbered(u.events) && |u.events| > 0 && h == Log(u.events)[|u.events| - 1].eventHash
    ensures Writes(t, t.(passports := t.passports[p.sequence := p], provenances := t.provenances[p.sequence := q.(auditLogHash := h)]), u,
                   draft.eventType, draft.payload, draft.createdAt)
    ensures AdvancePassport(t, PassportReady(p, q, draft), c) == Stay(u, Done(Reply.Accepted))
  {
    hide InsertGeneratedEvent, Numbered, Log, SeesAll, NextSequenceAndPrevHash;
    GeneratedWrites(t, t, draft, c.tail);
    var w := InsertGeneratedEvent(t, draft, c.tail).value;
    h := w.events[NextSequenceAndPrevHash(t.events, c.tail).0].eventHash;
    u := w.(passports := t.passports[p.sequence := p], provenances := t.provenances[p.sequence := q.(auditLogHash := h)]);
  }

  lemma {:induction false} AdvancesPassport(catalog: Scoring.Catalog, t: Tables, stage: Stage, c: Choice)
    requires ForPassport(stage)
    ensures Advance(catalog, t, stage, c) == AdvancePassport(t, stage, c)
  {
    hide AdvancePassport;
  }

  lemma {:induction false} PassportRefused(catalog: Scoring.Catalog, t: Tables, req: PassportRequest, choices: seq<Choice>)
    requires |choices| >= 7 && !PassportTaken(t, req)
    ensures Comes(catalog, t, PassportStart(req), choices, Refused, t)
  {
    hide Advance, AdvancePassport, Spaces, NarrativeAsked;
    var start, run, v := PassportStart(req), PassportRun(req, t.run), req.boardVersion;
    PassportReads(t, req, choices[0]);
    PassportReads(t, req, choices[1]);
    PassportReads(t, req, choices[2]);
    AdvancesPassport(catalog, t, start, choices[0]);
    AdvancesPassport(catalog, t, run, choices[1]);
    if !(req.version == "0.2.0" && 1 <= v <= 9223372036854775807 && !Spaces(req.narrative.auditScope)) {
      Answers(catalog, t, choices, [start], Stay(t, Done(Refused)));
    } else if !(v in t.boards && v in t.manifests) {
      Answers(catalog, t, choices, [start, run], Stay(t, Done(Refused)));
    } else {
      var board := PassportBoard(req, t.run, t.boards[v], t.manifests[v]);
      AdvancesPassport(catalog, t, board, choices[2]);
      Answers(catalog, t, choices, [start, run, board], Stay(t, Done(Refused)));
    }
  }

  lemma {:induction false} PassportPasses(catalog: Scoring.Catalog, t: Tables, req: PassportRequest, choices: seq<Choice>, ready: Stage)
    requires |choices| >= 7 && PassportTaken(t, req)
    requires var v := req.boardVersion;
             AdvancePassport(t, PassportScored(req, t.run, t.boards[v], t.manifests[v], t.checkResults[v]), choices[3]) == Stay(t, ready)
    ensures var v := req.boardVersion;
            Passes(catalog, t, choices,
                   [PassportStart(req), PassportRun(req, t.run), PassportBoard(req, t.run, t.boards[v], t.manifests[v]),
                    PassportScored(req, t.run, t.boards[v], t.manifests[v], t.checkResults[v]), ready])
  {
    hide Advance, AdvancePassport, Spaces, NarrativeAsked;
    var v := req.boardVersion;
    PassportReads(t, req, choices[0]);
    PassportReads(t, req, choices[1]);
    PassportReads(t, req, choices[2]);
    AdvancesPassport(catalog, t, PassportStart(req), choices[0]);
    AdvancesPassport(catalog, t, PassportRun(req, t.run), choices[1]);
    AdvancesPassport(catalog, t, PassportBoard(req, t.run, t.boards[v], t.manifests[v]), choices[2]);
    AdvancesPassport(catalog, t, PassportScored(req, t.run, t.boards[v], t.manifests[v], t.checkResults[v]), choices[3]);
  }

  // The next passport is stored, with the narrative that was asked for and the scores of the board's results,
  // and its provenance with the hash of the event that announces it; exactly when the service takes the request.
  lemma {:induction false} PassportAlone(catalog: Scoring.Catalog, t: Tables, req: PassportRequest, choices: seq<Choice>)
    returns (u: Tables, p: Passport, q: Provenance)
    requires Free(t, choices) && PassportsNumbered(t)
    ensures PassportTaken(t, req) ==>
              && PassportSays(t, req, p) && Numbered(u.events) && |u.events| > 0
              && ProvenanceSays(t, p, Log(u.events)[|u.events| - 1].eventHash, choices[3].now, q)
              && Writes(t, t.(passports := t.passports[p.sequence := p], provenances := t.provenances[p.sequence := q]), u,
                        ProvenanceFrozen, FrozenPayload(p), choices[3].now)
    ensures !PassportTaken(t, req) ==> u == t
    ensures Comes(catalog, t, PassportStart(req), choices, if PassportTaken(t, req) then Reply.Accepted else Refused, u)
  {
    hide Advance, AdvancePassport, Writes, Numbered, SeesAll, PassportTaken, NarrativeKept, Log;
    u := t;
    if PassportTaken(t, req) {
      var c, d := choices[3], choices[4];
      assert Lets(t, d);
      p, q := PassportComputes(t, req, c);
      var draft := Draft(c.eventId, "trust_core", ProvenanceFrozen, FrozenPayload(p), c.now);
      PassportPasses(catalog, t, req, choices, PassportReady(p, q, draft));
      var h;
      assert p.sequence !in t.passports;
      u, h := PassportWrites(t, p, q, draft, d);
      q := q.(auditLogHash := h);
      PassportEnds(catalog, t, req, choices, PassportReady(p, q.(auditLogHash := Zero), draft), u);
    } else {
      p, q := *, *;
      PassportRefused(catalog, t, req, choices);
    }
  }

  lemma {:induction false} PassportEnds(catalog: Scoring.Catalog, t: Tables, req: PassportRequest, choices: seq<Choice>, ready: Stage,
                                        u: Tables)
    requires |choices| >= 7 && PassportTaken(t, req) && ForPassport(ready)
    requires var v := req.boardVersion;
             Passes(catalog, t, choices,
                    [PassportStart(req), PassportRun(req, t.run), PassportBoard(req, t.run, t.boards[v], t.manifests[v]),
                     PassportScored(req, t.run, t.boards[v], t.manifests[v], t.checkResults[v]), ready])
    requires AdvancePassport(t, ready, choices[4]) == Stay(u, Done(Reply.Accepted))
    ensures Comes(catalog, t, PassportStart(req), choices, Reply.Accepted, u)
  {
    hide Advance, AdvancePassport, Spaces, NarrativeAsked;
    var v := req.boardVersion;
    AdvancesPassport(catalog, t, ready, choices[4]);
    Answers(catalog, t, choices,
            [PassportStart(req), PassportRun(req, t.run), PassportBoard(req, t.run, t.boards[v], t.manifests[v]),
             PassportScored(req, t.run, t.boards[v], t.manifests[v], t.checkResults[v]), ready], Stay(u, Done(Reply.Accepted)));
  }
}
