/** Every graph can be brought to its end: a board, check results and a passport are frozen, and then its
    events are posted one by one. */
module GraphCompletion {
  import opened Wrappers
  import opened Domain
  import opened Sorting
  import opened Projection
  import opened EventChain
  import opened Repository
  import opened EvidenceFreeze
  import opened PassportDraft
  import opened RunProtocol
  import opened ProtocolInvariant
  import opened Submissions
  import opened ProtocolTheorems
  import opened GraphTrace
  import opened GraphOnTrustCore
  import Scoring
  import ScoringProperties
  import ShippedCatalog
  import Text

  // ── Requests with as little in them as the services accept ──

  // The catalogue keeps its rules and is the one that the run is bound to.
  ghost predicate Bound(catalog: Scoring.Catalog, binding: AuditBinding) {
    var profile := Scoring.LoadCatalog(catalog, binding);
    && profile.Some? && ScoringProperties.CatalogRules(catalog.standard, profile.value)
    && binding == AuditBinding(catalog.standard.standardId, catalog.standard.standardVersion,
                               profile.value.profileId, profile.value.profileVersion)
  }

  const BOARD: FreezeRequest := FreezeRequest("0.1.0", 1, [], [], [], "done")

  const PASSPORT: PassportRequest := PassportRequest("0.2.0", 1, Narrative(None, "all", [], [], [], [], Recommendation("none", [])))

  function Unknowns(checks: seq<Scoring.ProfileCheck>): seq<Scoring.FindingSubmission> {
    seq(|checks|, i requires 0 <= i < |checks| => Scoring.FindingSubmission(checks[i].checkId, Unknown, "none", [], None))
  }

  function Findings(profile: Scoring.Profile): Scoring.Submission { Scoring.Submission("0.1.0", 1, Unknowns(profile.checks)) }

  lemma {:induction false} NotBlank(s: string)
    requires s != "" && Text.Trimmed(s)
    ensures !Blank(s)
  {
    Text.TrimIsProjection(s);
  }

  // What the tail query must see, and nothing in the way of the commit.
  function Undisturbed(t: Tables): Choice { Choice(0, "", "", "", Snapshot(|t.events|), Snapshot(0), true, None) }

  ghost predicate Logged(t: Tables) { Numbered(t.events) && t.events != map[] }

  lemma {:induction false} InsertSucceeds(t: Tables, rows: Tables, draft: Draft)
    requires Logged(t) && rows.events == t.events
    ensures var r := InsertGeneratedEvent(rows, draft, Snapshot(|t.events|));
            r.Ok? && Logged(r.value) && r.value == rows.(events := r.value.events, run := rows.run.(updatedAt := draft.createdAt))
  {
    InsertAppendsOrFails(rows, draft, Snapshot(|t.events|));
  }

  // ── The board ──

  ghost predicate Empty(t: Tables, binding: AuditBinding) {
    && Logged(t) && t.run.binding == binding
    && t.boards == map[] && t.manifests == map[] && t.checkResults == map[] && t.passports == map[] && t.provenances == map[]
  }

  ghost predicate Boarded(t: Tables, binding: AuditBinding) {
    && Logged(t) && t.run.binding == binding
    && 1 in t.boards && 1 in t.manifests && t.boards[1].evidenceIds == []
    && t.checkResults == map[] && t.passports == map[] && t.provenances == map[]
  }

  lemma {:induction false} BoardIsAccepted(run: Run, checkIds: set<string>, evidence: map<Uuid, Evidence>, artifacts: map<Uuid, Artifact>)
    ensures var r := FreezeOutcome(run, BOARD, Some(checkIds), evidence, artifacts, 0);
            r.Ok? && r.value.board.version == 1 && r.value.board.evidenceIds == []
  {
    NotBlank("done");
  }

  lemma {:induction false} BoardCommits(t: Tables, binding: AuditBinding, frozen: Frozen, draft: Draft) returns (u: Tables)
    requires Empty(t, binding) && frozen.board.version == 1 && frozen.board.evidenceIds == []
    ensures CreateEvidenceFreezeTx(t, frozen.board, frozen.manifest, draft, Snapshot(|t.events|)) == Ok(u) && Boarded(u, binding)
  {
    hide InsertGeneratedEvent, Numbered;
    var rows := t.(boards := t.boards[1 := frozen.board], manifests := t.manifests[1 := frozen.manifest]);
    InsertSucceeds(t, rows, draft);
    u := InsertGeneratedEvent(rows, draft, Snapshot(|t.events|)).value;
  }

  // The stages of a request, each a step after the one before it, and what its last step commits.
  ghost predicate Stages(catalog: Scoring.Catalog, t: Tables, chain: seq<Stage>) {
    chain != [] && forall i :: 0 <= i < |chain| - 1 ==> Advance(catalog, t, chain[i], Undisturbed(t)) == Stay(t, chain[i + 1])
  }

  ghost predicate Ends(catalog: Scoring.Catalog, t: Tables, chain: seq<Stage>, u: Tables) {
    && Stages(catalog, t, chain)
    && Advance(catalog, t, chain[|chain| - 1], Undisturbed(t)) == Stay(u, Done(Reply.Accepted))
  }

  lemma {:induction false} BoardIsReady(catalog: Scoring.Catalog, t: Tables, binding: AuditBinding) returns (ready: Stage)
    requires Empty(t, binding) && Bound(catalog, binding)
    ensures AdvanceFreeze(catalog, t, FreezeListed(BOARD, t.run, t.evidence), Undisturbed(t)) == Stay(t, ready)
    ensures ready.FreezeReady? && ready.frozen.board.version == 1 && ready.frozen.board.evidenceIds == []
  {
    hide FreezeOutcome, ScoringProperties.CatalogRules, Numbered;
    BoardIsAccepted(t.run, Scoring.BindingCheckIds(catalog, binding).value, t.evidence, t.artifacts);
    ready := AdvanceFreeze(catalog, t, FreezeListed(BOARD, t.run, t.evidence), Undisturbed(t)).stage;
  }

  lemma {:induction false} BoardChain(catalog: Scoring.Catalog, t: Tables, binding: AuditBinding) returns (chain: seq<Stage>, u: Tables)
    requires Empty(t, binding) && Bound(catalog, binding)
    ensures Ends(catalog, t, chain, u) && chain[0] == FreezeStart(BOARD) && Boarded(u, binding)
  {
    hide CreateEvidenceFreezeTx, Boarded, Bound, Empty, Numbered;
    hide AdvancePassport, AdvanceApproval, AdvanceAttestation, AdvanceAppend, AdvanceEvidence, AdvanceScore, AdvanceFreeze;
    var ready := BoardIsReady(catalog, t, binding);
    u := BoardCommits(t, binding, ready.frozen, ready.draft);
    chain := [FreezeStart(BOARD), FreezeRun(BOARD, t.run), FreezeListed(BOARD, t.run, t.evidence), ready];
  }

  // ── The check results ──

  ghost predicate Scored(t: Tables, binding: AuditBinding) {
    && Logged(t) && t.run.binding == binding
    && 1 in t.boards && 1 in t.manifests && t.boards[1].evidenceIds == []
    && 1 in t.checkResults && t.checkResults[1].binding == binding
    && t.passports == map[] && t.provenances == map[]
  }

  lemma {:induction false} FindingsMatch(checks: seq<Scoring.ProfileCheck>)
    requires DistinctKeys(checks, Scoring.CheckKey)
    ensures var findings := Unknowns(checks);
            && DistinctKeys(findings, Scoring.FindingKey)
            && KeySet(findings, Scoring.FindingKey) == KeySet(checks, Scoring.CheckKey)
            && forall f :: f in findings ==>
                 f.finding == Unknown && f.rationale == "none" && f.evidenceIds == [] && f.notApplicableReason == None
  {
    var findings := Unknowns(checks);
    forall i, j | 0 <= i < j < |findings| ensures Scoring.FindingKey(findings[i]) != Scoring.FindingKey(findings[j]) {
      assert Scoring.CheckKey(checks[i]) != Scoring.CheckKey(checks[j]);
    }
    forall k ensures k in KeySet(findings, Scoring.FindingKey) <==> k in KeySet(checks, Scoring.CheckKey) {
      if f :| f in findings && Scoring.FindingKey(f) == k {
        var i :| 0 <= i < |findings| && findings[i] == f;
        assert checks[i] in checks && Scoring.CheckKey(checks[i]) == k;
      }
      if c :| c in checks && Scoring.CheckKey(c) == k {
        var i :| 0 <= i < |checks| && checks[i] == c;
        assert findings[i] in findings && Scoring.FindingKey(findings[i]) == k;
      }
    }
  }

  lemma {:induction false} FindingsAreAccepted(catalog: Scoring.Catalog, binding: AuditBinding, runId: Uuid)
    requires Bound(catalog, binding)
    ensures var profile := Scoring.LoadCatalog(catalog, binding).value;
            var r := Scoring.ScoreOutcome(catalog, binding, Findings(profile), {}, {}, runId, "", 0);
            r.Some? && r.value.binding == binding && r.value.boardVersion == 1
  {
    hide ScoringProperties.CatalogRules, Scoring.RuleFor, DistinctKeys, KeySet, Unknowns;
    var profile := Scoring.LoadCatalog(catalog, binding).value;
    ChecksDiffer(catalog.standard, profile);
    FindingsMatch(profile.checks);
    NotBlank("none");
    NoReferences();
    ScoringProperties.AcceptsExactlyBijections(catalog, binding, Findings(profile), {}, {});
  }

  lemma {:induction false} ChecksDiffer(standard: Scoring.Standard, profile: Scoring.Profile)
    requires ScoringProperties.CatalogRules(standard, profile)
    ensures DistinctKeys(profile.checks, Scoring.CheckKey)
    ensures forall c :: c in profile.checks ==> Scoring.RuleFor(standard.scoringRules, c.scoringRuleId).Some?
  {
  }

  lemma {:induction false} NoReferences()
    ensures RefsOk([], {})
  {
  }

  lemma {:induction false} ScoreCommits(t: Tables, binding: AuditBinding, results: CheckResults, draft: Draft) returns (u: Tables)
    requires Boarded(t, binding) && results.boardVersion == 1 && results.binding == binding
    ensures CreateCheckResultsTx(t, results, draft, Snapshot(|t.events|)) == Ok(u) && Scored(u, binding)
  {
    hide InsertGeneratedEvent, Numbered;
    var rows := t.(checkResults := t.checkResults[1 := results]);
    InsertSucceeds(t, rows, draft);
    u := InsertGeneratedEvent(rows, draft, Snapshot(|t.events|)).value;
  }

  lemma {:induction false} ScoreChain(catalog: Scoring.Catalog, t: Tables, binding: AuditBinding) returns (chain: seq<Stage>, u: Tables)
    requires Boarded(t, binding) && Bound(catalog, binding)
    ensures Ends(catalog, t, chain, u) && chain[0] == ScoreStart(Findings(Scoring.LoadCatalog(catalog, binding).value))
            && Scored(u, binding)
  {
    hide Scoring.ScoreOutcome, CreateCheckResultsTx, Scored, ScoringProperties.CatalogRules, Unknowns;
    hide AdvancePassport, AdvanceApproval, AdvanceAttestation, AdvanceAppend, AdvanceEvidence, AdvanceFreeze;
    var c := Undisturbed(t);
    var submission := Findings(Scoring.LoadCatalog(catalog, binding).value);
    FindingsAreAccepted(catalog, binding, t.run.runId);
    assert Elements(t.boards[1].evidenceIds) == {};
    var ready := AdvanceScore(catalog, t, ScoreRun(submission, t.run), c).stage;
    u := ScoreCommits(t, binding, ready.results, ready.draft);
    chain := [ScoreStart(submission), ScoreRun(submission, t.run), ready];
  }

  // ── The passport ──

  lemma {:induction false} PassportIsAccepted()
    ensures PassportHeaderOk(PASSPORT) && NarrativeOk(PASSPORT.narrative, {})
  {
    NotBlank("all");
    NotBlank("none");
  }

  lemma {:induction false} PassportCommits(t: Tables, binding: AuditBinding, p: Passport, prov: Provenance, draft: Draft)
      returns (u: Tables)
    requires Scored(t, binding) && p.sequence == 1
    ensures CreatePassportFreezeTx(t, p, prov, draft, Snapshot(|t.events|)) == Ok(u)
  {
    hide InsertGeneratedEvent, Numbered;
    InsertSucceeds(t, t, draft);
    u := CreatePassportFreezeTx(t, p, prov, draft, Snapshot(|t.events|)).value;
  }

  lemma {:induction false} PassportChain(catalog: Scoring.Catalog, t: Tables, binding: AuditBinding) returns (chain: seq<Stage>, u: Tables)
    requires Scored(t, binding)
    ensures Ends(catalog, t, chain, u) && chain[0] == PassportStart(PASSPORT)
  {
    hide NarrativeOk, PassportHeaderOk, CreatePassportFreezeTx, ProvenanceOf, ProvenancePayload;
    var c, run := Undisturbed(t), t.run;
    PassportIsAccepted();
    assert Elements(t.boards[1].evidenceIds) == {};
    var scored := PassportScored(PASSPORT, run, t.boards[1], t.manifests[1], t.checkResults[1]);
    var ready := AdvancePassport(t, scored, c).stage;
    assert t.passports.Keys == {};
    u := PassportCommits(t, binding, ready.passport, ready.provenance, ready.draft);
    var board := PassportBoard(PASSPORT, run, t.boards[1], t.manifests[1]);
    chain := [PassportStart(PASSPORT), PassportRun(PASSPORT, run), board, scored, ready];
  }

  // ── The requests, one after another ──

  // One step of a request that the client has made.
  lemma {:induction false} Proceeds(catalog: Scoring.Catalog, n: NewRun, trace: seq<Posted>, steps: seq<Step>, id: nat, choice: Choice)
    requires ClientAfter(catalog, n, trace, steps).Some? && id in Reached(catalog, n, steps).requests
    ensures var s := Reached(catalog, n, steps);
            && ClientAfter(catalog, n, trace, steps + [Continue(id, choice)]) == ClientAfter(catalog, n, trace, steps)
            && Reached(catalog, n, steps + [Continue(id, choice)]) == Moved(s, id, Advance(catalog, s.tables, s.requests[id], choice))
  {
    hide ClientAfter, Reached, Advance;
    ClientAppend(catalog, n, trace, steps, Continue(id, choice));
  }

  lemma {:induction false} Walk(catalog: Scoring.Catalog, n: NewRun, trace: seq<Posted>, steps: seq<Step>, id: nat, chain: seq<Stage>)
      returns (more: seq<Step>)
    requires ClientAfter(catalog, n, trace, steps).Some?
    requires var s := Reached(catalog, n, steps);
             Stages(catalog, s.tables, chain) && id in s.requests && s.requests[id] == chain[0]
    ensures var s := Reached(catalog, n, steps);
            && ClientAfter(catalog, n, trace, steps + more) == ClientAfter(catalog, n, trace, steps)
            && Reached(catalog, n, steps + more) == s.(requests := s.requests[id := chain[|chain| - 1]])
    decreases |chain|
  {
    hide ClientAfter, Reached, Advance;
    var s := Reached(catalog, n, steps);
    if |chain| == 1 {
      more := [];
      assert steps + more == steps && s.requests[id := chain[0]] == s.requests;
    } else {
      var step := Continue(id, Undisturbed(s.tables));
      Proceeds(catalog, n, trace, steps, id, Undisturbed(s.tables));
      assert Reached(catalog, n, steps + [step]) == s.(requests := s.requests[id := chain[1]]);
      var rest := Walk(catalog, n, trace, steps + [step], id, chain[1..]);
      more := [step] + rest;
      assert steps + more == steps + [step] + rest;
    }
  }

  // A request of the nodes that nothing disturbs is answered.
  lemma {:induction false} IsAnswered(catalog: Scoring.Catalog, n: NewRun, trace: seq<Posted>, steps: seq<Step>, chain: seq<Stage>,
                                      u: Tables)
      returns (more: seq<Step>, id: nat)
    requires ClientAfter(catalog, n, trace, steps).Some? && Ends(catalog, Reached(catalog, n, steps).tables, chain, u)
             && SideRequest(chain[0])
    requires Reached(catalog, n, steps).requests.Keys <= ClientAfter(catalog, n, trace, steps).value.used
    ensures var c := ClientAfter(catalog, n, trace, steps).value;
            && ClientAfter(catalog, n, trace, steps + more) ==
               Some(c.(used := c.used + {id}, freezes := if chain[0].PassportStart? then c.freezes + {id} else c.freezes))
            && Reached(catalog, n, steps + more).tables == u && Answered(Reached(catalog, n, steps + more), id)
            && Reached(catalog, n, steps + more).requests.Keys <= c.used + {id}
  {
    hide ClientAfter, Reached, Advance, SideRequest;
    var s, c := Reached(catalog, n, steps), ClientAfter(catalog, n, trace, steps).value;
    id := FreshId(c.used);
    var arrive, last := Arrive(id, chain[0]), Continue(id, Undisturbed(s.tables));
    ArrivesAside(catalog, c, s, trace, id, chain[0]);
    ClientAppend(catalog, n, trace, steps, arrive);
    var walked := Walk(catalog, n, trace, steps + [arrive], id, chain);
    Proceeds(catalog, n, trace, steps + [arrive] + walked, id, Undisturbed(s.tables));
    more := [arrive] + walked + [last];
    assert steps + more == steps + [arrive] + walked + [last];
  }

  lemma {:induction false} ArrivesAside(catalog: Scoring.Catalog, c: Client, s: System, trace: seq<Posted>, id: nat, request: Stage)
    requires id !in c.used && id !in s.requests && SideRequest(request)
    ensures ClientNext(c, s, trace, Arrive(id, request)) ==
            Some(c.(used := c.used + {id}, freezes := if request.PassportStart? then c.freezes + {id} else c.freezes))
    ensures Next(catalog, s, Arrive(id, request)) == s.(requests := s.requests[id := request])
  {
  }

  // Before its first post, the client can have a passport frozen.
  lemma {:induction false} CanFreeze(catalog: Scoring.Catalog, n: NewRun, trace: seq<Posted>) returns (steps: seq<Step>)
    requires Bound(catalog, n.binding)
    ensures var c := ClientAfter(catalog, n, trace, steps);
            && c.Some? && c.value.posted == 0 && c.value.last.None?
            && exists q :: q in c.value.freezes && Answered(Reached(catalog, n, steps), q)
  {
    hide ClientAfter, Reached, Ends, Bound, Empty, Boarded, Scored;
    steps := [];
    Begins(catalog, n, trace);
    var chain, u := BoardChain(catalog, Reached(catalog, n, steps).tables, n.binding);
    var more, id := IsAnswered(catalog, n, trace, steps, chain, u);
    steps := steps + more;
    chain, u := ScoreChain(catalog, u, n.binding);
    more, id := IsAnswered(catalog, n, trace, steps, chain, u);
    steps := steps + more;
    chain, u := PassportChain(catalog, u, n.binding);
    more, id := IsAnswered(catalog, n, trace, steps, chain, u);
    steps := steps + more;
  }

  lemma {:induction false} Begins(catalog: Scoring.Catalog, n: NewRun, trace: seq<Posted>)
    ensures ClientAfter(catalog, n, trace, []) == Some(Client({}, 0, None, {}))
    ensures Reached(catalog, n, []).requests == map[] && Empty(Reached(catalog, n, []).tables, n.binding)
  {
    hide Numbered;
    var e := CreatedLog(n);
    assert 1 in Created(n).tables.events;
  }

  // Once a passport is frozen, the client can post all that is left of its trace.
  lemma {:induction false} CanPostAll(catalog: Scoring.Catalog, n: NewRun, trace: seq<Posted>, steps: seq<Step>) returns (more: seq<Step>)
    requires CleanTrace(trace) && ClientAfter(catalog, n, trace, steps).Some?
    requires var c, s := ClientAfter(catalog, n, trace, steps).value, Reached(catalog, n, steps);
             && c.posted <= |trace| && (c.last.None? <==> c.posted == 0) && (c.last.Some? ==> Answered(s, c.last.value))
             && exists q :: q in c.freezes && Answered(s, q)
    ensures var c := ClientAfter(catalog, n, trace, steps + more);
            && c.Some? && c.value.posted == |trace|
            && (trace != [] ==> c.value.last.Some? && Answered(Reached(catalog, n, steps + more), c.value.last.value))
    decreases |trace| - ClientAfter(catalog, n, trace, steps).value.posted
  {
    hide ClientAfter, Reached, CleanTrace;
    var c := ClientAfter(catalog, n, trace, steps).value;
    if c.posted == |trace| {
      more := [];
      assert steps + more == steps;
    } else {
      var one := NextPostCanLand(catalog, n, trace, steps);
      var rest := CanPostAll(catalog, n, trace, steps + one);
      more := one + rest;
      assert steps + more == steps + one + rest;
    }
  }

  // Whatever its nodes do, a graph on a run that is bound to a catalogue that keeps its rules can be
  // brought to its end, so that what holds of a graph that got there is not said of nothing.
  lemma {:induction false} GraphCanFinish(catalog: Scoring.Catalog, n: NewRun, rounds: nat, visits: seq<Visit>) returns (steps: seq<Step>)
    requires Bound(catalog, n.binding) && |visits| == |Path(rounds)|
    ensures var client := ClientAfter(catalog, n, PathTrace(Path(rounds), visits), steps);
            && client.Some? && client.value.posted == |PathTrace(Path(rounds), visits)|
            && client.value.last.Some? && Answered(Reached(catalog, n, steps), client.value.last.value)
  {
    hide ClientAfter, Reached, Bound, Path, PathTrace, AcceptAll, Clean, NodeTrace;
    var trace := PathTrace(Path(rounds), visits);
    GraphTraceAccepted(rounds, visits, 0);
    PathIsClean(Path(rounds), visits);
    steps := CanFreeze(catalog, n, trace);
    var more := CanPostAll(catalog, n, trace, steps);
    steps := steps + more;
    TraceIsNotEmpty(rounds, visits);
  }

  lemma {:induction false} TraceIsNotEmpty(rounds: nat, visits: seq<Visit>)
    requires |visits| == |Path(rounds)|
    ensures PathTrace(Path(rounds), visits) != []
  {
    hide Research, DecisionEvents, Select;
    assert Path(rounds)[0] == BEFORE[0];
    assert NodeTrace(Path(rounds)[0], visits[0])[0].eventType == NodeStarted;
  }

  // The catalogue that the backend is compiled with, for one.
  lemma {:induction false} ShippedIsBound()
    ensures Bound(Scoring.Catalog(ShippedCatalog.STANDARD, map["generic" := ShippedCatalog.GENERIC]),
                  AuditBinding("alethos-toolpassport", "0.3.0", "generic", "0.3.0"))
  {
    hide ScoringProperties.CatalogRules;
    ShippedCatalog.ShippedKeepsTheRules();
  }
}
