/** The graph as a client of the trust core: it posts its events one after another, each once the last
    was answered, while the uploads, freezes and submissions of its nodes go on in between. */
module GraphOnTrustCore {
  import opened Wrappers
  import opened Domain
  import opened Projection
  import opened EventChain
  import opened Repository
  import opened RunProtocol
  import opened ProtocolInvariant
  import opened ProtocolProofs
  import opened ProtocolSteps
  import opened Submissions
  import opened ProtocolTheorems
  import opened GraphTrace
  import EvidenceFreeze
  import Scoring
  import Text

  // ── The client ──

  // What the nodes ask for themselves.
  predicate SideRequest(stage: Stage) {
    stage.ArtifactStart? || stage.EvidenceStart? || stage.FreezeStart? || stage.ScoreStart? || stage.PassportStart?
  }

  function PostRequest(e: Posted): Stage { AppendStart(e.nodeId, e.eventType, e.payload) }

  // The requests made so far, how many of them post an event and which was the last, and which freeze a passport.
  datatype Client = Client(used: set<nat>, posted: nat, last: Option<nat>, freezes: set<nat>)

  ghost predicate Answered(s: System, id: nat) { id in s.requests && s.requests[id] == Done(Reply.Accepted) }

  // The last post was answered; and approval is asked for only if the freeze of a passport was.
  ghost predicate MayPost(s: System, c: Client, e: Posted) {
    && (c.last.Some? ==> Answered(s, c.last.value))
    && (e.eventType == ApprovalRequired ==> exists q :: q in c.freezes && Answered(s, q))
  }

  // The client after a step, if the step is one that it allows: it makes requests of its own only, and
  // posts the trace in order. What becomes of a request is not its choice.
  ghost function ClientNext(c: Client, s: System, trace: seq<Posted>, step: Step): Option<Client> {
    match step
    case Arrive(id, request) =>
      if id in c.used then None
      else if SideRequest(request) then
        Some(c.(used := c.used + {id}, freezes := if request.PassportStart? then c.freezes + {id} else c.freezes))
      else if c.posted < |trace| && request == PostRequest(trace[c.posted]) && MayPost(s, c, trace[c.posted]) then
        Some(c.(used := c.used + {id}, posted := c.posted + 1, last := Some(id)))
      else None
    case _ => Some(c)
  }

  // The client of a run that only the graph writes to; the steps of its requests interleave, abort,
  // read stale rows and crash as they may.
  ghost function ClientAfter(catalog: Scoring.Catalog, n: NewRun, trace: seq<Posted>, steps: seq<Step>): Option<Client> {
    if steps == [] then Some(Client({}, 0, None, {}))
    else
      var before := steps[..|steps| - 1];
      match ClientAfter(catalog, n, trace, before)
      case None => None
      case Some(c) => ClientNext(c, Reached(catalog, n, before), trace, steps[|steps| - 1])
  }

  // ── What a trace leaves in the log ──

  function RowOfRun(run: Run): Row { Row(run.status, run.currentNode) }

  const FRESH: Row := Row(Pending, None)

  function PostOf(e: Event): Posted { Posted(e.nodeId, e.eventType, e.payload) }

  // Made neither with the run nor by a request of the nodes.
  predicate FromCaller(ty: EventType) { !Silent(ty) && ty != RunCreated }

  function Trail(log: seq<Event>): seq<Posted> {
    if log == [] then []
    else
      var before, last := Trail(log[..|log| - 1]), log[|log| - 1];
      if FromCaller(last.eventType) then before + [PostOf(last)] else before
  }

  lemma {:induction false} TrailAppend(log: seq<Event>, e: Event)
    ensures Trail(log + [e]) == if FromCaller(e.eventType) then Trail(log) + [PostOf(e)] else Trail(log)
  {
    assert (log + [e])[..|log|] == log;
  }

  // An event that the service takes as it is, of a type it leaves to callers.
  predicate Clean(e: Posted) {
    NodeIdOk(e.nodeId) && Text.Trim(e.nodeId) == e.nodeId && !Silent(e.eventType) && !Projection.Generated(e.eventType)
  }

  ghost predicate CleanTrace(trace: seq<Posted>) {
    AcceptAll(FRESH, trace).Some? && forall i :: 0 <= i < |trace| ==> Clean(trace[i])
  }

  ghost predicate LogFollows(t: Tables, trace: seq<Posted>) {
    && Numbered(t.events)
    && var trail := Trail(Log(t.events));
    && trail <= trace
    && Some(RowOfRun(t.run)) == AcceptAll(FRESH, trail)
  }

  // ── One step of a request of the nodes ──

  predicate SideStage(stage: Stage) {
    !stage.AppendStart? && !stage.AppendReady? && !ForApproval(stage) && !ForAttestation(stage)
  }

  // Nothing was inserted, or one silent event; the run stays where it is.
  ghost predicate Aside(t: Tables, u: Tables)
    requires Numbered(t.events)
  {
    && RowOfRun(u.run) == RowOfRun(t.run)
    && Numbered(u.events)
    && var log, after := Log(t.events), Log(u.events);
    && (after == log || (|after| == |log| + 1 && after[..|log|] == log && Silent(after[|log|].eventType)))
  }

  lemma {:induction false} InsertIsAside(t: Tables, rows: Tables, draft: Draft, tail: TailRead)
    requires Numbered(t.events) && rows.events == t.events && rows.run == t.run && Silent(draft.eventType)
    ensures var r := InsertGeneratedEvent(rows, draft, tail);
            r.Ok? ==> Aside(t, r.value)
  {
    hide Numbered, Log, NextSequenceAndPrevHash;
    InsertAppendsOrFails(rows, draft, tail);
  }

  lemma {:induction false} AsideItself(t: Tables)
    requires Numbered(t.events)
    ensures Aside(t, t)
  {
  }

  lemma {:induction false} CommitIsAside(t: Tables, c: Choice, r: Result<Tables, RepositoryError>)
    requires Numbered(t.events) && (r.Ok? ==> Aside(t, r.value))
    ensures Aside(t, Commit(t, c, r).tables) && Commit(t, c, r).stage.Done?
  {
    hide Aside;
    AsideItself(t);
  }

  lemma {:induction false} WriteIsAside(catalog: Scoring.Catalog, t: Tables, stage: Stage, c: Choice)
    requires Numbered(t.events) && Writes(stage) && SideStage(stage) && KnowsRows(t, stage)
    ensures var m := AdvanceRows(catalog, t, stage, c); Aside(t, m.tables) && m.stage.Done?
  {
    hide InsertGeneratedEvent, Aside, Commit, Numbered;
    match stage
    case ArtifactReady(artifact, draft) =>
      InsertIsAside(t, t.(artifacts := t.artifacts[artifact.artifactId := artifact]), draft, c.tail);
      CommitIsAside(t, c, CreateArtifactTx(t, artifact, draft, c.tail));
    case EvidenceReady(evidence, draft) =>
      InsertIsAside(t, t.(evidence := t.evidence[evidence.evidenceId := evidence]), draft, c.tail);
      CommitIsAside(t, c, CreateEvidenceTx(t, evidence, draft, c.tail));
    case FreezeReady(frozen, draft) =>
      InsertIsAside(t, t.(boards := t.boards[frozen.board.version := frozen.board],
                          manifests := t.manifests[frozen.board.version := frozen.manifest]), draft, c.tail);
      CommitIsAside(t, c, CreateEvidenceFreezeTx(t, frozen.board, frozen.manifest, draft, c.tail));
    case ScoreReady(results, draft) =>
      InsertIsAside(t, t.(checkResults := t.checkResults[results.boardVersion := results]), draft, c.tail);
      CommitIsAside(t, c, CreateCheckResultsTx(t, results, draft, c.tail));
  }

  lemma {:induction false} RowsStepAside(catalog: Scoring.Catalog, t: Tables, stage: Stage, c: Choice)
    requires Numbered(t.events) && SideStage(stage) && !ForPassport(stage) && KnowsRows(t, stage)
    ensures var m := AdvanceRows(catalog, t, stage, c);
            Aside(t, m.tables) && SideStage(m.stage) && !ForPassport(m.stage)
    ensures stage.Done? ==> AdvanceRows(catalog, t, stage, c) == Stay(t, stage)
  {
    hide Aside, Commit, Numbered, KnowsRows, Scoring.ScoreOutcome, EvidenceFreeze.FreezeOutcome, Scoring.BindingCheckIds;
    hide AppendEventTx, CreateArtifactTx, CreateEvidenceTx, CreateEvidenceFreezeTx, CreateCheckResultsTx;
    if Writes(stage) { WriteIsAside(catalog, t, stage, c); } else { AsideItself(t); }
  }

  // A freeze that is answered has stored a passport.
  lemma {:induction false} PassportStepAside(t: Tables, stage: Stage, c: Choice)
    requires Numbered(t.events) && ForPassport(stage) && KnowsPassport(t, stage)
    ensures var m := AdvancePassport(t, stage, c);
            && Aside(t, m.tables) && (ForPassport(m.stage) || m.stage.Done?)
            && (m.stage == Done(Reply.Accepted) ==> m.tables.passports != map[])
  {
    hide Aside, Numbered, InsertGeneratedEvent, PassportOf, ProvenanceOf, KnowsPassport;
    AsideItself(t);
    match stage
    case PassportReady(passport, provenance, draft) => FreezeIsAside(t, passport, provenance, draft, c);
    case _ =>
  }

  lemma {:induction false} FreezeIsAside(t: Tables, passport: Passport, provenance: Provenance, draft: Draft, c: Choice)
    requires Numbered(t.events) && KnowsPassport(t, PassportReady(passport, provenance, draft))
    ensures var m := Commit(t, c, CreatePassportFreezeTx(t, passport, provenance, draft, c.tail));
            && Aside(t, m.tables) && m.stage.Done?
            && (m.stage == Done(Reply.Accepted) ==> m.tables.passports != map[])
  {
    hide Numbered, InsertGeneratedEvent, PassportGood, ProvenanceGood, ProvenancePayload;
    AsideItself(t);
    InsertIsAside(t, t, draft, c.tail);
    var m := Commit(t, c, CreatePassportFreezeTx(t, passport, provenance, draft, c.tail));
    if m.stage == Done(Reply.Accepted) { assert passport.sequence in m.tables.passports; }
  }

  lemma {:induction false} SideStep(catalog: Scoring.Catalog, t: Tables, stage: Stage, c: Choice)
    requires Numbered(t.events) && SideStage(stage) && Knows(t, stage)
    ensures var m := Advance(catalog, t, stage, c);
            && Aside(t, m.tables) && SideStage(m.stage)
            && (stage.Done? ==> m == Stay(t, stage))
            && (ForPassport(stage) ==> ForPassport(m.stage) || m.stage.Done?)
            && (ForPassport(stage) && m.stage == Done(Reply.Accepted) ==> m.tables.passports != map[])
  {
    hide Aside, Numbered, AdvanceRows, AdvancePassport, KnowsRows, KnowsPassport;
    if ForPassport(stage) { PassportStepAside(t, stage, c); } else { RowsStepAside(catalog, t, stage, c); }
  }

  // ── One step of a post ──

  // A post of `e` that has not committed.
  ghost predicate Posting(stage: Stage, e: Posted, run: Run) {
    match stage
    case AppendStart(_, _, _) => stage == PostRequest(e)
    case AppendReady(nodeId, draft, expected, p) =>
      && nodeId == e.nodeId && draft.nodeId == e.nodeId && draft.eventType == e.eventType && draft.payload == e.payload
      && expected == run.status && Project(run.status, e.nodeId, e.eventType, e.payload) == Ok(p)
    case Done(reply) => reply != Reply.Accepted
    case _ => false
  }

  // Does the query for the tail return the newest row?
  predicate SeesAll(t: Tables, tail: TailRead) { tail.Snapshot? && tail.upTo >= |t.events| }

  // The event went to the end of the log and moved the run as projected.
  ghost predicate Landed(t: Tables, u: Tables, e: Posted)
    requires Numbered(t.events)
  {
    && Some(RowOfRun(u.run)) == Accept(RowOfRun(t.run), e)
    && Numbered(u.events)
    && var log, after := Log(t.events), Log(u.events);
    && |after| == |log| + 1 && after[..|log|] == log && PostOf(after[|log|]) == e
  }

  lemma {:induction false} AppendLands(t: Tables, e: Posted, draft: Draft, p: Projected, tail: TailRead)
    requires Numbered(t.events) && t.events != map[]
    requires draft.nodeId == e.nodeId && draft.eventType == e.eventType && draft.payload == e.payload
    requires Project(t.run.status, e.nodeId, e.eventType, e.payload) == Ok(p)
    ensures var r := AppendEventTx(t, draft, t.run.status, p.status, p.currentNode, tail);
            && (r.Ok? <==> SeesAll(t, tail))
            && (r.Ok? ==> Landed(t, r.value, e))
  {
    hide Project, Log, Numbered;
    var rows := t.(run := t.run.(status := Coalesce(p.status, t.run.status),
                                 currentNode := CoalesceNode(p.currentNode, t.run.currentNode), updatedAt := draft.createdAt));
    InsertAppendsOrFails(rows, draft, tail);
  }

  lemma {:induction false} PostIsRead(t: Tables, stage: Stage, e: Posted, c: Choice)
    requires Clean(e) && stage == PostRequest(e) && Accept(RowOfRun(t.run), e).Some?
    ensures var m := AdvanceAppend(t, stage, c); m.tables == t && m.stage.AppendReady? && Posting(m.stage, e, t.run)
  {
    hide Project, NodeIdOk;
  }

  lemma {:induction false} PostIsWritten(t: Tables, stage: Stage, e: Posted, c: Choice)
    requires Numbered(t.events) && t.events != map[] && stage.AppendReady? && Posting(stage, e, t.run)
    ensures var p := stage.projected;
            var m := Commit(t, c, AppendEventTx(t, stage.draft, stage.expected, p.status, p.currentNode, c.tail));
            if c.commits && SeesAll(t, c.tail) then m.stage == Done(Reply.Accepted) && Landed(t, m.tables, e)
            else m.tables == t && m.stage.Done? && m.stage.reply != Reply.Accepted
  {
    hide Numbered, AppendEventTx, Project, Landed, SeesAll;
    AppendLands(t, e, stage.draft, stage.projected, c.tail);
  }

  // The service never turns the event down: a post is still under way, or was lost to an abort or to a
  // stale tail, or has landed. It lands exactly when its transaction commits and sees the whole log.
  lemma {:induction false} PostStep(catalog: Scoring.Catalog, t: Tables, stage: Stage, e: Posted, c: Choice)
    requires Numbered(t.events) && t.events != map[] && Clean(e) && Posting(stage, e, t.run)
    requires Accept(RowOfRun(t.run), e).Some?
    ensures var m := Advance(catalog, t, stage, c);
            && (stage.AppendStart? ==> m.tables == t && m.stage.AppendReady? && Posting(m.stage, e, t.run))
            && (m.stage == Done(Reply.Accepted) || Posting(m.stage, e, t.run))
            && (stage.Done? ==> m == Stay(t, stage))
            && (stage.AppendReady? ==>
                  if c.commits && SeesAll(t, c.tail) then m.stage == Done(Reply.Accepted) && Landed(t, m.tables, e)
                  else m.tables == t && m.stage.Done? && m.stage.reply != Reply.Accepted)
  {
    hide Numbered, AppendEventTx, AdvanceAppend, Commit, Project, Landed, Accept, SeesAll, Clean;
    if stage.AppendStart? { PostIsRead(t, stage, e, c); }
    if stage.AppendReady? { PostIsWritten(t, stage, e, c); }
  }

  // ── What the client's requests are doing ──

  ghost predicate HasFreeze(log: seq<Event>, n: nat) {
    exists j :: 0 <= j < n && j < |log| && log[j].eventType == ProvenanceFrozen
  }

  // Approval was asked for only after a passport was frozen.
  ghost predicate AsksAfterFreeze(log: seq<Event>) {
    forall i :: 0 <= i < |log| && log[i].eventType == ApprovalRequired ==> HasFreeze(log, i)
  }

  // The last post, as far as it is still heard of: it has landed, or it posts the next of the trace.
  ghost predicate LastPost(s: System, c: Client, trace: seq<Posted>, landed: nat) {
    && landed <= c.posted <= landed + 1 && c.posted <= |trace|
    && (c.last.None? <==> c.posted == 0)
    && (c.last.Some? && c.last.value in s.requests ==>
          if landed == c.posted then s.requests[c.last.value] == Done(Reply.Accepted)
          else Posting(s.requests[c.last.value], trace[landed], s.tables.run))
    && (c.posted > landed && trace[landed].eventType == ApprovalRequired ==> s.tables.passports != map[])
  }

  ghost predicate SideRequests(s: System, c: Client) {
    && s.requests.Keys <= c.used && c.freezes <= c.used
    && (c.last.Some? ==> c.last.value in c.used && c.last.value !in c.freezes)
    && (forall q :: q in s.requests && c.last != Some(q) ==> SideStage(s.requests[q]))
    && (forall q :: q in s.requests && q in c.freezes ==> ForPassport(s.requests[q]) || s.requests[q].Done?)
    && (forall q :: q in c.freezes && Answered(s, q) ==> s.tables.passports != map[])
  }

  ghost function Landings(t: Tables): nat
    requires Numbered(t.events)
  {
    |Trail(Log(t.events))|
  }

  ghost predicate Followed(s: System, c: Client, trace: seq<Posted>) {
    && LogFollows(s.tables, trace)
    && LastPost(s, c, trace, Landings(s.tables))
    && SideRequests(s, c)
    && AsksAfterFreeze(Log(s.tables.events))
  }

  // ── What every step keeps ──

  lemma {:induction false} FreezeIsLogged(t: Tables)
    requires TablesInv(t) && t.passports != map[]
    ensures HasFreeze(Log(t.events), |t.events|)
  {
    hide LogInv, SummaryInv, EvidenceInv, BoardsInv, ResultsInv, ApprovalInv, AttestationInv, CountInv, PassportRow, Log, Numbered;
    var log := Log(t.events);
    assert |t.passports| > 0;
    var j := OfTypeOccurs(log, ProvenanceFrozen, 0);
    assert log[j].eventType == ProvenanceFrozen;
  }

  lemma {:induction false} AsksLater(log: seq<Event>, e: Event)
    requires AsksAfterFreeze(log) && (e.eventType == ApprovalRequired ==> HasFreeze(log, |log|))
    ensures AsksAfterFreeze(log + [e])
  {
    var all := log + [e];
    forall i | 0 <= i < |all| && all[i].eventType == ApprovalRequired ensures HasFreeze(all, i) {
      assert HasFreeze(log, i) by { if i < |log| { assert log[i].eventType == ApprovalRequired; } }
      var j :| 0 <= j < i && j < |log| && log[j].eventType == ProvenanceFrozen;
      assert all[j].eventType == ProvenanceFrozen;
    }
  }

  lemma {:induction false} LastAppended(before: seq<Event>, after: seq<Event>)
    requires |after| == |before| + 1 && after[..|before|] == before
    ensures after == before + [after[|before|]]
  {
  }

  lemma {:induction false} AsideFollows(t: Tables, u: Tables, trace: seq<Posted>)
    requires LogFollows(t, trace) && Aside(t, u) && AsksAfterFreeze(Log(t.events))
    ensures LogFollows(u, trace) && Landings(u) == Landings(t) && AsksAfterFreeze(Log(u.events))
  {
    hide AcceptAll, Numbered, Log, AsksAfterFreeze, Trail;
    var log, after := Log(t.events), Log(u.events);
    if after != log {
      LastAppended(log, after);
      TrailAppend(log, after[|log|]);
      AsksLater(log, after[|log|]);
    }
  }

  lemma {:induction false} NextIsAccepted(t: Tables, trace: seq<Posted>)
    requires CleanTrace(trace) && LogFollows(t, trace) && Landings(t) < |trace|
    ensures Accept(RowOfRun(t.run), trace[Landings(t)]).Some? && Clean(trace[Landings(t)])
    ensures var k := Landings(t);
            AcceptAll(FRESH, trace[..k + 1]) == Accept(RowOfRun(t.run), trace[k])
  {
    hide Accept, AcceptAll, Numbered, Log, Trail, Clean;
    var k := Landings(t);
    assert Trail(Log(t.events)) == trace[..k];
    PrefixAccepted(FRESH, trace, k + 1);
    AcceptMore(FRESH, trace[..k], trace[k]);
    assert trace[..k] + [trace[k]] == trace[..k + 1];
  }

  lemma {:induction false} LandedFollows(t: Tables, u: Tables, trace: seq<Posted>)
    requires CleanTrace(trace) && LogFollows(t, trace) && Landings(t) < |trace| && AsksAfterFreeze(Log(t.events))
    requires Landed(t, u, trace[Landings(t)])
    requires trace[Landings(t)].eventType == ApprovalRequired ==> HasFreeze(Log(t.events), |t.events|)
    ensures LogFollows(u, trace) && Landings(u) == Landings(t) + 1 && AsksAfterFreeze(Log(u.events))
  {
    hide Accept, AcceptAll, Numbered, Log, AsksAfterFreeze, HasFreeze, Trail, NodeIdOk, CleanTrace;
    var k, log, after := Landings(t), Log(t.events), Log(u.events);
    NextIsAccepted(t, trace);
    LastAppended(log, after);
    TrailAppend(log, after[|log|]);
    AsksLater(log, after[|log|]);
    assert Trail(after) == trace[..k] + [trace[k]] == trace[..k + 1];
  }

  lemma {:induction false} SideArrival(s: System, c: Client, trace: seq<Posted>, id: nat, request: Stage)
    requires Followed(s, c, trace) && id !in c.used && SideRequest(request)
    ensures Followed(s.(requests := s.requests[id := request]),
                     c.(used := c.used + {id}, freezes := if request.PassportStart? then c.freezes + {id} else c.freezes), trace)
  {
    hide LogFollows, AsksAfterFreeze, Posting, Landings;
  }

  lemma {:induction false} PostArrival(s: System, c: Client, trace: seq<Posted>, id: nat)
    requires Followed(s, c, trace) && id !in c.used && c.posted < |trace| && MayPost(s, c, trace[c.posted])
    ensures Followed(s.(requests := s.requests[id := PostRequest(trace[c.posted])]),
                     c.(used := c.used + {id}, posted := c.posted + 1, last := Some(id)), trace)
  {
    hide LogFollows, AsksAfterFreeze, Landings, Project;
  }

  lemma {:induction false} ArrivalFollows(catalog: Scoring.Catalog, s: System, c: Client, trace: seq<Posted>, step: Step)
    requires Followed(s, c, trace) && step.Arrive? && ClientNext(c, s, trace, step).Some?
    ensures Followed(Next(catalog, s, step), ClientNext(c, s, trace, step).value, trace)
  {
    hide Advance, LogFollows, AsksAfterFreeze, LastPost, MayPost;
    assert step.id !in s.requests;
    if SideRequest(step.request) { SideArrival(s, c, trace, step.id, step.request); } else { PostArrival(s, c, trace, step.id); }
  }

  lemma {:induction false} CrashFollows(catalog: Scoring.Catalog, s: System, c: Client, trace: seq<Posted>, id: nat)
    requires Followed(s, c, trace)
    ensures Followed(Next(catalog, s, Crash(id)), c, trace)
  {
    hide Advance, LogFollows, AsksAfterFreeze, Posting;
  }

  // A request of the nodes moved.
  lemma {:induction false} AsideKeeps(s: System, c: Client, trace: seq<Posted>, id: nat, m: Move)
    requires Followed(s, c, trace) && id in s.requests && Aside(s.tables, m.tables) && SideStage(m.stage)
    requires SideStage(s.requests[id]) && (s.requests[id].Done? ==> m.stage == s.requests[id])
    requires ForPassport(s.requests[id]) ==> ForPassport(m.stage) || m.stage.Done?
    requires ForPassport(s.requests[id]) && m.stage == Done(Reply.Accepted) ==> m.tables.passports != map[]
    requires s.tables.passports != map[] ==> m.tables.passports != map[]
    ensures Followed(Moved(s, id, m), c, trace)
  {
    hide LogFollows, AsksAfterFreeze, Landings;
    AsideFollows(s.tables, m.tables, trace);
  }

  // The last post moved on, or was lost.
  lemma {:induction false} PostKeeps(s: System, c: Client, trace: seq<Posted>, id: nat, m: Move)
    requires Followed(s, c, trace) && c.last == Some(id) && id in s.requests && Landings(s.tables) < c.posted
    requires m.tables == s.tables && Posting(m.stage, trace[Landings(s.tables)], s.tables.run)
    ensures Followed(Moved(s, id, m), c, trace)
  {
    hide LogFollows, AsksAfterFreeze, Landings, Posting;
  }

  // The last post landed.
  lemma {:induction false} LandingKeeps(s: System, c: Client, trace: seq<Posted>, id: nat, m: Move)
    requires Followed(s, c, trace) && CleanTrace(trace) && TablesInv(s.tables)
    requires c.last == Some(id) && id in s.requests && Landings(s.tables) < c.posted
    requires Landed(s.tables, m.tables, trace[Landings(s.tables)]) && m.stage == Done(Reply.Accepted)
    requires s.tables.passports != map[] ==> m.tables.passports != map[]
    ensures Followed(Moved(s, id, m), c, trace)
  {
    hide LogFollows, AsksAfterFreeze, Landings, HasFreeze, Landed, TablesInv, CleanTrace;
    if s.tables.passports != map[] { FreezeIsLogged(s.tables); }
    LandedFollows(s.tables, m.tables, trace);
  }

  lemma {:induction false} PassportsStay(t: Tables, u: Tables)
    requires Extends(t, u) && t.passports != map[]
    ensures u.passports != map[]
  {
  }

  lemma {:induction false} ContinueFollows(catalog: Scoring.Catalog, s: System, c: Client, trace: seq<Posted>, id: nat, choice: Choice)
    requires Inv(s) && CleanTrace(trace) && Followed(s, c, trace) && id in s.requests
    ensures Followed(Next(catalog, s, Continue(id, choice)), c, trace)
  {
    hide Advance, TablesInv, Knows, Extends, SubmissionInv, LogFollows, AsksAfterFreeze, Landings, Landed, Aside, Posting, CleanTrace;
    var t, stage, m := s.tables, s.requests[id], Advance(catalog, s.tables, s.requests[id], choice);
    assert Next(catalog, s, Continue(id, choice)) == Moved(s, id, m);
    EventsNumbered(t);
    NextKeeps(catalog, s, Continue(id, choice));
    if t.passports != map[] { PassportsStay(t, m.tables); }
    if c.last == Some(id) && Landings(t) < c.posted {
      NextIsAccepted(t, trace);
      PostStep(catalog, t, stage, trace[Landings(t)], choice);
      PostingStages(stage, trace[Landings(t)], t.run);
      if m.stage == Done(Reply.Accepted) { LandingKeeps(s, c, trace, id, m); } else { PostKeeps(s, c, trace, id, m); }
    } else {
      SideStep(catalog, t, stage, choice);
      AsideKeeps(s, c, trace, id, m);
    }
  }

  lemma {:induction false} EventsNumbered(t: Tables)
    requires TablesInv(t)
    ensures Numbered(t.events) && t.events != map[]
  {
    hide SummaryInv, EvidenceInv, BoardsInv, ResultsInv, PassportsInv, ApprovalInv, AttestationInv, CountInv, Numbered;
  }

  lemma {:induction false} PostingStages(stage: Stage, e: Posted, run: Run)
    requires Posting(stage, e, run)
    ensures stage.AppendStart? || stage.AppendReady? || (stage.Done? && stage.reply != Reply.Accepted)
  {
  }

  // However the requests of the graph interleave, abort and crash, the log follows its trace.
  lemma {:induction false} AlwaysFollowed(catalog: Scoring.Catalog, n: NewRun, trace: seq<Posted>, steps: seq<Step>)
    requires CleanTrace(trace) && ClientAfter(catalog, n, trace, steps).Some?
    ensures Followed(Reached(catalog, n, steps), ClientAfter(catalog, n, trace, steps).value, trace)
  {
    hide Followed, Inv, Next, CleanTrace, Created, ClientNext;
    if steps == [] {
      CreatedFollowed(n, trace);
    } else {
      var before, step := steps[..|steps| - 1], steps[|steps| - 1];
      var s, c := Reached(catalog, n, before), ClientAfter(catalog, n, trace, before).value;
      AlwaysFollowed(catalog, n, trace, before);
      AlwaysInv(catalog, n, before);
      StepFollows(catalog, s, c, trace, step);
    }
  }

  lemma {:induction false} StepFollows(catalog: Scoring.Catalog, s: System, c: Client, trace: seq<Posted>, step: Step)
    requires Inv(s) && CleanTrace(trace) && Followed(s, c, trace) && ClientNext(c, s, trace, step).Some?
    ensures Followed(Next(catalog, s, step), ClientNext(c, s, trace, step).value, trace)
  {
    hide Followed, Inv, CleanTrace, Advance;
    match step
    case Arrive(_, _) => ArrivalFollows(catalog, s, c, trace, step);
    case Continue(id, choice) => if id in s.requests { ContinueFollows(catalog, s, c, trace, id, choice); }
    case Crash(id) => CrashFollows(catalog, s, c, trace, id);
  }

  lemma {:induction false} CreatedFollowed(n: NewRun, trace: seq<Posted>)
    ensures Followed(Created(n), Client({}, 0, None, {}), trace)
  {
    hide Numbered, Log;
    var e := CreatedLog(n);
    TrailAppend([], e);
    assert [] + [e] == [e];
  }

  // ── What holds of every run of the graph ──

  // However the posts and the other requests of the client interleave, and whichever of them abort, read
  // stale rows or crash: the callers' events in the log are the trace as far as it was posted, but for the
  // last post while it has no answer, and the run is where those events alone would have brought it.
  lemma {:induction false} TraceCommits(catalog: Scoring.Catalog, n: NewRun, trace: seq<Posted>, steps: seq<Step>)
    requires CleanTrace(trace) && ClientAfter(catalog, n, trace, steps).Some?
    ensures var s, c := Reached(catalog, n, steps), ClientAfter(catalog, n, trace, steps).value;
            && Numbered(s.tables.events)
            && var trail := Trail(Log(s.tables.events));
            && trail <= trace && |trail| <= c.posted <= |trail| + 1
            && (c.last.Some? && Answered(s, c.last.value) ==> |trail| == c.posted)
            && Some(RowOfRun(s.tables.run)) == AcceptAll(FRESH, trail)
  {
    hide Reached, ClientAfter, CleanTrace, SideRequests, AsksAfterFreeze, Numbered, Log, Trail, AcceptAll;
    AlwaysFollowed(catalog, n, trace, steps);
  }

  // The read of the last post never refuses it, and its transaction commits exactly when the database
  // lets it and its query for the tail sees the whole log.
  lemma {:induction false} PostLandsExactly(catalog: Scoring.Catalog, n: NewRun, trace: seq<Posted>, steps: seq<Step>, choice: Choice)
    requires CleanTrace(trace) && ClientAfter(catalog, n, trace, steps).Some?
    requires var s, c := Reached(catalog, n, steps), ClientAfter(catalog, n, trace, steps).value;
             c.last.Some? && c.last.value in s.requests && !s.requests[c.last.value].Done?
    ensures var s, c := Reached(catalog, n, steps), ClientAfter(catalog, n, trace, steps).value;
            var stage, u := s.requests[c.last.value], Next(catalog, s, Continue(c.last.value, choice));
            && (stage.AppendStart? || stage.AppendReady?)
            && (stage.AppendStart? ==> u.requests[c.last.value].AppendReady? && u.tables == s.tables)
            && (stage.AppendReady? ==> (Answered(u, c.last.value) <==> choice.commits && SeesAll(s.tables, choice.tail)))
  {
    hide Reached, ClientAfter, CleanTrace, Advance, SideRequests, AsksAfterFreeze, LogFollows, Landings, Posting, Landed, TablesInv, Knows,
         SubmissionInv, SeesAll;
    AlwaysFollowed(catalog, n, trace, steps);
    ReachedInv(catalog, n, steps);
    var s, c := Reached(catalog, n, steps), ClientAfter(catalog, n, trace, steps).value;
    EventsNumbered(s.tables);
    var e := trace[Landings(s.tables)];
    NextIsAccepted(s.tables, trace);
    PostStep(catalog, s.tables, s.requests[c.last.value], e, choice);
    PostingStages(s.requests[c.last.value], e, s.tables.run);
  }

  lemma {:induction false} ReachedInv(catalog: Scoring.Catalog, n: NewRun, steps: seq<Step>)
    ensures Inv(Reached(catalog, n, steps))
  {
    hide Inv;
    AlwaysInv(catalog, n, steps);
  }

  // ── The gate ──

  lemma {:induction false} WaitingWasAsked(log: seq<Event>) returns (i: nat)
    requires Replay(log).status == WaitingApproval
    ensures i < |log| && log[i].eventType == ApprovalRequired
  {
    var k := |log| - 1;
    if log[k].eventType == ApprovalRequired { i := k; } else { i := WaitingWasAsked(log[..k]); }
  }

  // A run that only the graph writes to waits for approval only once a passport is frozen: the freeze
  // stands before the request in the log, and the newest passport and its provenance are there to be read.
  lemma {:induction false} GateFollowsFreeze(catalog: Scoring.Catalog, n: NewRun, trace: seq<Posted>, steps: seq<Step>)
    requires CleanTrace(trace) && ClientAfter(catalog, n, trace, steps).Some?
    requires Reached(catalog, n, steps).tables.run.status == WaitingApproval
    ensures var t := Reached(catalog, n, steps).tables;
            && Numbered(t.events)
            && (exists i :: 0 <= i < |t.events| && Log(t.events)[i].eventType == ApprovalRequired && HasFreeze(Log(t.events), i))
            && NextPassportSequence(t) - 1 in t.passports && NextPassportSequence(t) - 1 in t.provenances
  {
    hide ClientAfter, CleanTrace, LogFollows, LastPost, SideRequests, Numbered, Log, HasFreeze, Replay, OfType, PassportRow;
    AlwaysFollowed(catalog, n, trace, steps);
    SummaryIsReplay(catalog, n, steps);
    PassportsFollowTheLog(catalog, n, steps);
    var t := Reached(catalog, n, steps).tables;
    var i := WaitingWasAsked(Log(t.events));
    assert HasFreeze(Log(t.events), i);
    FreezeHasPassport(Log(t.events), i);
  }

  lemma {:induction false} FreezeHasPassport(log: seq<Event>, i: nat)
    requires HasFreeze(log, i)
    ensures OfType(log, ProvenanceFrozen) != []
  {
    var j :| 0 <= j < i && j < |log| && log[j].eventType == ProvenanceFrozen;
    if log[|log| - 1].eventType != ProvenanceFrozen {
      assert log[..|log| - 1][j] == log[j];
      FreezeHasPassport(log[..|log| - 1], i);
    }
  }

  // ── The graph ──

  lemma {:induction false} NodeIsClean(n: Node, v: Visit)
    ensures forall i :: 0 <= i < |NodeTrace(n, v)| ==> Clean(NodeTrace(n, v)[i])
  {
    hide Select, NodeId;
    NodeIdTrimmed(n);
    NodeIdIsOk(n);
    if v.outcome.Returned? { DecisionsSelected(n, v); }
  }

  lemma {:induction false} NodeIdIsOk(n: Node)
    ensures NodeIdOk(NodeId(n))
  {
    NodeIdTrimmed(n);
  }

  lemma {:induction false} PathIsClean(nodes: seq<Node>, visits: seq<Visit>)
    requires |nodes| == |visits|
    ensures forall i :: 0 <= i < |PathTrace(nodes, visits)| ==> Clean(PathTrace(nodes, visits)[i])
  {
    hide Clean, NodeTrace, NodeId;
    if nodes != [] {
      NodeIsClean(nodes[0], visits[0]);
      PathIsClean(nodes[1..], visits[1..]);
    }
  }

  // Whatever its nodes do, and whatever becomes of their uploads, freezes and submissions, a graph that
  // runs a fresh run to its end, its gate waiting, has brought it to wait for approval at the gate, and
  // its trace is what callers wrote to the log; one of whose nodes raised has left it running.
  lemma {:induction false} GraphReachesTheGate(catalog: Scoring.Catalog, n: NewRun, rounds: nat, visits: seq<Visit>, steps: seq<Step>)
    requires |visits| == |Path(rounds)|
    requires var client := ClientAfter(catalog, n, PathTrace(Path(rounds), visits), steps);
             && client.Some? && client.value.posted == |PathTrace(Path(rounds), visits)|
             && client.value.last.Some? && Answered(Reached(catalog, n, steps), client.value.last.value)
    ensures var t := Reached(catalog, n, steps).tables;
            && Numbered(t.events) && Trail(Log(t.events)) == PathTrace(Path(rounds), visits)
            && (NoneRaised(visits) && visits[|visits| - 1].outcome.waiting ==>
                  t.run.status == WaitingApproval && t.run.currentNode == Some("human_review_gate"))
            && (!NoneRaised(visits) ==> t.run.status == Running)
  {
    hide Reached, ClientAfter, Path, PathTrace, AcceptAll, Log, Numbered, Trail, Clean;
    GraphTraceAccepted(rounds, visits, 0);
    PathIsClean(Path(rounds), visits);
    TraceCommits(catalog, n, PathTrace(Path(rounds), visits), steps);
  }

  // ── A run that can go on ──

  lemma {:induction false} FreshId(used: set<nat>) returns (id: nat)
    ensures id !in used
  {
    id := if used == {} then 0 else MaxOf(used) + 1;
  }

  lemma {:induction false} ClientAppend(catalog: Scoring.Catalog, n: NewRun, trace: seq<Posted>, steps: seq<Step>, step: Step)
    requires ClientAfter(catalog, n, trace, steps).Some?
    ensures ClientAfter(catalog, n, trace, steps + [step]) ==
            ClientNext(ClientAfter(catalog, n, trace, steps).value, Reached(catalog, n, steps), trace, step)
    ensures Reached(catalog, n, steps + [step]) == Next(catalog, Reached(catalog, n, steps), step)
  {
    hide Next, ClientNext;
    assert (steps + [step])[..|steps|] == steps;
  }

  // Wherever the client may post its next event, the run can go on so that it lands.
  lemma {:induction false} NextPostCanLand(catalog: Scoring.Catalog, n: NewRun, trace: seq<Posted>, steps: seq<Step>)
      returns (more: seq<Step>)
    requires CleanTrace(trace) && ClientAfter(catalog, n, trace, steps).Some?
    requires var c := ClientAfter(catalog, n, trace, steps).value;
             c.posted < |trace| && MayPost(Reached(catalog, n, steps), c, trace[c.posted])
    ensures var after := ClientAfter(catalog, n, trace, steps + more);
            && after.Some? && after.value.posted == ClientAfter(catalog, n, trace, steps).value.posted + 1
            && after.value.last.Some? && Answered(Reached(catalog, n, steps + more), after.value.last.value)
            && after.value.freezes == ClientAfter(catalog, n, trace, steps).value.freezes
            && forall q :: q in after.value.freezes && Answered(Reached(catalog, n, steps), q) ==>
                 Answered(Reached(catalog, n, steps + more), q)
  {
    hide ClientAfter, Reached, CleanTrace, Advance, Clean;
    var s, c := Reached(catalog, n, steps), ClientAfter(catalog, n, trace, steps).value;
    AlwaysFollowed(catalog, n, trace, steps);
    var id := FreshId(c.used);
    var choice := Choice(0, "", "", "", Snapshot(|s.tables.events|), Snapshot(0), true, None);
    var arrive, proceed := Arrive(id, PostRequest(trace[c.posted])), Continue(id, choice);
    ClientAppend(catalog, n, trace, steps, arrive);
    var one := steps + [arrive];
    PostLandsExactly(catalog, n, trace, one, choice);
    ClientAppend(catalog, n, trace, one, proceed);
    var two := one + [proceed];
    PostLandsExactly(catalog, n, trace, two, choice);
    ClientAppend(catalog, n, trace, two, proceed);
    more := [arrive, proceed, proceed];
    assert steps + more == two + [proceed];
  }
}