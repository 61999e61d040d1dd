/** The narrative part of a passport: what the freeze accepts and how it is normalised. */
module PassportDraft {
  import opened Wrappers
  import opened Domain
  import opened Sorting
  import opened StableIds
  import opened EvidenceFreeze
  import Text

  function StatementKey(s: Statement): string { s.statementId }
  function RiskKey(r: Risk): string { r.riskId }

  datatype PassportRequest = PassportRequest(version: string, boardVersion: nat, narrative: Narrative)

  predicate PassportHeaderOk(req: PassportRequest) {
    req.version == "0.2.0" && VersionOk(req.boardVersion) && !Blank(req.narrative.auditScope)
  }

  ghost predicate StatementOk(s: Statement, board: set<Uuid>) {
    StableId(s.statementId) && !Blank(s.statement) && RefsOk(s.evidenceIds, board)
  }

  ghost predicate RiskOk(r: Risk, board: set<Uuid>) {
    && StableId(r.riskId) && !Blank(r.title) && !Blank(r.description) && RefsOk(r.evidenceIds, board)
    && (r.mitigation.Some? ==> !Blank(r.mitigation.value))
  }

  ghost predicate StatementsOk(statements: seq<Statement>, board: set<Uuid>) {
    DistinctKeys(statements, StatementKey) && forall s :: s in statements ==> StatementOk(s, board)
  }

  ghost predicate RisksOk(risks: seq<Risk>, board: set<Uuid>) {
    DistinctKeys(risks, RiskKey) && forall r :: r in risks ==> RiskOk(r, board)
  }

  ghost predicate NarrativeOk(n: Narrative, board: set<Uuid>) {
    && !Blank(n.recommendation.summary)
    && StatementsOk(n.capabilityClaims, board)
    && StatementsOk(n.interfaces, board)
    && RisksOk(n.risks, board)
    && forall g :: g in n.knownGaps ==> !Blank(g)
  }

  function NormStatement(s: Statement): Statement {
    s.(statement := Text.Trim(s.statement), evidenceIds := Sort(s.evidenceIds, IdKey))
  }

  function NormRisk(r: Risk): Risk {
    r.(title := Text.Trim(r.title), description := Text.Trim(r.description), evidenceIds := Sort(r.evidenceIds, IdKey),
       mitigation := match r.mitigation case Some(m) => Some(Text.Trim(m)) case None => None)
  }

  function NonBlank(conditions: seq<string>): seq<string> {
    if conditions == [] then []
    else if Blank(conditions[0]) then NonBlank(conditions[1..])
    else [Text.Trim(conditions[0])] + NonBlank(conditions[1..])
  }

  function NormNarrative(n: Narrative): Narrative {
    Narrative(
      match n.targetRevision case Some(r) => (if Blank(r) then None else Some(Text.Trim(r))) case None => None,
      Text.Trim(n.auditScope),
      Sort(Map(n.capabilityClaims, NormStatement), StatementKey),
      Sort(Map(n.interfaces, NormStatement), StatementKey),
      Sort(Map(n.risks, NormRisk), RiskKey),
      Map(n.knownGaps, Text.Trim),
      Recommendation(Text.Trim(n.recommendation.summary), NonBlank(n.recommendation.conditions)))
  }

  ghost predicate Cites(n: Narrative, u: Uuid) {
    || (exists s :: s in n.capabilityClaims && u in s.evidenceIds)
    || (exists s :: s in n.interfaces && u in s.evidenceIds)
    || (exists r :: r in n.risks && u in r.evidenceIds)
  }

  ghost predicate CitesOnly(n: Narrative, board: seq<Uuid>) {
    forall u :: Cites(n, u) ==> u in board
  }

  lemma {:induction false} StatementCitations(statements: seq<Statement>, board: set<Uuid>, s: Statement, u: Uuid)
    requires StatementsOk(statements, board)
    requires s in Sort(Map(statements, NormStatement), StatementKey) && u in s.evidenceIds
    ensures u in board
  {
    var normal := Map(statements, NormStatement);
    SortSorts(normal, StatementKey);
    SameElements(Sort(normal, StatementKey), normal);
    var i :| 0 <= i < |statements| && normal[i] == s;
    assert statements[i] in statements;
    SortSorts(statements[i].evidenceIds, IdKey);
    SameElements(s.evidenceIds, statements[i].evidenceIds);
  }

  lemma {:induction false} RiskCitations(risks: seq<Risk>, board: set<Uuid>, r: Risk, u: Uuid)
    requires RisksOk(risks, board)
    requires r in Sort(Map(risks, NormRisk), RiskKey) && u in r.evidenceIds
    ensures u in board
  {
    var normal := Map(risks, NormRisk);
    SortSorts(normal, RiskKey);
    SameElements(Sort(normal, RiskKey), normal);
    var i :| 0 <= i < |risks| && normal[i] == r;
    assert risks[i] in risks;
    SortSorts(risks[i].evidenceIds, IdKey);
    SameElements(r.evidenceIds, risks[i].evidenceIds);
  }

  // A normalised narrative cites board evidence only.
  lemma {:induction false} NormalisedCitesBoard(n: Narrative, board: seq<Uuid>)
    requires NarrativeOk(n, Elements(board))
    ensures CitesOnly(NormNarrative(n), board)
  {
    var m := NormNarrative(n);
    forall s, u | (s in m.capabilityClaims || s in m.interfaces) && u in s.evidenceIds ensures u in board {
      if s in m.capabilityClaims {
        StatementCitations(n.capabilityClaims, Elements(board), s, u);
      } else {
        StatementCitations(n.interfaces, Elements(board), s, u);
      }
    }
    forall r, u | r in m.risks && u in r.evidenceIds ensures u in board {
      RiskCitations(n.risks, Elements(board), r, u);
    }
  }

  // ── The service's procedure ──

  lemma {:induction false} StatementsOkStep(statements: seq<Statement>, i: nat, board: set<Uuid>)
    requires i < |statements|
    ensures StatementsOk(statements[..i + 1], board) <==>
            StatementsOk(statements[..i], board) && StatementOk(statements[i], board)
                && statements[i].statementId !in KeySet(statements[..i], StatementKey)
    ensures StatementsOk(statements, board) ==> StatementsOk(statements[..i + 1], board)
    ensures KeySet(statements[..i + 1], StatementKey) == KeySet(statements[..i], StatementKey) + {statements[i].statementId}
  {
    hide StatementOk;
    assert statements[..i + 1] == statements[..i] + [statements[i]];
    assert statements[i] in statements[..i + 1];
    DistinctAppend(statements[..i], statements[i], StatementKey);
  }

  // `normalize_statements`, in place: when it succeeds every statement is valid and normalised.
  method NormalizeStatements(statements: array<Statement>, board: set<Uuid>) returns (ok: bool)
    modifies statements
    ensures ok <==> StatementsOk(old(statements[..]), board)
    ensures ok ==> statements[..] == Map(old(statements[..]), NormStatement)
  {
    hide StatementOk, StableId;
    ghost var was := statements[..];
    var seen: set<string> := {};
    for i := 0 to statements.Length
      invariant seen == KeySet(was[..i], StatementKey)
      invariant StatementsOk(was[..i], board)
      invariant forall k :: 0 <= k < i ==> statements[k] == NormStatement(was[k])
      invariant forall k :: i <= k < statements.Length ==> statements[k] == was[k]
    {
      StatementsOkStep(was, i, board);
      var statement := statements[i];
      var normal := NormalizeStatement(statement, board);
      if normal.None? || statement.statementId in seen { return false; }
      seen := seen + {statement.statementId};
      statements[i] := normal.value;
    }
    assert was[..statements.Length] == was;
    ok := true;
  }

  // The body of the statement loop.
  method NormalizeStatement(s: Statement, board: set<Uuid>) returns (r: Option<Statement>)
    ensures r == if StatementOk(s, board) then Some(NormStatement(s)) else None
  {
    var stable := ValidateStableId(s.statementId);
    if !stable || Blank(s.statement) { return None; }
    var refs := NormalizeReferences(s.evidenceIds, board);
    if refs.None? { return None; }
    r := Some(s.(statement := Text.Trim(s.statement), evidenceIds := refs.value));
  }

  lemma {:induction false} RisksOkStep(risks: seq<Risk>, i: nat, board: set<Uuid>)
    requires i < |risks|
    ensures RisksOk(risks[..i + 1], board) <==>
            RisksOk(risks[..i], board) && RiskOk(risks[i], board) && risks[i].riskId !in KeySet(risks[..i], RiskKey)
    ensures RisksOk(risks, board) ==> RisksOk(risks[..i + 1], board)
    ensures KeySet(risks[..i + 1], RiskKey) == KeySet(risks[..i], RiskKey) + {risks[i].riskId}
  {
    hide RiskOk;
    assert risks[..i + 1] == risks[..i] + [risks[i]];
    assert risks[i] in risks[..i + 1];
    DistinctAppend(risks[..i], risks[i], RiskKey);
  }

  // `normalize_risks`, in place
  method NormalizeRisks(risks: array<Risk>, board: set<Uuid>) returns (ok: bool)
    modifies risks
    ensures ok <==> RisksOk(old(risks[..]), board)
    ensures ok ==> risks[..] == Map(old(risks[..]), NormRisk)
  {
    hide RiskOk, StableId;
    ghost var was := risks[..];
    var seen: set<string> := {};
    for i := 0 to risks.Length
      invariant seen == KeySet(was[..i], RiskKey)
      invariant RisksOk(was[..i], board)
      invariant forall k :: 0 <= k < i ==> risks[k] == NormRisk(was[k])
      invariant forall k :: i <= k < risks.Length ==> risks[k] == was[k]
    {
      RisksOkStep(was, i, board);
      var risk := risks[i];
      var normal := NormalizeRisk(risk, board);
      if normal.None? || risk.riskId in seen { return false; }
      seen := seen + {risk.riskId};
      risks[i] := normal.value;
    }
    assert was[..risks.Length] == was;
    ok := true;
  }

  // The body of the risk loop.
  method NormalizeRisk(risk: Risk, board: set<Uuid>) returns (r: Option<Risk>)
    ensures r == if RiskOk(risk, board) then Some(NormRisk(risk)) else None
  {
    var stable := ValidateStableId(risk.riskId);
    if !stable || Blank(risk.title) || Blank(risk.description) { return None; }
    var refs := NormalizeReferences(risk.evidenceIds, board);
    if refs.None? { return None; }
    var normal := risk.(evidenceIds := refs.value, title := Text.Trim(risk.title), description := Text.Trim(risk.description));
    if risk.mitigation.Some? {
      if Blank(risk.mitigation.value) { return None; }
      normal := normal.(mitigation := Some(Text.Trim(risk.mitigation.value)));
    }
    r := Some(normal);
  }

  // `normalize_known_gaps`
  method NormalizeKnownGaps(gaps: seq<string>) returns (r: Option<seq<string>>)
    ensures r == if forall g :: g in gaps ==> !Blank(g) then Some(Map(gaps, Text.Trim)) else None
  {
    var normalized: seq<string> := [];
    for i := 0 to |gaps|
      invariant |normalized| == i && forall k :: 0 <= k < i ==> !Blank(gaps[k]) && normalized[k] == Text.Trim(gaps[k])
    {
      if Blank(gaps[i]) {
        assert gaps[i] in gaps;
        return None;
      }
      normalized := normalized + [Text.Trim(gaps[i])];
    }
    assert normalized == Map(gaps, Text.Trim);
    r := Some(normalized);
  }

  // The narrative part of `freeze_passport`: normalise in place, then sort.
  method NormalizeNarrative(n: Narrative, board: set<Uuid>) returns (r: Option<Narrative>)
    ensures r == if NarrativeOk(n, board) then Some(NormNarrative(n)) else None
  {
    hide StatementsOk, RisksOk, NonBlank, NormStatement, NormRisk, Sort;
    if Blank(n.recommendation.summary) { return None; }
    var claims := new Statement[|n.capabilityClaims|](i requires 0 <= i < |n.capabilityClaims| => n.capabilityClaims[i]);
    var interfaces := new Statement[|n.interfaces|](i requires 0 <= i < |n.interfaces| => n.interfaces[i]);
    var risks := new Risk[|n.risks|](i requires 0 <= i < |n.risks| => n.risks[i]);
    assert claims[..] == n.capabilityClaims && interfaces[..] == n.interfaces && risks[..] == n.risks;
    var ok := NormalizeStatements(claims, board);
    if !ok { return None; }
    ok := NormalizeStatements(interfaces, board);
    if !ok { return None; }
    ok := NormalizeRisks(risks, board);
    if !ok { return None; }
    var gaps := NormalizeKnownGaps(n.knownGaps);
    if gaps.None? { return None; }
    var revision: Option<string> := None;
    if n.targetRevision.Some? && !Blank(n.targetRevision.value) { revision := Some(Text.Trim(n.targetRevision.value)); }
    r := Some(Narrative(revision, Text.Trim(n.auditScope),
                        Sort(claims[..], StatementKey), Sort(interfaces[..], StatementKey), Sort(risks[..], RiskKey),
                        gaps.value, Recommendation(Text.Trim(n.recommendation.summary), NonBlank(n.recommendation.conditions))));
  }
}
