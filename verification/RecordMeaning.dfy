/** What a stored record keeps of the request that asked for it, said of the two alone. */
module RecordMeaning {
  import opened Wrappers
  import opened Domain
  import opened Sorting
  import StableIds
  import opened EvidenceFreeze
  import opened FreezeProperties
  import opened PassportDraft
  import Text

  // ── Trimming ──

  predicate Spaces(s: string) { forall i :: 0 <= i < |s| ==> Text.IsWhitespace(s[i]) }

  // `t` is what is left of `s` without its outer whitespace.
  ghost predicate Stripped(s: string, t: string) {
    && (t != "" ==> !Text.IsWhitespace(t[0]) && !Text.IsWhitespace(t[|t| - 1]))
    && exists pre, post :: Spaces(pre) && Spaces(post) && s == pre + t + post
  }

  lemma {:induction false} TrimStartStrips(s: string) returns (pre: string)
    ensures Spaces(pre) && s == pre + Text.TrimStart(s)
  {
    pre := "";
    if s != [] && Text.IsWhitespace(s[0]) {
      var rest := TrimStartStrips(s[1..]);
      pre := [s[0]] + rest;
    }
  }

  lemma {:induction false} TrimEndStrips(s: string) returns (post: string)
    ensures Spaces(post) && s == Text.TrimEnd(s) + post
  {
    post := "";
    if s != [] && Text.IsWhitespace(s[|s| - 1]) {
      var rest := TrimEndStrips(s[..|s| - 1]);
      post := rest + [s[|s| - 1]];
      assert s == s[..|s| - 1] + [s[|s| - 1]];
    }
  }

  lemma {:induction false} TrimStrips(s: string)
    ensures Stripped(s, Text.Trim(s))
  {
    Text.TrimIsProjection(s);
    var pre := TrimStartStrips(s);
    var post := TrimEndStrips(Text.TrimStart(s));
    assert s == pre + Text.Trim(s) + post;
  }

  // Blank is what holds nothing else.
  lemma {:induction false} BlankIsSpaces(s: string)
    ensures Text.Trim(s) == "" <==> Spaces(s)
  {
    TrimStrips(s);
    var pre, post :| Spaces(pre) && Spaces(post) && s == pre + Text.Trim(s) + post;
    if Text.Trim(s) == "" {
      forall i | 0 <= i < |s| ensures Text.IsWhitespace(s[i]) {
        assert s[i] == if i < |pre| then pre[i] else post[i - |pre|];
      }
    } else {
      assert s[|pre|] == Text.Trim(s)[0];
    }
  }

  lemma {:induction false} LeadingSpaces(pre: string, s: string)
    requires Spaces(pre)
    ensures Text.TrimStart(pre + s) == Text.TrimStart(s)
  {
    if pre == "" {
      assert pre + s == s;
    } else {
      LeadingSpaces(pre[1..], s);
      assert (pre + s)[1..] == pre[1..] + s;
    }
  }

  lemma {:induction false} TrailingSpaces(s: string, post: string)
    requires Spaces(post)
    ensures Text.TrimEnd(s + post) == Text.TrimEnd(s)
  {
    if post == "" {
      assert s + post == s;
    } else {
      var n := |post| - 1;
      TrailingSpaces(s, post[..n]);
      assert (s + post)[..|s + post| - 1] == s + post[..n];
    }
  }

  // What is left is one text, which is the trimmed one.
  lemma {:induction false} StrippedIsTrimmed(s: string, t: string)
    ensures Stripped(s, t) <==> Text.Trim(s) == t
  {
    TrimStrips(s);
    if Stripped(s, t) {
      var pre, post :| Spaces(pre) && Spaces(post) && s == pre + t + post;
      if t == "" {
        assert Spaces(s);
        BlankIsSpaces(s);
      } else {
        assert s == pre + (t + post);
        LeadingSpaces(pre, t + post);
        TrailingSpaces(t, post);
        Text.TrimStartShape(t + post);
        Text.TrimEndShape(t);
      }
    }
  }

  ghost predicate StrippedOption(s: Option<string>, t: Option<string>) {
    match s
    case None => t.None?
    case Some(v) => t.Some? && Stripped(v, t.value)
  }

  // ── Claims and gaps ──

  ghost predicate ClaimKept(c: Claim, d: Claim) {
    && d.claimId == c.claimId && d.checkId == c.checkId && d.status == c.status && d.confidence == c.confidence
    && Stripped(c.statement, d.statement)
    && multiset(d.supports) == multiset(c.supports) && multiset(d.contradicts) == multiset(c.contradicts)
  }

  ghost predicate GapKept(g: Gap, h: Gap) {
    && h.gapId == g.gapId && h.checkId == g.checkId && h.priority == g.priority && h.status == g.status
    && Stripped(g.description, h.description) && StrippedOption(g.resolution, h.resolution)
  }

  ghost predicate HasSource<T(!new)>(a: seq<T>, d: T, kept: (T, T) -> bool) { exists c :: c in a && kept(c, d) }
  ghost predicate HasTarget<T(!new)>(b: seq<T>, c: T, kept: (T, T) -> bool) { exists d :: d in b && kept(c, d) }

  // As many of each, each of `b` comes from one of `a`, and each of `a` is in `b`.
  ghost predicate ListKept<T(!new)>(a: seq<T>, b: seq<T>, kept: (T, T) -> bool) {
    && |a| == |b|
    && (forall d :: d in b ==> HasSource(a, d, kept))
    && (forall c :: c in a ==> HasTarget(b, c, kept))
  }

  ghost predicate ClaimsKept(a: seq<Claim>, b: seq<Claim>) {
    ListKept(a, b, ClaimKept) && forall i, j :: 0 <= i < j < |b| ==> Text.Less(b[i].claimId, b[j].claimId)
  }

  ghost predicate GapsKept(a: seq<Gap>, b: seq<Gap>) {
    ListKept(a, b, GapKept) && forall i, j :: 0 <= i < j < |b| ==> Text.Less(b[i].gapId, b[j].gapId)
  }

  // Mapping and sorting keep a list whose items they keep.
  lemma {:induction false} SortedIsKept<T(!new)>(a: seq<T>, norm: T -> T, key: T -> string, kept: (T, T) -> bool)
    requires DistinctKeys(a, key)
    requires forall x :: x in a ==> kept(x, norm(x)) && key(norm(x)) == key(x)
    ensures ListKept(a, Sort(Map(a, norm), key), kept) && StrictlySorted(Sort(Map(a, norm), key), key)
  {
    var normal := Map(a, norm);
    var sorted := Sort(normal, key);
    forall i | 0 <= i < |a| ensures key(normal[i]) == key(a[i]) && kept(a[i], normal[i]) { assert a[i] in a; }
    SortSorts(normal, key);
    SortKeeps(normal, key);
    SortDistinct(normal, key);
    forall d | d in sorted ensures HasSource(a, d, kept) {
      var i :| 0 <= i < |normal| && normal[i] == d;
      assert a[i] in a && kept(a[i], d);
    }
    forall c | c in a ensures HasTarget(sorted, c, kept) {
      var i :| 0 <= i < |a| && a[i] == c;
      assert normal[i] in normal && kept(c, normal[i]);
    }
  }

  // The board holds what the request lists, for the run as it was read.
  ghost predicate BoardKept(run: Run, req: FreezeRequest, board: Board) {
    && board.runId == run.runId && board.binding == run.binding && board.version == req.version
    && multiset(board.evidenceIds) == multiset(req.evidenceIds)
    && ClaimsKept(req.claims, board.claims) && GapsKept(req.gaps, board.gaps)
    && Stripped(req.freezeReason, board.freezeReason)
  }

  lemma {:induction false} NormClaimKeeps(c: Claim)
    ensures ClaimKept(c, NormClaim(c))
  {
    TrimStrips(c.statement);
    SortSorts(c.supports, IdKey);
    SortSorts(c.contradicts, IdKey);
  }

  lemma {:induction false} NormGapKeeps(g: Gap)
    ensures GapKept(g, NormGap(g))
  {
    TrimStrips(g.description);
    if g.resolution.Some? { TrimStrips(g.resolution.value); }
  }

  lemma {:induction false} ClaimsAreKept(claims: seq<Claim>)
    requires DistinctKeys(claims, ClaimKey)
    ensures ClaimsKept(claims, Sort(Map(claims, NormClaim), ClaimKey))
  {
    hide ListKept, Stripped, Map, Sort;
    forall c | c in claims ensures ClaimKept(c, NormClaim(c)) { NormClaimKeeps(c); }
    SortedIsKept(claims, NormClaim, ClaimKey, ClaimKept);
    var sorted := Sort(Map(claims, NormClaim), ClaimKey);
    forall i, j | 0 <= i < j < |sorted| ensures Text.Less(sorted[i].claimId, sorted[j].claimId) {
      assert Text.Less(ClaimKey(sorted[i]), ClaimKey(sorted[j]));
    }
  }

  lemma {:induction false} GapsAreKept(gaps: seq<Gap>)
    requires DistinctKeys(gaps, GapKey)
    ensures GapsKept(gaps, Sort(Map(gaps, NormGap), GapKey))
  {
    hide ListKept, Stripped, StrippedOption, Map, Sort;
    forall g | g in gaps ensures GapKept(g, NormGap(g)) { NormGapKeeps(g); }
    SortedIsKept(gaps, NormGap, GapKey, GapKept);
    var sorted := Sort(Map(gaps, NormGap), GapKey);
    forall i, j | 0 <= i < j < |sorted| ensures Text.Less(sorted[i].gapId, sorted[j].gapId) {
      assert Text.Less(GapKey(sorted[i]), GapKey(sorted[j]));
    }
  }

  // Freezing changes nothing of a request but order and outer whitespace: the board has the run's id and
  // binding, and the request's version, reason, evidence, claims and gaps, each claim and gap once, with
  // the status, confidence and priority that were asked for.
  lemma {:induction false} FrozenBoardKeeps(run: Run, req: FreezeRequest, checkIds: set<string>, evidence: map<Uuid, Evidence>,
                                            artifacts: map<Uuid, Artifact>, now: int)
    requires FreezeOutcome(run, req, Some(checkIds), evidence, artifacts, now).Ok?
    ensures var frozen := FreezeOutcome(run, req, Some(checkIds), evidence, artifacts, now).value;
            BoardKept(run, req, frozen.board) && frozen.board.frozenAt == now
  {
    hide ClaimsKept, GapsKept, Stripped, NormClaim, NormGap, StableIds.StableId, SnapshotsPresent;
    TrimStrips(req.freezeReason);
    SortSorts(req.evidenceIds, IdKey);
    ClaimsAreKept(req.claims);
    GapsAreKept(req.gaps);
  }

  // ── The narrative ──

  ghost predicate StatementKept(s: Statement, t: Statement) {
    && t.statementId == s.statementId && t.status == s.status && Stripped(s.statement, t.statement)
    && multiset(t.evidenceIds) == multiset(s.evidenceIds)
  }

  ghost predicate RiskKept(r: Risk, q: Risk) {
    && q.riskId == r.riskId && q.severity == r.severity && Stripped(r.title, q.title) && Stripped(r.description, q.description)
    && StrippedOption(r.mitigation, q.mitigation) && multiset(q.evidenceIds) == multiset(r.evidenceIds)
  }

  ghost predicate StatementsKept(a: seq<Statement>, b: seq<Statement>) {
    ListKept(a, b, StatementKept) && forall i, j :: 0 <= i < j < |b| ==> Text.Less(b[i].statementId, b[j].statementId)
  }

  ghost predicate RisksKept(a: seq<Risk>, b: seq<Risk>) {
    ListKept(a, b, RiskKept) && forall i, j :: 0 <= i < j < |b| ==> Text.Less(b[i].riskId, b[j].riskId)
  }

  // Conditions that hold nothing are dropped, the others stay in order.
  ghost predicate ConditionsKept(a: seq<string>, b: seq<string>) {
    if a == [] then b == []
    else if Spaces(a[0]) then ConditionsKept(a[1..], b)
    else b != [] && Stripped(a[0], b[0]) && ConditionsKept(a[1..], b[1..])
  }

  ghost predicate RevisionKept(a: Option<string>, b: Option<string>) {
    match a
    case None => b.None?
    case Some(r) => if Spaces(r) then b.None? else b.Some? && Stripped(r, b.value)
  }

  ghost predicate NarrativeKept(n: Narrative, m: Narrative) {
    && RevisionKept(n.targetRevision, m.targetRevision) && Stripped(n.auditScope, m.auditScope)
    && StatementsKept(n.capabilityClaims, m.capabilityClaims) && StatementsKept(n.interfaces, m.interfaces)
    && RisksKept(n.risks, m.risks)
    && |m.knownGaps| == |n.knownGaps| && (forall i :: 0 <= i < |n.knownGaps| ==> Stripped(n.knownGaps[i], m.knownGaps[i]))
    && Stripped(n.recommendation.summary, m.recommendation.summary)
    && ConditionsKept(n.recommendation.conditions, m.recommendation.conditions)
  }

  lemma {:induction false} NormStatementKeeps(s: Statement)
    ensures StatementKept(s, NormStatement(s))
  {
    TrimStrips(s.statement);
    SortSorts(s.evidenceIds, IdKey);
  }

  lemma {:induction false} NormRiskKeeps(r: Risk)
    ensures RiskKept(r, NormRisk(r))
  {
    TrimStrips(r.title);
    TrimStrips(r.description);
    if r.mitigation.Some? { TrimStrips(r.mitigation.value); }
    SortSorts(r.evidenceIds, IdKey);
  }

  lemma {:induction false} StatementsAreKept(statements: seq<Statement>)
    requires DistinctKeys(statements, StatementKey)
    ensures StatementsKept(statements, Sort(Map(statements, NormStatement), StatementKey))
  {
    hide ListKept, Stripped, Map, Sort;
    forall s | s in statements ensures StatementKept(s, NormStatement(s)) { NormStatementKeeps(s); }
    SortedIsKept(statements, NormStatement, StatementKey, StatementKept);
    var sorted := Sort(Map(statements, NormStatement), StatementKey);
    forall i, j | 0 <= i < j < |sorted| ensures Text.Less(sorted[i].statementId, sorted[j].statementId) {
      assert Text.Less(StatementKey(sorted[i]), StatementKey(sorted[j]));
    }
  }

  lemma {:induction false} RisksAreKept(risks: seq<Risk>)
    requires DistinctKeys(risks, RiskKey)
    ensures RisksKept(risks, Sort(Map(risks, NormRisk), RiskKey))
  {
    hide ListKept, Stripped, StrippedOption, Map, Sort;
    forall r | r in risks ensures RiskKept(r, NormRisk(r)) { NormRiskKeeps(r); }
    SortedIsKept(risks, NormRisk, RiskKey, RiskKept);
    var sorted := Sort(Map(risks, NormRisk), RiskKey);
    forall i, j | 0 <= i < j < |sorted| ensures Text.Less(sorted[i].riskId, sorted[j].riskId) {
      assert Text.Less(RiskKey(sorted[i]), RiskKey(sorted[j]));
    }
  }

  lemma {:induction false} ConditionsAreKept(conditions: seq<string>)
    ensures ConditionsKept(conditions, NonBlank(conditions))
  {
    hide Stripped;
    if conditions != [] {
      BlankIsSpaces(conditions[0]);
      TrimStrips(conditions[0]);
      ConditionsAreKept(conditions[1..]);
      if !Spaces(conditions[0]) { assert NonBlank(conditions)[1..] == NonBlank(conditions[1..]); }
    }
  }

  // An accepted narrative is kept but for order, outer whitespace and conditions that hold nothing.
  lemma {:induction false} NarrativeIsKept(n: Narrative, board: set<Uuid>)
    requires NarrativeOk(n, board)
    ensures NarrativeKept(n, NormNarrative(n))
  {
    hide StatementsKept, RisksKept, ConditionsKept, Stripped, NormStatement, NormRisk, StableIds.StableId;
    if n.targetRevision.Some? {
      BlankIsSpaces(n.targetRevision.value);
      TrimStrips(n.targetRevision.value);
    }
    TrimStrips(n.auditScope);
    TrimStrips(n.recommendation.summary);
    forall i | 0 <= i < |n.knownGaps| ensures Stripped(n.knownGaps[i], Text.Trim(n.knownGaps[i])) { TrimStrips(n.knownGaps[i]); }
    StatementsAreKept(n.capabilityClaims);
    StatementsAreKept(n.interfaces);
    RisksAreKept(n.risks);
    ConditionsAreKept(n.recommendation.conditions);
  }

  // ── What is accepted ──

  ghost predicate NoneTwice<T>(s: seq<T>) { forall i, j :: 0 <= i < j < |s| ==> s[i] != s[j] }

  ghost predicate Listed(refs: seq<Uuid>, known: set<Uuid>) { NoneTwice(refs) && forall i :: 0 <= i < |refs| ==> refs[i] in known }

  lemma {:induction false} RefsAreListed(refs: seq<Uuid>, known: set<Uuid>)
    ensures RefsOk(refs, known) <==> Listed(refs, known)
  {
    if RefsOk(refs, known) {
      forall i, j | 0 <= i < j < |refs| ensures refs[i] != refs[j] { assert IdKey(refs[i]) != IdKey(refs[j]); }
    }
    if Listed(refs, known) {
      forall i, j | 0 <= i < j < |refs| ensures IdKey(refs[i]) != IdKey(refs[j]) { assert refs[i] != refs[j]; }
    }
  }

  ghost predicate ClaimAsked(c: Claim, checkIds: set<string>, evidence: seq<Uuid>) {
    && StableIds.StableId(c.claimId) && c.checkId in checkIds && !Spaces(c.statement)
    && (exists x :: c.confidence == Finite(x) && 0.0 <= x <= 1.0)
    && Listed(c.supports, Elements(evidence)) && Listed(c.contradicts, Elements(evidence))
  }

  ghost predicate GapAsked(g: Gap, checkIds: set<string>) {
    && StableIds.StableId(g.gapId) && g.checkId in checkIds && !Spaces(g.description)
    && (g.resolution.None? || !Spaces(g.resolution.value))
  }

  // A request that the service takes: claims and gaps of the profile's checks, no id twice, references
  // inside the evidence it lists, and that evidence stored.
  ghost predicate FreezeAsked(req: FreezeRequest, checkIds: set<string>, known: set<Uuid>) {
    && req.schemaVersion == "0.1.0" && 1 <= req.version <= 9223372036854775807 && !Spaces(req.freezeReason)
    && Listed(req.evidenceIds, known)
    && (forall i :: 0 <= i < |req.claims| ==> ClaimAsked(req.claims[i], checkIds, req.evidenceIds))
    && (forall i, j :: 0 <= i < j < |req.claims| ==> req.claims[i].claimId != req.claims[j].claimId)
    && (forall i :: 0 <= i < |req.gaps| ==> GapAsked(req.gaps[i], checkIds))
    && (forall i, j :: 0 <= i < j < |req.gaps| ==> req.gaps[i].gapId != req.gaps[j].gapId)
  }

  lemma {:induction false} ClaimIsAsked(c: Claim, checkIds: set<string>, evidence: seq<Uuid>)
    ensures ClaimOk(c, checkIds, Elements(evidence)) <==> ClaimAsked(c, checkIds, evidence)
  {
    hide StableIds.StableId, Listed, RefsOk;
    RefsAreListed(c.supports, Elements(evidence));
    RefsAreListed(c.contradicts, Elements(evidence));
    BlankIsSpaces(c.statement);
    if c.confidence.Finite? { assert c.confidence == Finite(c.confidence.value); }
  }

  lemma {:induction false} GapIsAsked(g: Gap, checkIds: set<string>)
    ensures GapOk(g, checkIds) <==> GapAsked(g, checkIds)
  {
    hide StableIds.StableId;
    BlankIsSpaces(g.description);
    if g.resolution.Some? { BlankIsSpaces(g.resolution.value); }
  }

  lemma {:induction false} ClaimsAreAsked(claims: seq<Claim>, checkIds: set<string>, evidence: seq<Uuid>)
    ensures ClaimsOk(claims, checkIds, Elements(evidence)) <==>
            && (forall i :: 0 <= i < |claims| ==> ClaimAsked(claims[i], checkIds, evidence))
            && (forall i, j :: 0 <= i < j < |claims| ==> claims[i].claimId != claims[j].claimId)
  {
    hide ClaimOk, ClaimAsked;
    forall i | 0 <= i < |claims| ensures ClaimOk(claims[i], checkIds, Elements(evidence)) <==> ClaimAsked(claims[i], checkIds, evidence) {
      ClaimIsAsked(claims[i], checkIds, evidence);
    }
    assert DistinctKeys(claims, ClaimKey) <==> forall i, j :: 0 <= i < j < |claims| ==> claims[i].claimId != claims[j].claimId by {
      if DistinctKeys(claims, ClaimKey) {
        forall i, j | 0 <= i < j < |claims| ensures claims[i].claimId != claims[j].claimId {
          assert ClaimKey(claims[i]) != ClaimKey(claims[j]);
        }
      }
    }
    assert forall c :: c in claims <==> exists i :: 0 <= i < |claims| && claims[i] == c;
  }

  lemma {:induction false} GapsAreAsked(gaps: seq<Gap>, checkIds: set<string>)
    ensures GapsOk(gaps, checkIds) <==>
            && (forall i :: 0 <= i < |gaps| ==> GapAsked(gaps[i], checkIds))
            && (forall i, j :: 0 <= i < j < |gaps| ==> gaps[i].gapId != gaps[j].gapId)
  {
    hide GapOk, GapAsked;
    forall i | 0 <= i < |gaps| ensures GapOk(gaps[i], checkIds) <==> GapAsked(gaps[i], checkIds) { GapIsAsked(gaps[i], checkIds); }
    assert DistinctKeys(gaps, GapKey) <==> forall i, j :: 0 <= i < j < |gaps| ==> gaps[i].gapId != gaps[j].gapId by {
      if DistinctKeys(gaps, GapKey) {
        forall i, j | 0 <= i < j < |gaps| ensures gaps[i].gapId != gaps[j].gapId { assert GapKey(gaps[i]) != GapKey(gaps[j]); }
      }
    }
    assert forall g :: g in gaps <==> exists i :: 0 <= i < |gaps| && gaps[i] == g;
  }

  // A freeze is refused exactly when the request is not such a request, and is accepted exactly when it is
  // and every snapshot of its evidence is stored.
  lemma {:induction false} FreezeAcceptsExactly(run: Run, req: FreezeRequest, checkIds: Option<set<string>>, evidence: map<Uuid, Evidence>,
                                                artifacts: map<Uuid, Artifact>, now: int)
    ensures var r := FreezeOutcome(run, req, checkIds, evidence, artifacts, now);
            && (r == Err(InvalidRequest) <==> checkIds.None? || !FreezeAsked(req, checkIds.value, evidence.Keys))
            && (r.Ok? <==>
                  && checkIds.Some? && FreezeAsked(req, checkIds.value, evidence.Keys)
                  && forall u :: u in req.evidenceIds ==>
                       evidence[u].snapshotArtifactId.None? || evidence[u].snapshotArtifactId.value in artifacts)
  {
    hide ClaimsOk, GapsOk, ClaimAsked, GapAsked, Listed, RefsOk, NormClaim, NormGap;
    if checkIds.Some? {
      BlankIsSpaces(req.freezeReason);
      RefsAreListed(req.evidenceIds, evidence.Keys);
      ClaimsAreAsked(req.claims, checkIds.value, req.evidenceIds);
      GapsAreAsked(req.gaps, checkIds.value);
      if Acceptable(req, checkIds.value, evidence.Keys) { SnapshotsAreStored(req.evidenceIds, evidence, artifacts); }
    }
  }

  lemma {:induction false} SnapshotsAreStored(ids: seq<Uuid>, evidence: map<Uuid, Evidence>, artifacts: map<Uuid, Artifact>)
    requires RefsOk(ids, evidence.Keys)
    ensures SnapshotsPresent(Sort(ids, IdKey), evidence, artifacts) <==>
            forall u :: u in ids ==> evidence[u].snapshotArtifactId.None? || evidence[u].snapshotArtifactId.value in artifacts
  {
    var sorted := Sort(ids, IdKey);
    SortKeeps(ids, IdKey);
    if SnapshotsPresent(sorted, evidence, artifacts) {
      forall u | u in ids ensures evidence[u].snapshotArtifactId.None? || evidence[u].snapshotArtifactId.value in artifacts {
        assert u in sorted;
        var i :| 0 <= i < |sorted| && sorted[i] == u;
      }
    }
    if forall u :: u in ids ==> evidence[u].snapshotArtifactId.None? || evidence[u].snapshotArtifactId.value in artifacts {
      forall i | 0 <= i < |sorted| ensures sorted[i] in evidence && SnapshotPresent(evidence[sorted[i]], artifacts) {
        assert sorted[i] in sorted;
      }
    }
  }

  ghost predicate StatementAsked(s: Statement, board: set<Uuid>) {
    StableIds.StableId(s.statementId) && !Spaces(s.statement) && Listed(s.evidenceIds, board)
  }

  ghost predicate RiskAsked(r: Risk, board: set<Uuid>) {
    && StableIds.StableId(r.riskId) && !Spaces(r.title) && !Spaces(r.description) && Listed(r.evidenceIds, board)
    && (r.mitigation.None? || !Spaces(r.mitigation.value))
  }

  ghost predicate StatementsAsked(s: seq<Statement>, board: set<Uuid>) {
    && (forall i :: 0 <= i < |s| ==> StatementAsked(s[i], board))
    && forall i, j :: 0 <= i < j < |s| ==> s[i].statementId != s[j].statementId
  }

  // A narrative that the service takes.
  ghost predicate NarrativeAsked(n: Narrative, board: set<Uuid>) {
    && !Spaces(n.recommendation.summary)
    && StatementsAsked(n.capabilityClaims, board) && StatementsAsked(n.interfaces, board)
    && (forall i :: 0 <= i < |n.risks| ==> RiskAsked(n.risks[i], board))
    && (forall i, j :: 0 <= i < j < |n.risks| ==> n.risks[i].riskId != n.risks[j].riskId)
    && forall i :: 0 <= i < |n.knownGaps| ==> !Spaces(n.knownGaps[i])
  }

  lemma {:induction false} StatementsAreAsked(s: seq<Statement>, board: set<Uuid>)
    ensures StatementsOk(s, board) <==> StatementsAsked(s, board)
  {
    hide StableIds.StableId, Listed, RefsOk;
    forall i | 0 <= i < |s| ensures StatementOk(s[i], board) <==> StatementAsked(s[i], board) {
      RefsAreListed(s[i].evidenceIds, board);
      BlankIsSpaces(s[i].statement);
    }
    assert DistinctKeys(s, StatementKey) <==> forall i, j :: 0 <= i < j < |s| ==> s[i].statementId != s[j].statementId by {
      if DistinctKeys(s, StatementKey) {
        forall i, j | 0 <= i < j < |s| ensures s[i].statementId != s[j].statementId {
          assert StatementKey(s[i]) != StatementKey(s[j]);
        }
      }
    }
    assert forall x :: x in s <==> exists i :: 0 <= i < |s| && s[i] == x;
  }

  lemma {:induction false} RisksAreAsked(risks: seq<Risk>, board: set<Uuid>)
    ensures RisksOk(risks, board) <==>
            && (forall i :: 0 <= i < |risks| ==> RiskAsked(risks[i], board))
            && (forall i, j :: 0 <= i < j < |risks| ==> risks[i].riskId != risks[j].riskId)
  {
    hide StableIds.StableId, Listed, RefsOk;
    forall i | 0 <= i < |risks| ensures RiskOk(risks[i], board) <==> RiskAsked(risks[i], board) {
      RefsAreListed(risks[i].evidenceIds, board);
      BlankIsSpaces(risks[i].title);
      BlankIsSpaces(risks[i].description);
      if risks[i].mitigation.Some? { BlankIsSpaces(risks[i].mitigation.value); }
    }
    assert DistinctKeys(risks, RiskKey) <==> forall i, j :: 0 <= i < j < |risks| ==> risks[i].riskId != risks[j].riskId by {
      if DistinctKeys(risks, RiskKey) {
        forall i, j | 0 <= i < j < |risks| ensures risks[i].riskId != risks[j].riskId { assert RiskKey(risks[i]) != RiskKey(risks[j]); }
      }
    }
    assert forall x :: x in risks <==> exists i :: 0 <= i < |risks| && risks[i] == x;
  }

  // The narratives that are accepted are exactly these.
  lemma {:induction false} NarrativeAcceptsExactly(n: Narrative, board: set<Uuid>)
    ensures NarrativeOk(n, board) <==> NarrativeAsked(n, board)
  {
    hide StatementsOk, StatementsAsked, RisksOk, RiskAsked;
    BlankIsSpaces(n.recommendation.summary);
    StatementsAreAsked(n.capabilityClaims, board);
    StatementsAreAsked(n.interfaces, board);
    RisksAreAsked(n.risks, board);
    forall i | 0 <= i < |n.knownGaps| ensures Blank(n.knownGaps[i]) <==> Spaces(n.knownGaps[i]) { BlankIsSpaces(n.knownGaps[i]); }
    assert forall x :: x in n.knownGaps <==> exists i :: 0 <= i < |n.knownGaps| && n.knownGaps[i] == x;
  }
}
