/** Deterministic scoring of check findings. Weights and points are exact reals; the source uses f64. */
module Scoring {
  import opened Wrappers
  import opened Domain
  import opened Sorting
  import opened EvidenceFreeze
  import Text

  datatype FindingPoints = FindingPoints(pass: real, partial: real, fail: real, unknown: real)

  function PointsFor(p: FindingPoints, f: Finding): Option<real> {
    match f
    case Pass => Some(p.pass)
    case Partial => Some(p.partial)
    case Fail => Some(p.fail)
    case Unknown => Some(p.unknown)
    case NotApplicable => None
  }

  datatype ScoringRule = ScoringRule(scoringRuleId: string, findingPoints: FindingPoints, notApplicableRequiresApproval: bool)

  datatype RatingThreshold = RatingThreshold(minimumTotalScore: nat, rating: string)

  datatype RatingCaps = RatingCaps(partial: string, fail: string, unknown: string)

  function CapText(caps: RatingCaps, f: Finding): Option<string> {
    match f
    case Partial => Some(caps.partial)
    case Fail => Some(caps.fail)
    case Unknown => Some(caps.unknown)
    case Pass => None
    case NotApplicable => None
  }

  datatype Standard = Standard(
    standardId: string, standardVersion: string, dimensions: seq<string>, scoringRules: seq<ScoringRule>,
    thresholds: seq<RatingThreshold>, caps: RatingCaps)

  datatype ProfileCheck = ProfileCheck(checkId: string, dimension: string, weight: real, highRisk: bool, scoringRuleId: string)

  datatype Profile = Profile(
    profileId: string, profileVersion: string, standardId: string, standardVersion: string, checks: seq<ProfileCheck>)

  // The standard and the profiles that are compiled into the backend.
  datatype Catalog = Catalog(standard: Standard, profiles: map<string, Profile>)

  datatype FindingSubmission = FindingSubmission(
    checkId: string, finding: Finding, rationale: string, evidenceIds: seq<Uuid>, notApplicableReason: Option<string>)

  datatype Submission = Submission(schemaVersion: string, boardVersion: nat, findings: seq<FindingSubmission>)

  datatype ScoringError =
    | InvalidSchemaVersion | InvalidEvidenceBoardVersion
    | DuplicateCheck(checkId: string) | UnknownCheck(checkId: string) | MissingCheck(checkId: string)
    | InvalidFinding(checkId: string)
    | InvalidCatalog

  function CheckKey(c: ProfileCheck): string { c.checkId }
  function FindingKey(f: FindingSubmission): string { f.checkId }

  const DIMENSIONS: seq<string> := [
    "capability_clarity", "interface_openness", "automation_readiness", "data_portability",
    "permission_risk", "evidence_quality", "ecosystem_fit"]

  // The field of `DimensionScores` that `get_mut` selects.
  function DimensionIndex(d: string): (i: nat)
    ensures i < 7 ==> DIMENSIONS[i] == d
    ensures i >= 7 ==> d !in DIMENSIONS
  {
    if d == DIMENSIONS[0] then 0 else if d == DIMENSIONS[1] then 1 else if d == DIMENSIONS[2] then 2
    else if d == DIMENSIONS[3] then 3 else if d == DIMENSIONS[4] then 4 else if d == DIMENSIONS[5] then 5
    else if d == DIMENSIONS[6] then 6 else 7
  }

  function Rank(r: Rating): nat {
    match r
    case NotRecommended => 0
    case ManualOnly => 1
    case Trial => 2
    case LowRisk => 3
    case CoreCandidate => 4
  }

  function MinRating(a: Rating, b: Rating): Rating { if Rank(a) <= Rank(b) then a else b }

  function ParseRating(s: string): Option<Rating> {
    if s == "not_recommended" then Some(NotRecommended)
    else if s == "manual_only" then Some(ManualOnly)
    else if s == "trial" then Some(Trial)
    else if s == "low_risk" then Some(LowRisk)
    else if s == "core_candidate" then Some(CoreCandidate)
    else None
  }

  // ── The catalogue ──

  // `load_catalog`
  function LoadCatalog(catalog: Catalog, binding: AuditBinding): Option<Profile> {
    if binding.standardId != "alethos-toolpassport" || binding.standardVersion != "0.3.0" || binding.profileVersion != "0.3.0"
    then None
    else if binding.profileId in catalog.profiles then Some(catalog.profiles[binding.profileId])
    else None
  }

  // `audit_binding_check_ids`
  function BindingCheckIds(catalog: Catalog, binding: AuditBinding): Option<set<string>> {
    match LoadCatalog(catalog, binding)
    case None => None
    case Some(profile) => Some(set c | c in profile.checks :: c.checkId)
  }

  // A later rule with the same id replaces an earlier one, as collecting into a map does.
  function RuleFor(rules: seq<ScoringRule>, id: string): Option<ScoringRule> {
    if rules == [] then None
    else if rules[|rules| - 1].scoringRuleId == id then Some(rules[|rules| - 1])
    else RuleFor(rules[..|rules| - 1], id)
  }

  predicate Ascending(thresholds: seq<RatingThreshold>) {
    forall i :: 0 <= i < |thresholds| - 1 ==> thresholds[i].minimumTotalScore < thresholds[i + 1].minimumTotalScore
  }

  // `validate_catalog`
  predicate CatalogBinds(standard: Standard, profile: Profile) {
    && profile.standardId == standard.standardId && profile.standardVersion == standard.standardVersion
    && (forall c :: c in profile.checks ==> c.dimension in standard.dimensions && RuleFor(standard.scoringRules, c.scoringRuleId).Some?)
    && Ascending(standard.thresholds)
  }

  // ── One finding ──

  predicate HeaderAccepted(sub: Submission) {
    sub.schemaVersion == "0.1.0" && VersionOk(sub.boardVersion)
  }

  ghost predicate FindingValid(f: FindingSubmission, available: set<Uuid>, approved: set<string>, rule: ScoringRule) {
    && !Blank(f.rationale)
    && RefsOk(f.evidenceIds, available)
    && (if f.finding == NotApplicable then
          && f.notApplicableReason.Some? && !Blank(f.notApplicableReason.value)
          && (rule.notApplicableRequiresApproval ==> f.checkId in approved)
        else f.notApplicableReason.None?)
  }

  function FindingFor(findings: seq<FindingSubmission>, checkId: string): FindingSubmission {
    if findings == [] then FindingSubmission(checkId, Unknown, "", [], None)
    else if findings[0].checkId == checkId then findings[0]
    else FindingFor(findings[1..], checkId)
  }

  function ResultFor(standard: Standard, check: ProfileCheck, f: FindingSubmission): CheckResult {
    var points :=
      match RuleFor(standard.scoringRules, check.scoringRuleId)
      case Some(rule) => (match PointsFor(rule.findingPoints, f.finding) case Some(p) => p case None => 0.0)
      case None => 0.0;
    var applicable := f.finding != NotApplicable;
    CheckResult(check.checkId, check.dimension, f.finding, f.rationale, f.evidenceIds, f.notApplicableReason,
                check.weight, check.highRisk, check.scoringRuleId, points,
                if applicable then check.weight * points else 0.0, applicable)
  }

  // One result per profile check, in profile order.
  function ResultsOf(standard: Standard, profile: Profile, findings: seq<FindingSubmission>): seq<CheckResult> {
    ResultsFor(standard, profile.checks, findings)
  }

  function ResultsFor(standard: Standard, checks: seq<ProfileCheck>, findings: seq<FindingSubmission>): (r: seq<CheckResult>)
    ensures |r| == |checks|
    ensures forall i :: 0 <= i < |checks| ==>
              r[i] == ResultFor(standard, checks[i], FindingFor(findings, checks[i].checkId))
  {
    seq(|checks|, i requires 0 <= i < |checks| => ResultFor(standard, checks[i], FindingFor(findings, checks[i].checkId)))
  }

  // ── Dimension scores, total and rating ──

  function Earned(results: seq<CheckResult>, d: string): real {
    if results == [] then 0.0
    else
      var last := results[|results| - 1];
      Earned(results[..|results| - 1], d) + (if last.dimension == d && last.applicable then last.weightedPoints else 0.0)
  }

  function Weight(results: seq<CheckResult>, d: string): real {
    if results == [] then 0.0
    else
      var last := results[|results| - 1];
      Weight(results[..|results| - 1], d) + (if last.dimension == d && last.applicable then last.weight else 0.0)
  }

  // A float cast to u8 saturates.
  function SaturateU8(x: int): int { if x < 0 then 0 else if x > 255 then 255 else x }

  function FinalScore(earned: real, weight: real): int {
    if weight == 0.0 then 0 else SaturateU8((5.0 * earned / weight).Floor)
  }

  function DimensionOf(results: seq<CheckResult>, d: string): DimensionScore {
    DimensionScore(FinalScore(Earned(results, d), Weight(results, d)), Earned(results, d), Weight(results, d))
  }

  function DimensionScores(results: seq<CheckResult>): seq<DimensionScore> {
    seq(7, i requires 0 <= i < 7 => DimensionOf(results, DIMENSIONS[i]))
  }

  function SumScores(scores: seq<DimensionScore>): int {
    if scores == [] then 0 else SumScores(scores[..|scores| - 1]) + scores[|scores| - 1].score
  }

  // The sum is a u16, and the cast to u8 keeps the low byte.
  function TotalScore(scores: seq<DimensionScore>): int {
    ((SumScores(scores) * 20) / 7) % 256
  }

  // The last threshold, in list order, that the total reaches.
  function LastReached(thresholds: seq<RatingThreshold>, total: int): Option<RatingThreshold> {
    if thresholds == [] then None
    else if thresholds[|thresholds| - 1].minimumTotalScore <= total then Some(thresholds[|thresholds| - 1])
    else LastReached(thresholds[..|thresholds| - 1], total)
  }

  function BaseRating(standard: Standard, total: int): Option<Rating> {
    match LastReached(standard.thresholds, total)
    case Some(t) => ParseRating(t.rating)
    case None => None
  }

  function CapFor(standard: Standard, r: CheckResult): Option<string> {
    if r.highRisk then CapText(standard.caps, r.finding) else None
  }

  predicate CapsParse(standard: Standard, results: seq<CheckResult>) {
    forall r :: r in results && CapFor(standard, r).Some? ==> ParseRating(CapFor(standard, r).value).Some?
  }

  function Capped(standard: Standard, base: Rating, results: seq<CheckResult>): Rating {
    if results == [] then base
    else
      var before := Capped(standard, base, results[..|results| - 1]);
      match CapFor(standard, results[|results| - 1])
      case Some(text) => (match ParseRating(text) case Some(cap) => MinRating(before, cap) case None => before)
      case None => before
  }

  // ── Acceptance and outcome ──

  ghost predicate FindingsAccepted(standard: Standard, profile: Profile, findings: seq<FindingSubmission>,
                                   available: set<Uuid>, approved: set<string>)
  {
    && DistinctKeys(findings, FindingKey)
    && KeySet(findings, FindingKey) <= KeySet(profile.checks, CheckKey)
    && ChecksAccepted(standard, profile.checks, findings, available, approved)
  }

  // No check twice, a finding for each, and each finding valid.
  ghost predicate ChecksAccepted(standard: Standard, checks: seq<ProfileCheck>, findings: seq<FindingSubmission>,
                                 available: set<Uuid>, approved: set<string>)
  {
    && DistinctKeys(checks, CheckKey)
    && KeySet(checks, CheckKey) <= KeySet(findings, FindingKey)
    && forall c :: c in checks ==> CheckAccepted(standard, c, findings, available, approved)
  }

  // A check that names no rule of the standard or none of the seven dimensions.
  ghost predicate CheckFault(standard: Standard, checks: seq<ProfileCheck>) {
    exists c :: c in checks && (RuleFor(standard.scoringRules, c.scoringRuleId).None? || c.dimension !in DIMENSIONS)
  }

  ghost predicate CheckAccepted(standard: Standard, check: ProfileCheck, findings: seq<FindingSubmission>,
                                available: set<Uuid>, approved: set<string>)
  {
    && RuleFor(standard.scoringRules, check.scoringRuleId).Some?
    && FindingValid(FindingFor(findings, check.checkId), available, approved, RuleFor(standard.scoringRules, check.scoringRuleId).value)
    && check.dimension in DIMENSIONS
  }

  // Exactly when scoring succeeds: the header, the catalogue, and one valid finding for each check.
  ghost predicate Accepts(catalog: Catalog, binding: AuditBinding, sub: Submission, available: set<Uuid>, approved: set<string>) {
    && HeaderAccepted(sub)
    && LoadCatalog(catalog, binding).Some?
    && var profile := LoadCatalog(catalog, binding).value;
    && CatalogBinds(catalog.standard, profile)
    && FindingsAccepted(catalog.standard, profile, sub.findings, available, approved)
    && var results := ResultsOf(catalog.standard, profile, sub.findings);
    && BaseRating(catalog.standard, TotalScore(DimensionScores(results))).Some?
    && CapsParse(catalog.standard, results)
  }

  ghost function Scored(catalog: Catalog, binding: AuditBinding, sub: Submission, runId: Uuid, id: Uuid, now: int): CheckResults
    requires LoadCatalog(catalog, binding).Some?
    requires var results := ResultsOf(catalog.standard, LoadCatalog(catalog, binding).value, sub.findings);
             BaseRating(catalog.standard, TotalScore(DimensionScores(results))).Some?
  {
    var standard, profile := catalog.standard, LoadCatalog(catalog, binding).value;
    var results := ResultsOf(standard, profile, sub.findings);
    var scores := DimensionScores(results);
    CheckResults(
      id, runId, sub.boardVersion,
      AuditBinding(standard.standardId, standard.standardVersion, profile.profileId, profile.profileVersion),
      results, scores, TotalScore(scores), Capped(standard, BaseRating(standard, TotalScore(scores)).value, results), now)
  }

  ghost function ScoreOutcome(catalog: Catalog, binding: AuditBinding, sub: Submission, available: set<Uuid>, approved: set<string>,
                         runId: Uuid, id: Uuid, now: int): Option<CheckResults>
  {
    if Accepts(catalog, binding, sub, available, approved) then Some(Scored(catalog, binding, sub, runId, id, now)) else None
  }

  // ── The scoring procedure ──

  // The evidence loop of `validate_finding`: no id twice, none outside the board.
  method CitesAvailable(evidenceIds: seq<Uuid>, available: set<Uuid>) returns (ok: bool)
    ensures ok <==> RefsOk(evidenceIds, available)
  {
    var seen: set<Uuid> := {};
    for i := 0 to |evidenceIds|
      invariant seen == set k | 0 <= k < i :: evidenceIds[k]
      invariant RefsOk(evidenceIds[..i], available)
    {
      assert evidenceIds[..i + 1] == evidenceIds[..i] + [evidenceIds[i]];
      if evidenceIds[i] in seen {
        var k :| 0 <= k < i && evidenceIds[k] == evidenceIds[i];
        assert IdKey(evidenceIds[k]) == IdKey(evidenceIds[i]);
        return false;
      }
      seen := seen + {evidenceIds[i]};
      if evidenceIds[i] !in available { return false; }
    }
    assert evidenceIds[..|evidenceIds|] == evidenceIds;
    ok := true;
  }

  // `validate_finding`
  method ValidateFinding(f: FindingSubmission, available: set<Uuid>, approved: set<string>, rule: ScoringRule) returns (ok: bool)
    ensures ok <==> FindingValid(f, available, approved, rule)
  {
    if Blank(f.rationale) { return false; }
    var cited := CitesAvailable(f.evidenceIds, available);
    if !cited { return false; }
    if f.finding == NotApplicable {
      if f.notApplicableReason.None? || Blank(f.notApplicableReason.value) { return false; }
      return !(rule.notApplicableRequiresApproval && f.checkId !in approved);
    }
    return f.notApplicableReason.None?;
  }

  lemma {:induction false} FindingForMember(findings: seq<FindingSubmission>, i: nat)
    requires i < |findings| && DistinctKeys(findings, FindingKey)
    ensures FindingFor(findings, findings[i].checkId) == findings[i]
  {
    if i > 0 {
      assert FindingKey(findings[0]) != FindingKey(findings[i]);
      assert forall j :: 0 <= j < |findings| - 1 ==> findings[1..][j] == findings[j + 1];
      FindingForMember(findings[1..], i - 1);
    }
  }

  // The findings by check id, each of the profile and none twice.
  method CollectFindings(findings: seq<FindingSubmission>, checkIds: set<string>)
    returns (r: Result<map<string, FindingSubmission>, ScoringError>)
    ensures r.Ok? <==> DistinctKeys(findings, FindingKey) && KeySet(findings, FindingKey) <= checkIds
    ensures r.Ok? ==> r.value.Keys == KeySet(findings, FindingKey) && forall id :: id in r.value ==> r.value[id] == FindingFor(findings, id)
    ensures r.Err? ==> r.error.UnknownCheck? || r.error.DuplicateCheck?
    ensures r.Err? && r.error.UnknownCheck? ==> r.error.checkId in KeySet(findings, FindingKey) && r.error.checkId !in checkIds
  {
    var collected: map<string, FindingSubmission> := map[];
    for i := 0 to |findings|
      invariant DistinctKeys(findings[..i], FindingKey)
      invariant forall k :: 0 <= k < i ==> findings[k].checkId in checkIds
      invariant collected.Keys == set k | 0 <= k < i :: findings[k].checkId
      invariant forall k :: 0 <= k < i ==> collected[findings[k].checkId] == findings[k]
    {
      var id := findings[i].checkId;
      assert findings[i] in findings;
      assert FindingKey(findings[i]) in KeySet(findings, FindingKey);
      if id !in checkIds { return Err(UnknownCheck(id)); }
      if id in collected {
        var k :| 0 <= k < i && findings[k].checkId == id;
        assert FindingKey(findings[k]) == FindingKey(findings[i]);
        return Err(DuplicateCheck(id));
      }
      collected := collected[id := findings[i]];
    }
    assert findings[..|findings|] == findings;
    forall id | id in collected ensures collected[id] == FindingFor(findings, id) {
      var k :| 0 <= k < |findings| && findings[k].checkId == id;
      FindingForMember(findings, k);
    }
    r := Ok(collected);
  }

  lemma {:induction false} EarnedAppend(results: seq<CheckResult>, r: CheckResult, d: string)
    ensures Earned(results + [r], d) == Earned(results, d) + (if r.dimension == d && r.applicable then r.weightedPoints else 0.0)
    ensures Weight(results + [r], d) == Weight(results, d) + (if r.dimension == d && r.applicable then r.weight else 0.0)
  {
    assert (results + [r])[..|results|] == results;
  }

  // What is left to consume before check `i`: the findings of no earlier check.
  ghost predicate Remaining(findings: map<string, FindingSubmission>, all: seq<FindingSubmission>, checks: seq<ProfileCheck>) {
    && findings.Keys == KeySet(all, FindingKey) - KeySet(checks, CheckKey)
    && (forall id :: id in findings ==> findings[id] == FindingFor(all, id))
  }

  lemma {:induction false} ChecksStep(standard: Standard, checks: seq<ProfileCheck>, i: nat, all: seq<FindingSubmission>,
                                      available: set<Uuid>, approved: set<string>)
    requires i < |checks|
    ensures KeySet(checks[..i + 1], CheckKey) == KeySet(checks[..i], CheckKey) + {checks[i].checkId}
    ensures ChecksAccepted(standard, checks[..i + 1], all, available, approved) <==>
            && ChecksAccepted(standard, checks[..i], all, available, approved)
            && checks[i].checkId in KeySet(all, FindingKey) - KeySet(checks[..i], CheckKey)
            && CheckAccepted(standard, checks[i], all, available, approved)
    ensures ChecksAccepted(standard, checks, all, available, approved)
            ==> ChecksAccepted(standard, checks[..i + 1], all, available, approved)
  {
    var before := checks[..i];
    assert checks[..i + 1] == before + [checks[i]];
    assert checks[i] in checks[..i + 1];
    DistinctAppend(before, checks[i], CheckKey);
    if ChecksAccepted(standard, checks, all, available, approved) {
      assert forall c :: c in checks[..i + 1] ==> c in checks;
      assert forall k :: 0 <= k < i + 1 ==> checks[..i + 1][k] == checks[k];
    }
  }

  // The accumulators hold the sums over the results pushed so far.
  ghost predicate Accumulated(earned: seq<real>, weight: seq<real>, results: seq<CheckResult>) {
    && |earned| == |weight| == 7
    && forall d :: 0 <= d < 7 ==> earned[d] == Earned(results, DIMENSIONS[d]) && weight[d] == Weight(results, DIMENSIONS[d])
  }

  lemma {:induction false} AccumulatedStep(earned: seq<real>, weight: seq<real>, results: seq<CheckResult>, r: CheckResult, d: nat)
    requires Accumulated(earned, weight, results) && d == DimensionIndex(r.dimension) < 7
    ensures r.applicable ==> Accumulated(earned[d := earned[d] + r.weightedPoints], weight[d := weight[d] + r.weight], results + [r])
    ensures !r.applicable ==> Accumulated(earned, weight, results + [r])
  {
    forall e | 0 <= e < 7
      ensures Earned(results + [r], DIMENSIONS[e]) ==
              Earned(results, DIMENSIONS[e]) + (if e == d && r.applicable then r.weightedPoints else 0.0)
      ensures Weight(results + [r], DIMENSIONS[e]) == Weight(results, DIMENSIONS[e]) + (if e == d && r.applicable then r.weight else 0.0)
    {
      EarnedAppend(results, r, DIMENSIONS[e]);
      DimensionsDistinct(e, d);
    }
  }

  lemma {:induction false} DimensionsDistinct(d: nat, e: nat)
    requires d < 7 && e < 7
    ensures DIMENSIONS[d] == DIMENSIONS[e] ==> d == e
  {
    assert DimensionIndex(DIMENSIONS[d]) == d && DimensionIndex(DIMENSIONS[e]) == e;
  }

  // The body of the loop over the profile, for one check.
  method ScoreCheck(standard: Standard, check: ProfileCheck, finding: FindingSubmission, ghost all: seq<FindingSubmission>,
                    available: set<Uuid>, approved: set<string>)
    returns (r: Result<CheckResult, ScoringError>)
    requires finding == FindingFor(all, check.checkId)
    ensures r.Ok? <==> CheckAccepted(standard, check, all, available, approved)
    ensures r.Ok? ==> r.value == ResultFor(standard, check, finding)
    ensures r.Err? ==> r.error.InvalidFinding? || r.error.InvalidCatalog?
    ensures r.Err? && r.error.InvalidCatalog?
            ==> RuleFor(standard.scoringRules, check.scoringRuleId).None? || check.dimension !in DIMENSIONS
  {
    var rule := RuleFor(standard.scoringRules, check.scoringRuleId);
    if rule.None? { return Err(InvalidCatalog); }
    var ok := ValidateFinding(finding, available, approved, rule.value);
    if !ok { return Err(InvalidFinding(check.checkId)); }
    var applicable := finding.finding != NotApplicable;
    var points := PointsFor(rule.value.findingPoints, finding.finding);
    var rulePoints := match points case Some(p) => p case None => 0.0;
    var weightedPoints := if applicable then check.weight * rulePoints else 0.0;
    if DimensionIndex(check.dimension) == 7 { return Err(InvalidCatalog); }
    r := Ok(CheckResult(check.checkId, check.dimension, finding.finding, finding.rationale, finding.evidenceIds,
                        finding.notApplicableReason, check.weight, check.highRisk, check.scoringRuleId,
                        rulePoints, weightedPoints, applicable));
  }

  lemma {:induction false} ResultsStep(standard: Standard, checks: seq<ProfileCheck>, i: nat, all: seq<FindingSubmission>)
    requires i < |checks|
    ensures ResultsFor(standard, checks[..i + 1], all) ==
            ResultsFor(standard, checks[..i], all) + [ResultFor(standard, checks[i], FindingFor(all, checks[i].checkId))]
  {
  }

  // Adds one result to the accumulators of its dimension.
  method Accumulate(earned: array<real>, weight: array<real>, ghost results: seq<CheckResult>, r: CheckResult)
    requires earned != weight && Accumulated(earned[..], weight[..], results) && r.dimension in DIMENSIONS
    modifies earned, weight
    ensures Accumulated(earned[..], weight[..], results + [r])
  {
    var d := DimensionIndex(r.dimension);
    ghost var e, w := earned[..], weight[..];
    AccumulatedStep(e, w, results, r, d);
    if r.applicable {
      earned[d] := earned[d] + r.weightedPoints;
      weight[d] := weight[d] + r.weight;
      assert earned[..] == e[d := e[d] + r.weightedPoints] && weight[..] == w[d := w[d] + r.weight];
    }
  }

  // The loop over the profile: consume one finding per check, push its result, and add to the
  // accumulators of its dimension.
  method ScoreChecks(standard: Standard, checks: seq<ProfileCheck>, collected: map<string, FindingSubmission>,
                     ghost all: seq<FindingSubmission>,
                     available: set<Uuid>, approved: set<string>, earned: array<real>, weight: array<real>)
    returns (r: Result<seq<CheckResult>, ScoringError>)
    requires earned != weight && Accumulated(earned[..], weight[..], [])
    requires Remaining(collected, all, [])
    modifies earned, weight
    ensures r.Ok? <==> ChecksAccepted(standard, checks, all, available, approved)
    ensures r.Ok? ==> r.value == ResultsFor(standard, checks, all)
    ensures r.Ok? ==> Accumulated(earned[..], weight[..], r.value)
    ensures r.Err? ==> r.error.MissingCheck? || r.error.InvalidFinding? || r.error.InvalidCatalog?
    ensures r.Err? && r.error.InvalidCatalog? ==>
      CheckFault(standard, checks)
  {
    var findings := collected;
    var results: seq<CheckResult> := [];
    assert checks[..0] == [];
    for i := 0 to |checks|
      invariant Remaining(findings, all, checks[..i])
      invariant ChecksAccepted(standard, checks[..i], all, available, approved)
      invariant results == ResultsFor(standard, checks[..i], all)
      invariant Accumulated(earned[..], weight[..], results)
    {
      ChecksStep(standard, checks, i, all, available, approved);
      var check := checks[i];
      if check.checkId !in findings { return Err(MissingCheck(check.checkId)); }
      var finding := findings[check.checkId];
      findings := findings - {check.checkId};
      var scored := ScoreCheck(standard, check, finding, all, available, approved);
      if scored.Err? {
        assert check in checks;
        return Err(scored.error);
      }
      var result := scored.value;
      Accumulate(earned, weight, results, result);
      ResultsStep(standard, checks, i, all);
      results := results + [result];
    }
    assert checks[..|checks|] == checks;
    r := Ok(results);
  }

  // `finalize_dimension_scores` and the seven records it leaves.
  method FinalizeDimensionScores(earned: array<real>, weight: array<real>, ghost results: seq<CheckResult>)
                          returns (scores: seq<DimensionScore>)
    requires Accumulated(earned[..], weight[..], results)
    ensures scores == DimensionScores(results)
  {
    scores := [];
    for d := 0 to 7
      invariant |scores| == d
      invariant forall k :: 0 <= k < d ==> scores[k] == DimensionOf(results, DIMENSIONS[k])
    {
      assert earned[..][d] == earned[d] && weight[..][d] == weight[d];
      scores := scores + [DimensionScore(FinalScore(earned[d], weight[d]), earned[d], weight[d])];
    }
  }

  // The cap loop over the results.
  method CapRating(standard: Standard, base: Rating, results: seq<CheckResult>) returns (r: Result<Rating, ScoringError>)
    ensures r.Ok? <==> CapsParse(standard, results)
    ensures r.Ok? ==> r.value == Capped(standard, base, results)
    ensures r.Err? ==> r.error == InvalidCatalog
  {
    var rating := base;
    for i := 0 to |results|
      invariant rating == Capped(standard, base, results[..i])
      invariant forall k :: 0 <= k < i && CapFor(standard, results[k]).Some? ==> ParseRating(CapFor(standard, results[k]).value).Some?
    {
      assert results[..i + 1][..i] == results[..i];
      assert results[i] in results;
      var text := CapFor(standard, results[i]);
      if text.Some? {
        var cap := ParseRating(text.value);
        if cap.None? { return Err(InvalidCatalog); }
        rating := MinRating(rating, cap.value);
      }
    }
    assert results[..|results|] == results;
    r := Ok(rating);
  }

  datatype ScoredChecks = ScoredChecks(results: seq<CheckResult>, scores: seq<DimensionScore>)

  // The two loops over findings and checks, and the dimension scores.
  method ScoreProfile(standard: Standard, profile: Profile, findings: seq<FindingSubmission>, available: set<Uuid>, approved: set<string>)
    returns (r: Result<ScoredChecks, ScoringError>)
    ensures r.Ok? <==> FindingsAccepted(standard, profile, findings, available, approved)
    ensures r.Ok? ==> r.value.results == ResultsOf(standard, profile, findings) && r.value.scores == DimensionScores(r.value.results)
    ensures r.Err? && r.error.InvalidCatalog? ==>
      CheckFault(standard, profile.checks)
  {
    var checkIds := set c | c in profile.checks :: c.checkId;
    assert checkIds == KeySet(profile.checks, CheckKey);
    var collected := CollectFindings(findings, checkIds);
    if collected.Err? { return Err(collected.error); }
    var earned, weight := new real[7](_ => 0.0), new real[7](_ => 0.0);
    var scored := ScoreChecks(standard, profile.checks, collected.value, findings, available, approved, earned, weight);
    if scored.Err? { return Err(scored.error); }
    var scores := FinalizeDimensionScores(earned, weight, scored.value);
    r := Ok(ScoredChecks(scored.value, scores));
  }

  // The faults a stored catalogue can have: only these are reported as an invalid catalogue.
  ghost predicate CatalogFault(catalog: Catalog, binding: AuditBinding, findings: seq<FindingSubmission>) {
    || LoadCatalog(catalog, binding).None?
    || var profile := LoadCatalog(catalog, binding).value;
       || !CatalogBinds(catalog.standard, profile)
       || CheckFault(catalog.standard, profile.checks)
       || BaseRating(catalog.standard, TotalScore(DimensionScores(ResultsOf(catalog.standard, profile, findings)))).None?
       || !CapsParse(catalog.standard, ResultsOf(catalog.standard, profile, findings))
  }

  // `score_check_results`
  method ScoreCheckResults(catalog: Catalog, binding: AuditBinding, sub: Submission, available: set<Uuid>, approved: set<string>,
                           runId: Uuid, id: Uuid, now: int)
    returns (r: Result<CheckResults, ScoringError>)
    ensures r.Ok? <==> Accepts(catalog, binding, sub, available, approved)
    ensures r.Ok? ==> ScoreOutcome(catalog, binding, sub, available, approved, runId, id, now) == Some(r.value)
    ensures r.Err? && r.error.InvalidCatalog? ==> CatalogFault(catalog, binding, sub.findings)
  {
    if sub.schemaVersion != "0.1.0" { return Err(InvalidSchemaVersion); }
    if !VersionOk(sub.boardVersion) { return Err(InvalidEvidenceBoardVersion); }
    var loaded := LoadCatalog(catalog, binding);
    if loaded.None? { return Err(InvalidCatalog); }
    var standard, profile := catalog.standard, loaded.value;
    if !CatalogBinds(standard, profile) { return Err(InvalidCatalog); }
    var scored := ScoreProfile(standard, profile, sub.findings, available, approved);
    if scored.Err? { return Err(scored.error); }
    var total := TotalScore(scored.value.scores);
    var base := BaseRating(standard, total);
    if base.None? { return Err(InvalidCatalog); }
    var rating := CapRating(standard, base.value, scored.value.results);
    if rating.Err? { return Err(InvalidCatalog); }
    r := Ok(CheckResults(id, runId, sub.boardVersion,
      AuditBinding(standard.standardId, standard.standardVersion, profile.profileId, profile.profileVersion),
      scored.value.results, scored.value.scores, total, rating.value, now));
  }
}
