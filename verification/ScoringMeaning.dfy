/** What the check results say of the findings, the profile and the standard, and of nothing else. */
module ScoringMeaning {
  import opened Wrappers
  import opened Domain
  import opened Sorting
  import opened EvidenceFreeze
  import opened Scoring
  import opened ScoringProperties
  import opened ShippedCatalog
  import opened RecordMeaning

  // ── One result ──

  // The last rule of that id, which is the one that counts.
  ghost predicate RuleNamed(rules: seq<ScoringRule>, id: string, rule: ScoringRule) {
    exists i :: 0 <= i < |rules| && rules[i] == rule && rule.scoringRuleId == id
                && forall j :: i < j < |rules| ==> rules[j].scoringRuleId != id
  }

  lemma {:induction false} RuleIsNamed(rules: seq<ScoringRule>, id: string)
    requires RuleFor(rules, id).Some?
    ensures RuleNamed(rules, id, RuleFor(rules, id).value)
  {
    var n := |rules| - 1;
    if rules[n].scoringRuleId != id {
      RuleIsNamed(rules[..n], id);
      var rule := RuleFor(rules[..n], id).value;
      var i :| 0 <= i < n && rules[..n][i] == rule && rule.scoringRuleId == id
               && forall j :: i < j < n ==> rules[..n][j].scoringRuleId != id;
      assert forall j :: i < j < |rules| ==> rules[j].scoringRuleId != id by {
        forall j | i < j < |rules| ensures rules[j].scoringRuleId != id {
          if j < n { assert rules[..n][j] == rules[j]; }
        }
      }
      assert rules[i] == rule;
    }
  }

  // The points of the check's rule for the finding.
  ghost predicate PointsOf(rule: ScoringRule, finding: Finding, points: real) {
    match finding
    case Pass => points == rule.findingPoints.pass
    case Partial => points == rule.findingPoints.partial
    case Fail => points == rule.findingPoints.fail
    case Unknown => points == rule.findingPoints.unknown
    case NotApplicable => points == 0.0
  }

  // The result repeats the check and the finding, and earns the check's weight times those points.
  ghost predicate ResultSays(standard: Standard, check: ProfileCheck, f: FindingSubmission, r: CheckResult) {
    && r.checkId == check.checkId && f.checkId == check.checkId
    && r.dimension == check.dimension && r.weight == check.weight && r.highRisk == check.highRisk
    && r.scoringRuleId == check.scoringRuleId
    && r.finding == f.finding && r.rationale == f.rationale && r.evidenceIds == f.evidenceIds
    && r.notApplicableReason == f.notApplicableReason
    && (r.applicable <==> f.finding != NotApplicable)
    && r.weightedPoints == check.weight * r.rulePoints
    && exists rule :: RuleNamed(standard.scoringRules, check.scoringRuleId, rule) && PointsOf(rule, f.finding, r.rulePoints)
  }

  // One result for each check, in the order of the profile, from the one finding for that check.
  ghost predicate ResultsSay(standard: Standard, profile: Profile, findings: seq<FindingSubmission>, results: seq<CheckResult>) {
    && |results| == |profile.checks|
    && forall i :: 0 <= i < |results| ==> FromFinding(standard, profile.checks[i], findings, results[i])
  }

  ghost predicate FromFinding(standard: Standard, check: ProfileCheck, findings: seq<FindingSubmission>, r: CheckResult) {
    exists f :: f in findings && ResultSays(standard, check, f, r)
  }

  lemma {:induction false} ResultIsSaid(standard: Standard, check: ProfileCheck, f: FindingSubmission)
    requires RuleFor(standard.scoringRules, check.scoringRuleId).Some? && f.checkId == check.checkId
    ensures ResultSays(standard, check, f, ResultFor(standard, check, f))
  {
    RuleIsNamed(standard.scoringRules, check.scoringRuleId);
    var rule := RuleFor(standard.scoringRules, check.scoringRuleId).value;
    assert PointsOf(rule, f.finding, ResultFor(standard, check, f).rulePoints);
    assert check.weight * 0.0 == 0.0;
  }

  lemma {:induction false} FindingIsThere(findings: seq<FindingSubmission>, id: string)
    requires exists f :: f in findings && f.checkId == id
    ensures FindingFor(findings, id) in findings && FindingFor(findings, id).checkId == id
  {
    if findings[0].checkId != id {
      var f :| f in findings && f.checkId == id;
      assert f in findings[1..];
      FindingIsThere(findings[1..], id);
    }
  }

  lemma {:induction false} ResultsAreSaid(standard: Standard, profile: Profile, findings: seq<FindingSubmission>, available: set<Uuid>,
                                          approved: set<string>)
    requires FindingsAccepted(standard, profile, findings, available, approved)
    ensures ResultsSay(standard, profile, findings, ResultsOf(standard, profile, findings))
  {
    hide ResultFor, ResultSays, FindingValid;
    var results := ResultsOf(standard, profile, findings);
    forall i | 0 <= i < |results| ensures FromFinding(standard, profile.checks[i], findings, results[i]) {
      var check := profile.checks[i];
      assert check in profile.checks && CheckAccepted(standard, check, findings, available, approved);
      assert CheckKey(check) in KeySet(profile.checks, CheckKey);
      assert CheckKey(check) in KeySet(findings, FindingKey);
      var g :| g in findings && FindingKey(g) == CheckKey(check);
      FindingIsThere(findings, check.checkId);
      ResultIsSaid(standard, check, FindingFor(findings, check.checkId));
      assert results[i] == ResultFor(standard, check, FindingFor(findings, check.checkId));
    }
  }

  // ── Dimensions and total ──

  const NAMES: seq<string> := [
    "capability_clarity", "interface_openness", "automation_readiness", "data_portability", "permission_risk", "evidence_quality",
    "ecosystem_fit"]

  ghost function PointsIn(results: seq<CheckResult>, dimension: string): real {
    if results == [] then 0.0
    else (if results[0].dimension == dimension then results[0].weightedPoints else 0.0) + PointsIn(results[1..], dimension)
  }

  // Not applicable checks weigh nothing.
  ghost function WeightIn(results: seq<CheckResult>, dimension: string): real {
    if results == [] then 0.0
    else (if results[0].dimension == dimension && results[0].finding != NotApplicable then results[0].weight else 0.0)
         + WeightIn(results[1..], dimension)
  }

  ghost predicate Plain(r: CheckResult) {
    (r.applicable <==> r.finding != NotApplicable) && (r.finding == NotApplicable ==> r.weightedPoints == 0.0)
  }

  lemma {:induction false} SumsAppend(results: seq<CheckResult>, last: CheckResult, d: string)
    ensures PointsIn(results + [last], d) == PointsIn(results, d) + PointsIn([last], d)
    ensures WeightIn(results + [last], d) == WeightIn(results, d) + WeightIn([last], d)
  {
    var all := results + [last];
    if results == [] {
      assert all == [last];
    } else {
      assert all[1..] == results[1..] + [last];
      SumsAppend(results[1..], last, d);
    }
  }

  lemma {:induction false} SumsAgree(results: seq<CheckResult>, d: string)
    requires forall r :: r in results ==> Plain(r)
    ensures Earned(results, d) == PointsIn(results, d) && Weight(results, d) == WeightIn(results, d)
  {
    if results != [] {
      var before, last := results[..|results| - 1], results[|results| - 1];
      assert results == before + [last] && Plain(last);
      SumsAgree(before, d);
      SumsAppend(before, last, d);
    }
  }

  // The score is five times the points over the weight, rounded down, and none without weight.
  ghost predicate DimensionSays(results: seq<CheckResult>, dimension: string, s: DimensionScore) {
    && s.earnedWeightedPoints == PointsIn(results, dimension) && s.applicableWeight == WeightIn(results, dimension)
    && (if s.applicableWeight == 0.0 then s.score == 0
        else s.score as real <= 5.0 * s.earnedWeightedPoints / s.applicableWeight < (s.score + 1) as real)
  }

  lemma {:induction false} FloorSays(earned: real, weight: real)
    requires 0.0 <= earned <= weight && weight > 0.0
    ensures var s := FinalScore(earned, weight); s as real <= 5.0 * earned / weight < (s + 1) as real
  {
    ScoreBounds(earned, weight);
    FloorBounds(5.0 * earned / weight);
  }

  lemma {:induction false} FloorBounds(q: real)
    ensures q.Floor as real <= q < (q.Floor + 1) as real
  {
  }

  lemma {:induction false} DimensionIsSaid(results: seq<CheckResult>, d: string)
    requires forall r :: r in results ==> Plain(r) && SoundResult(r)
    ensures DimensionSays(results, d, DimensionOf(results, d))
  {
    hide SoundResult, FinalScore;
    SumsAgree(results, d);
    SumsAreSound(results, d);
    if Weight(results, d) > 0.0 { FloorSays(Earned(results, d), Weight(results, d)); } else { NoScore(Earned(results, d)); }
  }

  lemma {:induction false} NoScore(earned: real)
    ensures FinalScore(earned, 0.0) == 0
  {
  }

  lemma {:induction false} SevenScores(scores: seq<DimensionScore>)
    requires |scores| == 7
    ensures SumScores(scores) ==
            scores[0].score + scores[1].score + scores[2].score + scores[3].score + scores[4].score + scores[5].score + scores[6].score
  {
    var s6, s5, s4, s3, s2, s1 := scores[..6], scores[..5], scores[..4], scores[..3], scores[..2], scores[..1];
    assert s6[..5] == s5 && s5[..4] == s4 && s4[..3] == s3 && s3[..2] == s2 && s2[..1] == s1 && s1[..0] == [];
    assert SumScores(s1) == scores[0].score;
    assert SumScores(s2) == SumScores(s1) + scores[1].score;
    assert SumScores(s3) == SumScores(s2) + scores[2].score;
    assert SumScores(s4) == SumScores(s3) + scores[3].score;
    assert SumScores(s5) == SumScores(s4) + scores[4].score;
    assert SumScores(s6) == SumScores(s5) + scores[5].score;
  }

  // The total is twenty times the seven scores over seven, rounded down.
  ghost predicate TotalSays(scores: seq<DimensionScore>, total: int) {
    && |scores| == 7
    && var sum :=
         scores[0].score + scores[1].score + scores[2].score + scores[3].score + scores[4].score + scores[5].score + scores[6].score;
       7 * total <= 20 * sum < 7 * (total + 1)
  }

  // ── Rating ──

  // As the standard lists them, from worst to best.
  ghost predicate AtMost(a: Rating, b: Rating) {
    exists i, j :: 0 <= i <= j < 5 && RATINGS[i] == RatingText(a) && RATINGS[j] == RatingText(b)
  }

  lemma {:induction false} RatingPlaces(r: Rating)
    ensures RATINGS[Rank(r)] == RatingText(r) && ParseRating(RatingText(r)) == Some(r)
  {
  }

  lemma {:induction false} RankIsOrder(a: Rating, b: Rating)
    ensures Rank(a) <= Rank(b) ==> AtMost(a, b)
  {
    RatingPlaces(a);
    RatingPlaces(b);
  }

  // The greatest threshold that a total reaches.
  ghost predicate Greatest(thresholds: seq<RatingThreshold>, total: int, t: RatingThreshold) {
    && t in thresholds && t.minimumTotalScore <= total
    && forall u :: u in thresholds && u.minimumTotalScore <= total ==> u.minimumTotalScore <= t.minimumTotalScore
  }

  // The rating of the greatest threshold that the total reaches.
  ghost predicate BaseSays(standard: Standard, total: int, base: Rating) {
    exists t :: Greatest(standard.thresholds, total, t) && t.rating == RatingText(base)
  }

  // What a high-risk check caps the rating at.
  ghost predicate Caps(standard: Standard, r: CheckResult, cap: Rating) {
    && r.highRisk
    && match r.finding
       case Partial => standard.caps.partial == RatingText(cap)
       case Fail => standard.caps.fail == RatingText(cap)
       case Unknown => standard.caps.unknown == RatingText(cap)
       case Pass => false
       case NotApplicable => false
  }

  ghost predicate RatingSays(standard: Standard, total: int, results: seq<CheckResult>, rating: Rating) {
    && (exists base :: BaseSays(standard, total, base) && AtMost(rating, base)
                       && (rating == base || exists r :: r in results && Caps(standard, r, rating)))
    && forall r, cap :: r in results && Caps(standard, r, cap) ==> AtMost(rating, cap)
  }

  lemma {:induction false} AscendingFar(thresholds: seq<RatingThreshold>, i: nat, j: nat)
    requires Ascending(thresholds) && i < j < |thresholds|
    ensures thresholds[i].minimumTotalScore < thresholds[j].minimumTotalScore
    decreases j
  {
    if i < j - 1 { AscendingFar(thresholds, i, j - 1); }
  }

  lemma {:induction false} LastReachedIsGreatest(thresholds: seq<RatingThreshold>, total: int)
    requires Ascending(thresholds) && LastReached(thresholds, total).Some?
    ensures var t := LastReached(thresholds, total).value;
            && t in thresholds && t.minimumTotalScore <= total
            && forall u :: u in thresholds && u.minimumTotalScore <= total ==> u.minimumTotalScore <= t.minimumTotalScore
  {
    var n := |thresholds| - 1;
    if thresholds[n].minimumTotalScore <= total {
      forall u | u in thresholds ensures u.minimumTotalScore <= thresholds[n].minimumTotalScore {
        var i :| 0 <= i < |thresholds| && thresholds[i] == u;
        if i < n { AscendingFar(thresholds, i, n); }
      }
    } else {
      LastReachedIsGreatest(thresholds[..n], total);
    }
  }

  lemma {:induction false} BaseIsSaid(standard: Standard, total: int)
    requires Ascending(standard.thresholds) && BaseRating(standard, total).Some?
    ensures BaseSays(standard, total, BaseRating(standard, total).value)
  {
    hide ParseRating, RatingText;
    LastReachedIsGreatest(standard.thresholds, total);
    ParsedText(LastReached(standard.thresholds, total).value.rating);
  }

  lemma {:induction false} ParsedText(s: string)
    ensures ParseRating(s).Some? ==> RatingText(ParseRating(s).value) == s
  {
  }

  lemma {:induction false} CapIsSaid(standard: Standard, r: CheckResult, cap: Rating)
    ensures Caps(standard, r, cap) <==> CapFor(standard, r).Some? && ParseRating(CapFor(standard, r).value) == Some(cap)
  {
    hide ParseRating, RatingText;
    RatingParses(cap);
    if CapFor(standard, r).Some? { ParsedText(CapFor(standard, r).value); }
  }

  lemma {:induction false} RatingParses(r: Rating)
    ensures ParseRating(RatingText(r)) == Some(r)
  {
  }

  lemma {:induction false} RatingIsSaid(standard: Standard, total: int, results: seq<CheckResult>)
    requires Ascending(standard.thresholds) && BaseRating(standard, total).Some?
    ensures RatingSays(standard, total, results, Capped(standard, BaseRating(standard, total).value, results))
  {
    hide Capped, BaseRating, BaseSays, Caps, CapFor, AtMost, Rank;
    var base := BaseRating(standard, total).value;
    var rating := Capped(standard, base, results);
    RatingIsMinimum(standard, base, results);
    BaseIsSaid(standard, total);
    RankIsOrder(rating, base);
    forall r, cap | r in results && Caps(standard, r, cap) ensures AtMost(rating, cap) {
      CapIsSaid(standard, r, cap);
      assert IsCap(standard, results, cap);
      RankIsOrder(rating, cap);
    }
    if rating != base {
      var r :| r in results && CapFor(standard, r).Some? && ParseRating(CapFor(standard, r).value) == Some(rating);
      CapIsSaid(standard, r, rating);
    }
  }

  // ── The whole record ──

  ghost predicate RecordSays(standard: Standard, profile: Profile, sub: Submission, r: CheckResults) {
    && r.boardVersion == sub.boardVersion
    && r.binding.standardId == standard.standardId && r.binding.standardVersion == standard.standardVersion
    && r.binding.profileId == profile.profileId && r.binding.profileVersion == profile.profileVersion
    && ResultsSay(standard, profile, sub.findings, r.results)
    && |r.dimensionScores| == 7
    && (forall d :: 0 <= d < 7 ==> DimensionSays(r.results, NAMES[d], r.dimensionScores[d]))
    && TotalSays(r.dimensionScores, r.totalScore)
    && RatingSays(standard, r.totalScore, r.results, r.rating)
  }

  lemma {:induction false} SaidIsPlain(standard: Standard, profile: Profile, findings: seq<FindingSubmission>, results: seq<CheckResult>)
    requires ResultsSay(standard, profile, findings, results)
    ensures forall r :: r in results ==> Plain(r)
  {
    hide RuleNamed;
    forall r | r in results ensures Plain(r) {
      var i :| 0 <= i < |results| && results[i] == r;
      var f :| f in findings && ResultSays(standard, profile.checks[i], f, r);
      if r.finding == NotApplicable {
        var rule :| RuleNamed(standard.scoringRules, profile.checks[i].scoringRuleId, rule) && PointsOf(rule, f.finding, r.rulePoints);
        assert r.weightedPoints == profile.checks[i].weight * 0.0;
      }
    }
  }

  lemma {:induction false} NamesAreDimensions()
    ensures NAMES == DIMENSIONS && |NAMES| == 7
  {
  }

  // For a catalogue that keeps the rules, the record of an accepted submission says this of the findings,
  // the profile and the standard: what each check earned, what each dimension and all of them come to, and
  // the rating.
  lemma {:induction false} ScoreSays(catalog: Catalog, binding: AuditBinding, sub: Submission, available: set<Uuid>, approved: set<string>,
                                     runId: Uuid, id: Uuid, now: int)
    requires LoadCatalog(catalog, binding).Some? && CatalogRules(catalog.standard, LoadCatalog(catalog, binding).value)
    requires ScoreOutcome(catalog, binding, sub, available, approved, runId, id, now).Some?
    ensures var r := ScoreOutcome(catalog, binding, sub, available, approved, runId, id, now).value;
            && RecordSays(catalog.standard, LoadCatalog(catalog, binding).value, sub, r)
            && r.runId == runId && r.checkResultsId == id && r.computedAt == now
  {
    hide CatalogRules, FindingsAccepted, ResultsOf, ResultsSay, DimensionOf, DimensionSays, SumScores, RatingSays, Capped, SoundResult,
         Plain, BaseRating, CapsParse, NAMES, DIMENSIONS, TotalSays, TotalScore;
    var standard, profile := catalog.standard, LoadCatalog(catalog, binding).value;
    var results := ResultsOf(standard, profile, sub.findings);
    ResultsAreSaid(standard, profile, sub.findings, available, approved);
    SaidIsPlain(standard, profile, sub.findings, results);
    ResultsAreSound(standard, profile, sub.findings);
    NamesAreDimensions();
    forall d | 0 <= d < 7 ensures DimensionSays(results, NAMES[d], DimensionScores(results)[d]) { DimensionIsSaid(results, NAMES[d]); }
    TotalIsSaid(standard, profile, sub.findings);
    RatingIsSaid(standard, TotalScore(DimensionScores(results)), results);
  }

  lemma {:induction false} TotalIsSaid(standard: Standard, profile: Profile, findings: seq<FindingSubmission>)
    requires CatalogRules(standard, profile)
    ensures var scores := DimensionScores(ResultsOf(standard, profile, findings)); TotalSays(scores, TotalScore(scores))
  {
    hide CatalogRules, ResultsOf, DimensionOf, SumScores, TotalScore;
    var scores := DimensionScores(ResultsOf(standard, profile, findings));
    TotalBounds(standard, profile, findings);
    SevenScores(scores);
  }

  // ── What is accepted ──

  // The profile that the binding names.
  ghost predicate Names(catalog: Catalog, binding: AuditBinding, profile: Profile) {
    && binding.standardId == "alethos-toolpassport" && binding.standardVersion == "0.3.0" && binding.profileVersion == "0.3.0"
    && binding.profileId in catalog.profiles && profile == catalog.profiles[binding.profileId]
  }

  lemma {:induction false} LoadsNamed(catalog: Catalog, binding: AuditBinding)
    ensures LoadCatalog(catalog, binding).Some? <==> exists profile :: Names(catalog, binding, profile)
    ensures forall profile :: Names(catalog, binding, profile) ==>
              && LoadCatalog(catalog, binding) == Some(profile)
              && BindingCheckIds(catalog, binding) == Some(set c | c in profile.checks :: c.checkId)
  {
    if LoadCatalog(catalog, binding).Some? { assert Names(catalog, binding, LoadCatalog(catalog, binding).value); }
  }

  // Findings say why, cite evidence of the board once each, and give a reason exactly when the check does
  // not apply; with an approval if the rule demands it.
  ghost predicate FindingAsked(f: FindingSubmission, rule: ScoringRule, available: set<Uuid>, approved: set<string>) {
    && !Spaces(f.rationale) && Listed(f.evidenceIds, available)
    && (f.finding == NotApplicable <==> f.notApplicableReason.Some?)
    && (f.notApplicableReason.Some? ==> !Spaces(f.notApplicableReason.value))
    && (f.finding == NotApplicable && rule.notApplicableRequiresApproval ==> f.checkId in approved)
  }

  // Asked of the finding by the rule of its check.
  ghost predicate Fits(standard: Standard, check: ProfileCheck, f: FindingSubmission, available: set<Uuid>, approved: set<string>) {
    forall rule :: RuleNamed(standard.scoringRules, check.scoringRuleId, rule) ==> FindingAsked(f, rule, available, approved)
  }

  ghost predicate HasFinding(findings: seq<FindingSubmission>, id: string) { exists f :: f in findings && f.checkId == id }
  ghost predicate HasCheck(checks: seq<ProfileCheck>, id: string) { exists c :: c in checks && c.checkId == id }

  // One finding for each check, none for anything else, and each as it is asked for.
  ghost predicate ScoreAsked(standard: Standard, profile: Profile, sub: Submission, available: set<Uuid>, approved: set<string>) {
    && sub.schemaVersion == "0.1.0" && 1 <= sub.boardVersion <= 9223372036854775807
    && (forall i, j :: 0 <= i < j < |sub.findings| ==> sub.findings[i].checkId != sub.findings[j].checkId)
    && (forall f :: f in sub.findings ==> HasCheck(profile.checks, f.checkId))
    && (forall c :: c in profile.checks ==> HasFinding(sub.findings, c.checkId))
    && (forall f, c :: f in sub.findings && c in profile.checks && f.checkId == c.checkId ==> Fits(standard, c, f, available, approved))
  }

  lemma {:induction false} NamedOnce(rules: seq<ScoringRule>, id: string, a: ScoringRule, b: ScoringRule)
    requires RuleNamed(rules, id, a) && RuleNamed(rules, id, b)
    ensures a == b
  {
    var i :| 0 <= i < |rules| && rules[i] == a && a.scoringRuleId == id && forall j :: i < j < |rules| ==> rules[j].scoringRuleId != id;
    var k :| 0 <= k < |rules| && rules[k] == b && b.scoringRuleId == id && forall j :: k < j < |rules| ==> rules[j].scoringRuleId != id;
    assert i == k;
  }

  lemma {:induction false} FindingIsAsked(f: FindingSubmission, available: set<Uuid>, approved: set<string>, rule: ScoringRule)
    ensures FindingValid(f, available, approved, rule) <==> FindingAsked(f, rule, available, approved)
  {
    hide RefsOk, Listed;
    RefsAreListed(f.evidenceIds, available);
    BlankIsSpaces(f.rationale);
    if f.notApplicableReason.Some? { BlankIsSpaces(f.notApplicableReason.value); }
  }

  ghost predicate SameIds(findings: seq<FindingSubmission>, checks: seq<ProfileCheck>) {
    && (forall f :: f in findings ==> HasCheck(checks, f.checkId))
    && (forall c :: c in checks ==> HasFinding(findings, c.checkId))
  }

  lemma {:induction false} SameIdsExactly(findings: seq<FindingSubmission>, checks: seq<ProfileCheck>)
    ensures SameIds(findings, checks) <==> KeySet(findings, FindingKey) == KeySet(checks, CheckKey)
  {
    if KeySet(findings, FindingKey) == KeySet(checks, CheckKey) {
      forall f | f in findings ensures HasCheck(checks, f.checkId) {
        assert FindingKey(f) in KeySet(checks, CheckKey);
        var c :| c in checks && CheckKey(c) == FindingKey(f);
      }
      forall c | c in checks ensures HasFinding(findings, c.checkId) {
        assert CheckKey(c) in KeySet(findings, FindingKey);
        var f :| f in findings && FindingKey(f) == CheckKey(c);
      }
    }
    if SameIds(findings, checks) {
      forall k ensures k in KeySet(findings, FindingKey) <==> k in KeySet(checks, CheckKey) {
        if f :| f in findings && FindingKey(f) == k {
          var c :| c in checks && c.checkId == f.checkId;
          assert CheckKey(c) == k;
        }
        if c :| c in checks && CheckKey(c) == k {
          var f :| f in findings && f.checkId == c.checkId;
          assert FindingKey(f) == k;
        }
      }
    }
  }

  // A submission is scored exactly when it is such a submission.
  lemma {:induction false} ScoreAcceptsExactly(catalog: Catalog, binding: AuditBinding, profile: Profile, sub: Submission,
                                               available: set<Uuid>, approved: set<string>, runId: Uuid, id: Uuid, now: int)
    requires Names(catalog, binding, profile) && CatalogRules(catalog.standard, profile)
    ensures ScoreOutcome(catalog, binding, sub, available, approved, runId, id, now).Some? <==>
            ScoreAsked(catalog.standard, profile, sub, available, approved)
  {
    hide CatalogRules, Fits, FindingValid, Accepts, KeySet, HasCheck, HasFinding;
    LoadsNamed(catalog, binding);
    AcceptsExactlyBijections(catalog, binding, sub, available, approved);
    SameIdsExactly(sub.findings, profile.checks);
    DistinctFindings(sub.findings);
    forall f, c | f in sub.findings && c in profile.checks
      ensures var rule := RuleFor(catalog.standard.scoringRules, c.scoringRuleId);
              rule.Some? && (FindingValid(f, available, approved, rule.value) <==> Fits(catalog.standard, c, f, available, approved))
    {
      ChecksHaveRules(catalog.standard, profile, c);
      FitsExactly(catalog.standard, c, f, available, approved);
    }
  }

  lemma {:induction false} FitsExactly(standard: Standard, check: ProfileCheck, f: FindingSubmission, available: set<Uuid>,
                                       approved: set<string>)
    requires RuleFor(standard.scoringRules, check.scoringRuleId).Some?
    ensures FindingValid(f, available, approved, RuleFor(standard.scoringRules, check.scoringRuleId).value) <==>
            Fits(standard, check, f, available, approved)
  {
    hide FindingAsked, FindingValid, RuleNamed;
    var rules, id := standard.scoringRules, check.scoringRuleId;
    var rule := RuleFor(rules, id).value;
    RuleIsNamed(rules, id);
    FindingIsAsked(f, available, approved, rule);
    forall r | RuleNamed(rules, id, r) ensures r == rule { NamedOnce(rules, id, r, rule); }
  }

  lemma {:induction false} ChecksHaveRules(standard: Standard, profile: Profile, c: ProfileCheck)
    requires CatalogRules(standard, profile) && c in profile.checks
    ensures RuleFor(standard.scoringRules, c.scoringRuleId).Some?
  {
  }

  lemma {:induction false} DistinctFindings(findings: seq<FindingSubmission>)
    ensures DistinctKeys(findings, FindingKey) <==> forall i, j :: 0 <= i < j < |findings| ==> findings[i].checkId != findings[j].checkId
  {
    if DistinctKeys(findings, FindingKey) {
      forall i, j | 0 <= i < j < |findings| ensures findings[i].checkId != findings[j].checkId {
        assert FindingKey(findings[i]) != FindingKey(findings[j]);
      }
    }
  }

  // ── What the shipped catalogue makes of it ──

  // Every dimension has a check.
  ghost predicate Covers(profile: Profile) {
    forall d :: 0 <= d < 7 ==> Checks(profile, NAMES[d])
  }

  ghost predicate Checks(profile: Profile, dimension: string) {
    exists i :: 0 <= i < |profile.checks| && profile.checks[i].dimension == dimension
  }

  ghost predicate AllAre(findings: seq<FindingSubmission>, finding: Finding) { forall f :: f in findings ==> f.finding == finding }

  // Every result earns all of its weight, or nothing.
  ghost predicate Earns(results: seq<CheckResult>, full: bool) {
    forall i :: 0 <= i < |results| ==>
      && results[i].finding != NotApplicable && results[i].weight > 0.0
      && results[i].weightedPoints == if full then results[i].weight else 0.0
  }

  ghost predicate Concerns(results: seq<CheckResult>, d: string) { exists i :: 0 <= i < |results| && results[i].dimension == d }

  lemma {:induction false} ShareOfWeight(results: seq<CheckResult>, d: string, full: bool)
    requires Earns(results, full)
    ensures PointsIn(results, d) == if full then WeightIn(results, d) else 0.0
    ensures WeightIn(results, d) >= 0.0 && (Concerns(results, d) ==> WeightIn(results, d) > 0.0)
  {
    if results != [] {
      var rest := results[1..];
      assert forall i :: 0 <= i < |rest| ==> rest[i] == results[i + 1];
      ShareOfWeight(rest, d, full);
      if Concerns(results, d) && results[0].dimension != d {
        var i :| 0 <= i < |results| && results[i].dimension == d;
        assert rest[i - 1].dimension == d;
      }
    }
  }

  lemma {:induction false} ScoreOfShare(results: seq<CheckResult>, d: string, full: bool, s: DimensionScore)
    requires Earns(results, full) && DimensionSays(results, d, s) && Concerns(results, d)
    ensures s.score == if full then 5 else 0
  {
    ShareOfWeight(results, d, full);
    if full { FullScore(s.applicableWeight); } else { EmptyScore(s.applicableWeight); }
  }

  lemma {:induction false} FullScore(w: real)
    requires w > 0.0
    ensures 5.0 * w / w == 5.0
  {
  }

  lemma {:induction false} EmptyScore(w: real)
    requires w > 0.0
    ensures 5.0 * 0.0 / w == 0.0
  {
  }

  // With the same finding for every check, every result earns the same share, if the rules agree on it.
  lemma {:induction false} SameFindingSameShare(standard: Standard, profile: Profile, sub: Submission, r: CheckResults, finding: Finding,
                                                full: bool)
    requires RecordSays(standard, profile, sub, r) && AllAre(sub.findings, finding) && finding != NotApplicable
    requires forall c :: c in profile.checks ==> c.weight > 0.0
    requires forall rule, p :: rule in standard.scoringRules && PointsOf(rule, finding, p) ==> p == if full then 1.0 else 0.0
    ensures Earns(r.results, full) && |r.results| == |profile.checks|
    ensures forall i :: 0 <= i < |r.results| ==> r.results[i].dimension == profile.checks[i].dimension && r.results[i].finding == finding
  {
    hide PointsOf, DimensionSays, TotalSays, RatingSays;
    forall i | 0 <= i < |r.results|
      ensures r.results[i].dimension == profile.checks[i].dimension && r.results[i].finding == finding && r.results[i].weight > 0.0
      ensures r.results[i].weightedPoints == if full then r.results[i].weight else 0.0
    {
      var result, check := r.results[i], profile.checks[i];
      assert FromFinding(standard, check, sub.findings, result);
      var f :| f in sub.findings && ResultSays(standard, check, f, result);
      var rule :| RuleNamed(standard.scoringRules, check.scoringRuleId, rule) && PointsOf(rule, f.finding, result.rulePoints);
      assert rule in standard.scoringRules && check in profile.checks;
      assert result.weight * 1.0 == result.weight && result.weight * 0.0 == 0.0;
    }
  }

  lemma {:induction false} TotalOfShare(standard: Standard, profile: Profile, sub: Submission, r: CheckResults, finding: Finding,
                                        full: bool)
    requires RecordSays(standard, profile, sub, r) && AllAre(sub.findings, finding) && finding != NotApplicable && Covers(profile)
    requires forall c :: c in profile.checks ==> c.weight > 0.0
    requires forall rule, p :: rule in standard.scoringRules && PointsOf(rule, finding, p) ==> p == if full then 1.0 else 0.0
    ensures r.totalScore == if full then 100 else 0
    ensures forall d :: 0 <= d < 7 ==> r.dimensionScores[d].score == if full then 5 else 0
    ensures forall x :: x in r.results ==> x.finding == finding
  {
    hide PointsOf, DimensionSays, RatingSays, ResultsSay, Earns;
    SameFindingSameShare(standard, profile, sub, r, finding, full);
    forall d | 0 <= d < 7 ensures r.dimensionScores[d].score == if full then 5 else 0 {
      assert Checks(profile, NAMES[d]);
      var i :| 0 <= i < |profile.checks| && profile.checks[i].dimension == NAMES[d];
      assert r.results[i].dimension == NAMES[d];
      ScoreOfShare(r.results, NAMES[d], full, r.dimensionScores[d]);
    }
  }

  predicate Shipped(profile: Profile) {
    profile == GENERIC || profile == AGENT_FRAMEWORK || profile == MCP_SERVER || profile == CLI_API_TOOL
  }

  lemma {:induction false} ShippedCovers(profile: Profile)
    requires Shipped(profile)
    ensures Covers(profile) && CatalogRules(STANDARD, profile)
  {
    hide CatalogRules;
    ShippedKeepsTheRules();
    if profile == GENERIC { GenericCovers(); }
    else if profile == AGENT_FRAMEWORK { AgentFrameworkCovers(); }
    else if profile == MCP_SERVER { McpServerCovers(); }
    else { CliApiToolCovers(); }
  }

  // Which check stands for each dimension.
  ghost predicate CoversAt(profile: Profile, at: seq<nat>) {
    |at| == 7 && forall d :: 0 <= d < 7 ==> at[d] < |profile.checks| && profile.checks[at[d]].dimension == NAMES[d]
  }

  lemma {:induction false} CoveredAt(profile: Profile, at: seq<nat>)
    requires CoversAt(profile, at)
    ensures Covers(profile)
  {
    forall d | 0 <= d < 7 ensures Checks(profile, NAMES[d]) {
      assert profile.checks[at[d]].dimension == NAMES[d];
    }
  }

  lemma {:induction false} GenericCovers()
    ensures Covers(GENERIC)
  {
    CoveredAt(GENERIC, [0, 1, 2, 3, 4, 5, 6]);
  }

  lemma {:induction false} AgentFrameworkCovers()
    ensures Covers(AGENT_FRAMEWORK)
  {
    CoveredAt(AGENT_FRAMEWORK, [0, 1, 2, 4, 5, 7, 8]);
  }

  lemma {:induction false} McpServerCovers()
    ensures Covers(MCP_SERVER)
  {
    CoveredAt(MCP_SERVER, [0, 1, 2, 4, 5, 7, 8]);
  }

  lemma {:induction false} CliApiToolCovers()
    ensures Covers(CLI_API_TOOL)
  {
    CoveredAt(CLI_API_TOOL, [0, 1, 2, 4, 5, 8, 9]);
  }

  lemma {:induction false} ShippedPoints()
    ensures forall rule, p :: rule in STANDARD.scoringRules && PointsOf(rule, Pass, p) ==> p == 1.0
    ensures forall rule, p :: rule in STANDARD.scoringRules && PointsOf(rule, Unknown, p) ==> p == 0.0
    ensures forall rule, p :: rule in STANDARD.scoringRules && PointsOf(rule, Fail, p) ==> p == 0.0
  {
  }

  lemma {:induction false} ShippedThreshold(total: int, t: RatingThreshold)
    requires Greatest(STANDARD.thresholds, total, t)
    ensures total >= 0
    ensures t == STANDARD.thresholds[
              if total >= 80 then 4 else if total >= 60 then 3 else if total >= 40 then 2 else if total >= 20 then 1 else 0]
  {
    var ts := STANDARD.thresholds;
    var i :| 0 <= i < 5 && ts[i] == t;
    assert ts[0] in ts && ts[1] in ts && ts[2] in ts && ts[3] in ts && ts[4] in ts;
    assert ts[0].minimumTotalScore == 0 && ts[1].minimumTotalScore == 20 && ts[2].minimumTotalScore == 40;
    assert ts[3].minimumTotalScore == 60 && ts[4].minimumTotalScore == 80;
    assert i == 0 || i == 1 || i == 2 || i == 3 || i == 4;
  }

  lemma {:induction false} SameText(a: Rating, b: Rating)
    requires RatingText(a) == RatingText(b)
    ensures a == b
  {
    hide RatingText;
    RatingParses(a);
    RatingParses(b);
  }

  lemma {:induction false} ShippedTexts()
    ensures var ts := STANDARD.thresholds;
            && ts[0].rating == RatingText(NotRecommended) && ts[1].rating == RatingText(ManualOnly) && ts[2].rating == RatingText(Trial)
            && ts[3].rating == RatingText(LowRisk) && ts[4].rating == RatingText(CoreCandidate)
  {
  }

  lemma {:induction false} ShippedBase(total: int, base: Rating)
    requires BaseSays(STANDARD, total, base)
    ensures base == if total >= 80 then CoreCandidate else if total >= 60 then LowRisk else if total >= 40 then Trial
                    else if total >= 20 then ManualOnly else NotRecommended
  {
    hide RatingText, STANDARD;
    var t :| Greatest(STANDARD.thresholds, total, t) && t.rating == RatingText(base);
    ShippedThreshold(total, t);
    ShippedTexts();
    SameText(base, if total >= 80 then CoreCandidate else if total >= 60 then LowRisk else if total >= 40 then Trial
                   else if total >= 20 then ManualOnly else NotRecommended);
  }

  lemma {:induction false} AtMostRanks(a: Rating, b: Rating)
    requires AtMost(a, b)
    ensures b == NotRecommended ==> a == NotRecommended
    ensures b == ManualOnly ==> a == ManualOnly || a == NotRecommended
    ensures b == Trial ==> a == Trial || a == ManualOnly || a == NotRecommended
  {
    var i, j :| 0 <= i <= j < 5 && RATINGS[i] == RatingText(a) && RATINGS[j] == RatingText(b);
    RatingParses(a);
    RatingParses(b);
    assert i == 0 || i == 1 || i == 2 || i == 3 || i == 4;
    assert j == 0 || j == 1 || j == 2 || j == 3 || j == 4;
  }

  // With the shipped standard and any of its profiles: nothing but passes is a full score and a core
  // candidate, nothing but unknowns or fails is no score and not recommended; and whatever the rest, a
  // high-risk check that fails is not recommended, one that is unknown is for manual use at most, and one
  // that is partial for trial at most.
  lemma {:induction false} ShippedScores(profile: Profile, sub: Submission, r: CheckResults)
    requires Shipped(profile) && RecordSays(STANDARD, profile, sub, r)
    ensures AllAre(sub.findings, Pass) ==> r.totalScore == 100 && r.rating == CoreCandidate
    ensures AllAre(sub.findings, Unknown) || AllAre(sub.findings, Fail) ==> r.totalScore == 0 && r.rating == NotRecommended
    ensures (exists x :: x in r.results && x.highRisk && x.finding == Fail) ==> r.rating == NotRecommended
    ensures (exists x :: x in r.results && x.highRisk && x.finding == Unknown) ==> r.rating == ManualOnly || r.rating == NotRecommended
    ensures (exists x :: x in r.results && x.highRisk && x.finding == Partial) ==>
              r.rating == Trial || r.rating == ManualOnly || r.rating == NotRecommended
  {
    hide PointsOf, DimensionSays, ResultsSay, BaseSays, AtMost, TotalSays, Covers, CatalogRules, RecordSays, STANDARD, Shipped;
    ShippedCovers(profile);
    ShippedPoints();
    WeightsArePositive(profile);
    if AllAre(sub.findings, Pass) { TotalOfShare(STANDARD, profile, sub, r, Pass, true); }
    if AllAre(sub.findings, Unknown) { TotalOfShare(STANDARD, profile, sub, r, Unknown, false); }
    if AllAre(sub.findings, Fail) { TotalOfShare(STANDARD, profile, sub, r, Fail, false); }
    ShippedRating(profile, sub, r);
  }

  lemma {:induction false} WeightsArePositive(profile: Profile)
    requires CatalogRules(STANDARD, profile)
    ensures forall c :: c in profile.checks ==> c.weight > 0.0
  {
  }

  lemma {:induction false} ShippedRating(profile: Profile, sub: Submission, r: CheckResults)
    requires RecordSays(STANDARD, profile, sub, r)
    ensures r.totalScore >= 80 && (forall x :: x in r.results ==> x.finding == Pass) ==> r.rating == CoreCandidate
    ensures 0 <= r.totalScore < 20 ==> r.rating == NotRecommended
    ensures (exists x :: x in r.results && x.highRisk && x.finding == Fail) ==> r.rating == NotRecommended
    ensures (exists x :: x in r.results && x.highRisk && x.finding == Unknown) ==> r.rating == ManualOnly || r.rating == NotRecommended
    ensures (exists x :: x in r.results && x.highRisk && x.finding == Partial) ==>
              r.rating == Trial || r.rating == ManualOnly || r.rating == NotRecommended
  {
    hide DimensionSays, ResultsSay, BaseSays, AtMost, TotalSays;
    var base :| BaseSays(STANDARD, r.totalScore, base) && AtMost(r.rating, base)
                && (r.rating == base || exists x :: x in r.results && Caps(STANDARD, x, r.rating));
    ShippedBase(r.totalScore, base);
    AtMostRanks(r.rating, base);
    if x :| x in r.results && x.highRisk && x.finding == Fail {
      assert Caps(STANDARD, x, NotRecommended);
      AtMostRanks(r.rating, NotRecommended);
    }
    if x :| x in r.results && x.highRisk && x.finding == Unknown {
      assert Caps(STANDARD, x, ManualOnly);
      AtMostRanks(r.rating, ManualOnly);
    }
    if x :| x in r.results && x.highRisk && x.finding == Partial {
      assert Caps(STANDARD, x, Trial);
      AtMostRanks(r.rating, Trial);
    }
  }
}
