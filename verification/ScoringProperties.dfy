/** What scoring guarantees for a catalogue that passes the catalogue validator. */
module ScoringProperties {
  import opened Wrappers
  import opened Domain
  import opened Sorting
  import opened EvidenceFreeze
  import opened Scoring

  // ── The catalogue rules (scripts/validate_audit_catalog.py and the schemas it loads) ──

  const RATINGS: seq<string> := ["not_recommended", "manual_only", "trial", "low_risk", "core_candidate"]

  predicate PointsInRange(p: FindingPoints) {
    0.0 <= p.pass <= 1.0 && 0.0 <= p.partial <= 1.0 && 0.0 <= p.fail <= 1.0 && p.unknown == 0.0
  }

  predicate RatingPolicyOk(standard: Standard) {
    && |standard.thresholds| == 5
    && standard.thresholds[0].minimumTotalScore == 0
    && Ascending(standard.thresholds)
    && (forall i :: 0 <= i < 5 ==> standard.thresholds[i].rating == RATINGS[i])
    && standard.caps.fail in RATINGS && standard.caps.unknown in RATINGS && standard.caps.partial in RATINGS
  }

  ghost predicate CatalogRules(standard: Standard, profile: Profile) {
    && profile.standardId == standard.standardId && profile.standardVersion == standard.standardVersion
    && RatingPolicyOk(standard)
    && (forall rule :: rule in standard.scoringRules ==> PointsInRange(rule.findingPoints))
    && (forall d :: d in standard.dimensions ==> d in DIMENSIONS)
    && DistinctKeys(profile.checks, CheckKey)
    && (forall c :: c in profile.checks ==>
          c.weight > 0.0 && c.dimension in standard.dimensions && RuleFor(standard.scoringRules, c.scoringRuleId).Some?)
  }

  lemma {:induction false} RuleForMember(rules: seq<ScoringRule>, id: string)
    requires RuleFor(rules, id).Some?
    ensures RuleFor(rules, id).value in rules
  {
    if rules[|rules| - 1].scoringRuleId != id { RuleForMember(rules[..|rules| - 1], id); }
  }

  lemma {:induction false} RatingsParse(s: string)
    requires s in RATINGS
    ensures ParseRating(s).Some?
  {
    var i :| 0 <= i < 5 && RATINGS[i] == s;
    assert i == 0 || i == 1 || i == 2 || i == 3 || i == 4;
  }

  lemma {:induction false} LastReachedFound(thresholds: seq<RatingThreshold>, total: int)
    requires thresholds != [] && thresholds[0].minimumTotalScore <= total
    ensures LastReached(thresholds, total).Some? && LastReached(thresholds, total).value in thresholds
  {
    if thresholds[|thresholds| - 1].minimumTotalScore > total { LastReachedFound(thresholds[..|thresholds| - 1], total); }
  }

  lemma {:induction false} PolicyResolves(standard: Standard, total: int, results: seq<CheckResult>)
    requires RatingPolicyOk(standard) && total >= 0
    ensures BaseRating(standard, total).Some?
    ensures CapsParse(standard, results)
  {
    LastReachedFound(standard.thresholds, total);
    var t := LastReached(standard.thresholds, total).value;
    var i :| 0 <= i < 5 && standard.thresholds[i] == t;
    RatingsParse(t.rating);
    forall r | r in results && CapFor(standard, r).Some? ensures ParseRating(CapFor(standard, r).value).Some? {
      RatingsParse(CapFor(standard, r).value);
    }
  }

  lemma {:induction false} ScoresNonNegative(scores: seq<DimensionScore>)
    requires forall s :: s in scores ==> 0 <= s.score
    ensures 0 <= SumScores(scores)
  {
    if scores != [] { ScoresNonNegative(scores[..|scores| - 1]); }
  }

  // For a catalogue that keeps the rules, whatever is submitted is never answered with an invalid-catalogue error.
  lemma {:induction false} NeverInvalidCatalog(catalog: Catalog, binding: AuditBinding, findings: seq<FindingSubmission>)
    requires LoadCatalog(catalog, binding).Some? && CatalogRules(catalog.standard, LoadCatalog(catalog, binding).value)
    ensures !CatalogFault(catalog, binding, findings)
  {
    var results := ResultsOf(catalog.standard, LoadCatalog(catalog, binding).value, findings);
    ScoresNonNegative(DimensionScores(results));
    PolicyResolves(catalog.standard, TotalScore(DimensionScores(results)), results);
  }

  // Scoring succeeds exactly when the header is valid, the findings are a bijection onto the profile's
  // checks, and each finding is valid for the rule of its check.
  lemma {:induction false} AcceptsExactlyBijections(catalog: Catalog, binding: AuditBinding, sub: Submission, available: set<Uuid>,
                                                    approved: set<string>)
    requires LoadCatalog(catalog, binding).Some? && CatalogRules(catalog.standard, LoadCatalog(catalog, binding).value)
    ensures var profile := LoadCatalog(catalog, binding).value;
            Accepts(catalog, binding, sub, available, approved) <==>
              && HeaderAccepted(sub)
              && DistinctKeys(sub.findings, FindingKey)
              && KeySet(sub.findings, FindingKey) == KeySet(profile.checks, CheckKey)
              && (forall f, c :: f in sub.findings && c in profile.checks && f.checkId == c.checkId ==>
                    FindingValid(f, available, approved, RuleFor(catalog.standard.scoringRules, c.scoringRuleId).value))
  {
    var standard, profile := catalog.standard, LoadCatalog(catalog, binding).value;
    NeverInvalidCatalog(catalog, binding, sub.findings);
    if DistinctKeys(sub.findings, FindingKey) && KeySet(sub.findings, FindingKey) == KeySet(profile.checks, CheckKey) {
      forall f | f in sub.findings ensures FindingFor(sub.findings, f.checkId) == f {
        var i :| 0 <= i < |sub.findings| && sub.findings[i] == f;
        FindingForMember(sub.findings, i);
      }
      forall c | c in profile.checks ensures FindingFor(sub.findings, c.checkId) in sub.findings
          && FindingFor(sub.findings, c.checkId).checkId == c.checkId {
        assert CheckKey(c) in KeySet(profile.checks, CheckKey);
        var f :| f in sub.findings && FindingKey(f) == c.checkId;
      }
    }
  }

  // ── Order of the findings ──

  lemma {:induction false} FindingForIgnoresOrder(a: seq<FindingSubmission>, b: seq<FindingSubmission>, id: string)
    requires multiset(a) == multiset(b) && DistinctKeys(a, FindingKey)
    ensures FindingFor(a, id) == FindingFor(b, id)
  {
    SameElements(a, b);
    DistinctIgnoresOrder(a, b, FindingKey);
    if f :| f in a && f.checkId == id {
      var i :| 0 <= i < |a| && a[i] == f;
      var j :| 0 <= j < |b| && b[j] == f;
      FindingForMember(a, i);
      FindingForMember(b, j);
    } else {
      FindingForAbsent(a, id);
      FindingForAbsent(b, id);
    }
  }

  lemma {:induction false} FindingForAbsent(findings: seq<FindingSubmission>, id: string)
    requires forall f :: f in findings ==> f.checkId != id
    ensures FindingFor(findings, id) == FindingSubmission(id, Unknown, "", [], None)
  {
    if findings != [] {
      assert findings[0] in findings;
      FindingForAbsent(findings[1..], id);
    }
  }

  // Any permutation of the findings gives the same outcome, results in profile order included.
  lemma {:induction false} ScoringIgnoresOrder(catalog: Catalog, binding: AuditBinding, a: Submission, b: Submission, available: set<Uuid>,
                                               approved: set<string>, runId: Uuid, id: Uuid, now: int)
    requires a.schemaVersion == b.schemaVersion && a.boardVersion == b.boardVersion && multiset(a.findings) == multiset(b.findings)
    ensures ScoreOutcome(catalog, binding, a, available, approved, runId, id, now) ==
            ScoreOutcome(catalog, binding, b, available, approved, runId, id, now)
  {
    SameElements(a.findings, b.findings);
    DistinctIgnoresOrder(a.findings, b.findings, FindingKey);
    assert KeySet(a.findings, FindingKey) == KeySet(b.findings, FindingKey);
    if LoadCatalog(catalog, binding).Some? && DistinctKeys(a.findings, FindingKey) {
      var profile := LoadCatalog(catalog, binding).value;
      forall c | c in profile.checks ensures FindingFor(a.findings, c.checkId) == FindingFor(b.findings, c.checkId) {
        FindingForIgnoresOrder(a.findings, b.findings, c.checkId);
      }
      assert ResultsOf(catalog.standard, profile, a.findings) == ResultsOf(catalog.standard, profile, b.findings);
    }
  }

  // ── Bounds ──

  // What the rules give for one result: its points lie between none and its weight.
  predicate SoundResult(r: CheckResult) {
    r.applicable ==> r.weight > 0.0 && 0.0 <= r.weightedPoints <= r.weight
  }

  lemma {:induction false} ScaleBounds(w: real, p: real, scaled: real)
    requires 0.0 <= p <= 1.0 && w > 0.0 && scaled == w * p
    ensures 0.0 <= scaled <= w
  {
    assert w - w * p == w * (1.0 - p);
  }

  lemma {:induction false} ResultIsSound(standard: Standard, profile: Profile, check: ProfileCheck, f: FindingSubmission)
    requires CatalogRules(standard, profile) && check in profile.checks
    ensures SoundResult(ResultFor(standard, check, f))
  {
    RuleForMember(standard.scoringRules, check.scoringRuleId);
    var rule := RuleFor(standard.scoringRules, check.scoringRuleId).value;
    assert PointsInRange(rule.findingPoints);
    var r := ResultFor(standard, check, f);
    if r.applicable {
      ScaleBounds(check.weight, r.rulePoints, r.weightedPoints);
    }
  }

  lemma {:induction false} SumsAreSound(results: seq<CheckResult>, d: string)
    requires forall r :: r in results ==> SoundResult(r)
    ensures 0.0 <= Earned(results, d) <= Weight(results, d)
  {
    if results != [] {
      assert results[|results| - 1] in results;
      SumsAreSound(results[..|results| - 1], d);
    }
  }

  lemma {:induction false} DivideMonotone(x: real, y: real, w: real)
    requires x <= y && w > 0.0
    ensures x / w <= y / w
  {
    var p, q := x / w, y / w;
    assert p * w == x && q * w == y;
    assert (q - p) * w == y - x;
  }

  lemma {:induction false} QuotientBounds(earned: real, weight: real)
    requires 0.0 <= earned <= weight && weight > 0.0
    ensures 0.0 <= 5.0 * earned / weight <= 5.0
  {
    DivideMonotone(0.0, 5.0 * earned, weight);
    DivideMonotone(5.0 * earned, 5.0 * weight, weight);
    assert 0.0 / weight == 0.0;
    assert 5.0 * weight / weight == 5.0;
  }

  lemma {:induction false} ScoreBounds(earned: real, weight: real)
    requires 0.0 <= earned <= weight
    ensures 0 <= FinalScore(earned, weight) <= 5
    ensures weight > 0.0 ==> FinalScore(earned, weight) == (5.0 * earned / weight).Floor
  {
    if weight > 0.0 { QuotientBounds(earned, weight); }
  }

  lemma {:induction false} SumBounds(scores: seq<DimensionScore>)
    requires forall s :: s in scores ==> 0 <= s.score <= 5
    ensures 0 <= SumScores(scores) <= 5 * |scores|
    ensures SumScores(scores) == 5 * |scores| <==> forall s :: s in scores ==> s.score == 5
  {
    if scores != [] {
      var n := |scores| - 1;
      SumBounds(scores[..n]);
      assert scores[n] in scores;
      assert scores == scores[..n] + [scores[n]];
    }
  }

  lemma {:induction false} ResultsAreSound(standard: Standard, profile: Profile, findings: seq<FindingSubmission>)
    requires CatalogRules(standard, profile)
    ensures forall r :: r in ResultsOf(standard, profile, findings) ==> SoundResult(r)
  {
    var results := ResultsOf(standard, profile, findings);
    forall r | r in results ensures SoundResult(r) {
      var i :| 0 <= i < |results| && results[i] == r;
      ResultIsSound(standard, profile, profile.checks[i], FindingFor(findings, profile.checks[i].checkId));
    }
  }

  lemma {:induction false} DimensionBounds(results: seq<CheckResult>)
    requires forall r :: r in results ==> SoundResult(r)
    ensures forall d :: 0 <= d < 7 ==> 0 <= DimensionScores(results)[d].score <= 5
  {
    forall d | 0 <= d < 7 ensures 0 <= DimensionScores(results)[d].score <= 5 {
      SumsAreSound(results, DIMENSIONS[d]);
      ScoreBounds(Earned(results, DIMENSIONS[d]), Weight(results, DIMENSIONS[d]));
    }
  }

  // Each dimension scores 0..5, the total is the floor of 20/7 of their sum and at most 100 with no
  // overflow on the way, and it is 100 exactly when every dimension scores 5.
  lemma {:induction false} TotalBounds(standard: Standard, profile: Profile, findings: seq<FindingSubmission>)
    requires CatalogRules(standard, profile)
    ensures var scores := DimensionScores(ResultsOf(standard, profile, findings));
            && (forall d :: 0 <= d < 7 ==> 0 <= scores[d].score <= 5)
            && SumScores(scores) * 20 <= 65535
            && TotalScore(scores) == SumScores(scores) * 20 / 7
            && 0 <= TotalScore(scores) <= 100
            && (TotalScore(scores) == 100 <==> forall d :: 0 <= d < 7 ==> scores[d].score == 5)
  {
    hide CatalogRules, ResultsOf, DimensionOf, SoundResult, SumScores;
    var results := ResultsOf(standard, profile, findings);
    ResultsAreSound(standard, profile, findings);
    DimensionBounds(results);
    SumBounds(DimensionScores(results));
  }

  // ── The final rating ──

  ghost predicate IsCap(standard: Standard, results: seq<CheckResult>, cap: Rating) {
    exists r :: r in results && CapFor(standard, r).Some? && ParseRating(CapFor(standard, r).value) == Some(cap)
  }

  // The final rating is the minimum of the base rating and every triggered cap. As the minimum of
  // a set is unique, the order of the results cannot matter.
  lemma {:induction false} RatingIsMinimum(standard: Standard, base: Rating, results: seq<CheckResult>)
    ensures var final := Capped(standard, base, results);
            && Rank(final) <= Rank(base)
            && (forall cap :: IsCap(standard, results, cap) ==> Rank(final) <= Rank(cap))
            && (final == base || IsCap(standard, results, final))
  {
    if results != [] {
      var n := |results| - 1;
      var last := results[n];
      RatingIsMinimum(standard, base, results[..n]);
      assert results == results[..n] + [last];
      assert last in results;
      forall cap | IsCap(standard, results, cap) ensures Rank(Capped(standard, base, results)) <= Rank(cap) {
        var r :| r in results && CapFor(standard, r).Some? && ParseRating(CapFor(standard, r).value) == Some(cap);
        if r != last { assert r in results[..n] && IsCap(standard, results[..n], cap); }
      }
    }
  }

  // ── Monotonicity ──

  function CapRank(standard: Standard, r: CheckResult): int {
    match CapFor(standard, r)
    case Some(text) => (match ParseRating(text) case Some(cap) => Rank(cap) case None => 5)
    case None => 5
  }

  // The second finding for the same check earns no less and is capped no more strictly.
  predicate NoWorse(standard: Standard, a: CheckResult, b: CheckResult) {
    && a.checkId == b.checkId && a.dimension == b.dimension && a.weight == b.weight
    && a.applicable == b.applicable
    && (a.applicable ==> a.weightedPoints <= b.weightedPoints)
    && CapRank(standard, a) <= CapRank(standard, b)
  }

  predicate AllNoWorse(standard: Standard, a: seq<CheckResult>, b: seq<CheckResult>) {
    |a| == |b| && forall i :: 0 <= i < |a| ==> NoWorse(standard, a[i], b[i])
  }

  lemma {:induction false} SumsMonotone(standard: Standard, a: seq<CheckResult>, b: seq<CheckResult>, d: string)
    requires AllNoWorse(standard, a, b)
    ensures Earned(a, d) <= Earned(b, d) && Weight(a, d) == Weight(b, d)
  {
    if a != [] {
      var n := |a| - 1;
      assert NoWorse(standard, a[n], b[n]);
      SumsMonotone(standard, a[..n], b[..n], d);
    }
  }

  lemma {:induction false} ScoreMonotone(e1: real, e2: real, weight: real)
    requires 0.0 <= e1 <= e2 <= weight
    ensures FinalScore(e1, weight) <= FinalScore(e2, weight)
  {
    if weight > 0.0 {
      QuotientBounds(e1, weight);
      QuotientBounds(e2, weight);
      DivideMonotone(5.0 * e1, 5.0 * e2, weight);
    }
  }

  lemma {:induction false} SumScoresMonotone(a: seq<DimensionScore>, b: seq<DimensionScore>)
    requires |a| == |b| && forall i :: 0 <= i < |a| ==> a[i].score <= b[i].score
    ensures SumScores(a) <= SumScores(b)
  {
    if a != [] { SumScoresMonotone(a[..|a| - 1], b[..|b| - 1]); }
  }

  // With ascending thresholds, a larger total reaches at least as far down the list.
  lemma {:induction false} LastReachedIndex(thresholds: seq<RatingThreshold>, total: int) returns (i: nat)
    requires thresholds != [] && thresholds[0].minimumTotalScore <= total
    ensures i < |thresholds| && LastReached(thresholds, total) == Some(thresholds[i]) && thresholds[i].minimumTotalScore <= total
    ensures forall j :: i < j < |thresholds| ==> thresholds[j].minimumTotalScore > total
  {
    var n := |thresholds| - 1;
    if thresholds[n].minimumTotalScore <= total {
      i := n;
    } else {
      i := LastReachedIndex(thresholds[..n], total);
    }
  }

  lemma {:induction false} BaseRatingMonotone(standard: Standard, t1: int, t2: int)
    requires RatingPolicyOk(standard) && 0 <= t1 <= t2
    ensures BaseRating(standard, t1).Some? && BaseRating(standard, t2).Some?
    ensures Rank(BaseRating(standard, t1).value) <= Rank(BaseRating(standard, t2).value)
  {
    var i := LastReachedIndex(standard.thresholds, t1);
    var j := LastReachedIndex(standard.thresholds, t2);
    assert i <= j;
    RatingsAscend(i);
    RatingsAscend(j);
  }

  lemma {:induction false} RatingsAscend(i: nat)
    requires i < 5
    ensures ParseRating(RATINGS[i]).Some? && Rank(ParseRating(RATINGS[i]).value) == i
  {
    assert i == 0 || i == 1 || i == 2 || i == 3 || i == 4;
  }

  lemma {:induction false} CappedMonotone(standard: Standard, base1: Rating, base2: Rating, a: seq<CheckResult>, b: seq<CheckResult>)
    requires AllNoWorse(standard, a, b) && Rank(base1) <= Rank(base2)
    ensures Rank(Capped(standard, base1, a)) <= Rank(Capped(standard, base2, b))
  {
    if a != [] {
      var n := |a| - 1;
      assert NoWorse(standard, a[n], b[n]);
      CappedMonotone(standard, base1, base2, a[..n], b[..n]);
    }
  }

  // Replacing findings by ones that earn no less and are capped no more strictly never lowers a
  // dimension score, the total or the final rating.
  lemma {:induction false} ScoringIsMonotone(standard: Standard, profile: Profile, a: seq<FindingSubmission>, b: seq<FindingSubmission>)
    requires CatalogRules(standard, profile)
    requires AllNoWorse(standard, ResultsOf(standard, profile, a), ResultsOf(standard, profile, b))
    ensures var ra, rb := ResultsOf(standard, profile, a), ResultsOf(standard, profile, b);
            var sa, sb := DimensionScores(ra), DimensionScores(rb);
            && (forall d :: 0 <= d < 7 ==> sa[d].score <= sb[d].score)
            && TotalScore(sa) <= TotalScore(sb)
            && BaseRating(standard, TotalScore(sa)).Some? && BaseRating(standard, TotalScore(sb)).Some?
            && Rank(Capped(standard, BaseRating(standard, TotalScore(sa)).value, ra))
               <= Rank(Capped(standard, BaseRating(standard, TotalScore(sb)).value, rb))
  {
    var ra, rb := ResultsOf(standard, profile, a), ResultsOf(standard, profile, b);
    var sa, sb := DimensionScores(ra), DimensionScores(rb);
    TotalBounds(standard, profile, a);
    TotalBounds(standard, profile, b);
    ResultsAreSound(standard, profile, a);
    ResultsAreSound(standard, profile, b);
    forall d | 0 <= d < 7 ensures sa[d].score <= sb[d].score {
      SumsMonotone(standard, ra, rb, DIMENSIONS[d]);
      SumsAreSound(ra, DIMENSIONS[d]);
      SumsAreSound(rb, DIMENSIONS[d]);
      ScoreMonotone(Earned(ra, DIMENSIONS[d]), Earned(rb, DIMENSIONS[d]), Weight(ra, DIMENSIONS[d]));
    }
    SumScoresMonotone(sa, sb);
    BaseRatingMonotone(standard, TotalScore(sa), TotalScore(sb));
    CappedMonotone(standard, BaseRating(standard, TotalScore(sa)).value, BaseRating(standard, TotalScore(sb)).value, ra, rb);
  }

  // ── Replacing one finding ──

  lemma {:induction false} FindingForReplaced(a: seq<FindingSubmission>, i: nat, f: FindingSubmission, id: string)
    requires i < |a| && DistinctKeys(a, FindingKey) && f.checkId == a[i].checkId
    ensures FindingFor(a[i := f], id) == if id == f.checkId then f else FindingFor(a, id)
  {
    var b := a[i := f];
    assert DistinctKeys(b, FindingKey);
    if id == f.checkId {
      FindingForMember(b, i);
    } else if k :| 0 <= k < |a| && a[k].checkId == id {
      assert b[k] == a[k];
      FindingForMember(a, k);
      FindingForMember(b, k);
    } else {
      forall g | g in b ensures g.checkId != id {
        var k :| 0 <= k < |b| && b[k] == g;
        if k != i { assert a[k] == g; }
      }
      FindingForAbsent(a, id);
      FindingForAbsent(b, id);
    }
  }

  // One finding replaced by one that earns no less and is capped no more strictly, under the check it
  // answers: no dimension score, nor the total, nor the rating is lowered.
  lemma {:induction false} BetterFindingNeverHurts(standard: Standard, profile: Profile, a: seq<FindingSubmission>, i: nat,
                                                   f: FindingSubmission)
    requires CatalogRules(standard, profile) && i < |a| && DistinctKeys(a, FindingKey) && f.checkId == a[i].checkId
    requires forall c :: c in profile.checks && c.checkId == f.checkId ==>
               NoWorse(standard, ResultFor(standard, c, a[i]), ResultFor(standard, c, f))
    ensures var ra, rb := ResultsOf(standard, profile, a), ResultsOf(standard, profile, a[i := f]);
            var sa, sb := DimensionScores(ra), DimensionScores(rb);
            && (forall d :: 0 <= d < 7 ==> sa[d].score <= sb[d].score)
            && TotalScore(sa) <= TotalScore(sb)
            && BaseRating(standard, TotalScore(sa)).Some? && BaseRating(standard, TotalScore(sb)).Some?
            && Rank(Capped(standard, BaseRating(standard, TotalScore(sa)).value, ra))
               <= Rank(Capped(standard, BaseRating(standard, TotalScore(sb)).value, rb))
  {
    hide NoWorse, CatalogRules, ResultFor, DimensionScores, TotalScore, BaseRating, Capped;
    var b := a[i := f];
    var ra, rb := ResultsOf(standard, profile, a), ResultsOf(standard, profile, b);
    forall k | 0 <= k < |profile.checks| ensures NoWorse(standard, ra[k], rb[k]) {
      var c := profile.checks[k];
      FindingForReplaced(a, i, f, c.checkId);
      FindingForMember(a, i);
      assert c in profile.checks;
      if c.checkId != f.checkId { NoWorseReflexive(standard, ra[k]); }
    }
    ScoringIsMonotone(standard, profile, a, b);
  }

  lemma {:induction false} NoWorseReflexive(standard: Standard, r: CheckResult)
    ensures NoWorse(standard, r, r)
  {
  }

  // ── Closed not-applicable ──

  predicate ApprovalForNotApplicable(standard: Standard) {
    forall rule :: rule in standard.scoringRules ==> rule.notApplicableRequiresApproval
  }

  // The service approves no not-applicable finding, so where every rule demands approval an accepted
  // submission answers every check with an applicable finding.
  lemma {:induction false} NotApplicableIsClosed(catalog: Catalog, binding: AuditBinding, sub: Submission, available: set<Uuid>)
    requires ApprovalForNotApplicable(catalog.standard) && Accepts(catalog, binding, sub, available, {})
    ensures forall r :: r in ResultsOf(catalog.standard, LoadCatalog(catalog, binding).value, sub.findings) ==> r.applicable
  {
    hide BaseRating, TotalScore, DimensionScores, CapsParse, CatalogBinds, RefsOk, Blank;
    var standard, profile := catalog.standard, LoadCatalog(catalog, binding).value;
    var results := ResultsOf(standard, profile, sub.findings);
    forall r | r in results ensures r.applicable {
      var i :| 0 <= i < |results| && results[i] == r;
      var check := profile.checks[i];
      assert check in profile.checks && CheckAccepted(standard, check, sub.findings, available, {});
      RuleForMember(standard.scoringRules, check.scoringRuleId);
    }
  }
}
