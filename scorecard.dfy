/**
 * The data-quality scorecard: an overall pass percentage over the results of
 * one validation run, a per-category percentage after sorting each result into
 * one of four fixed categories by its expectation type, and the quality band
 * and recommendation that the overall score selects.
 *
 * Scores are exact reals; the two-decimal rounding of the printed values is
 * not modelled.
 */
module Scorecard {
  import opened Common

  /** One validation result: whether it passed, and the two configuration
      values the scorecard reads (absent keys are `None`). */
  datatype ExpectationResult = ExpectationResult(
    success: bool,
    expectationType: Option<string>,
    column: Option<string>)

  datatype Category = Completeness | Validity | Uniqueness | Consistency

  /** The categories in the order the scores dictionary is built. */
  const AllCategories: seq<Category> := [Completeness, Validity, Uniqueness, Consistency]

  const SuiteName: string := "marts.fct_inpatient_charges"

  predicate AllPassed(rs: seq<ExpectationResult>) {
    forall i :: 0 <= i < |rs| ==> rs[i].success
  }

  /** Number of successful results. */
  function CountPassed(rs: seq<ExpectationResult>): (n: nat)
    ensures n <= |rs|
    ensures n == |rs| <==> AllPassed(rs)
  {
    if rs == [] then 0
    else
      var rest := CountPassed(rs[1..]);
      assert AllPassed(rs) <==> rs[0].success && AllPassed(rs[1..]) by {
        if rs[0].success && AllPassed(rs[1..]) {
          forall i | 0 <= i < |rs| ensures rs[i].success {
            if i > 0 { assert rs[i] == rs[1..][i - 1]; }
          }
        }
      }
      (if rs[0].success then 1 else 0) + rest
  }

  /** `passed / total * 100` for a non-empty set of results. */
  function Percent(passed: nat, total: nat): (p: real)
    requires passed <= total && total > 0
    ensures 0.0 <= p <= 100.0
    ensures p == 100.0 <==> passed == total
    ensures p == 0.0 <==> passed == 0
  {
    var frac := passed as real / total as real;
    assert frac * total as real == passed as real;
    frac * 100.0
  }

  /** The overall score (`calculate_quality_score`): 0 for no results,
      otherwise the percentage of results that passed. */
  function QualityScore(rs: seq<ExpectationResult>): (score: real)
    ensures 0.0 <= score <= 100.0
    ensures rs == [] ==> score == 0.0
    ensures rs != [] ==> (score == 100.0 <==> AllPassed(rs))
  {
    if |rs| == 0 then 0 as real else Percent(CountPassed(rs), |rs|)
  }

  /** The expectation type as the classifier reads it: absent means "". */
  function TypeOf(r: ExpectationResult): string {
    r.expectationType.GetOr("")
  }

  /** First-match classification of an expectation type. */
  function Classify(expectationType: string): (c: Category)
    ensures c == Completeness <==> Contains(expectationType, "null")
    ensures c == Uniqueness <==>
      !Contains(expectationType, "null") && Contains(expectationType, "unique")
    ensures c == Validity <==>
      !Contains(expectationType, "null") && !Contains(expectationType, "unique") &&
      (Contains(expectationType, "between") || Contains(expectationType, "in_set"))
    ensures c == Consistency <==>
      !Contains(expectationType, "null") && !Contains(expectationType, "unique") &&
      !Contains(expectationType, "between") && !Contains(expectationType, "in_set")
  {
    NotNullMentionsNull(expectationType);
    if Contains(expectationType, "not_null") || Contains(expectationType, "null") then Completeness
    else if Contains(expectationType, "unique") then Uniqueness
    else if Contains(expectationType, "between") || Contains(expectationType, "in_set") then Validity
    else Consistency
  }

  /** Every type mentioning "not_null" also mentions "null", so the first test of
      the completeness rule adds nothing to the second. */
  lemma NotNullMentionsNull(t: string)
    ensures Contains(t, "not_null") ==> Contains(t, "null")
  {
    if Contains(t, "not_null") {
      ContainsAt("not_null", "null", 4);
      ContainsTransitive(t, "not_null", "null");
    }
  }

  /** A result whose type is missing is classified under consistency. */
  lemma MissingTypeIsConsistency(r: ExpectationResult)
    requires r.expectationType.None?
    ensures Classify(TypeOf(r)) == Consistency
  {
    assert TypeOf(r) == "";
    forall sub: string | sub != "" ensures !Contains("", sub) {
      if Contains("", sub) { EmptyContainsOnlyEmpty(sub); }
    }
  }

  /** The results of one category, in their original order. */
  function Bucket(rs: seq<ExpectationResult>, c: Category): (b: seq<ExpectationResult>)
    ensures |b| <= |rs|
    ensures forall i :: 0 <= i < |b| ==> Classify(TypeOf(b[i])) == c
  {
    if rs == [] then []
    else (if Classify(TypeOf(rs[0])) == c then [rs[0]] else []) + Bucket(rs[1..], c)
  }

  /** Appending one result extends exactly the bucket of its category. */
  lemma {:induction false} BucketAppend(rs: seq<ExpectationResult>, r: ExpectationResult, c: Category)
    ensures Bucket(rs + [r], c) == Bucket(rs, c) + (if Classify(TypeOf(r)) == c then [r] else [])
  {
    if rs != [] {
      assert (rs + [r])[1..] == rs[1..] + [r];
      BucketAppend(rs[1..], r, c);
    }
  }

  /** A result is in a bucket exactly when it is one of the results and has that category. */
  lemma {:induction false} InBucket(rs: seq<ExpectationResult>, c: Category, x: ExpectationResult)
    ensures x in Bucket(rs, c) <==> x in rs && Classify(TypeOf(x)) == c
  {
    if rs != [] {
      InBucket(rs[1..], c, x);
      assert rs == [rs[0]] + rs[1..];
    }
  }

  /** The four buckets split the results: together they hold every result
      exactly as often as the input does. */
  lemma {:induction false} BucketsPartition(rs: seq<ExpectationResult>)
    ensures multiset(Bucket(rs, Completeness)) + multiset(Bucket(rs, Validity)) +
            multiset(Bucket(rs, Uniqueness)) + multiset(Bucket(rs, Consistency)) == multiset(rs)
  {
    if rs != [] {
      var x, rest := rs[0], rs[1..];
      BucketsPartition(rest);
      assert multiset(rs) == multiset{x} + multiset(rest) by {
        assert rs == [x] + rest;
      }
      BucketStep(rs, Completeness);
      BucketStep(rs, Validity);
      BucketStep(rs, Uniqueness);
      BucketStep(rs, Consistency);
      OneOfFour(multiset(Bucket(rs, Completeness)), multiset(Bucket(rs, Validity)),
                multiset(Bucket(rs, Uniqueness)), multiset(Bucket(rs, Consistency)),
                multiset(Bucket(rest, Completeness)), multiset(Bucket(rest, Validity)),
                multiset(Bucket(rest, Uniqueness)), multiset(Bucket(rest, Consistency)),
                x, Classify(TypeOf(x)));
    }
  }

  /** Adding one element to exactly one of four multisets adds it once to their sum. */
  lemma OneOfFour<T>(
    mC: multiset<T>, mV: multiset<T>, mU: multiset<T>, mK: multiset<T>,
    rC: multiset<T>, rV: multiset<T>, rU: multiset<T>, rK: multiset<T>, x: T, c: Category)
    requires mC == (if c == Completeness then multiset{x} else multiset{}) + rC
    requires mV == (if c == Validity then multiset{x} else multiset{}) + rV
    requires mU == (if c == Uniqueness then multiset{x} else multiset{}) + rU
    requires mK == (if c == Consistency then multiset{x} else multiset{}) + rK
    ensures mC + mV + mU + mK == multiset{x} + (rC + rV + rU + rK)
  {
  }

  lemma BucketStep(rs: seq<ExpectationResult>, c: Category)
    requires rs != []
    ensures multiset(Bucket(rs, c)) ==
      (if Classify(TypeOf(rs[0])) == c then multiset{rs[0]} else multiset{}) + multiset(Bucket(rs[1..], c))
  {
  }

  /** The bucket sizes add up to the number of results. */
  lemma BucketSizesSum(rs: seq<ExpectationResult>)
    ensures |Bucket(rs, Completeness)| + |Bucket(rs, Validity)| +
            |Bucket(rs, Uniqueness)| + |Bucket(rs, Consistency)| == |rs|
  {
    BucketsPartition(rs);
    assert |multiset(rs)| == |rs|;
  }

  /** The score of one category: `None` when it holds no result. */
  function CategoryScore(bucket: seq<ExpectationResult>): (s: Option<real>)
    ensures s.None? <==> bucket == []
    ensures s.Some? ==> 0.0 <= s.value <= 100.0 && s.value == QualityScore(bucket)
  {
    if |bucket| == 0 then None else Some(Percent(CountPassed(bucket), |bucket|))
  }

  /** The first loop of `calculate_category_scores`: append each result to the
      list of its category. */
  method SortIntoCategories(results: seq<ExpectationResult>) returns (buckets: map<Category, seq<ExpectationResult>>)
    ensures forall c: Category :: c in buckets && buckets[c] == Bucket(results, c)
  {
    buckets := map[Completeness := [], Validity := [], Uniqueness := [], Consistency := []];
    forall c: Category ensures c in buckets && buckets[c] == Bucket(results[..0], c) {
      assert results[..0] == [];
      assert c.Completeness? || c.Validity? || c.Uniqueness? || c.Consistency?;
    }
    for i := 0 to |results|
      invariant forall c: Category :: c in buckets && buckets[c] == Bucket(results[..i], c)
    {
      var r := results[i];
      var c := Classify(TypeOf(r));
      forall d: Category ensures Bucket(results[..i + 1], d) == Bucket(results[..i], d) + (if c == d then [r] else []) {
        assert results[..i + 1] == results[..i] + [r];
        BucketAppend(results[..i], r, d);
      }
      buckets := buckets[c := buckets[c] + [r]];
    }
    assert results[..|results|] == results;
  }

  /** The second loop of `calculate_category_scores`: score each category's list. */
  method ScoreCategories(buckets: map<Category, seq<ExpectationResult>>) returns (scores: map<Category, Option<real>>)
    requires forall c: Category :: c in buckets
    ensures forall c: Category :: c in scores && scores[c] == CategoryScore(buckets[c])
  {
    scores := map[];
    for j := 0 to |AllCategories|
      invariant forall k :: 0 <= k < j ==>
        AllCategories[k] in scores && scores[AllCategories[k]] == CategoryScore(buckets[AllCategories[k]])
    {
      var c := AllCategories[j];
      var b := buckets[c];
      if |b| == 0 {
        scores := scores[c := None];
      } else {
        scores := scores[c := Some(Percent(CountPassed(b), |b|))];
      }
    }
    forall c: Category ensures c in scores && scores[c] == CategoryScore(buckets[c]) {
      assert c == AllCategories[match c
        case Completeness => 0 case Validity => 1 case Uniqueness => 2 case Consistency => 3];
    }
  }

  /** `calculate_category_scores`: sort the results into the four category lists,
      then score each list. */
  method CalculateCategoryScores(results: seq<ExpectationResult>) returns (scores: map<Category, Option<real>>)
    ensures forall c: Category :: c in scores && scores[c] == CategoryScore(Bucket(results, c))
  {
    var buckets := SortIntoCategories(results);
    scores := ScoreCategories(buckets);
  }

  /** The results that did not pass, in their original order. */
  function FailedOnly(rs: seq<ExpectationResult>): (f: seq<ExpectationResult>)
    ensures |f| == |rs| - CountPassed(rs)
    ensures forall i :: 0 <= i < |f| ==> !f[i].success
  {
    if rs == [] then []
    else (if rs[0].success then [] else [rs[0]]) + FailedOnly(rs[1..])
  }

  /** A result is listed as failed exactly when it is one of the results and did not pass. */
  lemma {:induction false} InFailedOnly(rs: seq<ExpectationResult>, x: ExpectationResult)
    ensures x in FailedOnly(rs) <==> x in rs && !x.success
  {
    if rs != [] {
      InFailedOnly(rs[1..], x);
      assert rs == [rs[0]] + rs[1..];
    }
  }

  datatype QualityBand = Excellent | Good | Acceptable | NeedsImprovement

  /** The quality level printed for an overall score. */
  function Band(score: real): (b: QualityBand)
    ensures b == Excellent <==> score >= 95.0
    ensures b == Good <==> 90.0 <= score < 95.0
    ensures b == Acceptable <==> 80.0 <= score < 90.0
    ensures b == NeedsImprovement <==> score < 80.0
  {
    if score >= 95.0 then Excellent
    else if score >= 90.0 then Good
    else if score >= 80.0 then Acceptable
    else NeedsImprovement
  }

  /** Bands ordered from best (3) to worst (0). */
  function Rank(b: QualityBand): nat {
    match b
    case Excellent => 3
    case Good => 2
    case Acceptable => 1
    case NeedsImprovement => 0
  }

  /** A higher score never selects a worse band. */
  lemma BandMonotone(s1: real, s2: real)
    requires s1 <= s2
    ensures Rank(Band(s1)) <= Rank(Band(s2))
  {
  }

  datatype Recommendation = Maintain | ReviewFailures | Investigate

  /** The recommendation printed for an overall score. */
  function Recommend(score: real): (r: Recommendation)
    ensures r == Maintain <==> score >= 95.0
    ensures r == ReviewFailures <==> 90.0 <= score < 95.0
    ensures r == Investigate <==> score < 90.0
  {
    if score >= 95.0 then Maintain
    else if score >= 90.0 then ReviewFailures
    else Investigate
  }

  /** The recommendation follows the band: acceptable and needs-improvement
      share the "investigate" advice. */
  lemma RecommendationFollowsBand(score: real)
    ensures Recommend(score) == match Band(score)
      case Excellent => Maintain
      case Good => ReviewFailures
      case _ => Investigate
  {
  }

  /** One line of the failed-expectations listing. The type falls back to
      "Unknown" here, not to "" as in the classifier. */
  datatype FailedLine = FailedLine(expectationType: string, column: string)

  function Describe(r: ExpectationResult): (line: FailedLine)
    ensures line.expectationType == if r.expectationType.Some? then r.expectationType.value else "Unknown"
    ensures line.column == if r.column.Some? then r.column.value else "N/A"
  {
    FailedLine(r.expectationType.GetOr("Unknown"), r.column.GetOr("N/A"))
  }

  /** The listing names a failure's type when it has one and the column only
      when the rule targets one; a rule without a type is listed as "Unknown"
      although it is scored as consistency. */
  lemma UntypedFailureListedAsUnknown(r: ExpectationResult)
    requires r.expectationType.None?
    ensures Describe(r).expectationType == "Unknown"
    ensures Classify(TypeOf(r)) == Consistency
  {
    MissingTypeIsConsistency(r);
  }

  /** What the scorecard script reports and saves for one validation run. */
  datatype Report = Report(
    overallScore: real,
    total: nat,
    passed: nat,
    failed: nat,
    failedExpectations: seq<ExpectationResult>,
    failedLines: seq<FailedLine>,
    band: QualityBand,
    recommendation: Recommendation,
    suiteName: string)

  /** The counting part of the scorecard script's `main`. */
  function Summarize(results: seq<ExpectationResult>): (rep: Report)
    ensures rep.passed + rep.failed == rep.total == |results|
    ensures rep.overallScore == QualityScore(results)
    ensures rep.failedExpectations == FailedOnly(results)
    ensures rep.failedExpectations == [] <==> AllPassed(results)
    ensures |rep.failedLines| == |rep.failedExpectations| == rep.failed
    ensures forall i :: 0 <= i < |rep.failedLines| ==> rep.failedLines[i] == Describe(rep.failedExpectations[i])
    ensures rep.band == Band(rep.overallScore) && rep.recommendation == Recommend(rep.overallScore)
  {
    var total := |results|;
    var passed := CountPassed(results);
    var failed := total - passed;
    var overall := if total > 0 then (passed as real / total as real) * 100.0 else 0 as real;
    var failedExpectations := FailedOnly(results);
    var failedLines := seq(|failedExpectations|, i requires 0 <= i < |failedExpectations| => Describe(failedExpectations[i]));
    Report(overall, total, passed, failed, failedExpectations, failedLines,
           Band(overall), Recommend(overall), SuiteName)
  }

  /** Ten results of which nine pass score 90, land in the "good" band and
      list the one failing rule. */
  lemma NineOfTen(results: seq<ExpectationResult>, failure: ExpectationResult)
    requires |results| == 10 && CountPassed(results) == 9
    requires failure in results && !failure.success
    ensures Summarize(results).overallScore == 90.0
    ensures Summarize(results).band == Good
    ensures Summarize(results).failedExpectations == [failure]
    ensures Summarize(results).failedLines == [Describe(failure)]
  {
    var f := FailedOnly(results);
    InFailedOnly(results, failure);
    assert f == [f[0]];
  }
}
