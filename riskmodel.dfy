/**
 * The request scorer: aggregates the readings, accumulates the per-feature
 * contributions into a table and a probability, derives the risk level,
 * ranks the features and collects the recommendations.
 */
module RiskModel {
  import opened Schema
  import opened Mean
  import opened Features
  import opened Ranking
  import opened Scoring
  import opened Advice

  /** The response the scorer gives for `req`, stated with the specification functions. */
  function Predict(req: PredictRequest): PredictResponse
  {
    var p := ProfileOf(req);
    var probability := Probability(p);
    var level := RiskLevel(probability);
    var top := TopFeatures(Table(p));
    PredictResponse(level, Round2(probability), top, Recommend(level, top, p.means.systolicBp))
  }

  /**
   * After the first `k` scored features, the table holds the baseline row and
   * the rows of those features, and the running probability is the baseline
   * plus their contributions.
   */
  predicate Accumulated(contributions: seq<Entry>, probability: real, p: Profile, k: nat)
    requires k <= |SCORED_FEATURES|
  {
    && contributions == [(Baseline, 0.10)] + TableOf(SCORED_FEATURES[..k], p)
    && probability == 0.10 + TotalContribution(SCORED_FEATURES[..k], p)
  }

  /**
   * Scoring feature `k` adds its row and its contribution when the
   * contribution is positive, and leaves table and probability alone otherwise.
   */
  lemma AccumulateStep(contributions: seq<Entry>, probability: real, next: seq<Entry>, nextProbability: real,
                       p: Profile, k: nat)
    requires k < |SCORED_FEATURES|
    requires Accumulated(contributions, probability, p, k)
    requires var f := SCORED_FEATURES[k];
      var c := Contribution(f, p);
      if c > 0.0 then next == contributions + [(f, c)] && nextProbability == probability + c
      else next == contributions && nextProbability == probability
    ensures Accumulated(next, nextProbability, p, k + 1)
  {
    assert SCORED_FEATURES[..k + 1][..k] == SCORED_FEATURES[..k];
    var f := SCORED_FEATURES[k];
    var c := Contribution(f, p);
    var t := TableOf(SCORED_FEATURES[..k], p);
    if c > 0.0 {
      assert TableOf(SCORED_FEATURES[..k + 1], p) == t + [(f, c)];
      assert [(Baseline, 0.10)] + (t + [(f, c)]) == ([(Baseline, 0.10)] + t) + [(f, c)];
    } else {
      assert TableOf(SCORED_FEATURES[..k + 1], p) == t + [];
      assert t + [] == t;
    }
  }

  /** After all scored features, the accumulated table and probability are the complete ones. */
  lemma AccumulatedAll(contributions: seq<Entry>, probability: real, p: Profile)
    requires Accumulated(contributions, probability, p, |SCORED_FEATURES|)
    ensures contributions == [(Baseline, 0.10)] + Table(p)
    ensures probability == RawProbability(p)
  {
    assert SCORED_FEATURES[..|SCORED_FEATURES|] == SCORED_FEATURES;
    TableSum(SCORED_FEATURES, p);
  }

  /** Dropping the baseline row from the finished table leaves the rows of the scored features. */
  lemma DropBaseline(p: Profile)
    ensures WithoutBaseline([(Baseline, 0.10)] + Table(p)) == Table(p)
  {
    var table := [(Baseline, 0.10)] + Table(p);
    assert table[1..] == Table(p);
    TableExcludesBaseline(p);
    WithoutBaselineKeeps(Table(p));
  }

  /**
   * Starts the contribution table with the baseline row and adds the rows of
   * age and the three comorbidity flags; `means` only fixes the profile the
   * result is stated for.
   */
  method ScorePatient(age: int, comorbidities: Comorbidities, ghost means: Means)
    returns (contributions: seq<Entry>, probability: real)
    ensures Accumulated(contributions, probability, Profile(age, comorbidities, means), 4)
  {
    ghost var p := Profile(age, comorbidities, means);
    contributions := [(Baseline, 0.10)];
    probability := 0.10;
    assert SCORED_FEATURES[..0] == [];
    assert Accumulated(contributions, probability, p, 0);

    var ageContrib := AgeContribution(age);
    ghost var before, probabilityBefore := contributions, probability;
    if ageContrib > 0.0 {
      contributions := contributions + [(Age, ageContrib)];
      probability := probability + ageContrib;
    }

    AccumulateStep(before, probabilityBefore, contributions, probability, p, 0);
    before, probabilityBefore := contributions, probability;
    if comorbidities.diabetesMellitus {
      contributions := contributions + [(DiabetesMellitus, 0.20)];
      probability := probability + 0.20;
    }
    AccumulateStep(before, probabilityBefore, contributions, probability, p, 1);
    before, probabilityBefore := contributions, probability;
    if comorbidities.hypertension {
      contributions := contributions + [(Hypertension, 0.20)];
      probability := probability + 0.20;
    }
    AccumulateStep(before, probabilityBefore, contributions, probability, p, 2);
    before, probabilityBefore := contributions, probability;
    if comorbidities.anemia {
      contributions := contributions + [(Anemia, 0.10)];
      probability := probability + 0.10;
    }
    AccumulateStep(before, probabilityBefore, contributions, probability, p, 3);
  }

  /** Adds the rows of the lab means: creatinine above 1.2 and albumin below 3.5. */
  method ScoreLabs(contributions0: seq<Entry>, probability0: real, means: Means,
                   ghost age: int, ghost comorbidities: Comorbidities)
    returns (contributions: seq<Entry>, probability: real)
    requires Accumulated(contributions0, probability0, Profile(age, comorbidities, means), 4)
    ensures Accumulated(contributions, probability, Profile(age, comorbidities, means), 6)
  {
    ghost var p := Profile(age, comorbidities, means);
    contributions, probability := contributions0, probability0;
    ghost var before, probabilityBefore := contributions, probability;
    if means.creatinine.Some? {
      var crContrib := CreatinineContribution(means.creatinine.value);
      if crContrib > 0.0 {
        contributions := contributions + [(Creatinine, crContrib)];
        probability := probability + crContrib;
      }
    }

    AccumulateStep(before, probabilityBefore, contributions, probability, p, 4);
    before, probabilityBefore := contributions, probability;
    if means.albumin.Some? && means.albumin.value < 3.5 {
      var albContrib := 0.10;
      contributions := contributions + [(AlbuminLow, albContrib)];
      probability := probability + albContrib;
    }

    AccumulateStep(before, probabilityBefore, contributions, probability, p, 5);
  }

  /** Adds the rows of the vital-sign means: systolic pressure above 140 and a heart rate outside 55..100. */
  method ScoreVitals(contributions0: seq<Entry>, probability0: real, means: Means,
                     ghost age: int, ghost comorbidities: Comorbidities)
    returns (contributions: seq<Entry>, probability: real)
    requires Accumulated(contributions0, probability0, Profile(age, comorbidities, means), 6)
    ensures contributions == [(Baseline, 0.10)] + Table(Profile(age, comorbidities, means))
    ensures probability == RawProbability(Profile(age, comorbidities, means))
  {
    ghost var p := Profile(age, comorbidities, means);
    contributions, probability := contributions0, probability0;
    ghost var before, probabilityBefore := contributions, probability;
    if means.systolicBp.Some? {
      var sbpContrib;
      if means.systolicBp.value > 160.0 {
        sbpContrib := 0.20;
      } else if means.systolicBp.value > 140.0 {
        sbpContrib := 0.10;
      } else {
        sbpContrib := 0.0;
      }
      if sbpContrib > 0.0 {
        contributions := contributions + [(SystolicBp, sbpContrib)];
        probability := probability + sbpContrib;
      }
    }

    AccumulateStep(before, probabilityBefore, contributions, probability, p, 6);
    before, probabilityBefore := contributions, probability;
    if means.heartRate.Some? && (means.heartRate.value > 100.0 || means.heartRate.value < 55.0) {
      var hrContrib := 0.05;
      contributions := contributions + [(HeartRate, hrContrib)];
      probability := probability + hrContrib;
    }
    AccumulateStep(before, probabilityBefore, contributions, probability, p, 7);
    AccumulatedAll(contributions, probability, p);
  }

  /**
   * Drops the baseline row, sorts by contribution (largest first, stable),
   * keeps the first three keys (or the fallback list) and renames them.
   */
  method RankFeatures(contributions: seq<Entry>, ghost p: Profile) returns (topFeatures: seq<string>)
    requires contributions == [(Baseline, 0.10)] + Table(p)
    ensures topFeatures == TopFeatures(Table(p))
    ensures 1 <= |topFeatures| <= TOP_COUNT
    ensures "baseline" !in topFeatures
  {
    var items := WithoutBaseline(contributions);
    DropBaseline(p);
    items := SortDesc(items);
    var top := items[..if |items| < TOP_COUNT then |items| else TOP_COUNT];
    var keys := seq(|top|, i requires 0 <= i < |top| => Key(top[i].0));
    var chosen := if keys == [] then FALLBACK_FEATURES else keys;
    topFeatures := seq(|chosen|, i requires 0 <= i < |chosen| => Normalize(chosen[i]));
    TableInInsertionOrder(p);
    TableExcludesBaseline(p);
    TopFeaturesShape(Table(p));
  }

  /**
   * Appends the advice of each rule that fires, in rule order; falls back to
   * the generic list and keeps at most four entries.
   */
  method CollectRecommendations(riskLevel: string, topFeatures: seq<string>, meanSbp: Option<real>)
    returns (recommendations: seq<string>)
    ensures recommendations == Recommend(riskLevel, topFeatures, meanSbp)
    ensures 1 <= |recommendations| <= MAX_RECOMMENDATIONS
  {
    FiredInRuleOrder(riskLevel, topFeatures, meanSbp);
    recommendations := [];
    if "creatinine" in topFeatures {
      recommendations := recommendations + [Text(MonitorCreatinine)];
    }
    assert recommendations == TextIf(MonitorCreatinine, riskLevel, topFeatures, meanSbp);
    if "hypertension" in topFeatures || (meanSbp.Some? && meanSbp.value > 140.0) {
      recommendations := recommendations + [Text(CheckBloodPressure)];
    }
    assert recommendations == TextIf(MonitorCreatinine, riskLevel, topFeatures, meanSbp)
      + TextIf(CheckBloodPressure, riskLevel, topFeatures, meanSbp);
    if riskLevel == HIGH_RISK {
      recommendations := recommendations + [Text(NephrologyConsultation)];
    }
    assert recommendations == TextIf(MonitorCreatinine, riskLevel, topFeatures, meanSbp)
      + TextIf(CheckBloodPressure, riskLevel, topFeatures, meanSbp)
      + TextIf(NephrologyConsultation, riskLevel, topFeatures, meanSbp);
    if "diabetes_mellitus" in topFeatures {
      recommendations := recommendations + [Text(GlycemicControl)];
    }
    assert recommendations == TextIf(MonitorCreatinine, riskLevel, topFeatures, meanSbp)
      + TextIf(CheckBloodPressure, riskLevel, topFeatures, meanSbp)
      + TextIf(NephrologyConsultation, riskLevel, topFeatures, meanSbp)
      + TextIf(GlycemicControl, riskLevel, topFeatures, meanSbp);
    if "albumin" in topFeatures {
      recommendations := recommendations + [Text(NutritionReview)];
    }
    assert recommendations == FiredTexts(RULE_ORDER, riskLevel, topFeatures, meanSbp);
    if recommendations == [] {
      recommendations := GENERIC_ADVICE;
    }
    recommendations := recommendations[..if |recommendations| < MAX_RECOMMENDATIONS then |recommendations| else MAX_RECOMMENDATIONS];
    RecommendContents(riskLevel, topFeatures, meanSbp);
  }

  /**
   * The scorer: averages the readings, scores the features, clamps the
   * probability, classifies it, ranks the features and collects advice.
   */
  method RiskFromRequest(req: PredictRequest) returns (resp: PredictResponse)
    ensures resp == Predict(req)
    ensures 0.10 <= resp.probability <= 0.99
    ensures 1 <= |resp.topFeatures| <= TOP_COUNT
    ensures 1 <= |resp.recommendations| <= MAX_RECOMMENDATIONS
  {
    var creatinineValues := CreatinineValues(req.labVitals);
    var albuminValues := AlbuminValues(req.labVitals);
    var sbpValues := SystolicBpValues(req.labVitals);
    var hrValues := HeartRateValues(req.labVitals);

    var meanCreatinine := SafeMean(creatinineValues);
    var meanAlbumin := SafeMean(albuminValues);
    var meanSbp := SafeMean(sbpValues);
    var meanHr := SafeMean(hrValues);
    ghost var p := ProfileOf(req);

    var means := Means(meanCreatinine, meanAlbumin, meanSbp, meanHr);
    var contributions, probability := ScorePatient(req.demographics.age, req.comorbidities, means);
    contributions, probability := ScoreLabs(contributions, probability, means, req.demographics.age, req.comorbidities);
    contributions, probability := ScoreVitals(contributions, probability, means, req.demographics.age, req.comorbidities);

    ProbabilityBounds(p);
    probability := Max(0.0, Min(0.99, probability));

    var riskLevel;
    if probability >= 0.70 {
      riskLevel := HIGH_RISK;
    } else if probability >= 0.40 {
      riskLevel := MODERATE_RISK;
    } else {
      riskLevel := LOW_RISK;
    }

    var topFeatures := RankFeatures(contributions, p);
    var recommendations := CollectRecommendations(riskLevel, topFeatures, meanSbp);

    Round2KeepsRange(probability);
    resp := PredictResponse(riskLevel, Round2(probability), topFeatures, recommendations);
  }

  /**
   * The response: a probability in [0.10, 0.99] within half a hundredth of
   * the clamped score; the risk level read off the unrounded score; one to
   * three distinct reported features, never the baseline; one to four
   * recommendations, with the nephrology referral exactly for high risk.
   */
  lemma PredictContract(req: PredictRequest)
    ensures var r := Predict(req);
      && 0.10 <= r.probability <= 0.99
      && -0.005 <= r.probability - Probability(ProfileOf(req)) <= 0.005
      && (r.riskLevel == HIGH_RISK <==> Probability(ProfileOf(req)) >= 0.70)
      && (r.riskLevel == MODERATE_RISK <==> 0.40 <= Probability(ProfileOf(req)) < 0.70)
      && (r.riskLevel == LOW_RISK <==> Probability(ProfileOf(req)) < 0.40)
    ensures var r := Predict(req);
      && 1 <= |r.topFeatures| <= TOP_COUNT
      && (forall i, j :: 0 <= i < j < |r.topFeatures| ==> r.topFeatures[i] != r.topFeatures[j])
      && "baseline" !in r.topFeatures
    ensures var r := Predict(req);
      && 1 <= |r.recommendations| <= MAX_RECOMMENDATIONS
      && (Text(NephrologyConsultation) in r.recommendations <==> r.riskLevel == HIGH_RISK)
  {
    var p := ProfileOf(req);
    ProbabilityBounds(p);
    Round2KeepsRange(Probability(p));
    TableInInsertionOrder(p);
    TableExcludesBaseline(p);
    TopFeaturesShape(Table(p));
    var level := RiskLevel(Probability(p));
    RecommendContents(level, TopFeatures(Table(p)), p.means.systolicBp);
  }

  /** `a` and `b` carry the same readings apart from creatinine, which is never lower in `b`. */
  predicate OnlyCreatinineRaised(a: PredictRequest, b: PredictRequest)
  {
    && a.demographics == b.demographics
    && a.comorbidities == b.comorbidities
    && |a.labVitals| == |b.labVitals|
    && (forall i :: 0 <= i < |a.labVitals| ==>
          && a.labVitals[i].albumin == b.labVitals[i].albumin
          && a.labVitals[i].systolicBp == b.labVitals[i].systolicBp
          && a.labVitals[i].heartRate == b.labVitals[i].heartRate)
    && NoLowerPointwise(CreatinineValues(a.labVitals), CreatinineValues(b.labVitals))
  }

  /**
   * Raising creatinine readings, everything else fixed, never lowers the
   * reported probability nor the risk level.
   */
  lemma CreatinineRaisesRisk(a: PredictRequest, b: PredictRequest)
    requires OnlyCreatinineRaised(a, b)
    ensures Predict(a).probability <= Predict(b).probability
    ensures Predict(a).riskLevel == HIGH_RISK ==> Predict(b).riskLevel == HIGH_RISK
    ensures Predict(b).riskLevel == LOW_RISK ==> Predict(a).riskLevel == LOW_RISK
  {
    var p := ProfileOf(a);
    var q := ProfileOf(b);
    assert AlbuminValues(a.labVitals) == AlbuminValues(b.labVitals);
    assert SystolicBpValues(a.labVitals) == SystolicBpValues(b.labVitals);
    assert HeartRateValues(a.labVitals) == HeartRateValues(b.labVitals);
    SafeMeanMonotone(CreatinineValues(a.labVitals), CreatinineValues(b.labVitals));
    CreatinineMonotone(p, q);
    Round2Monotone(Probability(p), Probability(q));
  }

  /**
   * Switching comorbidity flags on, everything else fixed, never lowers the
   * reported probability nor the risk level.
   */
  lemma ComorbiditiesRaiseRisk(a: PredictRequest, b: PredictRequest)
    requires a.demographics == b.demographics && a.labVitals == b.labVitals
    requires a.comorbidities.diabetesMellitus ==> b.comorbidities.diabetesMellitus
    requires a.comorbidities.hypertension ==> b.comorbidities.hypertension
    requires a.comorbidities.anemia ==> b.comorbidities.anemia
    ensures Predict(a).probability <= Predict(b).probability
    ensures Predict(a).riskLevel == HIGH_RISK ==> Predict(b).riskLevel == HIGH_RISK
    ensures Predict(b).riskLevel == LOW_RISK ==> Predict(a).riskLevel == LOW_RISK
  {
    ComorbidityMonotone(ProfileOf(a), ProfileOf(b));
    Round2Monotone(Probability(ProfileOf(a)), Probability(ProfileOf(b)));
  }

  /** For the fallback features at low risk, only the creatinine and glycemic rules fire. */
  lemma FallbackAdvice(meanSbp: Option<real>)
    requires meanSbp.None? || meanSbp.value <= 140.0
    ensures Recommend(LOW_RISK, FALLBACK_FEATURES, meanSbp) == [Text(MonitorCreatinine), Text(GlycemicControl)]
  {
    FiredInRuleOrder(LOW_RISK, FALLBACK_FEATURES, meanSbp);
    assert "creatinine" in FALLBACK_FEATURES && "diabetes_mellitus" in FALLBACK_FEATURES;
    assert "hypertension" !in FALLBACK_FEATURES && "albumin" !in FALLBACK_FEATURES;
  }

  /** A profile without any table row scores exactly the baseline. */
  lemma EmptyTableScoresBaseline(p: Profile)
    requires Table(p) == []
    ensures Probability(p) == 0.10 && Round2(Probability(p)) == 0.10
    ensures p.means.systolicBp.None? || p.means.systolicBp.value <= 140.0
  {
    assert RawProbability(p) == 0.10;
    assert (0.10 * 100.0).Floor == 10;
    TableRows(p, SystolicBp);
  }

  /**
   * When no feature contributes, the response is low risk at the baseline
   * 0.10, reports the fallback features, and the fallback list in turn
   * triggers the creatinine and glycemic advice.
   */
  lemma NothingContributed(req: PredictRequest)
    requires Table(ProfileOf(req)) == []
    ensures Predict(req) == PredictResponse(LOW_RISK, 0.10, FALLBACK_FEATURES,
                                            [Text(MonitorCreatinine), Text(GlycemicControl)])
  {
    var p := ProfileOf(req);
    EmptyTableScoresBaseline(p);
    FallbackNamesArePublic();
    FallbackAdvice(p.means.systolicBp);
  }

  /** A 68-year-old with diabetes and hypertension and one reading of creatinine 1.4, albumin 3.2, pressure 130, rate 75. */
  function ExampleRequest(timestamp: string): PredictRequest
  {
    PredictRequest(Demographics(68, Male), Comorbidities(true, true, false),
                   [LabVitalsPoint(timestamp, Some(1.4), Some(3.2), Some(130.0), Some(75.0))])
  }

  function ExampleProfile(): Profile
  {
    Profile(68, Comorbidities(true, true, false), Means(Some(1.4), Some(3.2), Some(130.0), Some(75.0)))
  }

  lemma ExampleAggregate(timestamp: string)
    ensures ProfileOf(ExampleRequest(timestamp)) == ExampleProfile()
  {
    var points := ExampleRequest(timestamp).labVitals;
    assert CreatinineValues(points) == [Some(1.4)];
    assert AlbuminValues(points) == [Some(3.2)];
    assert SystolicBpValues(points) == [Some(130.0)];
    assert HeartRateValues(points) == [Some(75.0)];
    SafeMeanSingle(1.4);
    SafeMeanSingle(3.2);
    SafeMeanSingle(130.0);
    SafeMeanSingle(75.0);
  }

  /** Age adds 0.072, each comorbidity 0.20, creatinine 0.06 and low albumin 0.10; the raw score is 0.732. */
  lemma ExampleTable()
    ensures Table(ExampleProfile()) == EXAMPLE_TABLE
    ensures RawProbability(ExampleProfile()) == 0.732
  {
    var p := ExampleProfile();
    var t := EXAMPLE_TABLE;
    var contributions, probability := [(Baseline, 0.10)], 0.10;
    assert SCORED_FEATURES[..0] == [];
    AccumulateStep(contributions, probability, contributions + [(Age, 0.072)], probability + 0.072, p, 0);
    contributions, probability := contributions + [(Age, 0.072)], probability + 0.072;
    AccumulateStep(contributions, probability, contributions + [(DiabetesMellitus, 0.20)], probability + 0.20, p, 1);
    contributions, probability := contributions + [(DiabetesMellitus, 0.20)], probability + 0.20;
    AccumulateStep(contributions, probability, contributions + [(Hypertension, 0.20)], probability + 0.20, p, 2);
    contributions, probability := contributions + [(Hypertension, 0.20)], probability + 0.20;
    AccumulateStep(contributions, probability, contributions, probability, p, 3);
    AccumulateStep(contributions, probability, contributions + [(Creatinine, 0.06)], probability + 0.06, p, 4);
    contributions, probability := contributions + [(Creatinine, 0.06)], probability + 0.06;
    AccumulateStep(contributions, probability, contributions + [(AlbuminLow, 0.10)], probability + 0.10, p, 5);
    contributions, probability := contributions + [(AlbuminLow, 0.10)], probability + 0.10;
    AccumulateStep(contributions, probability, contributions, probability, p, 6);
    AccumulateStep(contributions, probability, contributions, probability, p, 7);
    AccumulatedAll(contributions, probability, p);
    assert contributions == [(Baseline, 0.10)] + t;
    assert contributions[1..] == Table(p) && contributions[1..] == t;
  }

  const EXAMPLE_TABLE: seq<Entry> :=
    [(Age, 0.072), (DiabetesMellitus, 0.20), (Hypertension, 0.20), (Creatinine, 0.06), (AlbuminLow, 0.10)]

  /** Sorted by contribution, diabetes and hypertension tie and keep their order; albumin comes third. */
  lemma ExampleSorted()
    ensures SortDesc(EXAMPLE_TABLE)
      == [(DiabetesMellitus, 0.20), (Hypertension, 0.20), (AlbuminLow, 0.10), (Age, 0.072), (Creatinine, 0.06)]
  {
    var alb, cr, ht, dm, age := (AlbuminLow, 0.10), (Creatinine, 0.06), (Hypertension, 0.20), (DiabetesMellitus, 0.20), (Age, 0.072);
    var none: seq<Entry> := [];
    assert SortDesc([alb]) == [alb] by {
      assert [alb][1..] == none;
      assert InsertDesc(alb, none) == [alb];
    }
    assert SortDesc([cr, alb]) == [alb, cr] by {
      assert [cr, alb][1..] == [alb];
      assert [alb][1..] == none;
      assert InsertDesc(cr, none) == [cr];
      assert InsertDesc(cr, [alb]) == [alb] + InsertDesc(cr, none);
    }
    assert SortDesc([ht, cr, alb]) == [ht, alb, cr] by {
      assert [ht, cr, alb][1..] == [cr, alb];
    }
    assert SortDesc([dm, ht, cr, alb]) == [dm, ht, alb, cr] by {
      assert [dm, ht, cr, alb][1..] == [ht, cr, alb];
    }
    assert InsertDesc(age, [dm, ht, alb, cr]) == [dm, ht, alb, age, cr] by {
      assert InsertDesc(age, [cr]) == [age, cr];
      assert [alb, cr][1..] == [cr];
      assert InsertDesc(age, [alb, cr]) == [alb, age, cr];
      assert [ht, alb, cr][1..] == [alb, cr];
      assert InsertDesc(age, [ht, alb, cr]) == [ht, alb, age, cr];
      assert [dm, ht, alb, cr][1..] == [ht, alb, cr];
    }
    assert EXAMPLE_TABLE == [age, dm, ht, cr, alb];
    assert [age, dm, ht, cr, alb][1..] == [dm, ht, cr, alb];
  }

  lemma ExampleTopFeatures()
    ensures TopFeatures(EXAMPLE_TABLE) == ["diabetes_mellitus", "hypertension", "albumin"]
  {
    var t := EXAMPLE_TABLE;
    ExampleSorted();
    assert InInsertionOrder(t);
    TopNamesArePublic(t);
    var top := TopEntries(t);
    assert top == [(DiabetesMellitus, 0.20), (Hypertension, 0.20), (AlbuminLow, 0.10)];
    NormalizeRenamesOnlyAlbumin("diabetes_mellitus");
    NormalizeRenamesOnlyAlbumin("hypertension");
    NormalizeRenamesOnlyAlbumin("albumin_low");
  }

  /**
   * Age 53 and a mean creatinine of 1.24 both add 0.012. On that tie the
   * stable sort keeps age, which was inserted first, ahead of creatinine, and
   * only age makes the top three.
   */
  lemma TiedContributionsKeepInsertionOrder()
    ensures TopFeatures([(Age, 0.012), (DiabetesMellitus, 0.20), (Creatinine, 0.012), (AlbuminLow, 0.10)])
      == ["diabetes_mellitus", "albumin", "age"]
  {
    var age, dm, cr, alb := (Age, 0.012), (DiabetesMellitus, 0.20), (Creatinine, 0.012), (AlbuminLow, 0.10);
    var t := [age, dm, cr, alb];
    var none: seq<Entry> := [];
    assert SortDesc([alb]) == [alb] by {
      assert [alb][1..] == none;
      assert InsertDesc(alb, none) == [alb];
    }
    assert SortDesc([cr, alb]) == [alb, cr] by {
      assert [cr, alb][1..] == [alb];
      assert InsertDesc(cr, none) == [cr];
      assert InsertDesc(cr, [alb]) == [alb] + InsertDesc(cr, none);
    }
    assert SortDesc([dm, cr, alb]) == [dm, alb, cr] by {
      assert [dm, cr, alb][1..] == [cr, alb];
    }
    assert SortDesc(t) == [dm, alb, age, cr] by {
      assert t[1..] == [dm, cr, alb];
      assert InsertDesc(age, [cr]) == [age, cr];
      assert [alb, cr][1..] == [cr];
      assert InsertDesc(age, [alb, cr]) == [alb, age, cr];
      assert [dm, alb, cr][1..] == [alb, cr];
    }
    assert InInsertionOrder(t);
    TopFeaturesShape(t);
    assert TopEntries(t) == [dm, alb, age];
    NormalizeRenamesOnlyAlbumin("diabetes_mellitus");
    NormalizeRenamesOnlyAlbumin("albumin_low");
    NormalizeRenamesOnlyAlbumin("age");
  }

  /** The example's advice: every rule but the creatinine one fires, so nothing is cut. */
  lemma ExampleAdvice()
    ensures Recommend(HIGH_RISK, ["diabetes_mellitus", "hypertension", "albumin"], Some(130.0))
      == [Text(CheckBloodPressure), Text(NephrologyConsultation), Text(GlycemicControl), Text(NutritionReview)]
  {
    var top := ["diabetes_mellitus", "hypertension", "albumin"];
    FiredInRuleOrder(HIGH_RISK, top, Some(130.0));
    assert "creatinine" !in top;
    assert "hypertension" in top && "diabetes_mellitus" in top && "albumin" in top;
    assert !Fires(MonitorCreatinine, HIGH_RISK, top, Some(130.0));
    CapCutsOnlyLast(HIGH_RISK, top, Some(130.0));
  }

  /** The example's score 0.732 is high risk and is reported as 0.73. */
  lemma ExampleScore()
    ensures Probability(ExampleProfile()) == 0.732
    ensures RiskLevel(0.732) == HIGH_RISK
    ensures Round2(0.732) == 0.73
  {
    ExampleTable();
    assert (0.732 * 100.0).Floor == 73;
  }

  /**
   * The worked example: high risk at 0.73, reported features diabetes,
   * hypertension and albumin, and the blood-pressure, nephrology, glycemic
   * and nutrition advice; the timestamp plays no part.
   */
  lemma WorkedExample(timestamp: string)
    ensures Predict(ExampleRequest(timestamp)) == PredictResponse(
      HIGH_RISK, 0.73, ["diabetes_mellitus", "hypertension", "albumin"],
      [Text(CheckBloodPressure), Text(NephrologyConsultation), Text(GlycemicControl), Text(NutritionReview)])
  {
    ExampleAggregate(timestamp);
    ExampleTable();
    ExampleTopFeatures();
    ExampleScore();
    ExampleAdvice();
  }

  /** A 74-year-old with all three comorbidities and no readings. */
  function BoundaryRequest(): PredictRequest
  {
    PredictRequest(Demographics(74, Female), Comorbidities(true, true, true), [])
  }

  /** Age adds 0.096 and the comorbidities 0.50, for an unclamped score of 0.696. */
  lemma BoundaryScore()
    ensures Probability(ProfileOf(BoundaryRequest())) == 0.696
  {
    var p := ProfileOf(BoundaryRequest());
    assert p.means == Means(None, None, None, None);
    var contributions, probability := [(Baseline, 0.10)], 0.10;
    assert SCORED_FEATURES[..0] == [];
    AccumulateStep(contributions, probability, contributions + [(Age, 0.096)], probability + 0.096, p, 0);
    contributions, probability := contributions + [(Age, 0.096)], probability + 0.096;
    AccumulateStep(contributions, probability, contributions + [(DiabetesMellitus, 0.20)], probability + 0.20, p, 1);
    contributions, probability := contributions + [(DiabetesMellitus, 0.20)], probability + 0.20;
    AccumulateStep(contributions, probability, contributions + [(Hypertension, 0.20)], probability + 0.20, p, 2);
    contributions, probability := contributions + [(Hypertension, 0.20)], probability + 0.20;
    AccumulateStep(contributions, probability, contributions + [(Anemia, 0.10)], probability + 0.10, p, 3);
    contributions, probability := contributions + [(Anemia, 0.10)], probability + 0.10;
    AccumulateStep(contributions, probability, contributions, probability, p, 4);
    AccumulateStep(contributions, probability, contributions, probability, p, 5);
    AccumulateStep(contributions, probability, contributions, probability, p, 6);
    AccumulateStep(contributions, probability, contributions, probability, p, 7);
    AccumulatedAll(contributions, probability, p);
  }

  /**
   * The risk level is read off the unrounded score: 0.696 is moderate risk,
   * yet it is reported as 0.70, the high-risk cut point.
   */
  lemma RoundingCrossesCutPoint()
    ensures Predict(BoundaryRequest()).probability == 0.70
    ensures Predict(BoundaryRequest()).riskLevel == MODERATE_RISK
  {
    BoundaryScore();
    assert (0.696 * 100.0).Floor == 69;
  }
}
