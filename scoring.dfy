/**
 * The heuristic score: per-feature contributions, the contribution table,
 * the clamped probability, its risk level and the two-decimal rounding of
 * the reported probability. Arithmetic is on exact reals.
 */
module Scoring {
  import opened Schema
  import opened Mean
  import opened Features

  /** Per-field means over all readings of a request. */
  datatype Means = Means(
    creatinine: Option<real>,
    albumin: Option<real>,
    systolicBp: Option<real>,
    heartRate: Option<real>)

  /** Everything the score depends on: age, comorbidity flags and the means. */
  datatype Profile = Profile(age: int, comorbidities: Comorbidities, means: Means)

  /** The creatinine readings of `points`, one per point, absent ones included. */
  function CreatinineValues(points: seq<LabVitalsPoint>): (v: seq<Option<real>>)
    ensures |v| == |points| && forall i :: 0 <= i < |points| ==> v[i] == points[i].creatinine
  {
    seq(|points|, i requires 0 <= i < |points| => points[i].creatinine)
  }

  /** The albumin readings of `points`, one per point, absent ones included. */
  function AlbuminValues(points: seq<LabVitalsPoint>): (v: seq<Option<real>>)
    ensures |v| == |points| && forall i :: 0 <= i < |points| ==> v[i] == points[i].albumin
  {
    seq(|points|, i requires 0 <= i < |points| => points[i].albumin)
  }

  /** The systolic pressure readings of `points`, one per point, absent ones included. */
  function SystolicBpValues(points: seq<LabVitalsPoint>): (v: seq<Option<real>>)
    ensures |v| == |points| && forall i :: 0 <= i < |points| ==> v[i] == points[i].systolicBp
  {
    seq(|points|, i requires 0 <= i < |points| => points[i].systolicBp)
  }

  /** The heart rate readings of `points`, one per point, absent ones included. */
  function HeartRateValues(points: seq<LabVitalsPoint>): (v: seq<Option<real>>)
    ensures |v| == |points| && forall i :: 0 <= i < |points| ==> v[i] == points[i].heartRate
  {
    seq(|points|, i requires 0 <= i < |points| => points[i].heartRate)
  }

  /** Averages each lab/vital field across all readings; a field never measured stays absent. */
  function Aggregate(points: seq<LabVitalsPoint>): (m: Means)
    ensures m.creatinine.None? <==> forall i :: 0 <= i < |points| ==> points[i].creatinine.None?
    ensures m.albumin.None? <==> forall i :: 0 <= i < |points| ==> points[i].albumin.None?
    ensures m.systolicBp.None? <==> forall i :: 0 <= i < |points| ==> points[i].systolicBp.None?
    ensures m.heartRate.None? <==> forall i :: 0 <= i < |points| ==> points[i].heartRate.None?
  {
    Means(SafeMean(CreatinineValues(points)), SafeMean(AlbuminValues(points)),
          SafeMean(SystolicBpValues(points)), SafeMean(HeartRateValues(points)))
  }

  function ProfileOf(req: PredictRequest): Profile
  {
    Profile(req.demographics.age, req.comorbidities, Aggregate(req.labVitals))
  }

  function Max(a: real, b: real): real
  {
    if a >= b then a else b
  }

  function Min(a: real, b: real): real
  {
    if a <= b then a else b
  }

  /** Age adds 0.004 per year above 50, capped at 0.20. */
  function AgeContribution(age: int): (c: real)
    ensures 0.0 <= c <= 0.20
    ensures c > 0.0 <==> age > 50
    ensures 50 <= age <= 100 ==> c == (age - 50) as real / 250.0
    ensures age >= 100 ==> c == 0.20
  {
    Max(0.0, Min(0.20, ((age - 50) as real / 50.0) * 0.20))
  }

  /** Creatinine adds 0.30 per mg/dL above 1.2, capped at 0.30. */
  function CreatinineContribution(mean: real): (c: real)
    ensures 0.0 <= c <= 0.30
    ensures c > 0.0 <==> mean > 1.2
    ensures 1.2 <= mean <= 2.2 ==> c == (mean - 1.2) * 0.30
    ensures mean >= 2.2 ==> c == 0.30
  {
    var over := Max(0.0, mean - 1.2);
    Max(0.0, Min(0.30, (over / 1.0) * 0.30))
  }

  lemma AgeContributionMonotone(a: int, b: int)
    requires a <= b
    ensures AgeContribution(a) <= AgeContribution(b)
  {
  }

  lemma CreatinineContributionMonotone(a: real, b: real)
    requires a <= b
    ensures CreatinineContribution(a) <= CreatinineContribution(b)
  {
  }

  /** Low albumin (below 3.5) adds 0.10. */
  function AlbuminContribution(mean: real): real
  {
    if mean < 3.5 then 0.10 else 0.0
  }

  /** Systolic pressure above 160 adds 0.20, above 140 adds 0.10. */
  function SystolicBpContribution(mean: real): real
  {
    if mean > 160.0 then 0.20 else if mean > 140.0 then 0.10 else 0.0
  }

  /** A heart rate above 100 or below 55 adds 0.05. */
  function HeartRateContribution(mean: real): real
  {
    if mean > 100.0 || mean < 55.0 then 0.05 else 0.0
  }

  /** The most a feature can add. */
  function Cap(f: Feature): real
  {
    match f
    case Baseline => 0.10
    case Age => 0.20
    case DiabetesMellitus => 0.20
    case Hypertension => 0.20
    case Anemia => 0.10
    case Creatinine => 0.30
    case AlbuminLow => 0.10
    case SystolicBp => 0.20
    case HeartRate => 0.05
  }

  /**
   * What feature `f` adds to the probability of profile `p`: at most its cap,
   * nothing for a reading nobody took, and otherwise the weight its rule gives.
   */
  function Contribution(f: Feature, p: Profile): (c: real)
    ensures 0.0 <= c <= Cap(f)
    ensures f == Creatinine && p.means.creatinine.None? ==> c == 0.0
    ensures f == AlbuminLow && p.means.albumin.None? ==> c == 0.0
    ensures f == SystolicBp && p.means.systolicBp.None? ==> c == 0.0
    ensures f == HeartRate && p.means.heartRate.None? ==> c == 0.0
    // Flags and threshold rules add all of their weight or nothing.
    ensures f in {Baseline, DiabetesMellitus, Hypertension, Anemia, AlbuminLow, HeartRate} ==> c == 0.0 || c == Cap(f)
    ensures f == Baseline ==> c == 0.10
    ensures f == Age ==> c == AgeContribution(p.age)
    ensures f == DiabetesMellitus ==> (c > 0.0 <==> p.comorbidities.diabetesMellitus)
    ensures f == Hypertension ==> (c > 0.0 <==> p.comorbidities.hypertension)
    ensures f == Anemia ==> (c > 0.0 <==> p.comorbidities.anemia)
    ensures f == Creatinine && p.means.creatinine.Some? ==> c == CreatinineContribution(p.means.creatinine.value)
    ensures f == AlbuminLow ==> (c > 0.0 <==> p.means.albumin.Some? && p.means.albumin.value < 3.5)
    ensures f == SystolicBp ==> (c == 0.20 <==> p.means.systolicBp.Some? && p.means.systolicBp.value > 160.0)
    ensures f == SystolicBp ==>
      (c == 0.10 <==> p.means.systolicBp.Some? && 140.0 < p.means.systolicBp.value <= 160.0)
    ensures f == SystolicBp ==> (c == 0.0 <==> p.means.systolicBp.None? || p.means.systolicBp.value <= 140.0)
    ensures f == HeartRate ==>
      (c > 0.0 <==> p.means.heartRate.Some? && (p.means.heartRate.value > 100.0 || p.means.heartRate.value < 55.0))
  {
    match f
    case Baseline => 0.10
    case Age => AgeContribution(p.age)
    case DiabetesMellitus => if p.comorbidities.diabetesMellitus then 0.20 else 0.0
    case Hypertension => if p.comorbidities.hypertension then 0.20 else 0.0
    case Anemia => if p.comorbidities.anemia then 0.10 else 0.0
    case Creatinine =>
      (match p.means.creatinine case Some(v) => CreatinineContribution(v) case None => 0.0)
    case AlbuminLow =>
      (match p.means.albumin case Some(v) => AlbuminContribution(v) case None => 0.0)
    case SystolicBp =>
      (match p.means.systolicBp case Some(v) => SystolicBpContribution(v) case None => 0.0)
    case HeartRate =>
      (match p.means.heartRate case Some(v) => HeartRateContribution(v) case None => 0.0)
  }

  /** The scored features in the order the scorer considers them. */
  const SCORED_FEATURES: seq<Feature> :=
    [Age, DiabetesMellitus, Hypertension, Anemia, Creatinine, AlbuminLow, SystolicBp, HeartRate]

  /** The rows `fs` contributes: each feature whose contribution is positive, in order. */
  function TableOf(fs: seq<Feature>, p: Profile): seq<Entry>
  {
    if fs == [] then []
    else
      var f := fs[|fs| - 1];
      var c := Contribution(f, p);
      TableOf(fs[..|fs| - 1], p) + (if c > 0.0 then [(f, c)] else [])
  }

  /**
   * A row of `TableOf(fs, p)` is a feature of `fs` with its positive
   * contribution, and every feature of `fs` with a positive contribution has
   * its row.
   */
  lemma {:induction false} TableOfRows(fs: seq<Feature>, p: Profile)
    ensures |TableOf(fs, p)| <= |fs|
    ensures forall e :: e in TableOf(fs, p) ==> e.0 in fs && e.1 == Contribution(e.0, p) && e.1 > 0.0
    ensures forall f :: f in fs && Contribution(f, p) > 0.0 ==> (f, Contribution(f, p)) in TableOf(fs, p)
  {
    if fs != [] {
      var f := fs[|fs| - 1];
      TableOfRows(fs[..|fs| - 1], p);
      assert forall g :: g in fs ==> g == f || g in fs[..|fs| - 1];
      assert forall g :: g in fs[..|fs| - 1] ==> g in fs;
    }
  }

  /** The contribution table without its baseline row. */
  function Table(p: Profile): seq<Entry>
  {
    TableOf(SCORED_FEATURES, p)
  }

  /** A feature has a row exactly when it is scored and its contribution is positive. */
  lemma TableRows(p: Profile, f: Feature)
    ensures (f, Contribution(f, p)) in Table(p) <==> f != Baseline && Contribution(f, p) > 0.0
    ensures forall c :: (f, c) in Table(p) ==> c == Contribution(f, p)
  {
    TableOfRows(SCORED_FEATURES, p);
    assert f != Baseline ==> f in SCORED_FEATURES by {
      match f
      case Baseline =>
      case Age => assert SCORED_FEATURES[0] == f;
      case DiabetesMellitus => assert SCORED_FEATURES[1] == f;
      case Hypertension => assert SCORED_FEATURES[2] == f;
      case Anemia => assert SCORED_FEATURES[3] == f;
      case Creatinine => assert SCORED_FEATURES[4] == f;
      case AlbuminLow => assert SCORED_FEATURES[5] == f;
      case SystolicBp => assert SCORED_FEATURES[6] == f;
      case HeartRate => assert SCORED_FEATURES[7] == f;
    }
  }

  /** The table never holds a baseline row. */
  lemma TableExcludesBaseline(p: Profile)
    ensures forall e :: e in Table(p) ==> e.0 != Baseline
  {
    TableOfRows(SCORED_FEATURES, p);
    forall e | e in Table(p)
      ensures e.0 != Baseline
    {
      assert e.0 in SCORED_FEATURES;
    }
  }

  /** Features whose ranks increase strictly along `fs`. */
  predicate RankIncreasing(fs: seq<Feature>)
  {
    forall i, j :: 0 <= i < j < |fs| ==> Rank(fs[i]) < Rank(fs[j])
  }

  lemma {:induction false} TableOfInInsertionOrder(fs: seq<Feature>, p: Profile)
    requires RankIncreasing(fs)
    ensures InInsertionOrder(TableOf(fs, p))
  {
    if fs != [] {
      var f := fs[|fs| - 1];
      var init := fs[..|fs| - 1];
      assert RankIncreasing(init);
      TableOfInInsertionOrder(init, p);
      TableOfRows(init, p);
      var t := TableOf(init, p);
      forall e | e in t
        ensures Rank(e.0) < Rank(f)
      {
        var k :| 0 <= k < |init| && init[k] == e.0;
      }
      var r := TableOf(fs, p);
      forall i, j | 0 <= i < j < |r|
        ensures Rank(r[i].0) < Rank(r[j].0)
      {
        if j < |t| {
          assert r[i] == t[i] && r[j] == t[j];
        } else {
          assert r[i] == t[i] && r[i] in t;
        }
      }
    }
  }

  /** The table lists its rows in insertion order. */
  lemma TableInInsertionOrder(p: Profile)
    ensures InInsertionOrder(Table(p))
  {
    TableOfInInsertionOrder(SCORED_FEATURES, p);
  }

  function SumValues(t: seq<Entry>): real
  {
    if t == [] then 0.0 else SumValues(t[..|t| - 1]) + t[|t| - 1].1
  }

  lemma SumValuesAppend(t: seq<Entry>, e: Entry)
    ensures SumValues(t + [e]) == SumValues(t) + e.1
  {
    assert (t + [e])[..|t|] == t;
  }

  /** The sum of the contributions of `fs`, zero or not. */
  function TotalContribution(fs: seq<Feature>, p: Profile): real
  {
    if fs == [] then 0.0 else TotalContribution(fs[..|fs| - 1], p) + Contribution(fs[|fs| - 1], p)
  }

  /** Leaving out the zero contributions does not change the sum. */
  lemma {:induction false} TableSum(fs: seq<Feature>, p: Profile)
    ensures SumValues(TableOf(fs, p)) == TotalContribution(fs, p)
  {
    if fs != [] {
      var f := fs[|fs| - 1];
      TableSum(fs[..|fs| - 1], p);
      if Contribution(f, p) > 0.0 {
        SumValuesAppend(TableOf(fs[..|fs| - 1], p), (f, Contribution(f, p)));
      } else {
        assert TableOf(fs, p) == TableOf(fs[..|fs| - 1], p);
      }
    }
  }

  function TotalCap(fs: seq<Feature>): real
  {
    if fs == [] then 0.0 else TotalCap(fs[..|fs| - 1]) + Cap(fs[|fs| - 1])
  }

  lemma {:induction false} TotalContributionBounds(fs: seq<Feature>, p: Profile)
    ensures 0.0 <= TotalContribution(fs, p) <= TotalCap(fs)
  {
    if fs != [] {
      TotalContributionBounds(fs[..|fs| - 1], p);
    }
  }

  lemma ScoredCapTotal()
    ensures TotalCap(SCORED_FEATURES) == 1.35
  {
    var fs := SCORED_FEATURES;
    assert fs[..1][..0] == [];
    assert fs[..2][..1] == fs[..1];
    assert fs[..3][..2] == fs[..2];
    assert fs[..4][..3] == fs[..3];
    assert fs[..5][..4] == fs[..4];
    assert fs[..6][..5] == fs[..5];
    assert fs[..7][..6] == fs[..6];
    assert fs[..7] == fs[..|fs| - 1];
    assert TotalCap(fs[..1]) == 0.20;
    assert TotalCap(fs[..2]) == 0.40;
    assert TotalCap(fs[..3]) == 0.60;
    assert TotalCap(fs[..4]) == 0.70;
    assert TotalCap(fs[..5]) == 1.00;
    assert TotalCap(fs[..6]) == 1.10;
    assert TotalCap(fs[..7]) == 1.30;
  }

  /** Baseline plus every row of the table, before clamping. */
  function RawProbability(p: Profile): real
  {
    0.10 + SumValues(Table(p))
  }

  /** The probability clamped to [0, 0.99]. */
  function Probability(p: Profile): real
  {
    Max(0.0, Min(0.99, RawProbability(p)))
  }

  /**
   * The unclamped sum lies in [0.10, 1.45]; the clamp only caps it, so the
   * probability lies in [0.10, 0.99].
   */
  lemma ProbabilityBounds(p: Profile)
    ensures 0.10 <= RawProbability(p) <= 1.45
    ensures 0.10 <= Probability(p) <= 0.99
    ensures Probability(p) == Min(0.99, RawProbability(p))
  {
    TableSum(SCORED_FEATURES, p);
    TotalContributionBounds(SCORED_FEATURES, p);
    ScoredCapTotal();
  }

  /** The unclamped sum does reach 1.45, which the clamp cuts to 0.99. */
  lemma RawProbabilityReachesMaximum()
    ensures var p := Profile(100, Comorbidities(true, true, true),
                             Means(Some(2.2), Some(3.0), Some(170.0), Some(110.0)));
            RawProbability(p) == 1.45 && Probability(p) == 0.99
  {
    var p := Profile(100, Comorbidities(true, true, true),
                     Means(Some(2.2), Some(3.0), Some(170.0), Some(110.0)));
    forall f | f in SCORED_FEATURES
      ensures Contribution(f, p) == Cap(f)
    {
    }
    TableSum(SCORED_FEATURES, p);
    SameTotalAsCap(SCORED_FEATURES, p);
    ScoredCapTotal();
  }

  lemma {:induction false} SameTotalAsCap(fs: seq<Feature>, p: Profile)
    requires forall f :: f in fs ==> Contribution(f, p) == Cap(f)
    ensures TotalContribution(fs, p) == TotalCap(fs)
  {
    if fs != [] {
      assert forall f :: f in fs[..|fs| - 1] ==> f in fs;
      SameTotalAsCap(fs[..|fs| - 1], p);
    }
  }

  lemma {:induction false} TotalContributionMonotone(fs: seq<Feature>, p: Profile, q: Profile)
    requires forall f :: Contribution(f, p) <= Contribution(f, q)
    ensures TotalContribution(fs, p) <= TotalContribution(fs, q)
  {
    if fs != [] {
      TotalContributionMonotone(fs[..|fs| - 1], p, q);
    }
  }

  /** If no feature contributes less for `q` than for `p`, neither does the probability. */
  lemma ProbabilityMonotone(p: Profile, q: Profile)
    requires forall f :: Contribution(f, p) <= Contribution(f, q)
    ensures Probability(p) <= Probability(q)
  {
    TableSum(SCORED_FEATURES, p);
    TableSum(SCORED_FEATURES, q);
    TotalContributionMonotone(SCORED_FEATURES, p, q);
  }

  /** `b` is present wherever `a` is, and not lower. */
  predicate NotLower(a: Option<real>, b: Option<real>)
  {
    a.None? || (b.Some? && a.value <= b.value)
  }

  /** Raising mean creatinine, all else fixed, never lowers the probability. */
  lemma CreatinineMonotone(p: Profile, q: Profile)
    requires p.age == q.age && p.comorbidities == q.comorbidities
    requires p.means.albumin == q.means.albumin
    requires p.means.systolicBp == q.means.systolicBp
    requires p.means.heartRate == q.means.heartRate
    requires NotLower(p.means.creatinine, q.means.creatinine)
    ensures Probability(p) <= Probability(q)
  {
    if p.means.creatinine.Some? {
      CreatinineContributionMonotone(p.means.creatinine.value, q.means.creatinine.value);
    }
    ProbabilityMonotone(p, q);
  }

  /** Switching comorbidity flags from false to true, all else fixed, never lowers the probability. */
  lemma ComorbidityMonotone(p: Profile, q: Profile)
    requires p.age == q.age && p.means == q.means
    requires p.comorbidities.diabetesMellitus ==> q.comorbidities.diabetesMellitus
    requires p.comorbidities.hypertension ==> q.comorbidities.hypertension
    requires p.comorbidities.anemia ==> q.comorbidities.anemia
    ensures Probability(p) <= Probability(q)
  {
    ProbabilityMonotone(p, q);
  }

  /** An older patient, all else fixed, never gets a lower probability. */
  lemma AgeMonotone(p: Profile, q: Profile)
    requires p.age <= q.age && p.comorbidities == q.comorbidities && p.means == q.means
    ensures Probability(p) <= Probability(q)
  {
    AgeContributionMonotone(p.age, q.age);
    ProbabilityMonotone(p, q);
  }

  const HIGH_RISK := "High Risk"
  const MODERATE_RISK := "Moderate Risk"
  const LOW_RISK := "Low Risk"

  /** The risk level for a probability, with cut points 0.40 and 0.70. */
  function RiskLevel(probability: real): (level: string)
    ensures level == HIGH_RISK <==> probability >= 0.70
    ensures level == MODERATE_RISK <==> 0.40 <= probability < 0.70
    ensures level == LOW_RISK <==> probability < 0.40
  {
    if probability >= 0.70 then HIGH_RISK
    else if probability >= 0.40 then MODERATE_RISK
    else LOW_RISK
  }

  /** Rounds to two decimals, ties to the even hundredth. */
  function Round2(x: real): (r: real)
    ensures -0.005 <= r - x <= 0.005
    ensures (r * 100.0).Floor as real == r * 100.0
  {
    var scaled := x * 100.0;
    var whole := scaled.Floor;
    var frac := scaled - whole as real;
    var n := if frac > 0.5 || (frac == 0.5 && whole % 2 == 1) then whole + 1 else whole;
    assert (n as real / 100.0) * 100.0 == n as real;
    n as real / 100.0
  }

  /** Rounding keeps a value of [0.10, 0.99] inside [0.10, 0.99]. */
  lemma Round2KeepsRange(x: real)
    requires 0.10 <= x <= 0.99
    ensures 0.10 <= Round2(x) <= 0.99
  {
    var scaled := x * 100.0;
    var whole := scaled.Floor;
    assert 10 <= whole <= 99;
    if scaled - whole as real > 0.0 {
      assert whole <= 98;
    }
  }

  /** Rounding to two decimals never reverses the order of two values. */
  lemma Round2Monotone(x: real, y: real)
    requires x <= y
    ensures Round2(x) <= Round2(y)
  {
    var wx := (x * 100.0).Floor;
    var wy := (y * 100.0).Floor;
    assert wx <= wy;
    var fx := x * 100.0 - wx as real;
    var fy := y * 100.0 - wy as real;
    var nx := if fx > 0.5 || (fx == 0.5 && wx % 2 == 1) then wx + 1 else wx;
    var ny := if fy > 0.5 || (fy == 0.5 && wy % 2 == 1) then wy + 1 else wy;
    assert Round2(x) == nx as real / 100.0;
    assert Round2(y) == ny as real / 100.0;
    if wx == wy {
      assert fx <= fy;
    }
    assert nx <= ny;
  }
}
