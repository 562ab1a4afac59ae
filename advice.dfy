/**
 * Recommendations: fixed rules checked in a fixed order, a generic list
 * when none fires, and a cap of four entries.
 */
module Advice {
  import opened Schema
  import opened Scoring

  datatype Rule =
    | MonitorCreatinine
    | CheckBloodPressure
    | NephrologyConsultation
    | GlycemicControl
    | NutritionReview

  /** The recommendation a rule adds. */
  function Text(rule: Rule): string
  {
    match rule
    case MonitorCreatinine => "Monitor creatinine levels"
    case CheckBloodPressure => "Check blood pressure daily"
    case NephrologyConsultation => "Schedule nephrology consultation"
    case GlycemicControl => "Optimize glycemic control"
    case NutritionReview => "Assess nutrition and albumin levels"
  }

  /** The order in which the rules are checked. */
  const RULE_ORDER: seq<Rule> :=
    [MonitorCreatinine, CheckBloodPressure, NephrologyConsultation, GlycemicControl, NutritionReview]

  /** Position of a rule in `RULE_ORDER`. */
  function Priority(rule: Rule): nat
  {
    match rule
    case MonitorCreatinine => 0
    case CheckBloodPressure => 1
    case NephrologyConsultation => 2
    case GlycemicControl => 3
    case NutritionReview => 4
  }

  /** Whether a rule fires for a risk level, the reported features and the mean systolic pressure. */
  predicate Fires(rule: Rule, level: string, top: seq<string>, meanSbp: Option<real>)
  {
    match rule
    case MonitorCreatinine => "creatinine" in top
    case CheckBloodPressure => "hypertension" in top || (meanSbp.Some? && meanSbp.value > 140.0)
    case NephrologyConsultation => level == HIGH_RISK
    case GlycemicControl => "diabetes_mellitus" in top
    case NutritionReview => "albumin" in top
  }

  /** The text a rule adds when it fires. */
  function TextIf(rule: Rule, level: string, top: seq<string>, meanSbp: Option<real>): seq<string>
  {
    if Fires(rule, level, top, meanSbp) then [Text(rule)] else []
  }

  /** The texts of the rules of `rules` that fire, in order. */
  function FiredTexts(rules: seq<Rule>, level: string, top: seq<string>, meanSbp: Option<real>): seq<string>
  {
    if rules == [] then []
    else FiredTexts(rules[..|rules| - 1], level, top, meanSbp) + TextIf(rules[|rules| - 1], level, top, meanSbp)
  }

  /** Given when no rule fires. */
  const GENERIC_ADVICE: seq<string> :=
    ["Maintain healthy lifestyle", "Follow up with primary care", "Repeat labs in 3 months"]

  const MAX_RECOMMENDATIONS := 4

  function Recommend(level: string, top: seq<string>, meanSbp: Option<real>): seq<string>
  {
    var fired := FiredTexts(RULE_ORDER, level, top, meanSbp);
    var recommendations := if fired == [] then GENERIC_ADVICE else fired;
    recommendations[..if |recommendations| < MAX_RECOMMENDATIONS then |recommendations| else MAX_RECOMMENDATIONS]
  }

  lemma TextInjective(a: Rule, b: Rule)
    requires a != b
    ensures Text(a) != Text(b)
  {
  }

  lemma TextNotGeneric(r: Rule)
    ensures Text(r) !in GENERIC_ADVICE
  {
  }

  lemma FiredInRuleOrder(level: string, top: seq<string>, meanSbp: Option<real>)
    ensures FiredTexts(RULE_ORDER, level, top, meanSbp)
      == TextIf(MonitorCreatinine, level, top, meanSbp)
       + TextIf(CheckBloodPressure, level, top, meanSbp)
       + TextIf(NephrologyConsultation, level, top, meanSbp)
       + TextIf(GlycemicControl, level, top, meanSbp)
       + TextIf(NutritionReview, level, top, meanSbp)
  {
    var rs := RULE_ORDER;
    assert rs[..1][..0] == [];
    assert FiredTexts(rs[..1], level, top, meanSbp) == TextIf(rs[0], level, top, meanSbp);
    assert rs[..2][..1] == rs[..1];
    assert FiredTexts(rs[..2], level, top, meanSbp)
      == FiredTexts(rs[..1], level, top, meanSbp) + TextIf(rs[1], level, top, meanSbp);
    assert rs[..3][..2] == rs[..2];
    assert FiredTexts(rs[..3], level, top, meanSbp)
      == FiredTexts(rs[..2], level, top, meanSbp) + TextIf(rs[2], level, top, meanSbp);
    assert rs[..4][..3] == rs[..3];
    assert FiredTexts(rs[..4], level, top, meanSbp)
      == FiredTexts(rs[..3], level, top, meanSbp) + TextIf(rs[3], level, top, meanSbp);
    assert rs[..4] == rs[..|rs| - 1];
  }

  /** A rule's text is among the fired texts exactly when the rule fires. */
  lemma FiredMembership(level: string, top: seq<string>, meanSbp: Option<real>, r: Rule)
    ensures Text(r) in FiredTexts(RULE_ORDER, level, top, meanSbp) <==> Fires(r, level, top, meanSbp)
  {
    FiredInRuleOrder(level, top, meanSbp);
    match r
    case MonitorCreatinine =>
    case CheckBloodPressure =>
    case NephrologyConsultation =>
    case GlycemicControl =>
    case NutritionReview =>
  }

  /** The cap of four cuts something only when all five rules fire, and then only the last text. */
  lemma CapCutsOnlyLast(level: string, top: seq<string>, meanSbp: Option<real>)
    ensures var fired := FiredTexts(RULE_ORDER, level, top, meanSbp);
      !(forall r :: Fires(r, level, top, meanSbp)) ==>
        Recommend(level, top, meanSbp) == if fired == [] then GENERIC_ADVICE else fired
    ensures (forall r :: Fires(r, level, top, meanSbp)) ==>
      Recommend(level, top, meanSbp) == [Text(MonitorCreatinine), Text(CheckBloodPressure),
                                         Text(NephrologyConsultation), Text(GlycemicControl)]
  {
    FiredInRuleOrder(level, top, meanSbp);
    var fired := FiredTexts(RULE_ORDER, level, top, meanSbp);
    if forall r :: Fires(r, level, top, meanSbp) {
      assert Fires(MonitorCreatinine, level, top, meanSbp) && Fires(CheckBloodPressure, level, top, meanSbp)
        && Fires(NephrologyConsultation, level, top, meanSbp) && Fires(GlycemicControl, level, top, meanSbp)
        && Fires(NutritionReview, level, top, meanSbp);
      assert fired == [Text(MonitorCreatinine), Text(CheckBloodPressure), Text(NephrologyConsultation),
                       Text(GlycemicControl), Text(NutritionReview)];
    } else {
      var r :| !Fires(r, level, top, meanSbp);
      assert |fired| <= 4 by {
        match r
        case MonitorCreatinine =>
        case CheckBloodPressure =>
        case NephrologyConsultation =>
        case GlycemicControl =>
        case NutritionReview =>
      }
    }
  }

  /** No rule fires exactly when the fired list is empty. */
  lemma NoneFired(level: string, top: seq<string>, meanSbp: Option<real>)
    ensures FiredTexts(RULE_ORDER, level, top, meanSbp) == [] <==> forall r :: !Fires(r, level, top, meanSbp)
  {
    FiredInRuleOrder(level, top, meanSbp);
    if FiredTexts(RULE_ORDER, level, top, meanSbp) == [] {
      forall r
        ensures !Fires(r, level, top, meanSbp)
      {
        FiredMembership(level, top, meanSbp, r);
      }
    } else {
      var t := FiredTexts(RULE_ORDER, level, top, meanSbp)[0];
      assert Fires(MonitorCreatinine, level, top, meanSbp) || Fires(CheckBloodPressure, level, top, meanSbp)
        || Fires(NephrologyConsultation, level, top, meanSbp) || Fires(GlycemicControl, level, top, meanSbp)
        || Fires(NutritionReview, level, top, meanSbp);
    }
  }

  /**
   * The recommendation list: one to four entries; the nephrology referral
   * exactly for high risk; the blood-pressure advice exactly when
   * "hypertension" is reported or the mean systolic pressure exceeds 140;
   * the creatinine and glycemic advice exactly when their feature is
   * reported; the nutrition advice exactly when "albumin" is reported and
   * not all four other rules fire; the generic list exactly when no rule fires.
   */
  lemma RecommendContents(level: string, top: seq<string>, meanSbp: Option<real>)
    ensures 1 <= |Recommend(level, top, meanSbp)| <= MAX_RECOMMENDATIONS
    ensures Text(NephrologyConsultation) in Recommend(level, top, meanSbp) <==> level == HIGH_RISK
    ensures Text(CheckBloodPressure) in Recommend(level, top, meanSbp)
      <==> "hypertension" in top || (meanSbp.Some? && meanSbp.value > 140.0)
    ensures Text(MonitorCreatinine) in Recommend(level, top, meanSbp) <==> "creatinine" in top
    ensures Text(GlycemicControl) in Recommend(level, top, meanSbp) <==> "diabetes_mellitus" in top
    ensures Text(NutritionReview) in Recommend(level, top, meanSbp)
      <==> "albumin" in top && !(forall r :: r != NutritionReview ==> Fires(r, level, top, meanSbp))
    ensures (forall r :: !Fires(r, level, top, meanSbp)) <==> Recommend(level, top, meanSbp) == GENERIC_ADVICE
  {
    var fired := FiredTexts(RULE_ORDER, level, top, meanSbp);
    var recs := Recommend(level, top, meanSbp);
    CapCutsOnlyLast(level, top, meanSbp);
    NoneFired(level, top, meanSbp);
    FiredInRuleOrder(level, top, meanSbp);
    forall r
      ensures Text(r) !in GENERIC_ADVICE
    {
      TextNotGeneric(r);
    }
    if fired == [] {
      assert forall r :: Text(r) !in recs;
    } else if forall r :: Fires(r, level, top, meanSbp) {
      assert recs == [Text(MonitorCreatinine), Text(CheckBloodPressure),
                      Text(NephrologyConsultation), Text(GlycemicControl)];
      assert Text(NutritionReview) !in recs;
    } else {
      assert recs == fired;
      forall r
        ensures Text(r) in recs <==> Fires(r, level, top, meanSbp)
      {
        FiredMembership(level, top, meanSbp, r);
      }
      assert (forall r :: r != NutritionReview ==> Fires(r, level, top, meanSbp)) ==> !Fires(NutritionReview, level, top, meanSbp);
      assert recs != GENERIC_ADVICE by {
        var t := Text(MonitorCreatinine);
        assert recs[0] in fired;
      }
    }
  }

  /** The priority of the rule that adds text `t`; 5 for any other text. */
  function TextPriority(t: string): nat
  {
    if t == Text(MonitorCreatinine) then 0
    else if t == Text(CheckBloodPressure) then 1
    else if t == Text(NephrologyConsultation) then 2
    else if t == Text(GlycemicControl) then 3
    else if t == Text(NutritionReview) then 4
    else 5
  }

  lemma TextPriorityOfRule()
    ensures forall r :: TextPriority(Text(r)) == Priority(r)
  {
    forall r
      ensures TextPriority(Text(r)) == Priority(r)
    {
      match r
      case MonitorCreatinine =>
      case CheckBloodPressure =>
      case NephrologyConsultation =>
      case GlycemicControl =>
      case NutritionReview =>
    }
  }

  /** Every fired text is the text of a rule of `rules` that fires. */
  lemma {:induction false} FiredTextsFromRules(rules: seq<Rule>, level: string, top: seq<string>, meanSbp: Option<real>)
    ensures forall t :: t in FiredTexts(rules, level, top, meanSbp) ==>
      exists r :: r in rules && Fires(r, level, top, meanSbp) && t == Text(r)
  {
    if rules != [] {
      FiredTextsFromRules(rules[..|rules| - 1], level, top, meanSbp);
      assert forall r :: r in rules[..|rules| - 1] ==> r in rules;
    }
  }

  /** Texts listed by strictly increasing rule priority. */
  predicate InRuleOrder(texts: seq<string>)
  {
    forall i, j :: 0 <= i < j < |texts| ==> TextPriority(texts[i]) < TextPriority(texts[j])
  }

  /** For rules listed by increasing priority, the fired texts come in priority order. */
  lemma {:induction false} FiredTextsOrdered(rules: seq<Rule>, level: string, top: seq<string>, meanSbp: Option<real>)
    requires forall i, j :: 0 <= i < j < |rules| ==> Priority(rules[i]) < Priority(rules[j])
    ensures InRuleOrder(FiredTexts(rules, level, top, meanSbp))
  {
    if rules != [] {
      var last := rules[|rules| - 1];
      var init := rules[..|rules| - 1];
      FiredTextsOrdered(init, level, top, meanSbp);
      FiredTextsFromRules(init, level, top, meanSbp);
      TextPriorityOfRule();
      var head := FiredTexts(init, level, top, meanSbp);
      var fired := FiredTexts(rules, level, top, meanSbp);
      assert fired == head + TextIf(last, level, top, meanSbp);
      forall i, j | 0 <= i < j < |fired|
        ensures TextPriority(fired[i]) < TextPriority(fired[j])
      {
        assert fired[i] == head[i];
        if j == |head| {
          assert head[i] in head;
          var r :| r in init && Fires(r, level, top, meanSbp) && head[i] == Text(r);
          var k :| 0 <= k < |init| && init[k] == r;
          assert rules[k] == r && k < |rules| - 1;
          assert fired[j] == Text(last);
          assert TextPriority(head[i]) == Priority(r);
          assert TextPriority(fired[j]) == Priority(last);
          assert Priority(r) < Priority(last);
        } else {
          assert j < |head|;
          assert fired[j] == head[j];
        }
      }
    }
  }

  /** When some rule fires, the list holds texts of firing rules, in rule order. */
  lemma RecommendInRuleOrder(level: string, top: seq<string>, meanSbp: Option<real>)
    requires exists r :: Fires(r, level, top, meanSbp)
    ensures forall t :: t in Recommend(level, top, meanSbp) ==>
      exists r :: Fires(r, level, top, meanSbp) && t == Text(r)
    ensures InRuleOrder(Recommend(level, top, meanSbp))
  {
    NoneFired(level, top, meanSbp);
    FiredTextsFromRules(RULE_ORDER, level, top, meanSbp);
    FiredTextsOrdered(RULE_ORDER, level, top, meanSbp);
    var fired := FiredTexts(RULE_ORDER, level, top, meanSbp);
    var recs := Recommend(level, top, meanSbp);
    assert forall i :: 0 <= i < |recs| ==> recs[i] == fired[i];
    assert forall t :: t in recs ==> t in fired;
  }
}
