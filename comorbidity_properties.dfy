/**
 * Properties of `calculate_comorbidity_score` and `get_risk_recommendation`
 * (preop-evaluation/scripts/comorbidity_assessment.py), stated about the specification `Assess`
 * that the procedure `CalculateComorbidityScore` is proved to compute.
 */
module ComorbidityProperties {
  import opened Ascii
  import opened Options
  import opened TextNormalizer
  import opened PatientRecord
  import opened ParsePatient
  import opened Comorbidity

  /**
   * The result rule by rule: the score is the sum of the four rules' points, and the labels and
   * considerations are their contributions appended in rule order.
   */
  lemma AssessByRule(patient: Record)
    requires BmiDefined(patient)
    ensures Assess(patient).score ==
      DiseasePart(patient).points + AgePart(patient.age).points + BmiPart(patient).points
      + EmergencyPart(patient).points
    ensures Assess(patient).comorbidities ==
      LabelSeq(DiseasePart(patient).comorbidity) + LabelSeq(AgePart(patient.age).comorbidity)
      + LabelSeq(BmiPart(patient).comorbidity) + LabelSeq(EmergencyPart(patient).comorbidity)
    ensures Assess(patient).considerations ==
      DiseasePart(patient).considerations + AgePart(patient.age).considerations
      + BmiPart(patient).considerations + EmergencyPart(patient).considerations
  {
    FoldFour(DiseasePart(patient), AgePart(patient.age), BmiPart(patient), EmergencyPart(patient));
  }

  // ---------------------------------------------------------------- the score

  /** The score lies between 0 and 15, and both ends are reached. */
  lemma ScoreRange(patient: Record)
    requires BmiDefined(patient)
    ensures 0 <= Assess(patient).score <= 15
    ensures Assess(patient).score == 15 <==>
      && patient.brainDead.GetOr(false)
      && AgePart(patient.age).points == 2 && BmiPart(patient).points == 2
      && patient.emergency.GetOr(false)
  {
    AssessByRule(patient);
  }

  /**
   * The systemic-disease rule awards exactly one of 10, 9, 6, 4, 1 or 0 points: brain death
   * first, then moribund, then the lower-cased tier.
   */
  lemma DiseasePoints(patient: Record)
    ensures var p := DiseasePart(patient).points;
      var tier := DiseaseTier(patient);
      && (p == 10 <==> patient.brainDead.GetOr(false))
      && (p == 9 <==> !patient.brainDead.GetOr(false) && patient.moribund.GetOr(false))
      && (p == 6 <==> !patient.brainDead.GetOr(false) && !patient.moribund.GetOr(false)
                      && tier == TierConstantThreat)
      && (p == 4 <==> !patient.brainDead.GetOr(false) && !patient.moribund.GetOr(false)
                      && tier == TierSevere)
      && (p == 1 <==> !patient.brainDead.GetOr(false) && !patient.moribund.GetOr(false)
                      && tier == TierMild)
      && (p == 0 <==> !patient.brainDead.GetOr(false) && !patient.moribund.GetOr(false)
                      && tier != TierConstantThreat && tier != TierSevere && tier != TierMild)
  {
  }

  /** The tier is compared after `.lower()`: its case does not matter. */
  lemma TierIgnoresCase(patient: Record, tier: string)
    requires BmiDefined(patient)
    ensures Assess(patient.(systemicDisease := Some(tier))) ==
            Assess(patient.(systemicDisease := Some(Lower(tier))))
  {
    LowerOfLowered(Lower(tier));
  }

  /** Age adds 2 points from 80, 1 point from 70 to 79, nothing below 70 or when absent. */
  lemma AgePoints(age: Option<int>)
    ensures AgePart(age).points == 2 <==> age.Some? && age.value >= 80
    ensures AgePart(age).points == 1 <==> age.Some? && 70 <= age.value < 80
    ensures AgePart(age).points == 0 <==> age.None? || age.value < 70
  {
  }

  /** An older patient never scores lower, everything else being equal. */
  lemma AgeMonotone(patient: Record, younger: int, older: int)
    requires BmiDefined(patient) && younger <= older
    ensures Assess(patient.(age := Some(younger))).score <= Assess(patient.(age := Some(older))).score
  {
    AssessByRule(patient.(age := Some(younger)));
    AssessByRule(patient.(age := Some(older)));
  }

  /**
   * The BMI rule fires only with both weight and height: obesity (2 points, two considerations)
   * from a BMI of 35, overweight (1 point, none) from 30, and the label carries the BMI.
   */
  lemma BmiPoints(patient: Record)
    requires BmiDefined(patient)
    ensures patient.weightKg.None? || patient.heightCm.None? ==> BmiPart(patient) == Nothing
    ensures patient.weightKg.Some? && patient.heightCm.Some? ==>
      var bmi := Bmi(patient.weightKg.value, patient.heightCm.value);
      && (BmiPart(patient).points == 2 <==> bmi >= 35.0)
      && (BmiPart(patient).points == 1 <==> 30.0 <= bmi < 35.0)
      && (BmiPart(patient).points == 0 <==> BmiPart(patient) == Nothing)
      && (BmiPart(patient).comorbidity.Some? ==> BmiPart(patient).comorbidity.value.bmi == bmi)
      && |BmiPart(patient).considerations| == 2 * (BmiPart(patient).points / 2)
  {
  }

  /** 100 kg at 160 cm is a BMI of 39.0625: obese, labelled with 39.1. */
  lemma ObesityExample()
    ensures Bmi(100.0, 160.0) == 39.0625
    ensures BmiPart(EmptyRecord.(weightKg := Some(100.0), heightCm := Some(160.0)))
      == Part(2, Some(Obesity(39.0625)), [AspirationRisk, AirwayAssessment])
    ensures Obesity(39.0625).Text() == "Obesity (BMI 39.1)"
  {
    assert (390.625).Floor == 390;
    assert NatToString(39) == "39";
  }

  /**
   * Emergency status adds exactly one point, appends "Emergency procedure" as the last label and
   * its two considerations at the end.
   */
  lemma EmergencyAddsOne(patient: Record)
    requires BmiDefined(patient)
    ensures var yes := Assess(patient.(emergency := Some(true)));
      var no := Assess(patient.(emergency := None));
      && yes.score == no.score + 1
      && yes.comorbidities == no.comorbidities + [EmergencyProcedure]
      && yes.considerations == no.considerations + [LimitedOptimization, NpoStatus]
  {
    var yes := patient.(emergency := Some(true));
    var no := patient.(emergency := None);
    assert DiseasePart(yes) == DiseasePart(no) && AgePart(yes.age) == AgePart(no.age);
    assert BmiPart(yes) == BmiPart(no);
    assert EmergencyPart(yes) == Part(1, Some(EmergencyProcedure), [LimitedOptimization, NpoStatus]);
    assert EmergencyPart(no) == Nothing;
    AssessByRule(yes);
    AssessByRule(no);
  }

  /** Labels appear in rule order, so each rule contributes at most one. */
  lemma LabelsInRuleOrder(patient: Record)
    requires BmiDefined(patient)
    ensures var c := Assess(patient).comorbidities;
      forall i, j :: 0 <= i < j < |c| ==> c[i].RuleOf().Order() < c[j].RuleOf().Order()
    ensures |Assess(patient).comorbidities| <= 4
  {
    AssessByRule(patient);
    OrderedLabels(DiseasePart(patient).comorbidity, AgePart(patient.age).comorbidity,
                  BmiPart(patient).comorbidity, EmergencyPart(patient).comorbidity);
  }

  /** At most one label from each of four rules, concatenated in rule order, is strictly ordered. */
  lemma OrderedLabels(d: Option<Comorbidity>, a: Option<Comorbidity>, b: Option<Comorbidity>,
                      e: Option<Comorbidity>)
    requires d.Some? ==> d.value.RuleOf() == DiseaseRule
    requires a.Some? ==> a.value.RuleOf() == AgeRule
    requires b.Some? ==> b.value.RuleOf() == BmiRule
    requires e.Some? ==> e.value.RuleOf() == EmergencyRule
    ensures var c := LabelSeq(d) + LabelSeq(a) + LabelSeq(b) + LabelSeq(e);
      && |c| <= 4
      && forall i, j :: 0 <= i < j < |c| ==> c[i].RuleOf().Order() < c[j].RuleOf().Order()
  {
    var da := LabelSeq(d) + LabelSeq(a);
    var dab := da + LabelSeq(b);
    var c := dab + LabelSeq(e);
    forall k | 0 <= k < |c|
      ensures c[k].RuleOf().Order() == (if k < |LabelSeq(d)| then 0 else if k < |da| then 1
                                       else if k < |dab| then 2 else 3)
    {
    }
  }

  // ---------------------------------------------------------------- risk category

  /** A higher score never gives a lower risk category. */
  lemma RiskMonotone(s1: int, s2: int)
    requires s1 <= s2
    ensures RiskOf(s1).Rank() <= RiskOf(s2).Rank()
  {
  }

  /** The four categories have distinct keys. */
  lemma KeysDistinct(c1: RiskCategory, c2: RiskCategory)
    requires c1.Key() == c2.Key()
    ensures c1 == c2
  {
    assert c1.Key()[0] == c2.Key()[0];
    assert c1.Key()[..1] == c2.Key()[..1];
  }

  /**
   * Every category the scorer produces has its own recommendation, never the fallback, and
   * different categories get different recommendations.
   */
  lemma RecommendationsDistinct(c1: RiskCategory, c2: RiskCategory)
    ensures GetRiskRecommendation(c1.Key()) != UnknownRecommendation
    ensures c1 != c2 ==> GetRiskRecommendation(c1.Key()) != GetRiskRecommendation(c2.Key())
  {
    assert c1.Key() in Recommendations && c2.Key() in Recommendations;
    assert LowRiskText != ModerateRiskText && LowRiskText != HighRiskText && LowRiskText != VeryHighRiskText;
    assert ModerateRiskText != HighRiskText && ModerateRiskText != VeryHighRiskText;
    assert HighRiskText != VeryHighRiskText;
  }

  /** The lookup is case-sensitive: "Low" is not a key. */
  lemma RecommendationCaseSensitive()
    ensures GetRiskRecommendation("Low") == UnknownRecommendation
  {
    assert "Low" != "low" by { assert "Low"[0] != "low"[0]; }
    assert "Low" != "moderate" && "Low" != "high" && "Low" != "very_high" by {
      assert |"Low"| == 3 && |"moderate"| == 8 && |"high"| == 4 && |"very_high"| == 9;
    }
  }

  // ---------------------------------------------------------------- together with parse_patient

  /** A height that `parse_patient` keeps is positive, so its records never divide by zero. */
  lemma ParsedRecordBmiDefined(procedureName: string, freeText: string)
    ensures BmiDefined(ParsedRecord(procedureName, freeText))
  {
    var t := Normalize(procedureName, freeText);
    var h := HeightFromText(t);
    if h.Some? {
      var hit := FirstHit(HeightHits(t), 0);
      var cm := HeightValue(hit.value.1.1);
      Round2Within(cm, 8000, 25000);
    }
  }

  /**
   * A brain-dead donor whose record carries no weight, no age of 70 or more and no emergency
   * flag scores exactly 10, which is the `high` category, not `very_high`.
   */
  lemma BrainDeadDonorIsHighRisk(procedureName: string, freeText: string)
    requires var t := Normalize(procedureName, freeText);
      BrainDeadCase(t) && WeightFromText(t).None? && (AgeFromText(t).None? || AgeFromText(t).value < 70)
    ensures ParsedRecord(procedureName, freeText).brainDead == Some(true)
    ensures BmiDefined(ParsedRecord(procedureName, freeText))
    ensures Assess(ParsedRecord(procedureName, freeText)).score == 10
    ensures Assess(ParsedRecord(procedureName, freeText)).riskCategory == High
  {
    var r := ParsedRecord(procedureName, freeText);
    ParsedRecordBmiDefined(procedureName, freeText);
    AssessByRule(r);
  }
}
