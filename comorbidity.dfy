/**
 * `calculate_comorbidity_score` and `get_risk_recommendation`
 * (preop-evaluation/scripts/comorbidity_assessment.py).
 *
 * Four rules each add points, at most one comorbidity label and some considerations, in a fixed
 * order: systemic disease (brain dead, moribund, or the disease tier), age, body-mass index and
 * emergency status. The total score is then bucketed into a risk category.
 *
 * `Assess` is the specification: each rule is a `Part`, and the result folds the four parts in
 * rule order. `CalculateComorbidityScore` is the procedure as the source writes it, one local
 * accumulator updated rule by rule, and is proved to compute `Assess`.
 */
module Comorbidity {
  import opened Ascii
  import opened Options
  import opened PatientRecord

  // ---------------------------------------------------------------- labels

  /** The rules, in the order the source applies them. */
  datatype Rule = DiseaseRule | AgeRule | BmiRule | EmergencyRule {
    function Order(): nat {
      match this
      case DiseaseRule => 0
      case AgeRule => 1
      case BmiRule => 2
      case EmergencyRule => 3
    }
  }

  /** The entries of the `comorbidities` list; the two BMI labels carry the computed BMI. */
  datatype Comorbidity =
    | BrainDeadProcurement | MoribundDying | LifeThreateningDisease | SevereDisease | MildDisease
    | AgeEighty | AgeSeventies
    | Obesity(bmi: real) | Overweight(bmi: real)
    | EmergencyProcedure
  {
    function RuleOf(): Rule {
      match this
      case BrainDeadProcurement | MoribundDying | LifeThreateningDisease | SevereDisease | MildDisease =>
        DiseaseRule
      case AgeEighty | AgeSeventies => AgeRule
      case Obesity(_) | Overweight(_) => BmiRule
      case EmergencyProcedure => EmergencyRule
    }

    /** The string the source appends. */
    function Text(): string {
      match this
      case BrainDeadProcurement => "Brain dead - organ procurement case"
      case MoribundDying => "Moribund - actively dying"
      case LifeThreateningDisease =>
        "Life-threatening systemic disease (septic shock, ECMO, respiratory failure, etc.)"
      case SevereDisease => "Severe systemic disease (cirrhosis, heart failure, ESRD, etc.)"
      case MildDisease => "Mild systemic disease (controlled HTN, DM, asthma, etc.)"
      case AgeEighty => "Age \U{2265}80 years"
      case AgeSeventies => "Age 70-79"
      case Obesity(b) => "Obesity (BMI " + OneDecimal(b) + ")"
      case Overweight(b) => "Overweight (BMI " + OneDecimal(b) + ")"
      case EmergencyProcedure => "Emergency procedure"
    }
  }

  /** The entries of the `considerations` list. */
  datatype Consideration =
    | IcuAdmission | OptimizeHemodynamics | FluidManagement | RegionalAnesthesia
    | HomeMedications | DeliriumRisk | AspirationRisk | AirwayAssessment
    | LimitedOptimization | NpoStatus
  {
    function Text(): string {
      match this
      case IcuAdmission => "Consider ICU admission post-op"
      case OptimizeHemodynamics => "Optimize hemodynamics pre-op"
      case FluidManagement => "Careful fluid management"
      case RegionalAnesthesia => "Consider regional anesthesia if appropriate"
      case HomeMedications => "Continue home medications"
      case DeliriumRisk => "Increased risk of delirium and cognitive decline"
      case AspirationRisk => "Increased aspiration risk - modified rapid sequence"
      case AirwayAssessment => "Difficult airway assessment essential"
      case LimitedOptimization => "Limited preop optimization time"
      case NpoStatus => "NPO status may not be met"
    }
  }

  // ---------------------------------------------------------------- `{bmi:.1f}`

  /** The integer nearest to `y`, a tie going to the even neighbour. */
  function RoundHalfEven(y: real): (n: int)
    ensures y - 0.5 <= n as real <= y + 0.5
  {
    var f := y.Floor;
    var d := y - f as real;
    if d > 0.5 || (d == 0.5 && f % 2 == 1) then f + 1 else f
  }

  /** `format(x, ".1f")` on the exact value: tenths rounded half to even, one decimal digit. */
  function OneDecimal(x: real): string {
    var tenths := RoundHalfEven(x * 10.0);
    var magnitude: nat := if tenths < 0 then -tenths else tenths;
    (if x < 0.0 then "-" else "") + NatToString(magnitude / 10) + "." + [DigitChar(magnitude % 10)]
  }

  // ---------------------------------------------------------------- risk categories

  datatype RiskCategory = Low | Moderate | High | VeryHigh {
    /** The `risk_category` string. */
    function Key(): string {
      match this
      case Low => "low"
      case Moderate => "moderate"
      case High => "high"
      case VeryHigh => "very_high"
    }

    function Rank(): nat {
      match this
      case Low => 0
      case Moderate => 1
      case High => 2
      case VeryHigh => 3
    }
  }

  /** Lines 97-104: thresholds 12, 8 and 3. */
  function RiskOf(score: int): (c: RiskCategory)
    ensures c == VeryHigh <==> score >= 12
    ensures c == High <==> 8 <= score < 12
    ensures c == Moderate <==> 3 <= score < 8
    ensures c == Low <==> score < 3
  {
    if score >= 12 then VeryHigh
    else if score >= 8 then High
    else if score >= 3 then Moderate
    else Low
  }

  // ---------------------------------------------------------------- the four rules

  /** What one rule contributes: points, at most one label, and considerations. */
  datatype Part = Part(points: nat, comorbidity: Option<Comorbidity>, considerations: seq<Consideration>)

  const Nothing := Part(0, None, [])

  /** `patient.get('systemic_disease', 'none').lower()` */
  function DiseaseTier(patient: Record): string {
    Lower(patient.systemicDisease.GetOr(TierNone))
  }

  /** Lines 36-55. */
  function DiseasePart(patient: Record): Part {
    var tier := DiseaseTier(patient);
    if patient.brainDead.GetOr(false) then Part(10, Some(BrainDeadProcurement), [])
    else if patient.moribund.GetOr(false) then Part(9, Some(MoribundDying), [])
    else if tier == TierConstantThreat then
      Part(6, Some(LifeThreateningDisease), [IcuAdmission, OptimizeHemodynamics])
    else if tier == TierSevere then Part(4, Some(SevereDisease), [FluidManagement, RegionalAnesthesia])
    else if tier == TierMild then Part(1, Some(MildDisease), [HomeMedications])
    else Nothing
  }

  /** Lines 60-67. */
  function AgePart(age: Option<int>): Part {
    if age.None? then Nothing
    else if age.value >= 80 then Part(2, Some(AgeEighty), [DeliriumRisk])
    else if age.value >= 70 then Part(1, Some(AgeSeventies), [])
    else Nothing
  }

  /** The source divides by the height; it demands a non-zero height when both values are present. */
  predicate BmiDefined(patient: Record) {
    patient.weightKg.Some? && patient.heightCm.Some? ==> patient.heightCm.value != 0.0
  }

  /** `weight_kg / ((height_cm / 100) ** 2)` */
  function Bmi(weightKg: real, heightCm: real): real
    requires heightCm != 0.0
  {
    weightKg / ((heightCm / 100.0) * (heightCm / 100.0))
  }

  /** Lines 72-83: only when both weight and height are present. */
  function BmiPart(patient: Record): Part
    requires BmiDefined(patient)
  {
    if patient.weightKg.None? || patient.heightCm.None? then Nothing
    else
      var bmi := Bmi(patient.weightKg.value, patient.heightCm.value);
      if bmi >= 35.0 then Part(2, Some(Obesity(bmi)), [AspirationRisk, AirwayAssessment])
      else if bmi >= 30.0 then Part(1, Some(Overweight(bmi)), [])
      else Nothing
  }

  /** Lines 88-92. */
  function EmergencyPart(patient: Record): Part {
    if patient.emergency.GetOr(false) then
      Part(1, Some(EmergencyProcedure), [LimitedOptimization, NpoStatus])
    else Nothing
  }

  function Parts(patient: Record): seq<Part>
    requires BmiDefined(patient)
  {
    [DiseasePart(patient), AgePart(patient.age), BmiPart(patient), EmergencyPart(patient)]
  }

  // ---------------------------------------------------------------- the result

  /** The returned dictionary: `score`, `risk_category`, `comorbidities`, `considerations`. */
  datatype Assessment = Assessment(
    score: int,
    riskCategory: RiskCategory,
    comorbidities: seq<Comorbidity>,
    considerations: seq<Consideration>)

  function LabelSeq(c: Option<Comorbidity>): seq<Comorbidity> {
    if c.Some? then [c.value] else []
  }

  function TotalPoints(parts: seq<Part>): nat {
    if parts == [] then 0 else TotalPoints(parts[..|parts| - 1]) + parts[|parts| - 1].points
  }

  function AllLabels(parts: seq<Part>): seq<Comorbidity> {
    if parts == [] then [] else AllLabels(parts[..|parts| - 1]) + LabelSeq(parts[|parts| - 1].comorbidity)
  }

  function AllConsiderations(parts: seq<Part>): seq<Consideration> {
    if parts == [] then []
    else AllConsiderations(parts[..|parts| - 1]) + parts[|parts| - 1].considerations
  }

  /** Folding one more part adds its points and appends its label and considerations. */
  lemma CombineStep(parts: seq<Part>, p: Part)
    ensures TotalPoints(parts + [p]) == TotalPoints(parts) + p.points
    ensures AllLabels(parts + [p]) == AllLabels(parts) + LabelSeq(p.comorbidity)
    ensures AllConsiderations(parts + [p]) == AllConsiderations(parts) + p.considerations
  {
    assert (parts + [p])[..|parts|] == parts;
  }

  /** The parts, taken in rule order, and the category of their total. */
  function Combine(parts: seq<Part>): Assessment {
    var score := TotalPoints(parts);
    Assessment(score, RiskOf(score), AllLabels(parts), AllConsiderations(parts))
  }

  /** Folding four parts. */
  lemma FoldFour(d: Part, a: Part, b: Part, e: Part)
    ensures var r := Combine([d, a, b, e]);
      && r.score == d.points + a.points + b.points + e.points
      && r.comorbidities == LabelSeq(d.comorbidity) + LabelSeq(a.comorbidity) + LabelSeq(b.comorbidity)
                            + LabelSeq(e.comorbidity)
      && r.considerations == d.considerations + a.considerations + b.considerations + e.considerations
  {
    var ld, la, lb, le := LabelSeq(d.comorbidity), LabelSeq(a.comorbidity), LabelSeq(b.comorbidity),
                          LabelSeq(e.comorbidity);
    CombineStep([], d);
    assert [] + [d] == [d];
    assert AllLabels([d]) == ld;
    CombineStep([d], a);
    assert [d] + [a] == [d, a];
    assert AllLabels([d, a]) == ld + la;
    CombineStep([d, a], b);
    assert [d, a] + [b] == [d, a, b];
    assert AllLabels([d, a, b]) == ld + la + lb;
    CombineStep([d, a, b], e);
    assert [d, a, b] + [e] == [d, a, b, e];
    assert AllLabels([d, a, b, e]) == ld + la + lb + le;
  }

  /** `calculate_comorbidity_score(patient)` */
  function Assess(patient: Record): (r: Assessment)
    requires BmiDefined(patient)
    ensures r.score >= 0 && r.riskCategory == RiskOf(r.score)
  {
    Combine(Parts(patient))
  }

  // ---------------------------------------------------------------- the procedure

  /**
   * The running `score`, `comorbidities` and `considerations` after `part`: its points added,
   * its label and its considerations appended.
   */
  predicate Added(part: Part, score: int, comorbidities: seq<Comorbidity>, considerations: seq<Consideration>,
                  score': int, comorbidities': seq<Comorbidity>, considerations': seq<Consideration>)
  {
    && score' == score + part.points
    && comorbidities' == comorbidities + LabelSeq(part.comorbidity)
    && considerations' == considerations + part.considerations
  }

  /** Lines 36-55: the systemic-disease section. */
  method AddDiseaseRisk(patient: Record, score: int, comorbidities: seq<Comorbidity>, considerations: seq<Consideration>)
    returns (score': int, comorbidities': seq<Comorbidity>, considerations': seq<Consideration>)
    ensures Added(DiseasePart(patient), score, comorbidities, considerations, score', comorbidities', considerations')
  {
    score', comorbidities', considerations' := score, comorbidities, considerations;
    var systemicDisease := DiseaseTier(patient);
    var brainDead := patient.brainDead.GetOr(false);
    var moribund := patient.moribund.GetOr(false);
    if brainDead {
      score' := score' + 10;
      comorbidities' := comorbidities' + [BrainDeadProcurement];
    } else if moribund {
      score' := score' + 9;
      comorbidities' := comorbidities' + [MoribundDying];
    } else if systemicDisease == TierConstantThreat {
      score' := score' + 6;
      comorbidities' := comorbidities' + [LifeThreateningDisease];
      considerations' := considerations' + [IcuAdmission, OptimizeHemodynamics];
    } else if systemicDisease == TierSevere {
      score' := score' + 4;
      comorbidities' := comorbidities' + [SevereDisease];
      considerations' := considerations' + [FluidManagement, RegionalAnesthesia];
    } else if systemicDisease == TierMild {
      score' := score' + 1;
      comorbidities' := comorbidities' + [MildDisease];
      considerations' := considerations' + [HomeMedications];
    }
  }

  /** Lines 60-67: the age section. */
  method AddAgeRisk(patient: Record, score: int, comorbidities: seq<Comorbidity>, considerations: seq<Consideration>)
    returns (score': int, comorbidities': seq<Comorbidity>, considerations': seq<Consideration>)
    ensures Added(AgePart(patient.age), score, comorbidities, considerations, score', comorbidities', considerations')
  {
    score', comorbidities', considerations' := score, comorbidities, considerations;
    var age := patient.age;
    if age.Some? {
      if age.value >= 80 {
        score' := score' + 2;
        comorbidities' := comorbidities' + [AgeEighty];
        considerations' := considerations' + [DeliriumRisk];
      } else if age.value >= 70 {
        score' := score' + 1;
        comorbidities' := comorbidities' + [AgeSeventies];
      }
    }
  }

  /** Lines 72-83: the BMI section, entered only when both weight and height are present. */
  method AddBmiRisk(patient: Record, score: int, comorbidities: seq<Comorbidity>, considerations: seq<Consideration>)
    returns (score': int, comorbidities': seq<Comorbidity>, considerations': seq<Consideration>)
    requires BmiDefined(patient)
    ensures Added(BmiPart(patient), score, comorbidities, considerations, score', comorbidities', considerations')
  {
    score', comorbidities', considerations' := score, comorbidities, considerations;
    var weightKg := patient.weightKg;
    if weightKg.Some? {
      var heightCm := patient.heightCm;
      if heightCm.Some? {
        var bmi := Bmi(weightKg.value, heightCm.value);
        if bmi >= 35.0 {
          score' := score' + 2;
          comorbidities' := comorbidities' + [Obesity(bmi)];
          considerations' := considerations' + [AspirationRisk, AirwayAssessment];
        } else if bmi >= 30.0 {
          score' := score' + 1;
          comorbidities' := comorbidities' + [Overweight(bmi)];
        }
      }
    }
  }

  /** Lines 88-92: the emergency section. */
  method AddEmergencyRisk(patient: Record, score: int, comorbidities: seq<Comorbidity>, considerations: seq<Consideration>)
    returns (score': int, comorbidities': seq<Comorbidity>, considerations': seq<Consideration>)
    ensures Added(EmergencyPart(patient), score, comorbidities, considerations, score', comorbidities', considerations')
  {
    score', comorbidities', considerations' := score, comorbidities, considerations;
    if patient.emergency.GetOr(false) {
      score' := score' + 1;
      comorbidities' := comorbidities' + [EmergencyProcedure];
      considerations' := considerations' + [LimitedOptimization, NpoStatus];
    }
  }

  /** `calculate_comorbidity_score`: the four sections in order, then the risk category. */
  method CalculateComorbidityScore(patient: Record) returns (result: Assessment)
    requires BmiDefined(patient)
    ensures result == Assess(patient)
  {
    var score := 0;
    var comorbidities: seq<Comorbidity> := [];
    var considerations: seq<Consideration> := [];

    score, comorbidities, considerations := AddDiseaseRisk(patient, score, comorbidities, considerations);
    assert [] + LabelSeq(DiseasePart(patient).comorbidity) == LabelSeq(DiseasePart(patient).comorbidity);
    assert [] + DiseasePart(patient).considerations == DiseasePart(patient).considerations;
    score, comorbidities, considerations := AddAgeRisk(patient, score, comorbidities, considerations);
    score, comorbidities, considerations := AddBmiRisk(patient, score, comorbidities, considerations);
    score, comorbidities, considerations := AddEmergencyRisk(patient, score, comorbidities, considerations);
    FoldFour(DiseasePart(patient), AgePart(patient.age), BmiPart(patient), EmergencyPart(patient));

    var riskCategory: RiskCategory;
    if score >= 12 {
      riskCategory := VeryHigh;
    } else if score >= 8 {
      riskCategory := High;
    } else if score >= 3 {
      riskCategory := Moderate;
    } else {
      riskCategory := Low;
    }
    result := Assessment(score, riskCategory, comorbidities, considerations);
  }

  // ---------------------------------------------------------------- recommendation

  const UnknownRecommendation := "Unable to determine risk recommendation"

  const LowRiskText :=
    "Low perioperative risk. Standard preop assessment and anesthetic plan appropriate. "
    + "Routine monitoring and recovery expected."

  const ModerateRiskText :=
    "Moderate perioperative risk. Ensure thorough preop evaluation, "
    + "optimize comorbidities if possible, and plan for potential complications."

  const HighRiskText :=
    "High perioperative risk. Strongly recommend multidisciplinary consultation, "
    + "thorough optimization of comorbidities, and discussion of risks/benefits with patient. "
    + "Consider ICU-level monitoring if available."

  const VeryHighRiskText :=
    "Very high perioperative risk. This patient requires careful interdisciplinary planning. "
    + "Discuss case with surgical team, anesthesia leadership, and if possible, intensivist. "
    + "Detailed risk/benefit discussion with patient and family essential."

  /** The `recommendations` dictionary (lines 125-144). */
  const Recommendations: map<string, string> := map[
    "low" := LowRiskText,
    "moderate" := ModerateRiskText,
    "high" := HighRiskText,
    "very_high" := VeryHighRiskText]

  /** `get_risk_recommendation(risk_category)`: a dictionary lookup with a fixed fallback. */
  function GetRiskRecommendation(riskCategory: string): (r: string)
    ensures r == UnknownRecommendation <==> riskCategory !in Recommendations
  {
    if riskCategory in Recommendations then Recommendations[riskCategory] else UnknownRecommendation
  }
}
