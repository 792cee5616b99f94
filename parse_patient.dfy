/**
 * `parse_patient` (preop-evaluation/scripts/parse_patient.py): free text about a surgical patient
 * becomes a patient record. The text is normalised; weight, height and age are each taken from
 * the first pattern of an ordered list that matches anywhere in the text, converted and
 * range-checked; then an organ-donation + brain-death rule (which ends classification), a moribund
 * rule and a three-tier disease-severity rule set the classification fields.
 *
 * `ParsePatient` is the procedure as the source writes it (a record updated in place, three loops
 * that stop at the first matching pattern, an early return); `ParsedRecord` is the declarative
 * specification it is proved against, and the lemmas state the extraction and precedence rules.
 */
module ParsePatient {
  import opened Ascii
  import opened Options
  import opened TextNormalizer
  import opened Patterns
  import opened PatientRecord

  // ---------------------------------------------------------------- term lists (lines 94-173)

  const OrganDonationTerms: seq<string> := [
    "organ donation", "organ donor", "procurement", "organ procurement",
    "donor hepatectomy", "donor nephrectomy", "heart procurement", "lung procurement"]

  const BrainDeadTerms: seq<string> := [
    "brain dead", "brain-dead", "declared brain dead", "brain death confirmed"]

  const MoribundTerms: seq<string> := [
    "moribund", "actively dying", "imminent death", "expected to die",
    "comfort measures only", "end of life"]

  const ConstantThreatTerms: seq<string> := [
    "septic shock", "multi-organ failure", "respiratory failure", "on multiple pressors",
    "ecmo", "hemodynamically unstable", "critical illness"]

  const SevereTerms: seq<string> := [
    "severe", "decompensated", "poorly controlled", "end-stage", "esrd", "cirrhosis",
    "heart failure", "copd exacerbation", "oxygen dependent"]

  const MildTerms: seq<string> := [
    "mild", "well controlled", "controlled with medication", "history of",
    "hypertension", "diabetes", "asthma", "obesity"]

  // ---------------------------------------------------------------- numbers

  /** `round(x, 2)` on exact reals: the nearest multiple of 0.01 (a tie goes up). */
  function Round2(x: real): (r: real)
    ensures x - 0.005 < r <= x + 0.005
  {
    ((x * 100.0 + 0.5).Floor as real) / 100.0
  }

  /** Rounding to two decimals keeps a value in a range whose ends are multiples of 0.01. */
  lemma Round2Within(x: real, lo: int, hi: int)
    requires lo as real / 100.0 < x < hi as real / 100.0
    ensures lo as real / 100.0 <= Round2(x) <= hi as real / 100.0
  {
    var f := (x * 100.0 + 0.5).Floor;
    assert lo as real < x * 100.0 < hi as real;
    assert lo <= f <= hi;
  }

  // ---------------------------------------------------------------- first match in a pattern list

  /**
   * The rule of the three extraction loops: patterns are tried in list order and the first
   * one whose search succeeds decides; `hits[j]` is the search result of pattern j.
   */
  function FirstHit<C>(hits: seq<Option<C>>, k: nat): (r: Option<(nat, C)>)
    requires k <= |hits|
    ensures r.Some? ==> k <= r.value.0 < |hits| && hits[r.value.0] == Some(r.value.1)
    ensures r.Some? ==> forall j :: k <= j < r.value.0 ==> hits[j].None?
    ensures r.None? ==> forall j :: k <= j < |hits| ==> hits[j].None?
    decreases |hits| - k
  {
    if k == |hits| then None
    else if hits[k].Some? then Some((k, hits[k].value))
    else FirstHit(hits, k + 1)
  }

  /** When pattern `k` is the first whose search succeeds, it alone decides. */
  lemma FirstHitIs<C>(hits: seq<Option<C>>, k: nat)
    requires k < |hits| && hits[k].Some?
    requires forall j :: 0 <= j < k ==> hits[j].None?
    ensures FirstHit(hits, 0) == Some((k, hits[k].value))
  {
  }

  // ---------------------------------------------------------------- weight (lines 25-43)

  function WeightHits(t: string): (hits: seq<Option<(nat, real)>>)
    ensures |hits| == |WeightPatterns|
    ensures forall k :: 0 <= k < |hits| ==> hits[k] == SearchWeight(WeightPatterns[k], t)
  {
    seq(|WeightPatterns|, k requires 0 <= k < |WeightPatterns| => SearchWeight(WeightPatterns[k], t))
  }

  /**
   * `"lb" in pattern or "#" in pattern`: of the five pattern texts (shown beside `WeightPattern`),
   * only those of `NumberLbs` and `NumberPound` contain "lb" or "#".
   */
  predicate IsPoundsPattern(p: WeightPattern) {
    p == NumberLbs || p == NumberPound
  }

  /** Weight in kilograms before the range check: pounds are divided by 2.20462. */
  function WeightValue(p: WeightPattern, captured: real): real {
    if IsPoundsPattern(p) then captured / 2.20462 else captured
  }

  /** The range check `2 < weight < 300`, then `round(weight, 2)`. */
  function AcceptWeight(kg: real): Option<real> {
    if 2.0 < kg < 300.0 then Some(Round2(kg)) else None
  }

  /** `weight_kg` of the result: decided by the first weight pattern that matches. */
  function WeightFromText(t: string): Option<real> {
    match FirstHit(WeightHits(t), 0)
    case None => None
    case Some((k, (_, captured))) => AcceptWeight(WeightValue(WeightPatterns[k], captured))
  }

  // ---------------------------------------------------------------- height (lines 48-71)

  function HeightHits(t: string): (hits: seq<Option<(nat, seq<nat>)>>)
    ensures |hits| == |HeightPatterns|
    ensures forall k :: 0 <= k < |hits| ==> hits[k] == SearchHeight(HeightPatterns[k], t)
  {
    seq(|HeightPatterns|, k requires 0 <= k < |HeightPatterns| => SearchHeight(HeightPatterns[k], t))
  }

  /** Centimetres from the captured groups: two groups are feet and inches, one is centimetres. */
  function HeightValue(groups: seq<nat>): real
    requires |groups| >= 1
  {
    if |groups| == 2 then ((groups[0] * 12 + groups[1]) as real) * 2.54 else groups[0] as real
  }

  /** The range check `80 < cm < 250`, then both `round(cm, 2)` and `round(cm / 2.54, 2)`. */
  function AcceptHeight(cm: real): Option<(real, real)> {
    if 80.0 < cm < 250.0 then Some((Round2(cm), Round2(cm / 2.54))) else None
  }

  /** `height_cm` and `height_in` of the result: decided by the first height pattern that matches. */
  function HeightFromText(t: string): Option<(real, real)> {
    match FirstHit(HeightHits(t), 0)
    case None => None
    case Some((_, (_, groups))) => AcceptHeight(HeightValue(groups))
  }

  /** The record with `height_cm` and `height_in` set from an accepted height, both or neither. */
  function WithHeight(patient: Record, h: Option<(real, real)>): Record {
    patient.(heightCm := if h.Some? then Some(h.value.0) else None,
             heightIn := if h.Some? then Some(h.value.1) else None)
  }

  // ---------------------------------------------------------------- age (lines 76-89)

  function AgeHits(t: string): (hits: seq<Option<(nat, nat)>>)
    ensures |hits| == |AgePatterns|
    ensures forall k :: 0 <= k < |hits| ==> hits[k] == SearchAge(AgePatterns[k], t)
  {
    seq(|AgePatterns|, k requires 0 <= k < |AgePatterns| => SearchAge(AgePatterns[k], t))
  }

  /** The range check `0 < age < 120`. */
  function AcceptAge(age: nat): Option<int> {
    if 0 < age < 120 then Some(age) else None
  }

  /** `age` of the result: decided by the first age pattern that matches. */
  function AgeFromText(t: string): Option<int> {
    match FirstHit(AgeHits(t), 0)
    case None => None
    case Some((_, (_, age))) => AcceptAge(age)
  }

  // ---------------------------------------------------------------- classification (lines 105-180)

  datatype Classification = Classification(brainDead: bool, moribund: bool, disease: string)

  /** Organ donation together with an explicit brain-death statement (line 117). */
  predicate BrainDeadCase(t: string) {
    ContainsAny(t, OrganDonationTerms) && ContainsAny(t, BrainDeadTerms)
  }

  /** The disease tier named by the severity keywords alone, in precedence order. */
  function SeverityTier(t: string): (r: Option<string>)
    ensures r.Some? ==> IsDiseaseTier(r.value)
  {
    if ContainsAny(t, ConstantThreatTerms) then Some(TierConstantThreat)
    else if ContainsAny(t, SevereTerms) then Some(TierSevere)
    else if ContainsAny(t, MildTerms) then Some(TierMild)
    else None
  }

  /**
   * Classification of normalised text: the brain-death case is terminal; otherwise a severity
   * keyword decides the tier, and a moribund statement gives `constant_threat` only when no
   * severity keyword is present.
   */
  function Classify(t: string): (c: Classification)
    ensures IsDiseaseTier(c.disease)
    ensures c.brainDead ==> c.moribund && c.disease == TierConstantThreat
  {
    if BrainDeadCase(t) then Classification(true, true, TierConstantThreat)
    else
      var moribund := ContainsAny(t, MoribundTerms);
      var tier := SeverityTier(t);
      Classification(false, moribund,
        if tier.Some? then tier.value else if moribund then TierConstantThreat else TierNone)
  }

  /** The record `parse_patient(procedure_name, free_text)` returns. */
  function ParsedRecord(procedureName: string, freeText: string): Record {
    var t := Normalize(procedureName, freeText);
    var c := Classify(t);
    WithHeight(EmptyRecord, HeightFromText(t)).(
      age := AgeFromText(t),
      weightKg := WeightFromText(t),
      systemicDisease := Some(c.disease),
      brainDead := Some(c.brainDead),
      moribund := Some(c.moribund))
  }

  // ---------------------------------------------------------------- the procedure

  /** The weight loop (lines 33-43): try each pattern in order, stop at the first that matches. */
  method ExtractWeight(text: string, patient: Record) returns (updated: Record)
    requires patient.weightKg.None?
    ensures updated == patient.(weightKg := WeightFromText(text))
  {
    updated := patient;
    var k := 0;
    while k < |WeightPatterns|
      invariant k <= |WeightPatterns|
      invariant FirstHit(WeightHits(text), k) == FirstHit(WeightHits(text), 0)
      invariant updated == patient
    {
      var found := SearchWeight(WeightPatterns[k], text);
      if found.Some? {
        var weight := found.value.1;
        if IsPoundsPattern(WeightPatterns[k]) {
          weight := weight / 2.20462;
        }
        if 2.0 < weight < 300.0 {
          updated := updated.(weightKg := Some(Round2(weight)));
        }
        assert FirstHit(WeightHits(text), 0) == Some((k, found.value));
        break;
      }
      k := k + 1;
    }
  }

  /** Lines 66-70: a height inside the plausible range is stored in centimetres and in inches. */
  method StoreHeight(patient: Record, heightCm: real) returns (updated: Record)
    ensures updated == WithHeight(patient, AcceptHeight(heightCm))
    requires patient.heightCm.None? && patient.heightIn.None?
  {
    updated := patient;
    if 80.0 < heightCm < 250.0 {
      updated := updated.(heightCm := Some(Round2(heightCm)), heightIn := Some(Round2(heightCm / 2.54)));
    }
  }

  /** The height loop (lines 55-71): the group count of the pattern decides cm or feet/inches. */
  method ExtractHeight(text: string, patient: Record) returns (updated: Record)
    requires patient.heightCm.None? && patient.heightIn.None?
    ensures updated == WithHeight(patient, HeightFromText(text))
  {
    ghost var hits := HeightHits(text);
    updated := patient;
    var k := 0;
    while k < |HeightPatterns|
      invariant k <= |HeightPatterns|
      invariant FirstHit(hits, k) == FirstHit(hits, 0)
      invariant updated == patient
    {
      var found := SearchHeight(HeightPatterns[k], text);
      if found.Some? {
        var groups := found.value.1;
        var heightCm := HeightValue(groups);
        updated := StoreHeight(updated, heightCm);
        assert hits[k] == found;
        assert FirstHit(hits, 0) == Some((k, found.value));
        break;
      }
      k := k + 1;
    }
  }

  /** The age loop (lines 83-89). */
  method ExtractAge(text: string, patient: Record) returns (updated: Record)
    requires patient.age.None?
    ensures updated == patient.(age := AgeFromText(text))
  {
    updated := patient;
    var k := 0;
    while k < |AgePatterns|
      invariant k <= |AgePatterns|
      invariant FirstHit(AgeHits(text), k) == FirstHit(AgeHits(text), 0)
      invariant updated == patient
    {
      var found := SearchAge(AgePatterns[k], text);
      if found.Some? {
        var age := found.value.1;
        if 0 < age < 120 {
          updated := updated.(age := Some(age));
        }
        assert FirstHit(AgeHits(text), 0) == Some((k, found.value));
        break;
      }
      k := k + 1;
    }
  }

  method ParsePatient(procedureName: string, freeText: string) returns (patient: Record)
    ensures patient == ParsedRecord(procedureName, freeText)
  {
    var text := Normalize(procedureName, freeText);
    patient := EmptyRecord.(brainDead := Some(false), moribund := Some(false), systemicDisease := Some(TierNone));
    patient := ExtractWeight(text, patient);
    patient := ExtractHeight(text, patient);
    patient := ExtractAge(text, patient);

    var isDonationCase := ContainsAny(text, OrganDonationTerms);
    if isDonationCase && ContainsAny(text, BrainDeadTerms) {
      patient := patient.(brainDead := Some(true), moribund := Some(true), systemicDisease := Some(TierConstantThreat));
      return;
    }

    if ContainsAny(text, MoribundTerms) {
      patient := patient.(moribund := Some(true), systemicDisease := Some(TierConstantThreat));
    }

    if ContainsAny(text, ConstantThreatTerms) {
      patient := patient.(systemicDisease := Some(TierConstantThreat));
    } else if ContainsAny(text, SevereTerms) {
      patient := patient.(systemicDisease := Some(TierSevere));
    } else if ContainsAny(text, MildTerms) {
      patient := patient.(systemicDisease := Some(TierMild));
    }
  }
}
