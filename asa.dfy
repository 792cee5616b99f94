/**
 * `determine_asa` (preop_evaluation/scripts/compute_asa.py): the ASA physical status of a
 * patient dictionary. The branches are tried top-down (brain death, moribund, then the disease
 * tier compared case-sensitively), an unknown tier returns the fallback text at once, and an
 * emergency appends "E" to the class that was found.
 */
module Asa {
  import opened Options
  import opened PatientRecord
  import opened TextNormalizer
  import opened ParsePatient

  /** The returned text when the disease tier is none of the four known values. */
  const Undetermined := "Unable to determine ASA status"

  /** `determine_asa(patient)` */
  function DetermineAsa(patient: Record): (r: string)
    ensures r == Undetermined || (|r| >= 5 && r[..4] == "ASA ")
  {
    var emergency := patient.emergency.GetOr(false);
    var brainDead := patient.brainDead.GetOr(false);
    var moribund := patient.moribund.GetOr(false);
    var systemic := patient.systemicDisease.GetOr(TierNone);
    var asa :=
      if brainDead then Some("ASA VI")
      else if moribund then Some("ASA V")
      else if systemic == TierConstantThreat then Some("ASA IV")
      else if systemic == TierSevere then Some("ASA III")
      else if systemic == TierMild then Some("ASA II")
      else if systemic == TierNone then Some("ASA I")
      else None;
    if asa.None? then Undetermined
    else if emergency then asa.value + "E"
    else asa.value
  }

  // ---------------------------------------------------------------- the classification

  /** The six ASA physical-status classes, from I (healthy) to VI (brain-dead donor). */
  datatype AsaClass = I | II | III | IV | V | VI {
    function Numeral(): (n: string)
      ensures 1 <= |n| <= 3 && n[|n| - 1] != 'E'
    {
      match this
      case I => "I"
      case II => "II"
      case III => "III"
      case IV => "IV"
      case V => "V"
      case VI => "VI"
    }

    function Level(): nat {
      match this
      case I => 1
      case II => 2
      case III => 3
      case IV => 4
      case V => 5
      case VI => 6
    }
  }

  /** A determined status: a class and whether it carries the emergency modifier. */
  datatype Status = Status(asaClass: AsaClass, emergency: bool) {
    function Text(): string {
      "ASA " + asaClass.Numeral() + (if emergency then "E" else "")
    }
  }

  /** The disease tiers in precedence order, each with the class it gives. */
  const TierClasses: seq<(string, AsaClass)> :=
    [(TierConstantThreat, IV), (TierSevere, III), (TierMild, II), (TierNone, I)]

  /** The class of the first entry of `TierClasses` from `k` on whose tier is `tier`. */
  function TierClass(tier: string, k: nat): (c: Option<AsaClass>)
    requires k <= |TierClasses|
    ensures c.Some? <==> exists j :: k <= j < |TierClasses| && TierClasses[j].0 == tier
    decreases |TierClasses| - k
  {
    if k == |TierClasses| then None
    else if TierClasses[k].0 == tier then Some(TierClasses[k].1)
    else TierClass(tier, k + 1)
  }

  /**
   * The class by precedence, as an independent statement: brain death (VI) over moribund (V) over
   * the tier looked up in `TierClasses`; no class for any other tier.
   */
  function ClassOf(patient: Record): (c: Option<AsaClass>)
    ensures c == Some(VI) <==> patient.brainDead.GetOr(false)
    ensures c == Some(V) <==> !patient.brainDead.GetOr(false) && patient.moribund.GetOr(false)
  {
    if patient.brainDead.GetOr(false) then Some(VI)
    else if patient.moribund.GetOr(false) then Some(V)
    else
      var c := TierClass(patient.systemicDisease.GetOr(TierNone), 0);
      assert c != Some(VI) && c != Some(V);
      c
  }

  /** The result is the text of the status by precedence, or the fallback text when there is none. */
  lemma DetermineAsaByPrecedence(patient: Record)
    ensures ClassOf(patient).None? ==> DetermineAsa(patient) == Undetermined
    ensures ClassOf(patient).Some? ==>
      DetermineAsa(patient) == Status(ClassOf(patient).value, patient.emergency.GetOr(false)).Text()
  {
    TiersDistinct();
  }

  /** The four tier names are distinct. */
  lemma TiersDistinct()
    ensures TierConstantThreat != TierSevere && TierConstantThreat != TierMild && TierConstantThreat != TierNone
    ensures TierSevere != TierMild && TierSevere != TierNone
    ensures TierMild != TierNone
  {
    assert |TierConstantThreat| == 15 && |TierSevere| == 6 && |TierMild| == 4 && |TierNone| == 4;
    assert TierMild[0] != TierNone[0];
  }

  /** Different statuses have different texts, so the text names the class and the modifier. */
  lemma StatusTextInjective(s1: Status, s2: Status)
    requires s1.Text() == s2.Text()
    ensures s1 == s2
  {
    var t1, t2 := s1.Text(), s2.Text();
    var n1, n2 := s1.asaClass.Numeral(), s2.asaClass.Numeral();
    assert s1.emergency == (t1[|t1| - 1] == 'E');
    assert s2.emergency == (t2[|t2| - 1] == 'E');
    var suffix := if s1.emergency then "E" else "";
    assert t1 == "ASA " + n1 + suffix && t2 == "ASA " + n2 + suffix;
    assert n1 == t1[4..|t1| - |suffix|];
    assert n2 == t2[4..|t2| - |suffix|];
    NumeralInjective(s1.asaClass, s2.asaClass);
  }

  lemma NumeralInjective(c1: AsaClass, c2: AsaClass)
    requires c1.Numeral() == c2.Numeral()
    ensures c1 == c2
  {
    var n1, n2 := c1.Numeral(), c2.Numeral();
    assert |n1| == |n2| && n1[0] == n2[0] && n1[|n1| - 1] == n2[|n2| - 1];
  }

  /** No status text is the fallback text. */
  lemma StatusTextNotUndetermined(s: Status)
    ensures s.Text() != Undetermined
  {
    assert |Undetermined| == 30;
  }

  // ---------------------------------------------------------------- properties

  /** The fallback is returned exactly when neither flag is set and the tier is unknown. */
  lemma UndeterminedIff(patient: Record)
    ensures DetermineAsa(patient) == Undetermined <==>
      && !patient.brainDead.GetOr(false) && !patient.moribund.GetOr(false)
      && !IsDiseaseTier(patient.systemicDisease.GetOr(TierNone))
  {
    DetermineAsaByPrecedence(patient);
    if ClassOf(patient).Some? {
      StatusTextNotUndetermined(Status(ClassOf(patient).value, patient.emergency.GetOr(false)));
    }
  }

  /**
   * The result ends in "E" exactly when the emergency flag is set and a class was found: the
   * fallback text never carries the suffix.
   */
  lemma EmergencySuffixIff(patient: Record)
    ensures var r := DetermineAsa(patient);
      |r| > 0 && (r[|r| - 1] == 'E' <==> patient.emergency.GetOr(false) && ClassOf(patient).Some?)
  {
    DetermineAsaByPrecedence(patient);
  }

  /** An emergency changes only the suffix: the class found is the same. */
  lemma EmergencyKeepsClass(patient: Record)
    requires ClassOf(patient).Some?
    ensures DetermineAsa(patient.(emergency := Some(true))) == DetermineAsa(patient.(emergency := Some(false))) + "E"
  {
    DetermineAsaByPrecedence(patient.(emergency := Some(true)));
    DetermineAsaByPrecedence(patient.(emergency := Some(false)));
  }

  /** `functional_limitation` is read but never used. */
  lemma FunctionalLimitationIgnored(patient: Record, limitation: Option<bool>)
    ensures DetermineAsa(patient.(functionalLimitation := limitation)) == DetermineAsa(patient)
  {
  }

  /** The empty dictionary is ASA I; a record with tier `none` and an emergency is ASA IE. */
  lemma Examples()
    ensures DetermineAsa(EmptyRecord) == "ASA I"
    ensures DetermineAsa(EmptyRecord.(systemicDisease := Some(TierNone), emergency := Some(true))) == "ASA IE"
    ensures DetermineAsa(EmptyRecord.(systemicDisease := Some(TierSevere), brainDead := Some(true))) == "ASA VI"
  {
  }

  /** The tier comparison is case-sensitive: "Mild" is not a known tier. */
  lemma CapitalisedTierUndetermined()
    ensures DetermineAsa(EmptyRecord.(systemicDisease := Some("Mild"), emergency := Some(true))) == Undetermined
  {
    assert "Mild"[0] != TierMild[0];
    assert |"Mild"| != |TierConstantThreat| && |"Mild"| != |TierSevere|;
    assert "Mild"[0] != TierNone[0];
  }

  // ---------------------------------------------------------------- together with parse_patient

  /**
   * A record produced by `parse_patient` always gets a class, whatever emergency flag is added
   * to it: its tier is one of the four known values.
   */
  lemma ParsedRecordDetermined(procedureName: string, freeText: string, emergency: Option<bool>)
    ensures DetermineAsa(ParsedRecord(procedureName, freeText).(emergency := emergency)) != Undetermined
  {
    UndeterminedIff(ParsedRecord(procedureName, freeText).(emergency := emergency));
  }

  /** The brain-death case of `parse_patient` is ASA VI, with "E" when the procedure is urgent. */
  lemma BrainDeadCaseIsAsaSix(procedureName: string, freeText: string, emergency: bool)
    requires BrainDeadCase(Normalize(procedureName, freeText))
    ensures DetermineAsa(ParsedRecord(procedureName, freeText).(emergency := Some(emergency)))
      == if emergency then "ASA VIE" else "ASA VI"
  {
  }
}
