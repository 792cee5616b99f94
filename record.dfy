/**
 * The patient dictionary shared by `parse_patient`, `calculate_comorbidity_score` and
 * `determine_asa`. A Python dict may lack any key, so every field is optional; readers supply
 * their own defaults with `GetOr`, as `dict.get(key, default)` does.
 */
module PatientRecord {
  import opened Options

  datatype Record = Record(
    age: Option<int>,
    weightKg: Option<real>,
    heightCm: Option<real>,
    heightIn: Option<real>,
    systemicDisease: Option<string>,
    brainDead: Option<bool>,
    moribund: Option<bool>,
    emergency: Option<bool>,
    functionalLimitation: Option<bool>)

  /** The empty dictionary `{}`. */
  const EmptyRecord: Record := Record(None, None, None, None, None, None, None, None, None)

  /** The four values of `systemic_disease` that `parse_patient` produces. */
  const TierNone := "none"
  const TierMild := "mild"
  const TierSevere := "severe"
  const TierConstantThreat := "constant_threat"

  predicate IsDiseaseTier(s: string) {
    s == TierNone || s == TierMild || s == TierSevere || s == TierConstantThreat
  }
}
