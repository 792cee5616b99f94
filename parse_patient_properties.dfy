/**
 * Properties of `parse_patient` (preop-evaluation/scripts/parse_patient.py), stated about the
 * specification `ParsedRecord` that the procedure `ParsePatient` is proved to compute.
 */
module ParsePatientProperties {
  import opened Ascii
  import opened Options
  import opened TextNormalizer
  import opened Patterns
  import opened PatientRecord
  import opened ParsePatient

  // ---------------------------------------------------------------- the record's shape

  /**
   * The result always holds `brain_dead`, `moribund` and `systemic_disease`, the tier is one of
   * the four names, `height_cm` and `height_in` come together, and no other key is set.
   */
  lemma ParsedRecordShape(procedureName: string, freeText: string)
    ensures var r := ParsedRecord(procedureName, freeText);
      && r.brainDead.Some? && r.moribund.Some? && r.systemicDisease.Some?
      && IsDiseaseTier(r.systemicDisease.value)
      && (r.heightCm.Some? <==> r.heightIn.Some?)
      && r.emergency.None? && r.functionalLimitation.None?
  {
    var t := Normalize(procedureName, freeText);
    var h := HeightFromText(t);
    var c := Classify(t);
    assert ParsedRecord(procedureName, freeText) == WithHeight(EmptyRecord, h).(
      age := AgeFromText(t), weightKg := WeightFromText(t), systemicDisease := Some(c.disease),
      brainDead := Some(c.brainDead), moribund := Some(c.moribund));
  }

  // ---------------------------------------------------------------- weight

  /**
   * Weight is decided by the first pattern in list order whose search succeeds: the captured
   * number (divided by 2.20462 for the two pound patterns, indices 3 and 4) is kept, rounded,
   * exactly when it lies strictly between 2 and 300; later patterns play no part, even when the
   * deciding one fails the range check.
   */
  lemma WeightFirstMatchDecides(t: string, k: nat, i: nat, v: real)
    requires k < |WeightPatterns| && SearchWeight(WeightPatterns[k], t) == Some((i, v))
    requires forall j :: 0 <= j < k ==> SearchWeight(WeightPatterns[j], t).None?
    ensures var kg := if k >= 3 then v / 2.20462 else v;
      && (WeightFromText(t).Some? <==> 2.0 < kg < 300.0)
      && (WeightFromText(t).Some? ==> WeightFromText(t).value == Round2(kg))
  {
    FirstHitIs(WeightHits(t), k);
  }

  /** No weight pattern matches anywhere: no weight is recorded. */
  lemma NoWeightWithoutMatch(t: string)
    requires forall k :: 0 <= k < |WeightPatterns| ==> SearchWeight(WeightPatterns[k], t).None?
    ensures WeightFromText(t).None?
  {
    assert forall k :: 0 <= k < |WeightPatterns| ==> WeightHits(t)[k].None?;
  }

  /** A recorded weight lies in [2, 300] kg (the open range, widened only by the rounding). */
  lemma WeightRange(t: string)
    requires WeightFromText(t).Some?
    ensures 2.0 <= WeightFromText(t).value <= 300.0
  {
    var hit := FirstHit(WeightHits(t), 0);
    var kg := WeightValue(WeightPatterns[hit.value.0], hit.value.1.1);
    Round2Within(kg, 200, 30000);
  }

  /** Where `weighs?\s+…kg` or `weight\s+…kg` matches, the bare `…kg` pattern matches too. */
  lemma NumberKgFoundWhenWordMatches(p: WeightPattern, t: string, i: nat)
    requires p == WeighsKg || p == WeightWordKg
    requires WeightMatchAt(p, t, i).Some?
    ensures SearchWeight(NumberKg, t).Some?
  {
    var j := if p == WeightWordKg then i + 6 else if i + 5 < |t| && t[i + 5] == 's' then i + 6 else i + 5;
    var k := SkipSpaces(t, j);
    SearchWeightFinds(NumberKg, t, k);
  }

  /** The second and third weight patterns can never be the first to match. */
  lemma WordWeightPatternsNeverFirst(t: string)
    ensures var hit := FirstHit(WeightHits(t), 0);
      hit.None? || (hit.value.0 != 1 && hit.value.0 != 2)
  {
    var hit := FirstHit(WeightHits(t), 0);
    if hit.Some? && (hit.value.0 == 1 || hit.value.0 == 2) {
      NumberKgFoundWhenWordMatches(WeightPatterns[hit.value.0], t, hit.value.1.0);
      assert false;
    }
  }

  // ---------------------------------------------------------------- height

  /**
   * Height is decided by the first height pattern whose search succeeds. A two-group pattern
   * (indices 2 and 3) is read as feet and inches, a one-group pattern as centimetres (`HeightValue`). It is kept exactly when 80 < cm < 250, and then height_in is cm / 2.54.
   */
  lemma HeightFirstMatchDecides(t: string, k: nat, i: nat, groups: seq<nat>)
    requires k < |HeightPatterns| && SearchHeight(HeightPatterns[k], t) == Some((i, groups))
    requires forall j :: 0 <= j < k ==> SearchHeight(HeightPatterns[j], t).None?
    ensures |groups| == (if k >= 2 then 2 else 1)
    ensures var cm := HeightValue(groups);
      && (HeightFromText(t).Some? <==> 80.0 < cm < 250.0)
      && (HeightFromText(t).Some? ==> HeightFromText(t).value == (Round2(cm), Round2(cm / 2.54)))
  {
    FirstHitIs(HeightHits(t), k);
    assert HeightFromText(t) == AcceptHeight(HeightValue(groups));
  }

  /** Where `height\s+…cm` matches, the bare `…cm` pattern matches too. */
  lemma NumberCmFoundWhenWordMatches(t: string, i: nat)
    requires HeightMatchAt(HeightWordCm, t, i).Some?
    ensures SearchHeight(NumberCm, t).Some?
  {
    var k := SkipSpaces(t, i + 6);
    SearchHeightFinds(NumberCm, t, k);
  }

  /** The second height pattern can never be the first to match. */
  lemma WordHeightPatternNeverFirst(t: string)
    ensures var hit := FirstHit(HeightHits(t), 0);
      hit.None? || hit.value.0 != 1
  {
    var hit := FirstHit(HeightHits(t), 0);
    if hit.Some? && hit.value.0 == 1 {
      NumberCmFoundWhenWordMatches(t, hit.value.1.0);
      assert false;
    }
  }

  /**
   * The feet-and-inches pattern `(\d)\s*'?\s*(\d{1,2})` fires on any two adjacent digits, such as
   * an age or a weight: the first digit is read as feet, the next one or two as inches.
   */
  lemma FeetInchesFiresOnDigitPair(t: string, i: nat)
    requires i + 1 < |t| && IsDigit(t[i]) && IsDigit(t[i + 1])
    ensures var m := if i + 2 < |t| && IsDigit(t[i + 2]) then 2 else 1;
      HeightMatchAt(FeetInches, t, i) == Some([DigitValue(t[i]), NumberIn(t, i + 1, i + 1 + m)])
  {
    assert SkipSpaces(t, i + 1) == i + 1;
  }

  /** "78 year old" is read as 7 ft 8 in, which is 233.68 cm and passes the range check. */
  lemma AgeReadAsHeight()
    ensures HeightMatchAt(FeetInches, "78 year old", 0) == Some([7, 8])
    ensures HeightValue([7, 8]) == 233.68
    ensures AcceptHeight(233.68) == Some((233.68, 92.0))
  {
    var t := "78 year old";
    FeetInchesFiresOnDigitPair(t, 0);
    assert NumberIn(t, 1, 2) == 8;
    assert (23368.0 + 0.5).Floor == 23368;
    assert (9200.0 + 0.5).Floor == 9200;
  }

  /** "cm" occurs nowhere in `t`. */
  predicate NoCm(t: string) {
    forall j :: 0 <= j < |t| - 1 ==> !(t[j] == 'c' && t[j + 1] == 'm')
  }

  lemma NoCmAppend(a: string, b: string)
    requires NoCm(a) && NoCm(b)
    requires !(|a| > 0 && |b| > 0 && a[|a| - 1] == 'c' && b[0] == 'm')
    ensures NoCm(a + b)
  {
    var s := a + b;
    forall j | 0 <= j < |s| - 1 ensures !(s[j] == 'c' && s[j + 1] == 'm') {
      if j + 1 < |a| {
        assert s[j] == a[j] && s[j + 1] == a[j + 1];
      } else if j >= |a| {
        assert s[j] == b[j - |a|] && s[j + 1] == b[j + 1 - |a|];
      }
    }
  }

  /** Both centimetre patterns end in "cm", so without it neither matches anywhere. */
  lemma NoCentimetresWithoutCm(t: string)
    requires NoCm(t)
    ensures SearchHeight(NumberCm, t).None? && SearchHeight(HeightWordCm, t).None?
  {
    forall i: nat | i <= |t| ensures NumberCmAt(t, i).None? {
      match IntToken(t, i)
      case None =>
      case Some((v, e)) =>
        var k := SkipSpaces(t, e);
        if k + 2 <= |t| {
          assert t[k..k + 2][0] == t[k] && t[k..k + 2][1] == t[k + 1];
          assert t[k..k + 2] != "cm";
        }
    }
  }

  /**
   * In a text without "cm" whose first digits are "78" followed by a non-digit, the height is
   * read from those two digits: 7 ft 8 in, 233.68 cm, accepted.
   */
  /** With no digit before `n`, the feet-and-inches search first fires on the pair "78" at `n`. */
  lemma FirstFeetInchesSevenEight(t: string, n: nat)
    requires n + 2 < |t| && t[n] == '7' && t[n + 1] == '8' && !IsDigit(t[n + 2])
    requires forall i :: 0 <= i < n ==> !IsDigit(t[i])
    ensures SearchHeight(FeetInches, t) == Some((n, [7, 8]))
  {
    FeetInchesFiresOnDigitPair(t, n);
    assert NumberIn(t, n + 1, n + 2) == 8;
    var at: nat -> Option<seq<nat>> := j => HeightMatchAt(FeetInches, t, j);
    assert at(n) == Some([7, 8]);
  }

  lemma FirstDigitsSevenEightAreHeight(t: string, n: nat)
    requires n + 2 < |t| && t[n] == '7' && t[n + 1] == '8' && !IsDigit(t[n + 2])
    requires forall i :: 0 <= i < n ==> !IsDigit(t[i])
    requires NoCm(t)
    ensures HeightFromText(t) == Some((233.68, 92.0))
  {
    NoCentimetresWithoutCm(t);
    FirstFeetInchesSevenEight(t, n);
    assert forall j :: 0 <= j < 2 ==> SearchHeight(HeightPatterns[j], t).None?;
    HeightFirstMatchDecides(t, 2, n, [7, 8]);
    AgeReadAsHeight();
  }

  /** The pieces of the sample text, and what lower-casing makes of them. */
  const SampleProcedure := "Open AAA repair"
  const SamplePieces := ["78 year old", " male, 190 lbs,", " 5'10\", septic", " shock, on", " vasopressors, ESRD"]
  const LoweredPieces := ["78 year old", " male, 190 lbs,", " 5'10\", septic", " shock, on", " vasopressors, esrd"]

  function Join(pieces: seq<string>): string {
    if pieces == [] then "" else Join(pieces[..|pieces| - 1]) + pieces[|pieces| - 1]
  }

  /** Lower-casing a join of pieces joins the lower-cased pieces. */
  lemma {:induction false} LowerJoin(pieces: seq<string>, lowered: seq<string>)
    requires |pieces| == |lowered|
    requires forall k :: 0 <= k < |pieces| ==> Lower(pieces[k]) == lowered[k]
    ensures Lower(Join(pieces)) == Join(lowered)
  {
    if pieces != [] {
      var n := |pieces|;
      LowerJoin(pieces[..n - 1], lowered[..n - 1]);
      LowerAppend(Join(pieces[..n - 1]), pieces[n - 1]);
    }
  }

  /** A lowered piece is collapsed, free of "cm", and neither ends in a space nor starts with 'm'. */
  predicate PieceShaped(q: string) {
    Collapsed(q) && NoCm(q) && |q| >= 3 && q[|q| - 1] != ' ' && q[0] != 'm'
  }

  /** Joined shaped pieces are collapsed, free of "cm", and do not end in a space. */
  lemma {:induction false} JoinShape(pieces: seq<string>)
    requires forall k :: 0 <= k < |pieces| ==> PieceShaped(pieces[k])
    ensures Collapsed(Join(pieces)) && NoCm(Join(pieces))
    ensures pieces != [] ==> |Join(pieces)| >= 3 && Join(pieces)[|Join(pieces)| - 1] != ' '
  {
    if pieces != [] {
      var n := |pieces|;
      JoinShape(pieces[..n - 1]);
      var h := Join(pieces[..n - 1]);
      var q := pieces[n - 1];
      assert PieceShaped(q);
      CollapsedAppend(h, q);
      NoCmAppend(h, q);
    }
  }

  /** A join starts with the start of its first piece. */
  lemma {:induction false} JoinStart(pieces: seq<string>)
    requires pieces != [] && |pieces[0]| >= 3
    ensures |Join(pieces)| >= 3 && Join(pieces)[..3] == pieces[0][..3]
  {
    var n := |pieces|;
    var h := Join(pieces[..n - 1]);
    if n == 1 {
      assert h == [];
      assert h + pieces[0] == pieces[0];
    } else {
      JoinStart(pieces[..n - 1]);
      assert (h + pieces[n - 1])[..3] == h[..3];
    }
  }

  lemma Piece0()
    ensures Lower("78 year old") == "78 year old" && PieceShaped("78 year old")
  {
  }

  lemma Piece1()
    ensures Lower(" male, 190 lbs,") == " male, 190 lbs," && PieceShaped(" male, 190 lbs,")
  {
  }

  lemma Piece2()
    ensures Lower(" 5'10\", septic") == " 5'10\", septic" && PieceShaped(" 5'10\", septic")
  {
  }

  lemma Piece3()
    ensures Lower(" shock, on") == " shock, on" && PieceShaped(" shock, on")
  {
  }

  lemma Piece4Lowered()
    ensures Lower(" vasopressors, ESRD") == " vasopressors, esrd"
  {
  }

  lemma Piece4()
    ensures Lower(" vasopressors, ESRD") == " vasopressors, esrd" && PieceShaped(" vasopressors, esrd")
  {
    Piece4Lowered();
  }

  /** Each sample piece lower-cases to its lowered piece, which is shaped. */
  lemma SamplePiece(k: nat)
    requires k < |SamplePieces|
    ensures Lower(SamplePieces[k]) == LoweredPieces[k] && PieceShaped(LoweredPieces[k])
  {
    if k == 0 {
      Piece0();
    } else if k == 1 {
      Piece1();
    } else if k == 2 {
      Piece2();
    } else if k == 3 {
      Piece3();
    } else {
      Piece4();
    }
  }

  /** The procedure name as the normaliser sees it, with the separating space. */
  const NormalProcedure := "open aaa repair "

  lemma ProcedureLowered()
    ensures Lower(SampleProcedure + " ") == NormalProcedure
  {
  }

  lemma ProcedureShaped()
    ensures Collapsed(NormalProcedure) && NoCm(NormalProcedure)
  {
  }

  lemma ProcedureDigitFree()
    ensures forall i :: 0 <= i < |NormalProcedure| ==> !IsDigit(NormalProcedure[i])
  {
  }

  /** The joined lowered pieces: collapsed, free of "cm", starting "78 ", not ending in a space. */
  lemma LoweredJoinShape()
    ensures var g := Join(LoweredPieces);
      && Collapsed(g) && NoCm(g) && |g| >= 3 && g[..3] == "78 " && g[|g| - 1] != ' '
  {
    forall k | 0 <= k < |LoweredPieces| ensures PieceShaped(LoweredPieces[k]) {
      SamplePiece(k);
    }
    JoinShape(LoweredPieces);
    JoinStart(LoweredPieces);
  }

  /** The sample normalised: lower-cased, and already collapsed. */
  lemma SampleNormalized()
    ensures Normalize(SampleProcedure, Join(SamplePieces)) == NormalProcedure + Join(LoweredPieces)
  {
    forall k | 0 <= k < |SamplePieces| ensures Lower(SamplePieces[k]) == LoweredPieces[k] {
      SamplePiece(k);
    }
    LowerJoin(SamplePieces, LoweredPieces);
    LoweredJoinShape();
    ProcedureLowered();
    ProcedureShaped();
    LowerAppend(SampleProcedure + " ", Join(SamplePieces));
    CollapsedAppend(NormalProcedure, Join(LoweredPieces));
    CollapseOfCollapsed(NormalProcedure + Join(LoweredPieces));
  }

  /** In the normalised sample the first digit pair is "78" and "cm" never occurs. */
  lemma SampleHeightFromText()
    ensures HeightFromText(NormalProcedure + Join(LoweredPieces)) == Some((233.68, 92.0))
  {
    LoweredJoinShape();
    ProcedureShaped();
    ProcedureDigitFree();
    var g := Join(LoweredPieces);
    var t := NormalProcedure + g;
    NoCmAppend(NormalProcedure, g);
    forall i | 0 <= i < |NormalProcedure| ensures !IsDigit(t[i]) {
      assert t[i] == NormalProcedure[i];
    }
    assert t[16] == g[..3][0] && t[17] == g[..3][1] && t[18] == g[..3][2];
    FirstDigitsSevenEightAreHeight(t, 16);
  }

  /**
   * The whole sample "78 year old male, 190 lbs, 5'10\", septic shock, on vasopressors, ESRD"
   * (joined from `SamplePieces`): no "cm" occurs and "78" is the first digit pair, so the
   * recorded height is 233.68 cm (92 in), not the 177.8 cm that "5'10\"" would give.
   */
  lemma SampleAgeReadAsHeight()
    ensures var r := ParsedRecord(SampleProcedure, Join(SamplePieces));
      r.heightCm == Some(233.68) && r.heightIn == Some(92.0)
  {
    SampleNormalized();
    SampleHeightFromText();
  }

  // ---------------------------------------------------------------- age

  /**
   * Age is decided by the first age pattern whose search succeeds, and kept exactly when
   * 0 < age < 120.
   */
  lemma AgeFirstMatchDecides(t: string, k: nat, i: nat, age: nat)
    requires k < |AgePatterns| && SearchAge(AgePatterns[k], t) == Some((i, age))
    requires forall j :: 0 <= j < k ==> SearchAge(AgePatterns[j], t).None?
    ensures AgeFromText(t) == (if 0 < age < 120 then Some(age) else None)
  {
    FirstHitIs(AgeHits(t), k);
  }

  // ---------------------------------------------------------------- classification

  /**
   * `brain_dead` is true exactly when the text holds an organ-donation term and a brain-death
   * term; it then comes with `moribund` and `constant_threat`, whatever else the text says.
   */
  lemma BrainDeadOnlyWhenStated(t: string)
    ensures Classify(t).brainDead <==>
      (exists k :: 0 <= k < |OrganDonationTerms| && Contains(t, OrganDonationTerms[k])) &&
      (exists k :: 0 <= k < |BrainDeadTerms| && Contains(t, BrainDeadTerms[k]))
    ensures Classify(t).brainDead ==> Classify(t).moribund && Classify(t).disease == TierConstantThreat
  {
  }

  /** A constant-threat term always yields `constant_threat`, whatever other terms appear. */
  lemma ConstantThreatNeverDowngraded(t: string, k: nat)
    requires k < |ConstantThreatTerms| && Contains(t, ConstantThreatTerms[k])
    ensures Classify(t).disease == TierConstantThreat
  {
  }

  /** `severe` needs a severe term and no constant-threat term, outside the brain-death case. */
  lemma SevereNeedsNoConstantThreat(t: string)
    requires Classify(t).disease == TierSevere
    ensures !Classify(t).brainDead
    ensures exists k :: 0 <= k < |SevereTerms| && Contains(t, SevereTerms[k])
    ensures forall k :: 0 <= k < |ConstantThreatTerms| ==> !Contains(t, ConstantThreatTerms[k])
  {
    assert |TierSevere| == 6 && |TierConstantThreat| == 15 && |TierMild| == 4 && |TierNone| == 4;
    assert SeverityTier(t) == Some(TierSevere);
    assert !ContainsAny(t, ConstantThreatTerms) && ContainsAny(t, SevereTerms);
  }

  /** `mild` needs a mild term and neither a constant-threat nor a severe term. */
  lemma MildNeedsNeither(t: string)
    requires Classify(t).disease == TierMild
    ensures !Classify(t).brainDead
    ensures exists k :: 0 <= k < |MildTerms| && Contains(t, MildTerms[k])
    ensures forall k :: 0 <= k < |ConstantThreatTerms| ==> !Contains(t, ConstantThreatTerms[k])
    ensures forall k :: 0 <= k < |SevereTerms| ==> !Contains(t, SevereTerms[k])
  {
  }

  /** `none` means no severity term and no moribund term at all. */
  lemma NoneMeansNoTerms(t: string)
    requires Classify(t).disease == TierNone
    ensures forall k :: 0 <= k < |ConstantThreatTerms| ==> !Contains(t, ConstantThreatTerms[k])
    ensures forall k :: 0 <= k < |SevereTerms| ==> !Contains(t, SevereTerms[k])
    ensures forall k :: 0 <= k < |MildTerms| ==> !Contains(t, MildTerms[k])
    ensures forall k :: 0 <= k < |MoribundTerms| ==> !Contains(t, MoribundTerms[k])
  {
  }

  /**
   * A moribund term sets `moribund`. The tier is then `constant_threat` when no severity term is
   * present, and otherwise the severity rule's tier replaces it (so a moribund patient with only
   * a mild term ends up `mild`).
   */
  lemma MoribundRule(t: string, k: nat)
    requires k < |MoribundTerms| && Contains(t, MoribundTerms[k])
    ensures Classify(t).moribund
    ensures !BrainDeadCase(t) && SeverityTier(t).None? ==> Classify(t).disease == TierConstantThreat
    ensures !BrainDeadCase(t) && SeverityTier(t).Some? ==> Classify(t).disease == SeverityTier(t).value
  {
  }

  /** `moribund` is set only by the brain-death case or by a moribund term. */
  lemma MoribundOnlyWhenStated(t: string)
    requires Classify(t).moribund
    ensures BrainDeadCase(t) || exists k :: 0 <= k < |MoribundTerms| && Contains(t, MoribundTerms[k])
  {
  }

  /** Weight, height and age are extracted before the brain-death return, so they are kept. */
  lemma BrainDeadRecordKeepsMeasurements(procedureName: string, freeText: string)
    requires BrainDeadCase(Normalize(procedureName, freeText))
    ensures var t := Normalize(procedureName, freeText);
      var r := ParsedRecord(procedureName, freeText);
      && r.brainDead == Some(true)
      && r.weightKg == WeightFromText(t) && r.age == AgeFromText(t)
      && r.heightCm == (if HeightFromText(t).Some? then Some(HeightFromText(t).value.0) else None)
  {
  }
}
