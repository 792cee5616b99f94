/**
 * The thirteen regular expressions of `parse_patient` (preop-evaluation/scripts/parse_patient.py,
 * lines 25-31, 48-53 and 76-81), each written out as a matcher "does the pattern match at index i,
 * and with which captured groups", and `re.search` as the leftmost index at which it matches.
 *
 * Each matcher is the outcome of Python's backtracking with greedy quantifiers, worked out by hand:
 *  - `\s*` or `\s+` followed by a literal that is not whitespace can only end where the run of
 *    whitespace ends, so it skips the whole run (`SkipSpaces`);
 *  - `\d{1,3}` followed by `\s*` and a letter or `#`, or by `\b`, can only succeed when the whole
 *    run of digits starting there has 1 to 3 digits (a shorter take leaves a digit next);
 *  - `(?:\.\d{1,2})?` is taken exactly when a dot and 1 or 2 digits follow (with a third digit or
 *    without the fraction the next character is a digit or a dot and the literal fails);
 *  - `\b` is the boundary between a word character and a non-word character (or an end).
 */
module Patterns {
  import opened Ascii
  import opened Options

  /** Python's `\b` at position `j` of `t`. */
  predicate WordBoundary(t: string, j: nat)
    requires j <= |t|
  {
    (j > 0 && IsWordChar(t[j - 1])) != (j < |t| && IsWordChar(t[j]))
  }

  /** End of the run of whitespace starting at `i` (greedy `\s*`). */
  function SkipSpaces(t: string, i: nat): (j: nat)
    requires i <= |t|
    ensures i <= j <= |t|
    ensures forall k :: i <= k < j ==> IsSpace(t[k])
    ensures j == |t| || !IsSpace(t[j])
    decreases |t| - i
  {
    if i < |t| && IsSpace(t[i]) then SkipSpaces(t, i + 1) else i
  }

  /** `(\d{1,3})` followed by a non-digit: the value of the digit run at `i`, and where it ends. */
  function IntToken(t: string, i: nat): (r: Option<(nat, nat)>)
    requires i <= |t|
    ensures r.Some? ==> i < r.value.1 <= |t| && r.value.1 <= i + 3
  {
    var n := DigitRun(t, i);
    if 1 <= n <= 3 then Some((NumberIn(t, i, i + n), i + n)) else None
  }

  /** `(\d{1,3}(?:\.\d{1,2})?)` followed by a non-digit: `float(group)` and where it ends. */
  function DecimalToken(t: string, i: nat): (r: Option<(real, nat)>)
    requires i <= |t|
    ensures r.Some? ==> i < r.value.1 <= |t|
  {
    match IntToken(t, i)
    case None => None
    case Some((whole, d)) =>
      if d < |t| && t[d] == '.' && 1 <= DigitRun(t, d + 1) <= 2 then
        var m := DigitRun(t, d + 1);
        Some((whole as real + NumberIn(t, d + 1, d + 1 + m) as real / Pow10(m) as real, d + 1 + m))
      else
        Some((whole as real, d))
  }

  // ---------------------------------------------------------------- weight (lines 25-31)

  datatype WeightPattern =
    | NumberKg      // (\d{1,3}(?:\.\d{1,2})?)\s*kg\b
    | WeighsKg      // weighs?\s+(\d{1,3}(?:\.\d{1,2})?)\s*kg\b
    | WeightWordKg  // weight\s+(\d{1,3}(?:\.\d{1,2})?)\s*kg\b
    | NumberLbs     // (\d{1,3}(?:\.\d{1,2})?)\s*lbs?\b
    | NumberPound   // (\d{1,3}(?:\.\d{1,2})?)\s*#\b

  /** The weight patterns in the order they are tried. */
  const WeightPatterns: seq<WeightPattern> := [NumberKg, WeighsKg, WeightWordKg, NumberLbs, NumberPound]

  /** `(\d{1,3}(?:\.\d{1,2})?)\s*kg\b` at `i`. */
  function NumberKgAt(t: string, i: nat): Option<real>
    requires i <= |t|
  {
    match DecimalToken(t, i)
    case None => None
    case Some((v, e)) =>
      var k := SkipSpaces(t, e);
      if OccursAt(t, "kg", k) && WordBoundary(t, k + 2) then Some(v) else None
  }

  /** `\s+` followed by `(\d{1,3}(?:\.\d{1,2})?)\s*kg\b` at `j`. */
  function SpacedNumberKgAt(t: string, j: nat): Option<real>
    requires j <= |t|
  {
    var k := SkipSpaces(t, j);
    if k > j then NumberKgAt(t, k) else None
  }

  /** The leftmost-capable match of a weight pattern at index `i`: the captured number. */
  function WeightMatchAt(p: WeightPattern, t: string, i: nat): Option<real> {
    if |t| < i then None
    else
      match p
      case NumberKg => NumberKgAt(t, i)
      case WeighsKg =>
        if OccursAt(t, "weigh", i) then
          SpacedNumberKgAt(t, if i + 5 < |t| && t[i + 5] == 's' then i + 6 else i + 5)
        else None
      case WeightWordKg =>
        if OccursAt(t, "weight", i) then SpacedNumberKgAt(t, i + 6) else None
      case NumberLbs =>
        (match DecimalToken(t, i)
         case None => None
         case Some((v, e)) =>
           var k := SkipSpaces(t, e);
           if OccursAt(t, "lb", k) then
             var j := k + 2;
             if (if j < |t| && t[j] == 's' then WordBoundary(t, j + 1) else WordBoundary(t, j))
             then Some(v) else None
           else None)
      case NumberPound =>
        (match DecimalToken(t, i)
         case None => None
         case Some((v, e)) =>
           var k := SkipSpaces(t, e);
           if OccursAt(t, "#", k) && WordBoundary(t, k + 1) then Some(v) else None)
  }

  // ---------------------------------------------------------------- height (lines 48-53)

  datatype HeightPattern =
    | NumberCm         // (\d{1,3})\s*cm\b
    | HeightWordCm     // height\s+(\d{1,3})\s*cm\b
    | FeetInches       // (\d)\s*'?\s*(\d{1,2})\s*"?
    | FeetInchesWords  // (\d)\s+ft\s+(\d{1,2})\s+in\b

  /** The height patterns in the order they are tried. */
  const HeightPatterns: seq<HeightPattern> := [NumberCm, HeightWordCm, FeetInches, FeetInchesWords]

  /** Number of capturing groups of each height pattern (`len(match.groups())`). */
  function GroupCount(p: HeightPattern): (n: nat)
    ensures n == 1 || n == 2
  {
    match p
    case NumberCm => 1
    case HeightWordCm => 1
    case FeetInches => 2
    case FeetInchesWords => 2
  }

  /** `(\d{1,3})\s*cm\b` at `i`. */
  function NumberCmAt(t: string, i: nat): Option<seq<nat>>
    requires i <= |t|
  {
    match IntToken(t, i)
    case None => None
    case Some((v, e)) =>
      var k := SkipSpaces(t, e);
      if OccursAt(t, "cm", k) && WordBoundary(t, k + 2) then Some([v]) else None
  }

  /** The match of a height pattern at index `i`: the integers of its captured groups. */
  function HeightMatchAt(p: HeightPattern, t: string, i: nat): (r: Option<seq<nat>>)
    ensures r.Some? ==> |r.value| == GroupCount(p)
  {
    if |t| < i then None
    else
      match p
      case NumberCm => NumberCmAt(t, i)
      case HeightWordCm =>
        if OccursAt(t, "height", i) then
          var k := SkipSpaces(t, i + 6);
          if k > i + 6 then NumberCmAt(t, k) else None
        else None
      case FeetInches =>
        if i < |t| && IsDigit(t[i]) then
          var j := SkipSpaces(t, i + 1);
          var k := if j < |t| && t[j] == '\'' then SkipSpaces(t, j + 1) else j;
          if k < |t| && IsDigit(t[k]) then
            var m := if k + 1 < |t| && IsDigit(t[k + 1]) then 2 else 1;
            Some([DigitValue(t[i]), NumberIn(t, k, k + m)])
          else None
        else None
      case FeetInchesWords =>
        if i < |t| && IsDigit(t[i]) then
          var j := SkipSpaces(t, i + 1);
          if j > i + 1 && OccursAt(t, "ft", j) then
            var k := SkipSpaces(t, j + 2);
            var m := DigitRun(t, k);
            if k > j + 2 && 1 <= m <= 2 then
              var e := SkipSpaces(t, k + m);
              if e > k + m && OccursAt(t, "in", e) && WordBoundary(t, e + 2) then
                Some([DigitValue(t[i]), NumberIn(t, k, k + m)])
              else None
            else None
          else None
        else None
  }

  // ---------------------------------------------------------------- age (lines 76-81)

  datatype AgePattern =
    | YearsYo    // \b(\d{1,3})\s*yo\b
    | YearsYSlO  // \b(\d{1,3})\s*y\/o\b
    | YearsOld   // \b(\d{1,3})\s*year[- ]old\b
    | AgeWord    // \bage\s*(\d{1,3})\b

  /** The age patterns in the order they are tried. */
  const AgePatterns: seq<AgePattern> := [YearsYo, YearsYSlO, YearsOld, AgeWord]

  /** `\b(\d{1,3})\s*` followed by `unit` and `\b`, at `i`. */
  function YearsUnitAt(t: string, i: nat, unit: string): Option<nat>
    requires i <= |t|
  {
    if WordBoundary(t, i) then
      match IntToken(t, i)
      case None => None
      case Some((v, e)) =>
        var k := SkipSpaces(t, e);
        if OccursAt(t, unit, k) && WordBoundary(t, k + |unit|) then Some(v) else None
    else None
  }

  /** The match of an age pattern at index `i`: the captured integer. */
  function AgeMatchAt(p: AgePattern, t: string, i: nat): Option<nat> {
    if |t| < i then None
    else
      match p
      case YearsYo => YearsUnitAt(t, i, "yo")
      case YearsYSlO => YearsUnitAt(t, i, "y/o")
      case YearsOld =>
        (match YearsUnitAt(t, i, "year-old")
         case Some(v) => Some(v)
         case None => YearsUnitAt(t, i, "year old"))
      case AgeWord =>
        if WordBoundary(t, i) && OccursAt(t, "age", i) then
          var k := SkipSpaces(t, i + 3);
          var n := DigitRun(t, k);
          if 1 <= n <= 3 && WordBoundary(t, k + n) then Some(NumberIn(t, k, k + n)) else None
        else None
  }

  // ---------------------------------------------------------------- re.search

  /**
   * `re.search`: the leftmost index in `i..last` at which `at` matches, with what it captured;
   * None when it matches nowhere there.
   */
  function Leftmost<C>(at: nat -> Option<C>, last: nat, i: nat): (r: Option<(nat, C)>)
    ensures r.Some? ==> i <= r.value.0 <= last && at(r.value.0) == Some(r.value.1)
    ensures r.Some? ==> forall j :: i <= j < r.value.0 ==> at(j).None?
    ensures r.None? ==> forall j :: i <= j <= last ==> at(j).None?
    decreases last + 1 - i
  {
    if i > last then None
    else
      match at(i)
      case Some(c) => Some((i, c))
      case None => Leftmost(at, last, i + 1)
  }

  function SearchWeight(p: WeightPattern, t: string): Option<(nat, real)> {
    Leftmost(j => WeightMatchAt(p, t, j), |t|, 0)
  }

  function SearchHeight(p: HeightPattern, t: string): (r: Option<(nat, seq<nat>)>)
    ensures r.Some? ==> |r.value.1| == GroupCount(p)
  {
    Leftmost(j => HeightMatchAt(p, t, j), |t|, 0)
  }

  function SearchAge(p: AgePattern, t: string): Option<(nat, nat)> {
    Leftmost(j => AgeMatchAt(p, t, j), |t|, 0)
  }

  /** A weight pattern that matches at some index is found by the search, at or before it. */
  lemma SearchWeightFinds(p: WeightPattern, t: string, j: nat)
    requires WeightMatchAt(p, t, j).Some?
    ensures SearchWeight(p, t).Some? && SearchWeight(p, t).value.0 <= j
  {
    var at := i => WeightMatchAt(p, t, i);
    assert at(j).Some?;
  }

  /** A height pattern that matches at some index is found by the search, at or before it. */
  lemma SearchHeightFinds(p: HeightPattern, t: string, j: nat)
    requires HeightMatchAt(p, t, j).Some?
    ensures SearchHeight(p, t).Some? && SearchHeight(p, t).value.0 <= j
  {
    var at := i => HeightMatchAt(p, t, i);
    assert at(j).Some?;
  }
}
