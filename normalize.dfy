/**
 * Text normalisation of `parse_patient` (preop-evaluation/scripts/parse_patient.py, lines 13-14):
 * the procedure name and the free text are joined with one space, lower-cased, and every run of
 * whitespace is replaced by a single space (`re.sub(r"\s+", " ", text)`).
 */
module TextNormalizer {
  import opened Ascii

  /** Whitespace in `s` is only the plain space, and no two spaces are adjacent. */
  predicate Collapsed(s: string) {
    && (forall i :: 0 <= i < |s| && IsSpace(s[i]) ==> s[i] == ' ')
    && (forall i :: 0 <= i < |s| - 1 ==> !(s[i] == ' ' && s[i + 1] == ' '))
  }

  /** `s` without its leading run of whitespace. */
  function DropSpaces(s: string): (r: string)
    ensures |r| <= |s|
    ensures r == s[|s| - |r|..]
    ensures r == [] || !IsSpace(r[0])
    ensures s != [] && IsSpace(s[0]) ==> |r| < |s|
    ensures forall i :: 0 <= i < |s| - |r| ==> IsSpace(s[i])
  {
    if s != [] && IsSpace(s[0]) then DropSpaces(s[1..]) else s
  }

  /** `re.sub(r"\s+", " ", s)`: every maximal run of whitespace becomes one space. */
  function Collapse(s: string): (r: string)
    ensures |r| <= |s|
    ensures r == [] <==> s == []
    ensures s != [] ==> (IsSpace(r[0]) <==> IsSpace(s[0]))
    ensures Collapsed(r)
    ensures NoUpper(s) ==> NoUpper(r)
    decreases |s|
  {
    if s == [] then []
    else if IsSpace(s[0]) then [' '] + Collapse(DropSpaces(s))
    else [s[0]] + Collapse(s[1..])
  }

  /** Collapsing text that is already collapsed changes nothing. */
  lemma {:induction false} CollapseOfCollapsed(s: string)
    requires Collapsed(s)
    ensures Collapse(s) == s
    decreases |s|
  {
    if s != [] {
      assert Collapsed(s[1..]) by {
        forall i | 0 <= i < |s[1..]| - 1
          ensures !(s[1..][i] == ' ' && s[1..][i + 1] == ' ')
        {
          assert s[1..][i] == s[i + 1] && s[1..][i + 1] == s[i + 2];
        }
      }
      if IsSpace(s[0]) {
        assert |s| > 1 ==> !IsSpace(s[1]);
        assert DropSpaces(s) == s[1..];
      }
      CollapseOfCollapsed(s[1..]);
    }
  }

  /** Two collapsed texts stay collapsed when joined, unless a space meets a space. */
  lemma CollapsedAppend(a: string, b: string)
    requires Collapsed(a) && Collapsed(b)
    requires !(|a| > 0 && |b| > 0 && a[|a| - 1] == ' ' && b[0] == ' ')
    ensures Collapsed(a + b)
  {
    var s := a + b;
    forall i | 0 <= i < |s| - 1 ensures !(s[i] == ' ' && s[i + 1] == ' ') {
      if i + 1 < |a| {
        assert s[i] == a[i] && s[i + 1] == a[i + 1];
      } else if i >= |a| {
        assert s[i] == b[i - |a|] && s[i + 1] == b[i + 1 - |a|];
      }
    }
  }

  /** The text the classifier and the extractors read: lower-cased, whitespace collapsed. */
  function NormalText(s: string): string {
    Collapse(Lower(s))
  }

  /** `f"{procedure_name} {free_text}".lower()` followed by the whitespace collapse. */
  function Normalize(procedureName: string, freeText: string): string {
    NormalText(procedureName + " " + freeText)
  }

  /** The normalised text is lower case, whitespace is only single spaces, never two in a row. */
  lemma NormalTextShape(s: string)
    ensures NoUpper(NormalText(s)) && Collapsed(NormalText(s))
  {
  }

  /** Normalising twice is the same as normalising once. */
  lemma NormalTextIdempotent(s: string)
    ensures NormalText(NormalText(s)) == NormalText(s)
  {
    var t := NormalText(s);
    NormalTextShape(s);
    LowerOfLowered(t);
    CollapseOfCollapsed(t);
  }
}
