/**
 * `applyInlineStyles` (x-to-markdown/scripts/parse-tweet.js:46-64): Markdown emphasis markers
 * spliced into a block's text. The style ranges are sorted by offset, highest first (a stable
 * sort), and applied one after another to the growing result, so that a range never shifts the
 * text of the ranges still to come.
 */
module InlineStyles {
  import opened Options
  import opened JsText

  /** An entry of a block's `inlineStyleRanges`. */
  datatype StyleRange = StyleRange(offset: int, length: int, style: string)

  const Bold := "Bold"
  const Italic := "Italic"

  /** The text as a style marks it up: `**` for Bold, `*` for Italic, nothing for any other style. */
  function Wrap(style: string, inner: string): string {
    if style == Bold then "**" + inner + "**"
    else if style == Italic then "*" + inner + "*"
    else inner
  }

  // ---------------------------------------------------------------- one range

  /** One iteration of the loop (lines 53-61), with JavaScript's `slice`. */
  function ApplyRange(result: string, range: StyleRange): string {
    var before := Slice(result, 0, range.offset);
    var inner := Slice(result, range.offset, range.offset + range.length);
    var after := SliceFrom(result, range.offset + range.length);
    if range.style == Bold then before + "**" + inner + "**" + after
    else if range.style == Italic then before + "*" + inner + "*" + after
    else result
  }

  /** A range lies within a string of length `n`. */
  predicate InBounds(range: StyleRange, n: int) {
    0 <= range.offset && 0 <= range.length && range.offset + range.length <= n
  }

  /** An in-bounds range wraps exactly the characters it covers. */
  lemma ApplyRangeWraps(result: string, range: StyleRange)
    requires InBounds(range, |result|)
    ensures var o, e := range.offset, range.offset + range.length;
      ApplyRange(result, range) == result[..o] + Wrap(range.style, result[o..e]) + result[e..]
  {
    SlicesSplit(result, range.offset, range.length);
  }

  /** Text after the part of the string a range covers is carried along unchanged. */
  lemma ApplyRangeSuffix(p: string, q: string, range: StyleRange)
    requires InBounds(range, |p|)
    ensures ApplyRange(p + q, range) == ApplyRange(p, range) + q
    ensures |ApplyRange(p, range)| >= |p|
  {
    var o, e := range.offset, range.offset + range.length;
    ApplyRangeWraps(p + q, range);
    ApplyRangeWraps(p, range);
    assert (p + q)[..o] == p[..o] && (p + q)[o..e] == p[o..e];
    assert (p + q)[e..] == p[e..] + q;
  }

  // ---------------------------------------------------------------- the sort

  /** `sorted` is in descending order of offset. */
  predicate SortedDesc(s: seq<StyleRange>) {
    forall i, j :: 0 <= i < j < |s| ==> s[i].offset >= s[j].offset
  }

  /** Insert `x` in front of the first element whose offset is not greater than its own. */
  function InsertDesc(sorted: seq<StyleRange>, x: StyleRange): seq<StyleRange> {
    if sorted == [] || sorted[0].offset <= x.offset then [x] + sorted
    else [sorted[0]] + InsertDesc(sorted[1..], x)
  }

  /** `[...ranges].sort((a, b) => b.offset - a.offset)`: stable, highest offset first. */
  function SortDesc(s: seq<StyleRange>): seq<StyleRange> {
    if s == [] then [] else InsertDesc(SortDesc(s[1..]), s[0])
  }

  /** The ranges with a given offset, in order. */
  function WithOffset(s: seq<StyleRange>, v: int): seq<StyleRange> {
    if s == [] then []
    else (if s[0].offset == v then [s[0]] else []) + WithOffset(s[1..], v)
  }

  /** Every element of the insertion is `x` or an element of `sorted`. */
  lemma {:induction false} InsertDescMultiset(sorted: seq<StyleRange>, x: StyleRange)
    ensures multiset(InsertDesc(sorted, x)) == multiset(sorted) + multiset{x}
  {
    if !(sorted == [] || sorted[0].offset <= x.offset) {
      InsertDescMultiset(sorted[1..], x);
      assert sorted == [sorted[0]] + sorted[1..];
    }
  }

  lemma {:induction false} InsertDescSorted(sorted: seq<StyleRange>, x: StyleRange)
    requires SortedDesc(sorted)
    ensures SortedDesc(InsertDesc(sorted, x))
  {
    var r := InsertDesc(sorted, x);
    if sorted == [] || sorted[0].offset <= x.offset {
      assert r == [x] + sorted;
      forall i, j | 0 <= i < j < |r| ensures r[i].offset >= r[j].offset {
        assert r[j] == sorted[j - 1];
        if i > 0 { assert r[i] == sorted[i - 1]; }
        else if j > 1 { assert sorted[0].offset >= sorted[j - 1].offset; }
      }
    } else {
      var rest := sorted[1..];
      assert SortedDesc(rest) by {
        forall i, j | 0 <= i < j < |rest| ensures rest[i].offset >= rest[j].offset {
          assert rest[i] == sorted[i + 1] && rest[j] == sorted[j + 1];
        }
      }
      InsertDescSorted(rest, x);
      InsertDescMultiset(rest, x);
      var ins := InsertDesc(rest, x);
      assert r == [sorted[0]] + ins;
      forall i, j | 0 <= i < j < |r| ensures r[i].offset >= r[j].offset {
        assert r[j] == ins[j - 1];
        if i > 0 {
          assert r[i] == ins[i - 1];
        } else {
          var y := ins[j - 1];
          assert y in multiset(ins);
          if y != x {
            assert y in multiset(rest);
            var k :| 0 <= k < |rest| && rest[k] == y;
            assert sorted[k + 1] == y;
          }
        }
      }
    }
  }

  lemma {:induction false} InsertDescStable(sorted: seq<StyleRange>, x: StyleRange, v: int)
    ensures WithOffset(InsertDesc(sorted, x), v) == (if x.offset == v then [x] else []) + WithOffset(sorted, v)
  {
    var hx: seq<StyleRange> := if x.offset == v then [x] else [];
    if sorted == [] || sorted[0].offset <= x.offset {
      assert ([x] + sorted)[1..] == sorted;
    } else {
      var rest := sorted[1..];
      var ins := InsertDesc(rest, x);
      InsertDescStable(rest, x, v);
      assert ([sorted[0]] + ins)[1..] == ins;
      var h0: seq<StyleRange> := if sorted[0].offset == v then [sorted[0]] else [];
      assert WithOffset(InsertDesc(sorted, x), v) == h0 + (hx + WithOffset(rest, v));
      assert WithOffset(sorted, v) == h0 + WithOffset(rest, v);
      if x.offset == v {
        assert h0 == [];
        assert h0 + (hx + WithOffset(rest, v)) == hx + WithOffset(rest, v);
      } else {
        assert hx == [];
        assert hx + (h0 + WithOffset(rest, v)) == h0 + WithOffset(rest, v);
      }
    }
  }

  /**
   * The sort yields the ranges in descending order of offset, as a permutation of the input, and
   * stable: the ranges sharing an offset keep their input order.
   */
  lemma {:induction false} SortDescSpec(s: seq<StyleRange>)
    ensures SortedDesc(SortDesc(s))
    ensures multiset(SortDesc(s)) == multiset(s)
    ensures forall v :: WithOffset(SortDesc(s), v) == WithOffset(s, v)
  {
    if s != [] {
      SortDescSpec(s[1..]);
      InsertDescSorted(SortDesc(s[1..]), s[0]);
      InsertDescMultiset(SortDesc(s[1..]), s[0]);
      forall v ensures WithOffset(SortDesc(s), v) == WithOffset(s, v) {
        InsertDescStable(SortDesc(s[1..]), s[0], v);
      }
      assert s == [s[0]] + s[1..];
    }
  }

  // ---------------------------------------------------------------- the loop

  /** The ranges applied in the given order. */
  function ApplyAll(text: string, ranges: seq<StyleRange>): string
    decreases |ranges|
  {
    if ranges == [] then text else ApplyAll(ApplyRange(text, ranges[0]), ranges[1..])
  }

  lemma {:induction false} ApplyAllSnoc(text: string, ranges: seq<StyleRange>, range: StyleRange)
    ensures ApplyAll(text, ranges + [range]) == ApplyRange(ApplyAll(text, ranges), range)
    decreases |ranges|
  {
    if ranges != [] {
      assert (ranges + [range])[1..] == ranges[1..] + [range];
      ApplyAllSnoc(ApplyRange(text, ranges[0]), ranges[1..], range);
    }
  }

  /** Applying one more range of a list. */
  lemma ApplyAllStep(text: string, ranges: seq<StyleRange>, i: nat)
    requires i < |ranges|
    ensures ApplyAll(text, ranges[..i + 1]) == ApplyRange(ApplyAll(text, ranges[..i]), ranges[i])
  {
    ApplyAllSnoc(text, ranges[..i], ranges[i]);
    assert ranges[..i + 1] == ranges[..i] + [ranges[i]];
  }

  /** `applyInlineStyles(text, ranges)`; `None` stands for a missing `inlineStyleRanges`. */
  function InlineStyled(text: string, ranges: Option<seq<StyleRange>>): string {
    if ranges.None? || |ranges.value| == 0 || text == "" then text
    else ApplyAll(text, SortDesc(ranges.value))
  }

  /** The loop of lines 50-63, reassigning `result` once per sorted range. */
  method ApplyInlineStyles(text: string, ranges: Option<seq<StyleRange>>) returns (result: string)
    ensures result == InlineStyled(text, ranges)
    ensures ranges.None? || |ranges.value| == 0 || text == "" ==> result == text
  {
    if ranges.None? || |ranges.value| == 0 || text == "" {
      return text;
    }
    var sorted := SortDesc(ranges.value);
    result := text;
    for i := 0 to |sorted|
      invariant result == ApplyAll(text, sorted[..i])
    {
      var range := sorted[i];
      var before := Slice(result, 0, range.offset);
      var inner := Slice(result, range.offset, range.offset + range.length);
      var after := SliceFrom(result, range.offset + range.length);
      ApplyAllStep(text, sorted, i);
      if range.style == Bold {
        result := before + "**" + inner + "**" + after;
      } else if range.style == Italic {
        result := before + "*" + inner + "*" + after;
      }
    }
    assert sorted[..|sorted|] == sorted;
  }

  /** Splicing in markers keeps a non-empty text non-empty, ending in its own last character or a marker. */
  lemma ApplyRangeEnds(r: string, range: StyleRange)
    requires r != ""
    ensures var t := ApplyRange(r, range); t != "" && (t[|t| - 1] == r[|r| - 1] || t[|t| - 1] == '*')
  {
    var after := SliceFrom(r, range.offset + range.length);
    if (range.style == Bold || range.style == Italic) && after != "" {
      var t := ApplyRange(r, range);
      assert t[|t| - 1] == after[|after| - 1];
    }
  }

  lemma {:induction false} ApplyAllEnds(text: string, ranges: seq<StyleRange>)
    requires text != ""
    ensures var t := ApplyAll(text, ranges); t != "" && (t[|t| - 1] == text[|text| - 1] || t[|t| - 1] == '*')
    decreases |ranges|
  {
    if ranges != [] {
      ApplyRangeEnds(text, ranges[0]);
      ApplyAllEnds(ApplyRange(text, ranges[0]), ranges[1..]);
    }
  }

  /** The styled text of a non-empty text is non-empty and ends with the text's last character or a marker. */
  lemma StyledEnds(text: string, ranges: Option<seq<StyleRange>>)
    requires text != ""
    ensures var t := InlineStyled(text, ranges); t != "" && (t[|t| - 1] == text[|text| - 1] || t[|t| - 1] == '*')
  {
    if ranges.Some? && |ranges.value| > 0 {
      ApplyAllEnds(text, SortDesc(ranges.value));
    }
  }

  // ---------------------------------------------------------------- properties

  /** Ranges of any style other than Bold and Italic change nothing, wherever they point. */
  lemma {:induction false} OtherStylesIgnored(text: string, ranges: seq<StyleRange>)
    requires forall k :: 0 <= k < |ranges| ==> ranges[k].style != Bold && ranges[k].style != Italic
    ensures ApplyAll(text, ranges) == text
    decreases |ranges|
  {
    if ranges != [] {
      OtherStylesIgnored(text, ranges[1..]);
    }
  }

  /** Number of ranges with the given style. */
  function CountStyle(ranges: seq<StyleRange>, style: string): nat {
    if ranges == [] then 0
    else (if ranges[0].style == style then 1 else 0) + CountStyle(ranges[1..], style)
  }

  lemma {:induction false} CountStyleInsert(sorted: seq<StyleRange>, x: StyleRange, style: string)
    ensures CountStyle(InsertDesc(sorted, x), style) == CountStyle(sorted, style) + (if x.style == style then 1 else 0)
  {
    if !(sorted == [] || sorted[0].offset <= x.offset) {
      CountStyleInsert(sorted[1..], x, style);
      assert ([sorted[0]] + InsertDesc(sorted[1..], x))[1..] == InsertDesc(sorted[1..], x);
    } else {
      assert ([x] + sorted)[1..] == sorted;
    }
  }

  lemma {:induction false} CountStyleSort(s: seq<StyleRange>, style: string)
    ensures CountStyle(SortDesc(s), style) == CountStyle(s, style)
  {
    if s != [] {
      CountStyleSort(s[1..], style);
      CountStyleInsert(SortDesc(s[1..]), s[0], style);
    }
  }

  /** In-bounds ranges, overlapping or not, each add their two markers to the length. */
  lemma {:induction false} ApplyAllLength(text: string, ranges: seq<StyleRange>)
    requires forall k :: 0 <= k < |ranges| ==> InBounds(ranges[k], |text|)
    ensures |ApplyAll(text, ranges)| == |text| + 4 * CountStyle(ranges, Bold) + 2 * CountStyle(ranges, Italic)
    decreases |ranges|
  {
    if ranges != [] {
      var r := ranges[0];
      ApplyRangeWraps(text, r);
      var next := ApplyRange(text, r);
      assert |Wrap(r.style, text[r.offset..r.offset + r.length])| ==
        r.length + (if r.style == Bold then 4 else if r.style == Italic then 2 else 0);
      assert Bold != Italic by { assert |Bold| != |Italic|; }
      assert forall k :: 0 <= k < |ranges[1..]| ==> InBounds(ranges[1..][k], |next|) by {
        forall k | 0 <= k < |ranges[1..]| ensures InBounds(ranges[1..][k], |next|) {
          assert ranges[1..][k] == ranges[k + 1];
        }
      }
      ApplyAllLength(next, ranges[1..]);
    }
  }

  /**
   * The output is longer than the text by four characters per Bold range and two per Italic
   * range, when every range lies within the text.
   */
  lemma StyledLength(text: string, ranges: seq<StyleRange>)
    requires text != ""
    requires forall k :: 0 <= k < |ranges| ==> InBounds(ranges[k], |text|)
    ensures |InlineStyled(text, Some(ranges))| ==
      |text| + 4 * CountStyle(ranges, Bold) + 2 * CountStyle(ranges, Italic)
  {
    if |ranges| > 0 {
      var sorted := SortDesc(ranges);
      SortDescSpec(ranges);
      forall k | 0 <= k < |sorted| ensures InBounds(sorted[k], |text|) {
        assert sorted[k] in multiset(ranges);
      }
      ApplyAllLength(text, sorted);
      CountStyleSort(ranges, Bold);
      CountStyleSort(ranges, Italic);
    }
  }

  /** Two ranges at different offsets whose spans do not overlap. */
  predicate Apart(a: StyleRange, b: StyleRange) {
    a.offset != b.offset
    && (a.offset + a.length <= b.offset || b.offset + b.length <= a.offset)
  }

  /** Ranges whose spans are in bounds and pairwise apart. */
  predicate Separate(ranges: seq<StyleRange>, n: int) {
    && (forall k :: 0 <= k < |ranges| ==> InBounds(ranges[k], n))
    && (forall i, j :: 0 <= i < |ranges| && 0 <= j < |ranges| && i != j ==> Apart(ranges[i], ranges[j]))
  }

  /** Descending, each range ending before the previous one starts. */
  predicate Descending(ranges: seq<StyleRange>, n: int) {
    && (forall k :: 0 <= k < |ranges| ==> InBounds(ranges[k], n))
    && (forall k :: 0 <= k < |ranges| - 1 ==> ranges[k + 1].offset + ranges[k + 1].length <= ranges[k].offset)
  }

  /**
   * The independent reading of separate ranges: each range wraps its own span of the original
   * text, everything between the spans is kept.
   */
  function Marked(text: string, ranges: seq<StyleRange>): string
    requires Descending(ranges, |text|)
    decreases |ranges|
  {
    if ranges == [] then text
    else
      var o, e := ranges[0].offset, ranges[0].offset + ranges[0].length;
      DescendingTail(ranges, |text|);
      Marked(text[..o], ranges[1..]) + Wrap(ranges[0].style, text[o..e]) + text[e..]
  }

  /** Every later range ends before the first one starts. */
  lemma {:induction false} EndsBeforeFirst(ranges: seq<StyleRange>, n: int, k: nat)
    requires Descending(ranges, n) && 1 <= k < |ranges|
    ensures ranges[k].offset + ranges[k].length <= ranges[0].offset
  {
    if k > 1 {
      EndsBeforeFirst(ranges, n, k - 1);
      assert InBounds(ranges[k - 1], n);
    }
  }

  lemma DescendingTail(ranges: seq<StyleRange>, n: int)
    requires Descending(ranges, n) && |ranges| > 0
    ensures Descending(ranges[1..], ranges[0].offset)
  {
    forall k | 0 <= k < |ranges[1..]| ensures InBounds(ranges[1..][k], ranges[0].offset) {
      EndsBeforeFirst(ranges, n, k + 1);
      assert InBounds(ranges[k + 1], n);
    }
  }

  lemma {:induction false} ApplyAllPrefix(p: string, q: string, ranges: seq<StyleRange>)
    requires forall k :: 0 <= k < |ranges| ==> InBounds(ranges[k], |p|)
    ensures ApplyAll(p + q, ranges) == ApplyAll(p, ranges) + q
    decreases |ranges|
  {
    if ranges != [] {
      ApplyRangeSuffix(p, q, ranges[0]);
      var p' := ApplyRange(p, ranges[0]);
      assert forall k :: 0 <= k < |ranges[1..]| ==> InBounds(ranges[1..][k], |p'|) by {
        forall k | 0 <= k < |ranges[1..]| ensures InBounds(ranges[1..][k], |p'|) {
          assert ranges[1..][k] == ranges[k + 1];
        }
      }
      ApplyAllPrefix(p', q, ranges[1..]);
    }
  }

  lemma {:induction false} ApplyAllMarked(text: string, ranges: seq<StyleRange>)
    requires Descending(ranges, |text|)
    ensures ApplyAll(text, ranges) == Marked(text, ranges)
    decreases |ranges|
  {
    if ranges != [] {
      var o, e := ranges[0].offset, ranges[0].offset + ranges[0].length;
      ApplyRangeWraps(text, ranges[0]);
      var p, w, t := text[..o], Wrap(ranges[0].style, text[o..e]), text[e..];
      DescendingTail(ranges, |text|);
      var m := Marked(p, ranges[1..]);
      assert Marked(text, ranges) == m + w + t;
      ConcatAssociative(m, w, t);
      ConcatAssociative(p, w, t);
      assert ApplyRange(text, ranges[0]) == p + (w + t);
      ApplyAllPrefix(p, w + t, ranges[1..]);
      ApplyAllMarked(p, ranges[1..]);
    }
  }

  lemma {:induction false} InsertDescDescending(t: seq<StyleRange>, x: StyleRange, n: int)
    requires Descending(t, n) && InBounds(x, n)
    requires forall k :: 0 <= k < |t| ==> Apart(x, t[k])
    ensures Descending(InsertDesc(t, x), n)
    ensures |t| > 0 ==> InsertDesc(t, x)[0] == x || InsertDesc(t, x)[0] == t[0]
  {
    if t == [] || t[0].offset <= x.offset {
      var r := [x] + t;
      forall k | 0 <= k < |r| - 1 ensures r[k + 1].offset + r[k + 1].length <= r[k].offset {
        if k == 0 { assert Apart(x, t[0]); } else { assert r[k] == t[k - 1] && r[k + 1] == t[k]; }
      }
      forall k | 0 <= k < |r| ensures InBounds(r[k], n) {
        if k > 0 { assert r[k] == t[k - 1]; }
      }
    } else {
      var rest := t[1..];
      assert Descending(rest, n) by {
        forall k | 0 <= k < |rest| - 1 ensures rest[k + 1].offset + rest[k + 1].length <= rest[k].offset {
          assert rest[k] == t[k + 1] && rest[k + 1] == t[k + 2];
        }
        forall k | 0 <= k < |rest| ensures InBounds(rest[k], n) { assert rest[k] == t[k + 1]; }
      }
      forall k | 0 <= k < |rest| ensures Apart(x, rest[k]) { assert rest[k] == t[k + 1]; }
      InsertDescDescending(rest, x, n);
      var ins := InsertDesc(rest, x);
      var r := [t[0]] + ins;
      assert Apart(x, t[0]);
      forall k | 0 <= k < |r| - 1 ensures r[k + 1].offset + r[k + 1].length <= r[k].offset {
        if k == 0 {
          if ins[0] != x { assert ins[0] == t[1]; }
        } else {
          assert r[k] == ins[k - 1] && r[k + 1] == ins[k];
        }
      }
      forall k | 0 <= k < |r| ensures InBounds(r[k], n) {
        if k > 0 { assert r[k] == ins[k - 1]; }
      }
    }
  }

  /** Sorting separate ranges puts each one after the range that follows it in the text. */
  lemma {:induction false} SeparateSortDescending(s: seq<StyleRange>, n: int)
    requires Separate(s, n)
    ensures Descending(SortDesc(s), n)
  {
    if s != [] {
      var rest := s[1..];
      assert Separate(rest, n) by {
        forall i, j | 0 <= i < |rest| && 0 <= j < |rest| && i != j ensures Apart(rest[i], rest[j]) {
          assert rest[i] == s[i + 1] && rest[j] == s[j + 1];
        }
      }
      SeparateSortDescending(rest, n);
      SortDescSpec(rest);
      var t := SortDesc(rest);
      forall k | 0 <= k < |t| ensures Apart(s[0], t[k]) {
        assert t[k] in multiset(rest);
        var j :| 0 <= j < |rest| && rest[j] == t[k];
        assert s[j + 1] == t[k];
      }
      InsertDescDescending(t, s[0], n);
    }
  }

  /**
   * Ranges that lie within the text, at distinct offsets and without overlapping, each wrap exactly
   * their own span of the original text.
   */
  lemma SeparateRangesWrapOriginal(text: string, ranges: seq<StyleRange>)
    requires text != "" && |ranges| > 0 && Separate(ranges, |text|)
    ensures Descending(SortDesc(ranges), |text|)
    ensures InlineStyled(text, Some(ranges)) == Marked(text, SortDesc(ranges))
  {
    SeparateSortDescending(ranges, |text|);
    ApplyAllMarked(text, SortDesc(ranges));
  }

  /**
   * One range within a non-empty text: Bold puts `**` around its span, Italic `*`, any other style
   * leaves the text as it is.
   */
  lemma SingleRange(text: string, range: StyleRange)
    requires text != "" && InBounds(range, |text|)
    ensures var o, e := range.offset, range.offset + range.length;
      && (range.style == Bold ==>
            InlineStyled(text, Some([range])) == text[..o] + "**" + text[o..e] + "**" + text[e..])
      && (range.style == Italic ==>
            InlineStyled(text, Some([range])) == text[..o] + "*" + text[o..e] + "*" + text[e..])
      && (range.style != Bold && range.style != Italic ==> InlineStyled(text, Some([range])) == text)
  {
    assert SortDesc([range]) == [range];
    assert ApplyAll(text, [range]) == ApplyRange(text, range);
    ApplyRangeWraps(text, range);
    assert text[..range.offset] + text[range.offset..range.offset + range.length] + text[range.offset + range.length..] == text;
  }
}
