/**
 * `slugify` (x-to-markdown/scripts/parse-tweet.js:166-172): lower-case the text, turn every run
 * of characters outside [a-z0-9] into a single '-', drop one '-' at the start and one at the
 * end, and keep at most 80 characters.
 */
module Slug {
  import opened Ascii
  import opened JsText

  /** The characters `[a-z0-9]` keeps. */
  predicate IsSlugChar(c: char) { 'a' <= c <= 'z' || '0' <= c <= '9' }

  /** Number of leading characters outside `[a-z0-9]`. */
  function RunLength(s: string): (n: nat)
    ensures n <= |s|
    ensures n < |s| ==> IsSlugChar(s[n])
    ensures forall i :: 0 <= i < n ==> !IsSlugChar(s[i])
  {
    if s == [] || IsSlugChar(s[0]) then 0 else 1 + RunLength(s[1..])
  }

  /** `.replace(/[^a-z0-9]+/g, '-')`: each maximal run becomes one dash. */
  function DashRuns(s: string): (r: string)
    ensures |r| <= |s|
    ensures |r| > 0 <==> |s| > 0
    ensures |r| > 0 ==> r[0] == (if IsSlugChar(s[0]) then s[0] else '-')
    decreases |s|
  {
    if s == [] then []
    else if IsSlugChar(s[0]) then [s[0]] + DashRuns(s[1..])
    else
      var n := RunLength(s);
      ['-'] + DashRuns(s[n..])
  }

  /** `.replace(/^-|-$/g, '')`: one dash off the front, then one off the back. */
  function TrimDash(s: string): string {
    var a := if |s| > 0 && s[0] == '-' then s[1..] else s;
    if |a| > 0 && a[|a| - 1] == '-' then a[..|a| - 1] else a
  }

  /** `.slice(0, 80)` */
  function Take80(s: string): string {
    if |s| <= 80 then s else s[..80]
  }

  /** `slugify(text)` */
  function Slugify(text: string): (r: string)
    ensures |r| <= 80 && |r| <= |text|
  {
    Take80(TrimDash(DashRuns(Lower(text))))
  }

  // ---------------------------------------------------------------- properties

  /** Only `[a-z0-9]` and dashes, and never two dashes in a row. */
  predicate SlugShaped(s: string) {
    && (forall i :: 0 <= i < |s| ==> IsSlugChar(s[i]) || s[i] == '-')
    && (forall i :: 0 <= i < |s| - 1 ==> s[i] == '-' ==> s[i + 1] != '-')
  }

  lemma {:induction false} DashRunsShape(s: string)
    requires NoUpper(s)
    ensures SlugShaped(DashRuns(s))
    decreases |s|
  {
    if s != [] {
      var r := DashRuns(s);
      if IsSlugChar(s[0]) {
        DashRunsShape(s[1..]);
        assert r == [s[0]] + DashRuns(s[1..]);
        forall i | 0 <= i < |r| - 1 && r[i] == '-' ensures r[i + 1] != '-' {
          assert r[i] == DashRuns(s[1..])[i - 1];
        }
      } else {
        var n := RunLength(s);
        var t := s[n..];
        DashRunsShape(t);
        assert r == ['-'] + DashRuns(t);
        forall i | 0 <= i < |r| - 1 && r[i] == '-' ensures r[i + 1] != '-' {
          if i > 0 { assert r[i] == DashRuns(t)[i - 1]; }
        }
      }
    }
  }

  /** Removing dashes at the ends keeps the shape, and removes the leading dash. */
  lemma TrimDashShape(s: string)
    requires SlugShaped(s)
    ensures SlugShaped(TrimDash(s))
    ensures |TrimDash(s)| > 0 ==> TrimDash(s)[0] != '-' && TrimDash(s)[|TrimDash(s)| - 1] != '-'
  {
    var a := if |s| > 0 && s[0] == '-' then s[1..] else s;
    if |s| > 0 && s[0] == '-' && |a| > 0 {
      assert a[0] == s[1];
    }
  }

  /**
   * A slug uses only `[a-z0-9]` and '-', never two dashes in a row, never starts with '-', is at
   * most 80 characters long, and ends with '-' only when the cut at 80 characters left one there.
   */
  lemma SlugifyShape(text: string)
    ensures SlugShaped(Slugify(text))
    ensures |Slugify(text)| <= 80
    ensures |Slugify(text)| > 0 ==> Slugify(text)[0] != '-'
    ensures |Slugify(text)| > 0 && Slugify(text)[|Slugify(text)| - 1] == '-' ==>
      |TrimDash(DashRuns(Lower(text)))| > 80
  {
    DashRunsShape(Lower(text));
    TrimDashShape(DashRuns(Lower(text)));
  }

  /** A text that is already a slug, of at most 80 characters and without a trailing dash, is kept. */
  predicate IsSlug(s: string) {
    SlugShaped(s) && |s| <= 80 && (|s| > 0 ==> s[0] != '-' && s[|s| - 1] != '-')
  }

  lemma {:induction false} DashRunsOfShaped(s: string)
    requires SlugShaped(s) && (|s| > 0 ==> s[|s| - 1] != '-')
    ensures DashRuns(s) == s
    decreases |s|
  {
    if s != [] {
      var t := s[1..];
      assert SlugShaped(t) by {
        forall i | 0 <= i < |t| - 1 && t[i] == '-' ensures t[i + 1] != '-' { assert t[i] == s[i + 1]; }
      }
      if IsSlugChar(s[0]) {
        DashRunsOfShaped(t);
      } else {
        assert |s| > 1 && s[1] != '-';
        assert RunLength(s) == 1;
        DashRunsOfShaped(t);
      }
    }
  }

  lemma SlugHasNoUpper(s: string)
    requires SlugShaped(s)
    ensures NoUpper(s)
  {
  }

  lemma TrimDashOfSlug(s: string)
    requires IsSlug(s)
    ensures TrimDash(s) == s
  {
  }

  /** Slugifying a slug gives it back; so a slug without a trailing dash is a fixed point. */
  lemma SlugifyKeepsSlugs(s: string)
    requires IsSlug(s)
    ensures Slugify(s) == s
  {
    SlugHasNoUpper(s);
    LowerOfLowered(s);
    DashRunsOfShaped(s);
    TrimDashOfSlug(s);
  }

  /** Slugifying twice is slugifying once, unless the first cut left a trailing dash. */
  lemma SlugifyIdempotent(text: string)
    requires var r := Slugify(text); |r| == 0 || r[|r| - 1] != '-'
    ensures Slugify(Slugify(text)) == Slugify(text)
  {
    SlugifyShape(text);
    SlugifyKeepsSlugs(Slugify(text));
  }

  /** The characters `[a-z0-9]` of a string, in order. */
  function Kept(s: string): string {
    if s == [] then [] else (if IsSlugChar(s[0]) then [s[0]] else []) + Kept(s[1..])
  }

  lemma {:induction false} KeptOfRun(s: string, n: nat)
    requires n <= |s| && forall i :: 0 <= i < n ==> !IsSlugChar(s[i])
    ensures Kept(s) == Kept(s[n..])
  {
    if n > 0 {
      KeptOfRun(s[1..], n - 1);
      assert s[1..][n - 1..] == s[n..];
    }
  }

  /** The dash replacement keeps every letter and digit, in order. */
  lemma {:induction false} DashRunsKeeps(s: string)
    ensures Kept(DashRuns(s)) == Kept(s)
    decreases |s|
  {
    if s != [] {
      if IsSlugChar(s[0]) {
        DashRunsKeeps(s[1..]);
        assert ([s[0]] + DashRuns(s[1..]))[1..] == DashRuns(s[1..]);
      } else {
        var n := RunLength(s);
        DashRunsKeeps(s[n..]);
        KeptOfRun(s, n);
        assert (['-'] + DashRuns(s[n..]))[1..] == DashRuns(s[n..]);
      }
    }
  }

  lemma {:induction false} KeptAppend(a: string, b: string)
    ensures Kept(a + b) == Kept(a) + Kept(b)
  {
    if a == [] {
      assert a + b == b;
    } else {
      assert (a + b)[1..] == a[1..] + b;
      KeptAppend(a[1..], b);
      assert (a + b)[0] == a[0];
      var h := if IsSlugChar(a[0]) then [a[0]] else [];
      assert Kept(a + b) == h + (Kept(a[1..]) + Kept(b));
      ConcatAssociative(h, Kept(a[1..]), Kept(b));
    }
  }

  /** Dropping the dashes at the ends drops no letter or digit. */
  lemma KeptTrimDash(d: string)
    ensures Kept(TrimDash(d)) == Kept(d)
  {
    var a := if |d| > 0 && d[0] == '-' then d[1..] else d;
    if |d| > 0 && d[0] == '-' {
      assert d == ['-'] + a;
      KeptAppend(['-'], a);
    }
    if |a| > 0 && a[|a| - 1] == '-' {
      assert a == a[..|a| - 1] + ['-'];
      KeptAppend(a[..|a| - 1], ['-']);
    }
  }

  /**
   * Up to the cut at 80 characters, the slug holds exactly the letters and digits of the
   * lower-cased text, in order.
   */
  lemma SlugifyKeepsLettersAndDigits(text: string)
    requires |TrimDash(DashRuns(Lower(text)))| <= 80
    ensures Kept(Slugify(text)) == Kept(Lower(text))
  {
    DashRunsKeeps(Lower(text));
    KeptTrimDash(DashRuns(Lower(text)));
  }

  lemma Example()
    ensures Slugify("A, b") == "a-b"
  {
    assert Lower("A, b") == "a, b";
    assert RunLength(", b") == 2;
    assert DashRuns("b") == "b";
    assert DashRuns(", b") == "-b";
    assert DashRuns("a, b") == "a-b";
  }
}
