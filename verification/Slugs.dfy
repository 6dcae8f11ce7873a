/** `_unique_slug`: append `-2`, `-3`, ... to a truncated base until nobody has the slug. */
module Slugs {
  const SLUG_MAX_LENGTH: nat := 170

  // ---- Decimal numerals ---------------------------------------------------------------------------

  function Digit(d: nat): (c: char)
    requires d < 10
    ensures c != '-' && c != ':'
  {
    "0123456789"[d]
  }

  function DigitValue(c: char): nat {
    if '0' <= c <= '9' then (c - '0') as nat else 0
  }

  /** The text of a counter. */
  function Decimal(n: nat): (text: string)
    ensures text != "" && '-' !in text && ':' !in text
  {
    if n < 10 then [Digit(n)] else Decimal(n / 10) + [Digit(n % 10)]
  }

  function Value(text: string): nat {
    if text == "" then 0 else Value(text[..|text| - 1]) * 10 + DigitValue(text[|text| - 1])
  }

  /** Numerals can be read back, so different counters have different texts. */
  lemma {:induction false} DecimalValue(n: nat)
    ensures Value(Decimal(n)) == n
  {
    if n >= 10 {
      DecimalValue(n / 10);
      assert Decimal(n)[..|Decimal(n)| - 1] == Decimal(n / 10);
    } else {
      assert Decimal(n)[..0] == "";
    }
  }

  function Pow10(n: nat): nat {
    if n == 0 then 1 else 10 * Pow10(n - 1)
  }

  lemma {:induction false} DecimalLength(n: nat, digits: nat)
    requires 0 < digits && n < Pow10(digits)
    ensures |Decimal(n)| <= digits
  {
    if n >= 10 {
      assert digits > 1 by {
        assert Pow10(1) == 10 * Pow10(0);
      }
      DecimalLength(n / 10, digits - 1);
    }
  }

  // ---- Candidates ---------------------------------------------------------------------------------

  /** Python's `text[:end]`, with its reading of a negative end. */
  function Slice(text: string, end: int): (r: string)
    ensures r <= text
    ensures 0 <= end ==> |r| <= end
  {
    if end >= |text| then text
    else if end >= 0 then text[..end]
    else if |text| + end >= 0 then text[..|text| + end]
    else ""
  }

  function Suffix(counter: nat): string {
    "-" + Decimal(counter)
  }

  /** What is tried first. */
  function Base(slugified: string): (base: string)
    ensures slugified == "" ==> base == "item"
    ensures 0 < |slugified| <= 170 ==> base == slugified
    ensures |slugified| > 170 ==> base == slugified[..170]
  {
    if Slice(slugified, SLUG_MAX_LENGTH) == "" then "item" else Slice(slugified, SLUG_MAX_LENGTH)
  }

  /** The slug tried when the counter is `counter`. */
  function Candidate(base: string, counter: nat): string {
    if counter <= 1 then base
    else Slice(base, SLUG_MAX_LENGTH - |Suffix(counter)|) + Suffix(counter)
  }

  /** `slug` is `base` with the number `n` after a dash, and shorter than that only to keep to 170 characters. */
  predicate Numbered(slug: string, base: string, n: nat) {
    var k := |slug| - |Decimal(n)| - 1;
    && k >= 0 && slug[..k] <= base && slug[k..] == "-" + Decimal(n)
    && (slug[..k] == base || |slug| == 170)
  }

  lemma CandidateIsNumbered(base: string, counter: nat)
    requires counter > 1 && |Decimal(counter)| <= 169
    ensures Numbered(Candidate(base, counter), base, counter)
  {
    var slug, stem := Candidate(base, counter), Slice(base, SLUG_MAX_LENGTH - |Suffix(counter)|);
    assert slug == stem + Suffix(counter);
    assert slug[..|stem|] == stem && slug[|stem|..] == Suffix(counter);
  }

  lemma DashInside(a: string, b: string, x: string, y: string)
    requires a + "-" + x == b + "-" + y && |x| < |y|
    ensures '-' in y
  {
    var s := a + "-" + x;
    assert s[|s| - |x| - 1] == '-';
    assert (b + "-" + y)[|s| - |x| - 1] == y[|y| - |x| - 1];
  }

  /** What follows the last dash determines the counter. */
  lemma SuffixesDiffer(a: string, b: string, x: string, y: string)
    requires a + "-" + x == b + "-" + y && '-' !in x && '-' !in y
    ensures x == y
  {
    var s := a + "-" + x;
    assert |x| == |y| by {
      if |x| < |y| {
        DashInside(a, b, x, y);
      } else if |y| < |x| {
        DashInside(b, a, y, x);
      }
    }
    assert x == s[|s| - |x|..] == y;
  }

  /** Numbered candidates are all different, whatever truncation does to the base. */
  lemma CandidatesDiffer(base: string, i: nat, j: nat)
    requires 2 <= i && 2 <= j && i != j
    ensures Candidate(base, i) != Candidate(base, j)
  {
    if Candidate(base, i) == Candidate(base, j) {
      var a, b := Slice(base, SLUG_MAX_LENGTH - |Suffix(i)|), Slice(base, SLUG_MAX_LENGTH - |Suffix(j)|);
      assert a + "-" + Decimal(i) == a + Suffix(i);
      assert b + "-" + Decimal(j) == b + Suffix(j);
      SuffixesDiffer(a, b, Decimal(i), Decimal(j));
      DecimalValue(i);
      DecimalValue(j);
    }
  }

  /** The first values of `f` after `f(1)`. */
  function Images(f: nat -> string, n: nat): set<string> {
    set k | 2 <= k <= n :: f(k)
  }

  lemma {:induction false} ImagesCount(f: nat -> string, n: nat)
    requires n > 0
    requires forall i: nat, j: nat :: 2 <= i < j <= n ==> f(i) != f(j)
    ensures |Images(f, n)| == n - 1
    decreases n
  {
    if n == 1 {
      assert Images(f, 1) == {};
    } else {
      ImagesCount(f, n - 1);
      assert f(n) !in Images(f, n - 1);
      assert Images(f, n) == Images(f, n - 1) + {f(n)};
    }
  }

  lemma SubsetCount(a: set<string>, b: set<string>)
    requires a <= b
    ensures |a| <= |b|
  {
    assert b == a + (b - a);
  }

  /** If all numbered candidates so far are taken, there are at least that many slugs. */
  lemma TakenBound(base: string, counter: nat, existing: set<string>)
    requires counter > 0 && forall k :: 2 <= k <= counter ==> Candidate(base, k) in existing
    ensures counter <= |existing| + 1
  {
    var f: nat -> string := (k: nat) => Candidate(base, k);
    forall i: nat, j: nat | 2 <= i < j <= counter ensures f(i) != f(j) {
      CandidatesDiffer(base, i, j);
    }
    ImagesCount(f, counter);
    SubsetCount(Images(f, counter), existing);
  }

  /** A slug keeps the length limit as long as its suffix does. */
  lemma CandidateLength(base: string, counter: nat)
    requires |base| <= SLUG_MAX_LENGTH && |Suffix(counter)| <= SLUG_MAX_LENGTH
    ensures |Candidate(base, counter)| <= SLUG_MAX_LENGTH
  {
  }

  // ---- The search ---------------------------------------------------------------------------------

  /**
   * `existing` holds the slugs of the other rows in scope. The slug found is fresh, it is the
   * first free candidate, and `tries`, the number of suffixes made, is at most one more than
   * there are slugs.
   */
  method UniqueSlug(slugified: string, existing: set<string>) returns (slug: string, ghost tries: nat)
    ensures slug !in existing
    ensures slug == Candidate(Base(slugified), tries + 1)
    ensures tries == 0 ==> slug == Base(slugified)
    ensures tries > 0 && |Decimal(tries + 1)| <= 169 ==> Numbered(slug, Base(slugified), tries + 1)
    ensures forall k :: 1 <= k <= tries ==> Candidate(Base(slugified), k) in existing
    ensures tries <= |existing| + 1
    ensures |Suffix(tries + 1)| <= 170 ==> |slug| <= 170
  {
    var base := Slice(slugified, SLUG_MAX_LENGTH);
    if base == "" {
      base := "item";
    }
    slug := base;
    var counter := 1;
    while slug in existing
      invariant counter >= 1 && slug == Candidate(base, counter)
      invariant forall k :: 1 <= k < counter ==> Candidate(base, k) in existing
      invariant counter <= |existing| + 2
      decreases |existing| + 2 - counter
    {
      TakenBound(base, counter, existing);
      counter := counter + 1;
      var suffix := "-" + Decimal(counter);
      slug := Slice(base, SLUG_MAX_LENGTH - |suffix|) + suffix;
    }
    tries := counter - 1;
    if counter > 1 && |Decimal(counter)| <= 169 {
      CandidateIsNumbered(base, counter);
    }
    if |Suffix(counter)| <= SLUG_MAX_LENGTH {
      CandidateLength(base, counter);
    }
  }

  /** A suffix fits for every counter of at most 169 digits. */
  lemma SuffixFits(counter: nat, digits: nat)
    requires 0 < digits < SLUG_MAX_LENGTH && counter < Pow10(digits)
    ensures |Suffix(counter)| <= SLUG_MAX_LENGTH
  {
    DecimalLength(counter, digits);
  }

  /**
   * The extra try is real: a base that fills the limit and ends in "-2" is its own second
   * candidate.
   */
  lemma BaseMayReappear(stem: string)
    requires |stem| == SLUG_MAX_LENGTH - 2
    ensures Base(stem + "-2") == stem + "-2" && Candidate(stem + "-2", 2) == stem + "-2"
  {
    assert Decimal(2) == "2";
    assert Suffix(2) == "-2";
    assert (stem + "-2")[..SLUG_MAX_LENGTH - 2] == stem;
  }
}
