/**
 * Characters and strings as the Python code sees them, restricted to ASCII:
 * the regular-expression classes `\w`, `\d` and `\s`, `str.lower()`, the `in`
 * operator on strings, `int()` on a digit string and `format(n, "0Nd")`.
 */
module Text {

  /** `\d`: an ASCII decimal digit. */
  predicate IsDigit(c: char) { '0' <= c <= '9' }

  /** `\w`: an ASCII letter, digit or underscore. */
  predicate IsWordChar(c: char) { IsDigit(c) || 'a' <= c <= 'z' || 'A' <= c <= 'Z' || c == '_' }

  /** `\s`: the ASCII characters Python counts as white space (tab through carriage return, the four separators, space). */
  predicate IsSpace(c: char) { c == ' ' || '\U{9}' <= c <= '\U{D}' || '\U{1C}' <= c <= '\U{1F}' }

  /** One lower-cased character, as `str.lower()` maps ASCII. */
  function LowerChar(c: char): (r: char)
    ensures 'A' <= c <= 'Z' ==> 'a' <= r <= 'z' && r as int == c as int + 32
    ensures !('A' <= c <= 'Z') ==> r == c
  {
    if 'A' <= c <= 'Z' then (c as int + 32) as char else c
  }

  /** `s.lower()`. */
  function Lower(s: string): (r: string)
    ensures |r| == |s|
    ensures forall i :: 0 <= i < |s| ==> r[i] == LowerChar(s[i])
  {
    if s == [] then [] else Lower(s[..|s| - 1]) + [LowerChar(s[|s| - 1])]
  }

  /** Lower-casing twice is lower-casing once. */
  lemma {:induction false} LowerIdempotent(s: string)
    ensures Lower(Lower(s)) == Lower(s)
  {
    if s != [] {
      LowerIdempotent(s[..|s| - 1]);
      assert Lower(s)[..|s| - 1] == Lower(s[..|s| - 1]);
    }
  }

  /** The characters of `pat` from index `j` on agree with those of `s` from `k + j` on. */
  predicate AgreeFrom(s: string, pat: string, k: nat, j: nat)
    requires k + |pat| <= |s|
    decreases |pat| - j
  {
    j >= |pat| || (s[k + j] == pat[j] && AgreeFrom(s, pat, k, j + 1))
  }

  /** `pat` occurs in `s` starting at position `k`. */
  predicate OccursAt(s: string, pat: string, k: nat)
  {
    k + |pat| <= |s| && AgreeFrom(s, pat, k, 0)
  }

  /** `OccursAt` is equality with a slice. */
  lemma {:induction false} OccursAtMeansSlice(s: string, pat: string, k: nat)
    ensures OccursAt(s, pat, k) <==> k + |pat| <= |s| && s[k..k + |pat|] == pat
  {
    if k + |pat| <= |s| {
      AgreeFromMeansSlice(s, pat, k, 0);
      assert s[k + 0..k + |pat|] == s[k..k + |pat|];
      assert pat[0..] == pat;
    }
  }

  lemma {:induction false} AgreeFromMeansSlice(s: string, pat: string, k: nat, j: nat)
    requires k + |pat| <= |s| && j <= |pat|
    ensures AgreeFrom(s, pat, k, j) <==> s[k + j..k + |pat|] == pat[j..]
    decreases |pat| - j
  {
    if j < |pat| {
      AgreeFromMeansSlice(s, pat, k, j + 1);
      assert s[k + j..k + |pat|] == [s[k + j]] + s[k + j + 1..k + |pat|];
      assert pat[j..] == [pat[j]] + pat[j + 1..];
    }
  }

  /** Python's `pat in s`, searching from position `i` on. */
  predicate ContainsFrom(s: string, pat: string, i: nat)
    decreases |s| - i
  {
    i + |pat| <= |s| && (OccursAt(s, pat, i) || ContainsFrom(s, pat, i + 1))
  }

  /** Python's `pat in s`. */
  predicate Contains(s: string, pat: string) { ContainsFrom(s, pat, 0) }

  /** The search finds an occurrence exactly when there is one. */
  lemma {:induction false} ContainsFromMeansOccurs(s: string, pat: string, i: nat)
    ensures ContainsFrom(s, pat, i) <==> exists k: nat :: i <= k && OccursAt(s, pat, k)
    decreases |s| - i
  {
    if i + |pat| <= |s| {
      ContainsFromMeansOccurs(s, pat, i + 1);
      if exists k: nat :: i <= k && OccursAt(s, pat, k) {
        var k: nat :| i <= k && OccursAt(s, pat, k);
        if k != i { assert i + 1 <= k; }
      }
    }
  }

  /** The numeric value of one decimal digit. */
  function DigitValue(c: char): (r: nat)
    requires IsDigit(c)
    ensures r < 10
  {
    c as int - '0' as int
  }

  /** The digit character for a value below ten. */
  function DigitChar(n: nat): (c: char)
    requires n < 10
    ensures IsDigit(c) && DigitValue(c) == n
  {
    ('0' as int + n) as char
  }

  predicate AllDigits(s: string) { forall i :: 0 <= i < |s| ==> IsDigit(s[i]) }

  /** `int(s)` for a string of ASCII digits. */
  function DigitsValue(s: string): nat
    requires AllDigits(s)
  {
    if s == [] then 0 else DigitsValue(s[..|s| - 1]) * 10 + DigitValue(s[|s| - 1])
  }

  /** `int()` of `k` digits is below `10^k`. */
  lemma {:induction false} DigitsValueBound(s: string)
    requires AllDigits(s)
    ensures DigitsValue(s) < Pow10(|s|)
  {
    if s != [] {
      DigitsValueBound(s[..|s| - 1]);
    }
  }

  function Pow10(k: nat): (r: nat)
    ensures r >= 1
  {
    if k == 0 then 1 else 10 * Pow10(k - 1)
  }

  /** `str(n)` for a natural number: its shortest decimal spelling. */
  function Decimal(n: nat): (r: string)
    ensures AllDigits(r) && |r| >= 1
    ensures DigitsValue(r) == n
    ensures |r| > 1 ==> r[0] != '0'
  {
    if n < 10 then [DigitChar(n)]
    else
      var r := Decimal(n / 10) + [DigitChar(n % 10)];
      assert r[..|r| - 1] == Decimal(n / 10);
      r
  }

  /** A number below `10^w` needs at most `w` decimal digits. */
  lemma {:induction false} DecimalLength(n: nat, w: nat)
    requires 1 <= w && n < Pow10(w)
    ensures |Decimal(n)| <= w
  {
    if n >= 10 {
      DecimalLength(n / 10, w - 1);
    }
  }

  function Zeros(k: nat): (r: string)
    ensures |r| == k && forall i :: 0 <= i < k ==> r[i] == '0'
  {
    if k == 0 then [] else Zeros(k - 1) + ['0']
  }

  /** `format(n, "0wd")`: the decimal spelling of `n`, padded on the left with zeros to at least `w` characters. */
  function ZeroPad(n: nat, w: nat): (r: string)
    ensures AllDigits(r)
    ensures |r| >= w && |r| >= 1
    ensures n < Pow10(w) && w >= 1 ==> |r| == w
  {
    if n < Pow10(w) && w >= 1 then DecimalLength(n, w); Zeros(w - |Decimal(n)|) + Decimal(n)
    else Zeros(if w > |Decimal(n)| then w - |Decimal(n)| else 0) + Decimal(n)
  }

  /** Leading zeros do not change `int(s)`. */
  lemma {:induction false} LeadingZeros(k: nat, s: string)
    requires AllDigits(s)
    ensures AllDigits(Zeros(k) + s) && DigitsValue(Zeros(k) + s) == DigitsValue(s)
    decreases |s|, k
  {
    if s == [] {
      assert Zeros(k) + s == Zeros(k);
      if k > 0 {
        assert Zeros(k)[..k - 1] == Zeros(k - 1);
        LeadingZeros(k - 1, []);
        assert Zeros(k - 1) + [] == Zeros(k - 1);
      }
    } else {
      var t := Zeros(k) + s;
      assert t[..|t| - 1] == Zeros(k) + s[..|s| - 1];
      LeadingZeros(k, s[..|s| - 1]);
    }
  }

  /** Zero padding is undone by `int()`. */
  lemma ZeroPadValue(n: nat, w: nat)
    ensures DigitsValue(ZeroPad(n, w)) == n
  {
    var z := if n < Pow10(w) && w >= 1 then (DecimalLength(n, w); w - |Decimal(n)|)
             else if w > |Decimal(n)| then w - |Decimal(n)| else 0;
    assert ZeroPad(n, w) == Zeros(z) + Decimal(n);
    LeadingZeros(z, Decimal(n));
  }

  /** Digit strings of one length with the same value are the same string. */
  lemma {:induction false} DigitsInjective(a: string, b: string)
    requires AllDigits(a) && AllDigits(b) && |a| == |b|
    requires DigitsValue(a) == DigitsValue(b)
    ensures a == b
  {
    if a != [] {
      var n := |a| - 1;
      assert DigitValue(a[n]) == DigitsValue(a) % 10 == DigitValue(b[n]);
      assert DigitsValue(a[..n]) == DigitsValue(a) / 10 == DigitsValue(b[..n]);
      DigitsInjective(a[..n], b[..n]);
      assert a[n] == b[n] by {
        assert a[n] == DigitChar(DigitValue(a[n]));
        assert b[n] == DigitChar(DigitValue(b[n]));
      }
      assert a == a[..n] + [a[n]] && b == b[..n] + [b[n]];
    }
  }

  /** Zero padding a digit string's value to its own width gives the string back. */
  lemma ZeroPadOfDigits(t: string)
    requires AllDigits(t) && |t| >= 1
    ensures ZeroPad(DigitsValue(t), |t|) == t
  {
    DigitsValueBound(t);
    ZeroPadValue(DigitsValue(t), |t|);
    DigitsInjective(ZeroPad(DigitsValue(t), |t|), t);
  }
}
