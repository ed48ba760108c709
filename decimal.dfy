/** Decimal text: Python's `int()` on a string, integer rendering, and the
    exact rendering of a mojo amount in XCH that the wallet handlers and
    accumulators produce with `f"{mojos / 1e12:.12f}".rstrip("0").rstrip(".")`. */
module Decimal {
  import opened Base

  predicate IsDigit(c: char) { '0' <= c <= '9' }

  predicate IsDigits(s: string) { forall i | 0 <= i < |s| :: IsDigit(s[i]) }

  /** What a `[0-9]*` group of a regular expression can capture. */
  type DigitRun = s: string | IsDigits(s)

  function DigitValue(c: char): nat
    requires IsDigit(c)
  {
    c as int - '0' as int
  }

  function DigitChar(d: nat): (c: char)
    requires d < 10
    ensures IsDigit(c) && DigitValue(c) == d
  {
    ('0' as int + d) as char
  }

  /** The number a run of decimal digits denotes (leading zeros allowed). */
  function Value(s: string): nat
    requires IsDigits(s)
  {
    if s == [] then 0 else Value(s[..|s| - 1]) * 10 + DigitValue(s[|s| - 1])
  }

  /** Python's `str(n)` for a natural number: decimal digits, no leading zero. */
  function Digits(n: nat): (s: string)
    ensures IsDigits(s) && s != []
    ensures |s| > 1 ==> s[0] != '0'
  {
    if n < 10 then [DigitChar(n)] else Digits(n / 10) + [DigitChar(n % 10)]
  }

  /** Python's `str(n)` (and `f"{n}"`) for any integer. */
  function IntText(n: int): string
  {
    if n < 0 then "-" + Digits(-n) else Digits(n)
  }

  lemma {:induction false} ValueOfDigits(n: nat)
    ensures Value(Digits(n)) == n
  {
    if n >= 10 {
      var s := Digits(n);
      assert s[..|s| - 1] == Digits(n / 10);
      ValueOfDigits(n / 10);
    }
  }

  function Pow10(k: nat): (p: nat)
    ensures p >= 1
  {
    if k == 0 then 1 else 10 * Pow10(k - 1)
  }

  /** Number of mojos in one XCH. */
  const MojosPerXch: nat := 1_000_000_000_000

  /** Number of digits `:.12f` prints after the decimal point. */
  const FractionDigits: nat := 12

  lemma MojosPerXchIsPow10()
    ensures Pow10(FractionDigits) == MojosPerXch
  {
    assert Pow10(0) == 1;
    assert Pow10(3) == 1000;
    assert Pow10(6) == 1_000_000;
    assert Pow10(9) == 1_000_000_000;
  }

  lemma {:induction false} DigitsShort(n: nat, k: nat)
    requires n < Pow10(k) && k >= 1
    ensures |Digits(n)| <= k
  {
    if n >= 10 {
      assert k >= 2;
      DigitsShort(n / 10, k - 1);
    }
  }

  function Zeros(k: nat): (z: string)
    ensures |z| == k && IsDigits(z)
    ensures forall i | 0 <= i < k :: z[i] == '0'
  {
    if k == 0 then [] else Zeros(k - 1) + ['0']
  }

  lemma {:induction false} ValueAfterZeros(k: nat, s: string)
    requires IsDigits(s)
    ensures IsDigits(Zeros(k) + s) && Value(Zeros(k) + s) == Value(s)
  {
    var t := Zeros(k) + s;
    if s == [] {
      assert t == Zeros(k);
      ValueOfZeros(k);
    } else {
      assert t[..|t| - 1] == Zeros(k) + s[..|s| - 1];
      ValueAfterZeros(k, s[..|s| - 1]);
    }
  }

  lemma {:induction false} RStripZeros(k: nat)
    ensures RStrip(Zeros(k), '0') == []
  {
    if k > 0 {
      assert Zeros(k)[..k - 1] == Zeros(k - 1);
      RStripZeros(k - 1);
    }
  }

  lemma {:induction false} ValueOfZeros(k: nat)
    ensures Value(Zeros(k)) == 0
  {
    if k > 0 {
      assert Zeros(k)[..k - 1] == Zeros(k - 1);
      ValueOfZeros(k - 1);
    }
  }

  lemma {:induction false} ValueBeforeZeros(s: string, k: nat)
    requires IsDigits(s)
    ensures IsDigits(s + Zeros(k)) && Value(s + Zeros(k)) == Value(s) * Pow10(k)
  {
    if k > 0 {
      var u := s + Zeros(k - 1);
      assert s + Zeros(k) == u + ['0'];
      ValueBeforeZeros(s, k - 1);
      ValueSnoc(u, '0');
      ScaleByTen(Value(s), Pow10(k - 1));
    } else {
      assert s + Zeros(k) == s;
    }
  }

  lemma ScaleByTen(v: nat, p: nat)
    ensures v * (10 * p) == (v * p) * 10
  {
  }

  /** The digits `:.12f` prints after the point: `s` left-padded with zeros to `width`. */
  function ZeroPad(s: string, width: nat): (r: string)
    ensures |r| == if |s| >= width then |s| else width
  {
    if |s| >= width then s else Zeros(width - |s|) + s
  }

  /** `f"{m / 1e12:.12f}"`, computed exactly: whole XCH, a point, twelve fraction digits. */
  function FixedPoint(m: nat): string
  {
    Digits(m / MojosPerXch) + "." + ZeroPad(Digits(m % MojosPerXch), FractionDigits)
  }

  /** Python's `s.rstrip(c)` for a single character `c`. */
  function RStrip(s: string, c: char): (r: string)
    ensures r <= s
  {
    if s != [] && s[|s| - 1] == c then RStrip(s[..|s| - 1], c) else s
  }

  /** The XCH text of an amount of mojos, as the wallet handlers and accumulators render it. */
  function FormatXch(m: nat): string
  {
    RStrip(RStrip(FixedPoint(m), '0'), '.')
  }

  /** Index of the first `c` in `s`, or `|s|` when there is none. */
  function Find(s: string, c: char): (i: nat)
    ensures i <= |s|
    ensures i < |s| ==> s[i] == c
    ensures forall j | 0 <= j < i :: s[j] != c
  {
    if s == [] then 0 else if s[0] == c then 0 else 1 + Find(s[1..], c)
  }

  /** Reads an XCH amount written as digits with at most twelve fraction
      digits back into mojos; the partner of FormatXch. */
  function XchToMojos(s: string): Option<nat>
  {
    var i := Find(s, '.');
    var whole := s[..i];
    if whole == [] || !IsDigits(whole) then None
    else if i == |s| then Some(Value(whole) * MojosPerXch)
    else
      var fraction := s[i + 1..];
      if fraction == [] || |fraction| > FractionDigits || !IsDigits(fraction) then None
      else Some(Value(whole) * MojosPerXch + Value(fraction) * Pow10(FractionDigits - |fraction|))
  }

  lemma {:induction false} RStripShape(s: string, c: char)
    ensures var r := RStrip(s, c);
      s == r + seq(|s| - |r|, _ => c) && (r != [] ==> r[|r| - 1] != c)
  {
    if s != [] && s[|s| - 1] == c {
      RStripShape(s[..|s| - 1], c);
      var r := RStrip(s, c);
      assert s == s[..|s| - 1] + [c];
    }
  }

  lemma {:induction false} RStripAppend(a: string, b: string, c: char)
    ensures RStrip(b, c) != [] ==> RStrip(a + b, c) == a + RStrip(b, c)
    ensures RStrip(b, c) == [] ==> RStrip(a + b, c) == RStrip(a, c)
  {
    if b == [] {
      assert a + b == a;
    } else {
      var t := a + b;
      assert t[|t| - 1] == b[|b| - 1];
      assert t[..|t| - 1] == a + b[..|b| - 1];
      if b[|b| - 1] == c {
        RStripAppend(a, b[..|b| - 1], c);
      }
    }
  }

  /** The point and the twelve-digit fraction split off FixedPoint. */
  lemma FixedPointParts(m: nat)
    ensures var frac := ZeroPad(Digits(m % MojosPerXch), FractionDigits);
      FixedPoint(m) == Digits(m / MojosPerXch) + "." + frac
      && |frac| == FractionDigits && IsDigits(frac) && Value(frac) == m % MojosPerXch
  {
    var r := m % MojosPerXch;
    MojosPerXchIsPow10();
    DigitsShort(r, FractionDigits);
    ValueOfDigits(r);
    var d := Digits(r);
    ValueAfterZeros(FractionDigits - |d|, d);
  }

  /** The trimmed fraction digits: nonempty, no trailing zero, at most twelve,
      and worth `r` mojos once scaled back to twelve places. */
  lemma TrimmedFraction(frac: string, r: nat)
    requires |frac| == FractionDigits && IsDigits(frac) && Value(frac) == r && r > 0
    ensures var t := RStrip(frac, '0');
      t != [] && |t| <= FractionDigits && IsDigits(t) && t[|t| - 1] != '0'
      && Value(t) * Pow10(FractionDigits - |t|) == r
  {
    var t := RStrip(frac, '0');
    RStripShape(frac, '0');
    var k := |frac| - |t|;
    assert seq(k, _ => '0') == Zeros(k);
    assert frac == t + Zeros(k);
    assert IsDigits(t) by {
      forall i | 0 <= i < |t| ensures IsDigit(t[i]) { assert t[i] == frac[i]; }
    }
    if t == [] {
      assert frac == Zeros(k);
      ValueOfZeros(k);
      assert false;
    }
    ValueBeforeZeros(t, k);
  }

  lemma NoPointInDigits(s: string)
    requires IsDigits(s)
    ensures '.' !in s
  {
    forall i | 0 <= i < |s| ensures s[i] != '.' { assert IsDigit(s[i]); }
  }

  /** The text after the first point of `w + "." + f`, when `w` is all digits. */
  lemma SplitAtPoint(w: string, f: string)
    requires IsDigits(w)
    ensures var s := w + "." + f; var i := Find(s, '.');
      i == |w| && s[..i] == w && s[i + 1..] == f
  {
    var s := w + "." + f;
    forall j | 0 <= j < |w| ensures s[j] != '.' { assert s[j] == w[j] && IsDigit(w[j]); }
    assert s[|w|] == '.';
  }

  /** FormatXch loses nothing: reading the text back gives the amount. */
  lemma FormatXchRoundTrip(m: nat)
    ensures XchToMojos(FormatXch(m)) == Some(m)
  {
    FormatXchCases(m);
  }

  /** The shape of FormatXch: the whole XCH in plain digits, then, only when
      the amount is not a whole number of XCH, a point and the fraction
      without trailing zeros; never a trailing point. */
  lemma FormatXchShape(m: nat)
    ensures var s := FormatXch(m);
      s != [] && s[|s| - 1] != '.'
      && ('.' in s <==> m % MojosPerXch != 0)
      && ('.' in s ==> s[|s| - 1] != '0')
  {
    FormatXchCases(m);
    var w := Digits(m / MojosPerXch);
    NoPointInDigits(w);
  }

  lemma FormatXchCases(m: nat)
    ensures var s := FormatXch(m); var w := Digits(m / MojosPerXch);
      XchToMojos(s) == Some(m)
      && (m % MojosPerXch == 0 ==> s == w)
      && (m % MojosPerXch != 0 ==>
            var t := s[|w| + 1..];
            |s| > |w| + 1 && s[..|w|] == w && s[|w|] == '.' && IsDigits(t)
            && t[|t| - 1] != '0')
  {
    if m % MojosPerXch == 0 {
      FormatWholeXch(m);
    } else {
      FractionalReadBack(m);
      FractionalShape(m);
    }
  }

  /** A fractional amount's text reads back as the amount. */
  lemma FractionalReadBack(m: nat)
    requires m % MojosPerXch != 0
    ensures XchToMojos(FormatXch(m)) == Some(m)
  {
    FormatFractionalXch(m);
    XchToMojosOfParts(Digits(m / MojosPerXch), FractionText(m));
  }

  /** Where the point sits in a fractional amount's text. */
  lemma FractionalShape(m: nat)
    requires m % MojosPerXch != 0
    ensures var s := FormatXch(m); var w := Digits(m / MojosPerXch);
      |s| > |w| + 1 && s[..|w|] == w && s[|w|] == '.' && s[|w| + 1..] == FractionText(m)
      && IsDigits(FractionText(m)) && FractionText(m)[|FractionText(m)| - 1] != '0'
  {
    FormatFractionalXch(m);
    PointParts(Digits(m / MojosPerXch), FractionText(m));
  }

  /** The parts of `w + "." + t`. */
  lemma PointParts(w: string, t: string)
    ensures var s := w + "." + t;
      |s| == |w| + 1 + |t| && s[..|w|] == w && s[|w|] == '.' && s[|w| + 1..] == t
  {
    var s := w + "." + t;
    assert s[..|w|] == w;
    assert s[|w| + 1..] == t;
  }

  lemma FormatWholeXch(m: nat)
    requires m % MojosPerXch == 0
    ensures var w := Digits(m / MojosPerXch);
      FormatXch(m) == w && XchToMojos(w) == Some(m)
  {
    var w := Digits(m / MojosPerXch);
    var frac := ZeroPad(Digits(0), FractionDigits);
    FixedPointParts(m);
    var fp := FixedPoint(m);
    assert fp == (w + ".") + frac;
    ValueOfDigits(m / MojosPerXch);
    assert frac == Zeros(FractionDigits);
    RStripZeros(FractionDigits);
    var t := RStrip(frac, '0');
    assert t == [];
    RStripAppend(w + ".", frac, '0');
    assert RStrip(fp, '0') == w + ".";
    assert (w + ".")[..|w|] == w;
    assert RStrip(w, '.') == w;
    NoPointInDigits(w);
    assert w[..|w|] == w;
  }

  /** The fraction digits FormatXch keeps for an amount that is not a
      whole number of XCH. */
  function FractionText(m: nat): string
  {
    RStrip(ZeroPad(Digits(m % MojosPerXch), FractionDigits), '0')
  }

  lemma FormatFractionalXch(m: nat)
    requires m % MojosPerXch != 0
    ensures var w, t := Digits(m / MojosPerXch), FractionText(m);
      FormatXch(m) == w + "." + t
      && IsDigits(w) && w != [] && IsDigits(t) && t != [] && |t| <= FractionDigits && t[|t| - 1] != '0'
      && Value(w) * MojosPerXch + Value(t) * Pow10(FractionDigits - |t|) == m
  {
    var q, r := m / MojosPerXch, m % MojosPerXch;
    var w := Digits(q);
    var frac := ZeroPad(Digits(r), FractionDigits);
    FixedPointParts(m);
    ValueOfDigits(q);
    TrimmedFraction(frac, r);
    var t := RStrip(frac, '0');
    StripAfterPoint(w, frac);
    Recombine(m, q, r);
  }

  /** Stripping zeros and then a point off `w + "." + frac` keeps the point
      when some fraction digit is not zero. */
  lemma StripAfterPoint(w: string, frac: string)
    requires RStrip(frac, '0') != [] && IsDigits(frac)
    ensures RStrip(RStrip(w + "." + frac, '0'), '.') == w + "." + RStrip(frac, '0')
  {
    var t := RStrip(frac, '0');
    RStripAppend(w + ".", frac, '0');
    assert t[|t| - 1] == frac[|t| - 1];
    var s := (w + ".") + t;
    assert s[|s| - 1] == t[|t| - 1];
  }

  lemma Recombine(m: nat, q: nat, r: nat)
    requires q == m / MojosPerXch && r == m % MojosPerXch
    ensures q * MojosPerXch + r == m
  {
  }

  /** The texts FormatXch produces: whole XCH in digits without a leading
      zero, optionally a point and one to twelve fraction digits, the last
      of which is not zero. */
  predicate IsXchText(s: string)
  {
    var i := Find(s, '.');
    var whole := s[..i];
    whole != [] && IsDigits(whole) && (|whole| > 1 ==> whole[0] != '0')
    && (i < |s| ==>
          var fraction := s[i + 1..];
          fraction != [] && |fraction| <= FractionDigits && IsDigits(fraction)
          && fraction[|fraction| - 1] != '0')
  }

  lemma {:induction false} Pow10Monotone(k: nat, j: nat)
    requires k <= j
    ensures Pow10(k) <= Pow10(j)
  {
    if k < j { Pow10Monotone(k, j - 1); }
  }

  lemma {:induction false} ValueBelowPow10(s: string)
    requires IsDigits(s)
    ensures Value(s) < Pow10(|s|)
  {
    if s != [] { ValueBelowPow10(s[..|s| - 1]); }
  }

  lemma {:induction false} ValueAtLeastPow10(s: string)
    requires IsDigits(s) && s != [] && s[0] != '0'
    ensures Value(s) >= Pow10(|s| - 1)
  {
    if |s| > 1 {
      var p := s[..|s| - 1];
      assert p[0] == s[0];
      ValueAtLeastPow10(p);
    }
  }

  /** Two digit strings of the same length denote the same number only if they are equal. */
  lemma {:induction false} ValueInjective(a: string, b: string)
    requires IsDigits(a) && IsDigits(b) && |a| == |b| && Value(a) == Value(b)
    ensures a == b
  {
    if a != [] {
      var n := |a| - 1;
      assert DigitValue(a[n]) == Value(a) % 10 == DigitValue(b[n]);
      ValueInjective(a[..n], b[..n]);
      assert a == a[..n] + [a[n]] && b == b[..n] + [b[n]];
    }
  }

  /** Digits renders any digit string without a leading zero back as itself. */
  lemma DigitsOfValue(s: string)
    requires IsDigits(s) && s != [] && (|s| > 1 ==> s[0] != '0')
    ensures Digits(Value(s)) == s
  {
    var n := Value(s);
    var d := Digits(n);
    ValueOfDigits(n);
    SameValueSameLength(d, s);
    ValueInjective(d, s);
  }

  /** Digit strings without a leading zero and of different lengths denote different numbers. */
  lemma SameValueSameLength(a: string, b: string)
    requires IsDigits(a) && a != [] && (|a| > 1 ==> a[0] != '0')
    requires IsDigits(b) && b != [] && (|b| > 1 ==> b[0] != '0')
    requires Value(a) == Value(b)
    ensures |a| == |b|
  {
    if |a| < |b| {
      LongerIsLarger(a, b);
    } else if |b| < |a| {
      LongerIsLarger(b, a);
    }
  }

  lemma LongerIsLarger(a: string, b: string)
    requires IsDigits(a) && IsDigits(b) && |a| < |b| && b[0] != '0'
    ensures Value(a) < Value(b)
  {
    ValueBelowPow10(a);
    ValueAtLeastPow10(b);
    Pow10Monotone(|a|, |b| - 1);
  }

  lemma FormatXchIsXchText(m: nat)
    ensures IsXchText(FormatXch(m))
  {
    var s := FormatXch(m);
    var w := Digits(m / MojosPerXch);
    FormatXchCases(m);
    NoPointInDigits(w);
    if m % MojosPerXch != 0 {
      var t := s[|w| + 1..];
      assert s == w + "." + t;
      SplitAtPoint(w, t);
      assert XchToMojos(s) == Some(m);
    } else {
      assert Find(w, '.') == |w|;
      assert w[..|w|] == w;
    }
  }

  /** Scaled fraction digits without trailing zeros determine the digits. */
  lemma FractionInjective(a: string, b: string)
    requires IsDigits(a) && a != [] && |a| <= FractionDigits && a[|a| - 1] != '0'
    requires IsDigits(b) && b != [] && |b| <= FractionDigits && b[|b| - 1] != '0'
    requires Value(a) * Pow10(FractionDigits - |a|) == Value(b) * Pow10(FractionDigits - |b|)
    ensures a == b
  {
    var ka, kb := FractionDigits - |a|, FractionDigits - |b|;
    PaddedValues(a, ka, b, kb);
    ValueInjective(a + Zeros(ka), b + Zeros(kb));
    Unpad(a, ka, b, kb);
  }

  /** Equal scaled values are equal values of the zero-padded digits. */
  lemma PaddedValues(a: string, ka: nat, b: string, kb: nat)
    requires IsDigits(a) && IsDigits(b)
    requires Value(a) * Pow10(ka) == Value(b) * Pow10(kb)
    ensures IsDigits(a + Zeros(ka)) && IsDigits(b + Zeros(kb))
    ensures Value(a + Zeros(ka)) == Value(b + Zeros(kb))
  {
    ValueBeforeZeros(a, ka);
    ValueBeforeZeros(b, kb);
  }

  /** Padding with zeros loses nothing from digits that do not end in zero. */
  lemma Unpad(a: string, ka: nat, b: string, kb: nat)
    requires a != [] && a[|a| - 1] != '0' && b != [] && b[|b| - 1] != '0'
    requires a + Zeros(ka) == b + Zeros(kb)
    ensures a == b
  {
    var za, zb := Zeros(ka), Zeros(kb);
    RStripZeros(ka);
    RStripZeros(kb);
    RStripAppend(a, za, '0');
    RStripAppend(b, zb, '0');
    assert a == a[..|a| - 1] + [a[|a| - 1]];
    assert b == b[..|b| - 1] + [b[|b| - 1]];
  }

  /** FormatXch is the only text of its shape that reads back as the amount:
      together with FormatXchRoundTrip, the rendering is exact and canonical. */
  lemma XchTextUnique(s: string, m: nat)
    requires IsXchText(s) && XchToMojos(s) == Some(m)
    ensures FormatXch(m) == s
  {
    var i := Find(s, '.');
    var w := s[..i];
    if i == |s| {
      assert w == s;
      WholeXchUnique(w, m);
    } else {
      var t := s[i + 1..];
      assert s == w + "." + t;
      FractionalXchUnique(w, t, m);
    }
  }

  lemma WholeXchUnique(w: string, m: nat)
    requires IsDigits(w) && w != [] && (|w| > 1 ==> w[0] != '0')
    requires m == Value(w) * MojosPerXch
    ensures FormatXch(m) == w
  {
    WholeQuotient(Value(w), m);
    FormatWholeXch(m);
    DigitsOfValue(w);
  }

  /** A whole number of XCH divides back exactly. */
  lemma WholeQuotient(v: nat, m: nat)
    requires m == v * MojosPerXch
    ensures m % MojosPerXch == 0 && m / MojosPerXch == v
  {
  }

  lemma PositiveFraction(t: string)
    requires IsDigits(t) && t != [] && |t| <= FractionDigits && t[|t| - 1] != '0'
    ensures Value(t) * Pow10(FractionDigits - |t|) >= 1
  {
    LastDigitNonZero(t);
    AtLeastOne(Value(t), Pow10(FractionDigits - |t|));
  }

  lemma LastDigitNonZero(t: string)
    requires IsDigits(t) && t != [] && t[|t| - 1] != '0'
    ensures Value(t) >= 1
  {
    assert DigitValue(t[|t| - 1]) >= 1;
  }

  lemma AtLeastOne(v: nat, p: nat)
    requires v >= 1 && p >= 1
    ensures v * p >= 1
  {
  }

  /** How XchToMojos reads digits, a point and a fraction. */
  lemma XchToMojosOfParts(w: string, t: string)
    requires IsDigits(w) && w != []
    requires IsDigits(t) && t != [] && |t| <= FractionDigits
    ensures XchToMojos(w + "." + t).Some?
    ensures XchToMojos(w + "." + t).value == Value(w) * MojosPerXch + Value(t) * Pow10(FractionDigits - |t|)
  {
    var s := w + "." + t;
    SplitAtPoint(w, t);
    var i := Find(s, '.');
    assert i == |w| < |s|;
    assert s[..i] == w && s[i + 1..] == t;
  }

  lemma FractionalXchUnique(w: string, t: string, m: nat)
    requires IsDigits(w) && w != [] && (|w| > 1 ==> w[0] != '0')
    requires IsDigits(t) && t != [] && |t| <= FractionDigits && t[|t| - 1] != '0'
    requires m == Value(w) * MojosPerXch + Value(t) * Pow10(FractionDigits - |t|)
    ensures FormatXch(m) == w + "." + t
  {
    FractionalSplit(w, t, m);
    DigitsOfValue(w);
    FormatFractionalXch(m);
    FractionInjective(t, FractionText(m));
  }

  lemma FractionalSplit(w: string, t: string, m: nat)
    requires IsDigits(w) && IsDigits(t) && t != [] && |t| <= FractionDigits && t[|t| - 1] != '0'
    requires m == Value(w) * MojosPerXch + Value(t) * Pow10(FractionDigits - |t|)
    ensures m / MojosPerXch == Value(w) && m % MojosPerXch == Value(t) * Pow10(FractionDigits - |t|)
    ensures m % MojosPerXch != 0
  {
    FractionBelowOne(t);
    PositiveFraction(t);
    SplitQuotient(m, Value(w), Value(t) * Pow10(FractionDigits - |t|));
  }

  /** Twelve places of fraction are less than one XCH. */
  lemma FractionBelowOne(t: string)
    requires IsDigits(t) && |t| <= FractionDigits
    ensures Value(t) * Pow10(FractionDigits - |t|) < MojosPerXch
  {
    var k := FractionDigits - |t|;
    MojosPerXchIsPow10();
    ValueBeforeZeros(t, k);
    ValueBelowPow10(t + Zeros(k));
  }

  lemma SplitQuotient(m: nat, q: nat, f: nat)
    requires m == q * MojosPerXch + f && f < MojosPerXch
    ensures m / MojosPerXch == q && m % MojosPerXch == f
  {
  }

  /** No activity renders as "0", a whole amount without a point (the wallet tests expect "2"). */
  lemma FormatWholeExamples()
    ensures FormatXch(0) == "0"
    ensures FormatXch(2_000_000_000_000) == "2"
  {
    WholeXchUnique("0", 0);
    WholeXchUnique("2", 2_000_000_000_000);
  }

  /** The removed-coin test total renders as "1.75". */
  lemma FormatOneAndThreeQuarters()
    ensures FormatXch(1_750_000_000_000) == "1.75"
  {
    assert Value("75") == 75;
    assert Pow10(10) == 10_000_000_000;
    FractionalXchUnique("1", "75", 1_750_000_000_000);
  }

  /** The small-values test total keeps all twelve places: "0.004849173605". */
  lemma FormatSmallValues()
    ensures FormatXch(4_849_173_605) == "0.004849173605"
  {
    SmallValuesFraction();
    FractionalXchUnique("0", "004849173605", 4_849_173_605);
  }

  lemma SmallValuesFraction()
    ensures IsDigits("004849173605") && Value("004849173605") == 4_849_173_605
  {
    SmallValuesLead();
    var d: string := "004849";
    ValueSnoc(d, '1'); d := d + ['1']; assert Value(d) == 48491;
    ValueSnoc(d, '7'); d := d + ['7']; assert Value(d) == 484917;
    ValueSnoc(d, '3'); d := d + ['3']; assert Value(d) == 4849173;
    ValueSnoc(d, '6'); d := d + ['6']; assert Value(d) == 48491736;
    ValueSnoc(d, '0'); d := d + ['0']; assert Value(d) == 484917360;
    ValueSnoc(d, '5'); d := d + ['5']; assert Value(d) == 4849173605;
    assert d == "004849173605";
  }

  lemma SmallValuesLead()
    ensures IsDigits("004849") && Value("004849") == 4849
  {
    var d: string := [];
    ValueSnoc(d, '0'); d := d + ['0']; assert Value(d) == 0;
    ValueSnoc(d, '0'); d := d + ['0']; assert Value(d) == 0;
    ValueSnoc(d, '4'); d := d + ['4']; assert Value(d) == 4;
    ValueSnoc(d, '8'); d := d + ['8']; assert Value(d) == 48;
    ValueSnoc(d, '4'); d := d + ['4']; assert Value(d) == 484;
    ValueSnoc(d, '9'); d := d + ['9']; assert Value(d) == 4849;
    assert d == "004849";
  }

  lemma ValueSnoc(s: string, c: char)
    requires IsDigits(s) && IsDigit(c)
    ensures IsDigits(s + [c]) && Value(s + [c]) == Value(s) * 10 + DigitValue(c)
  {
    assert (s + [c])[..|s|] == s;
  }

  /** Characters Python's `int()` strips around its argument (the ASCII ones). */
  predicate IsSpace(c: char)
  {
    c == ' ' || '\t' <= c <= '\r' || '\U{1C}' <= c <= '\U{1F}'
  }

  function TrimStart(s: string): (r: string)
    ensures r == [] || !IsSpace(r[0])
  {
    if s != [] && IsSpace(s[0]) then TrimStart(s[1..]) else s
  }

  function TrimEnd(s: string): (r: string)
    ensures r == [] || !IsSpace(r[|r| - 1])
  {
    if s != [] && IsSpace(s[|s| - 1]) then TrimEnd(s[..|s| - 1]) else s
  }

  /** Python's `int(s)` on a string, base 10: surrounding white space, an
      optional sign, then at least one digit; None where Python raises
      ValueError. */
  function PyInt(s: string): Option<int>
  {
    var t := TrimEnd(TrimStart(s));
    if |t| >= 2 && (t[0] == '+' || t[0] == '-') && IsDigits(t[1..]) then
      var magnitude: int := Value(t[1..]);
      Some(if t[0] == '-' then -magnitude else magnitude)
    else if t != [] && IsDigits(t) then Some(Value(t))
    else None
  }

  /** `int()` of what a `[0-9]*` group captured: the decimal value, or an
      error when the group captured nothing. */
  lemma PyIntOfDigitRun(d: DigitRun)
    ensures PyInt(d) == if d == [] then None else Some(Value(d))
  {
    if d != [] {
      assert !IsSpace(d[0]) && !IsSpace(d[|d| - 1]);
      assert TrimStart(d) == d;
      assert TrimEnd(d) == d;
    }
  }
}
