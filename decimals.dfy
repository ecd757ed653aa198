/**
 * Exact decimal numbers, the arithmetic that bignumber.js performs on them with its
 * default configuration (DECIMAL_PLACES = 20, ROUNDING_MODE = ROUND_HALF_UP), and the
 * plain decimal printing that JavaScript's String(number) gives for such a value.
 */
module Decimals {

  function Pow10(n: nat): (p: nat)
    ensures p > 0
  {
    if n == 0 then 1 else 10 * Pow10(n - 1)
  }

  function Abs(n: int): (a: nat)
    ensures a == n || a == -n
  {
    if n < 0 then -n else n
  }

  /** The number mantissa × 10^-scale. One value has many representations. */
  datatype Decimal = Decimal(mantissa: int, scale: nat)

  function Value(x: Decimal): real
  {
    x.mantissa as real / Pow10(x.scale) as real
  }

  /** bignumber.js's default number of decimal places kept by division and by parsing with a base. */
  const DECIMAL_PLACES: nat := 20

  // ---------------------------------------------------------------------------
  // Arithmetic facts
  // ---------------------------------------------------------------------------

  lemma {:induction false} Pow10Add(a: nat, b: nat)
    ensures Pow10(a + b) == Pow10(a) * Pow10(b)
  {
    if a > 0 {
      Pow10Add(a - 1, b);
      assert Pow10(a + b) == 10 * Pow10(a - 1 + b);
    }
  }

  lemma MulAtLeast(k: int, b: int)
    requires k >= 1 && b > 0
    ensures k * b >= b
  {
  }

  lemma DivUnique(a: int, b: int, q: int, r: int)
    requires b > 0 && 0 <= r < b && a == q * b + r
    ensures a / b == q && a % b == r
  {
    var q', r' := a / b, a % b;
    assert a == q' * b + r';
    assert (q - q') * b == r' - r;
    if q > q' {
      MulAtLeast(q - q', b);
    } else if q < q' {
      MulAtLeast(q' - q, b);
    }
  }

  lemma DivMod(a: nat, p: nat)
    requires p > 0
    ensures a / p >= 0 && a == (a / p) * p + a % p && 0 <= a % p < p
  {
  }

  lemma CastMul(a: int, b: int)
    ensures (a * b) as real == a as real * b as real
  {
  }

  lemma RealCross(a: real, p: real, b: real, q: real)
    requires p > 0.0 && q > 0.0
    ensures (a / p == b / q) == (a * q == b * p)
    ensures (a / p < b / q) == (a * q < b * p)
  {
    assert a / p == (a * q) / (p * q);
    assert b / q == (b * p) / (p * q);
  }

  lemma RealDivDiv(a: real, p: real, q: real)
    requires p > 0.0 && q > 0.0
    ensures a / (p * q) == a / p / q
  {
  }

  /** Multiplying the mantissa and the scale's power by the same 10^k keeps the value. */
  lemma ValueScaleUp(x: Decimal, k: nat)
    ensures Value(Decimal(x.mantissa * Pow10(k), x.scale + k)) == Value(x)
  {
    Pow10Add(k, x.scale);
    assert k + x.scale == x.scale + k;
    MulSplit(x.mantissa, Pow10(k), Pow10(x.scale), Pow10(x.scale + k));
    ValueCross(Decimal(x.mantissa * Pow10(k), x.scale + k), x);
  }

  /** Raising the scale by d divides the value by 10^d. */
  lemma ValueShift(x: Decimal, d: nat)
    ensures Value(Decimal(x.mantissa, x.scale + d)) == Value(x) / Pow10(d) as real
  {
    Pow10Add(x.scale, d);
    CastMul(Pow10(x.scale), Pow10(d));
    RealDivDiv(x.mantissa as real, Pow10(x.scale) as real, Pow10(d) as real);
  }

  /** Two decimals compare as their cross-multiplied mantissas do. */
  lemma ValueCross(x: Decimal, y: Decimal)
    ensures (Value(x) == Value(y)) == (x.mantissa * Pow10(y.scale) == y.mantissa * Pow10(x.scale))
    ensures (Value(x) < Value(y)) == (x.mantissa * Pow10(y.scale) < y.mantissa * Pow10(x.scale))
  {
    CastMul(x.mantissa, Pow10(y.scale));
    CastMul(y.mantissa, Pow10(x.scale));
    RealCross(x.mantissa as real, Pow10(x.scale) as real, y.mantissa as real, Pow10(y.scale) as real);
  }

  lemma ValueSign(x: Decimal)
    ensures (Value(x) < 0.0) == (x.mantissa < 0)
    ensures (Value(x) == 0.0) == (x.mantissa == 0)
  {
    ValueCross(x, Decimal(0, 0));
  }

  // ---------------------------------------------------------------------------
  // bignumber.js operations
  // ---------------------------------------------------------------------------

  /** x < y, decided on the integers: the comparison of parseFloat values in the model. */
  predicate Below(x: Decimal, y: Decimal)
  {
    x.mantissa * Pow10(y.scale) < y.mantissa * Pow10(x.scale)
  }

  lemma BelowValue(x: Decimal, y: Decimal)
    ensures Below(x, y) <==> Value(x) < Value(y)
  {
    ValueCross(x, y);
  }

  /** a / den rounded to the nearest natural number, a tie going up. */
  function HalfUp(a: nat, den: nat): nat
    requires den > 0
  {
    (2 * a + den) / (2 * den)
  }

  lemma MulLeftAssoc(a: int, b: int, c: int)
    ensures a * (b * c) == (a * b) * c
  {
  }

  lemma MulSplit(m: int, a: int, b: int, p: int)
    requires p == a * b
    ensures m * p == (m * a) * b
  {
    MulLeftAssoc(m, a, b);
  }

  lemma MultipleMod(m: int, a: int, b: int, n: int)
    requires b > 0 && n == a * b
    ensures (m * n) % b == 0
  {
    MulLeftAssoc(m, a, b);
    DivUnique(m * n, b, m * a, 0);
  }

  lemma ScaleDivides(m: int, p: int, q: int, n: int)
    requires p > 0 && q > 0 && m % q == 0 && n == p * q
    ensures (m * p) % n == 0
  {
    var c := m / q;
    assert m == c * q;
    assert m * p == c * (p * q) by { MulLeftAssoc(c, q, p); MulLeftAssoc(c, p, q); }
    DivUnique(m * p, p * q, c, 0);
  }

  lemma PowDividesWithin(m: int, e: nat, dp: nat)
    requires e <= dp
    ensures (m * Pow10(dp)) % Pow10(e) == 0
  {
    var k := dp - e;
    Pow10Add(k, e);
    assert k + e == dp;
    MultipleMod(m, Pow10(k), Pow10(e), Pow10(dp));
  }

  lemma PowDividesBeyond(m: int, e: nat, dp: nat)
    requires e > dp && m % Pow10(e - dp) == 0
    ensures (m * Pow10(dp)) % Pow10(e) == 0
  {
    Pow10Add(dp, e - dp);
    assert dp + (e - dp) == e;
    ScaleDivides(m, Pow10(dp), Pow10(e - dp), Pow10(e));
  }

  /** m × 10^-e times 10^dp is an integer when m × 10^-e has at most dp places. */
  lemma PowDivides(m: int, e: nat, dp: nat)
    requires FitsPlaces(Decimal(m, e), dp)
    ensures (m * Pow10(dp)) % Pow10(e) == 0
  {
    if e <= dp {
      PowDividesWithin(m, e, dp);
    } else {
      PowDividesBeyond(m, e, dp);
    }
  }

  /** Cancelling a positive factor. */
  lemma Cancel(a: int, b: int, c: int)
    requires c > 0 && a * c == b * c
    ensures a == b
  {
    assert (a - b) * c == a * c - b * c;
    if a > b {
      MulAtLeast(a - b, c);
    } else if b > a {
      MulAtLeast(b - a, c);
    }
  }

  lemma HalfUpNearest(a: nat, den: nat)
    requires den > 0
    ensures -(den as int) < 2 * (HalfUp(a, den) * den - a) <= den
  {
    var q := HalfUp(a, den);
    var r := (2 * a + den) % (2 * den);
    assert 2 * a + den == q * (2 * den) + r;
    assert q * (2 * den) == 2 * (q * den);
  }

  lemma HalfUpExact(m: nat, den: nat)
    requires den > 0
    ensures HalfUp(m * den, den) == m
  {
    assert m * (2 * den) == 2 * (m * den);
    DivUnique(2 * (m * den) + den, 2 * den, m, den);
  }

  /**
   * n / den rounded to dp decimal places, ROUND_HALF_UP: to the nearest multiple of
   * 10^-dp, a tie going away from zero.
   */
  function Quotient(n: int, den: nat, dp: nat): (r: Decimal)
    requires den > 0
    ensures r.scale == dp
  {
    var q: int := HalfUp(Abs(n) * Pow10(dp), den);
    Decimal(if n < 0 then -q else q, dp)
  }

  /** The rounded quotient is within half a unit of the last place of the exact one. */
  lemma QuotientNearest(n: int, den: nat, dp: nat)
    requires den > 0
    ensures var q := Abs(Quotient(n, den, dp).mantissa);
            -(den as int) < 2 * (q * den - Abs(n) * Pow10(dp)) <= den
    ensures (Quotient(n, den, dp).mantissa < 0) ==> n < 0
  {
    HalfUpNearest(Abs(n) * Pow10(dp), den);
  }

  /** When n / den has at most dp decimal places, rounding changes nothing. */
  lemma QuotientExact(n: int, den: nat, dp: nat)
    requires den > 0 && (n * Pow10(dp)) % den == 0
    ensures Quotient(n, den, dp).mantissa * den == n * Pow10(dp)
  {
    var k := (n * Pow10(dp)) / den;
    assert n * Pow10(dp) == k * den;
    if n < 0 {
      assert Abs(n) * Pow10(dp) == -(n * Pow10(dp));
      assert k <= 0 by {
        if k > 0 { MulAtLeast(k, den); }
      }
      assert Abs(n) * Pow10(dp) == (-k) * den;
      HalfUpExact(-k, den);
    } else {
      assert k >= 0 by {
        if k < 0 { MulAtLeast(-k, den); }
      }
      HalfUpExact(k, den);
    }
  }

  /** Zero divided by anything is zero. */
  lemma QuotientZero(den: nat, dp: nat)
    requires den > 0
    ensures Quotient(0, den, dp) == Decimal(0, dp)
  {
    DivUnique(den, 2 * den, 0, den);
  }

  /** Rounding to dp decimal places, as new BigNumber(s, 10) and round() do. */
  function Round(x: Decimal, dp: nat): (r: Decimal)
    ensures r.scale <= dp
    ensures x.scale <= dp ==> r == x
    ensures x.scale > dp ==> r.scale == dp
  {
    if x.scale <= dp then x else Quotient(x.mantissa, Pow10(x.scale), dp)
  }

  /** Zero stays zero when rounded. */
  lemma RoundZero(scale: nat, dp: nat)
    ensures Round(Decimal(0, scale), dp).mantissa == 0
  {
    if scale > dp {
      QuotientZero(Pow10(scale), dp);
    }
  }

  /** x has a representation with at most dp decimal places. */
  predicate FitsPlaces(x: Decimal, dp: nat)
  {
    x.scale <= dp || x.mantissa % Pow10(x.scale - dp) == 0
  }

  /** m × 10^a written with a + b places fits dp places when b <= dp. */
  lemma ScaledFits(m: int, a: nat, b: nat, dp: nat)
    requires b <= dp
    ensures FitsPlaces(Decimal(m * Pow10(a), a + b), dp)
  {
    if a + b > dp {
      var k := a + b - dp;
      Pow10Add(a - k, k);
      assert (a - k) + k == a;
      MultipleMod(m, Pow10(a - k), Pow10(k), Pow10(a));
    }
  }

  /** Dividing m by 10^e loses nothing when m × 10^-e has at most dp places. */
  lemma QuotientValue(m: int, e: nat, dp: nat)
    requires FitsPlaces(Decimal(m, e), dp)
    ensures Value(Quotient(m, Pow10(e), dp)) == Value(Decimal(m, e))
  {
    PowDivides(m, e, dp);
    QuotientExact(m, Pow10(e), dp);
    ValueCross(Quotient(m, Pow10(e), dp), Decimal(m, e));
  }

  /** An amount whose canonical form has at most dp places is held exactly with dp places. */
  lemma {:induction false} NormalizeFits(x: Decimal, dp: nat)
    requires Normalize(x).scale <= dp
    ensures FitsPlaces(x, dp)
    decreases x.scale
  {
    if x.scale > dp {
      assert x.mantissa % 10 == 0;
      var y := Decimal(x.mantissa / 10, x.scale - 1);
      NormalizeFits(y, dp);
      var k := x.scale - dp;
      assert x.mantissa == y.mantissa * 10;
      if k > 1 {
        assert y.scale - dp == k - 1 && Pow10(k) == 10 * Pow10(k - 1);
        ScaleDivides(y.mantissa, 10, Pow10(k - 1), Pow10(k));
      }
    }
  }

  /** Equal values: if one is the whole number n, so is the other, at its own scale. */
  lemma ValueWhole(x: Decimal, y: Decimal, n: int)
    requires x.mantissa == n * Pow10(x.scale) && Value(x) == Value(y)
    ensures y.mantissa == n * Pow10(y.scale)
  {
    var p, q := Pow10(x.scale), Pow10(y.scale);
    ValueCross(x, y);
    assert (n * p) * q == (n * q) * p by {
      MulLeftAssoc(n, p, q);
      MulLeftAssoc(n, q, p);
    }
    Cancel(n * q, y.mantissa, p);
  }

  /** A quotient below half a unit of the dp-th place rounds to zero. */
  lemma QuotientVanishes(n: nat, den: nat, dp: nat)
    requires den > 0 && 2 * (n * Pow10(dp)) < den
    ensures Quotient(n, den, dp) == Decimal(0, dp)
  {
    DivUnique(2 * (n * Pow10(dp)) + den, 2 * den, 0, 2 * (n * Pow10(dp)) + den);
  }

  /** 10^d is more than twice 10^dp once d exceeds dp. */
  lemma PowBeyond(d: nat, dp: nat)
    requires d > dp
    ensures 2 * Pow10(dp) < Pow10(d)
  {
    var k := d - dp;
    Pow10Add(k, dp);
    assert k + dp == d && Pow10(k) == 10 * Pow10(k - 1);
    MulAtLeast(Pow10(k - 1), Pow10(dp));
    MulLeftAssoc(10, Pow10(k - 1), Pow10(dp));
  }

  /** Scaling two equal values by the same integer keeps them equal. */
  lemma TimesSameValue(x: Decimal, y: Decimal, k: int)
    requires Value(x) == Value(y)
    ensures Value(Times(x, k)) == Value(Times(y, k))
  {
    TimesValue(x, k);
    TimesValue(y, k);
  }

  lemma RoundExact(x: Decimal, dp: nat)
    requires FitsPlaces(x, dp)
    ensures Value(Round(x, dp)) == Value(x)
  {
    if x.scale > dp {
      QuotientValue(x.mantissa, x.scale, dp);
    }
  }

  /** Multiplication by an integer, exact (BigNumber.times). */
  function Times(x: Decimal, k: int): (r: Decimal)
    ensures r.scale == x.scale
  {
    Decimal(x.mantissa * k, x.scale)
  }

  lemma TimesValue(x: Decimal, k: int)
    ensures Value(Times(x, k)) == Value(x) * k as real
  {
    CastMul(x.mantissa, k);
  }

  /** Division by a positive integer, rounded to DECIMAL_PLACES (BigNumber.dividedBy). */
  function DividedBy(x: Decimal, k: nat): (r: Decimal)
    requires k > 0
    ensures r.scale == DECIMAL_PLACES
  {
    Quotient(x.mantissa, Pow10(x.scale) * k, DECIMAL_PLACES)
  }

  // ---------------------------------------------------------------------------
  // Canonical form
  // ---------------------------------------------------------------------------

  /** No trailing zero in the fraction. */
  predicate IsNormal(x: Decimal)
  {
    x.scale == 0 || x.mantissa % 10 != 0
  }

  function Normalize(x: Decimal): (r: Decimal)
    ensures IsNormal(r) && Value(r) == Value(x)
    ensures r.scale <= x.scale
    ensures (r.mantissa < 0) == (x.mantissa < 0)
    decreases x.scale
  {
    if x.scale > 0 && x.mantissa % 10 == 0 then
      var y := Decimal(x.mantissa / 10, x.scale - 1);
      assert x.mantissa == 10 * y.mantissa;
      ValueCross(x, y);
      Normalize(y)
    else
      x
  }

  /** Each value has exactly one normal representation. */
  lemma NormalUnique(x: Decimal, y: Decimal)
    requires IsNormal(x) && IsNormal(y) && Value(x) == Value(y)
    ensures x == y
  {
    ValueCross(x, y);
    if x.scale < y.scale {
      ShiftedNotNormal(x, y);
    } else if y.scale < x.scale {
      ShiftedNotNormal(y, x);
    } else {
      Cancel(x.mantissa, y.mantissa, Pow10(x.scale));
    }
  }

  lemma ShiftedNotNormal(x: Decimal, y: Decimal)
    requires x.scale < y.scale
    requires x.mantissa * Pow10(y.scale) == y.mantissa * Pow10(x.scale)
    ensures y.mantissa % 10 == 0
  {
    var d := y.scale - x.scale;
    var p, q := Pow10(x.scale), Pow10(d);
    Pow10Add(d, x.scale);
    assert d + x.scale == y.scale;
    MulLeftAssoc(x.mantissa, q, p);
    Cancel(x.mantissa * q, y.mantissa, p);
    assert q == Pow10(d - 1) * 10;
    MultipleMod(x.mantissa, Pow10(d - 1), 10, q);
  }

  lemma NormalizeSameValue(x: Decimal, y: Decimal)
    ensures (Normalize(x) == Normalize(y)) == (Value(x) == Value(y))
  {
    if Value(x) == Value(y) {
      NormalUnique(Normalize(x), Normalize(y));
    }
  }

  // ---------------------------------------------------------------------------
  // Decimal digit strings
  // ---------------------------------------------------------------------------

  predicate IsDigit(c: char)
  {
    '0' <= c <= '9'
  }

  function DigitValue(c: char): nat
  {
    if IsDigit(c) then (c - '0') as nat else 0
  }

  function Zeros(n: nat): (s: string)
    ensures |s| == n && forall i :: 0 <= i < n ==> s[i] == '0'
  {
    if n == 0 then [] else Zeros(n - 1) + ['0']
  }

  /** The base-10 digits of n, most significant first, without leading zeros. */
  function DecDigits(n: nat): (s: string)
    ensures |s| > 0 && forall i :: 0 <= i < |s| ==> IsDigit(s[i])
    decreases n
  {
    if n < 10 then ['0' + n as char] else DecDigits(n / 10) + ['0' + (n % 10) as char]
  }

  /** The value of a string of decimal digits. */
  function ParseDec(s: string): nat
  {
    if s == [] then 0 else ParseDec(s[..|s| - 1]) * 10 + DigitValue(s[|s| - 1])
  }

  lemma {:induction false} ParseDecDigits(n: nat)
    ensures ParseDec(DecDigits(n)) == n
    decreases n
  {
    if n >= 10 {
      var s := DecDigits(n / 10);
      ParseDecDigits(n / 10);
      assert (s + ['0' + (n % 10) as char])[..|s|] == s;
    }
  }

  lemma {:induction false} DecDigitsLength(n: nat, k: nat)
    requires k >= 1 && n < Pow10(k)
    ensures |DecDigits(n)| <= k
    decreases n
  {
    if n >= 10 {
      assert n / 10 < Pow10(k - 1);
      DecDigitsLength(n / 10, k - 1);
    }
  }

  /** Leading zeros do not change the value of a digit string. */
  lemma {:induction false} ParseDecLeadingZeros(k: nat, s: string)
    ensures ParseDec(Zeros(k) + s) == ParseDec(s)
    decreases |s|, k
  {
    if s == [] {
      assert Zeros(k) + s == Zeros(k);
      if k > 0 {
        assert Zeros(k)[..k - 1] == Zeros(k - 1);
        ParseDecLeadingZeros(k - 1, []);
        assert Zeros(k - 1) + [] == Zeros(k - 1);
      }
    } else {
      var init := s[..|s| - 1];
      assert (Zeros(k) + s)[..|Zeros(k) + s| - 1] == Zeros(k) + init;
      ParseDecLeadingZeros(k, init);
    }
  }

  /** The digits of n, left-padded with zeros to width w. */
  function Padded(n: nat, w: nat): (s: string)
    ensures ParseDec(s) == n && forall i :: 0 <= i < |s| ==> IsDigit(s[i])
    ensures |s| == if |DecDigits(n)| < w then w else |DecDigits(n)|
  {
    var d := DecDigits(n);
    ParseDecDigits(n);
    if |d| < w then
      ParseDecLeadingZeros(w - |d|, d);
      Zeros(w - |d|) + d
    else
      d
  }

  // ---------------------------------------------------------------------------
  // Printing: String(number) for an exactly representable value
  // ---------------------------------------------------------------------------

  /** The unsigned part of the notation: integer digits, then '.' and exactly s fraction digits. */
  function UnsignedText(a: nat, s: nat): string
  {
    var p := Pow10(s);
    DivMod(a, p);
    var ip: nat := a / p;
    var fp: nat := a % p;
    DecDigits(ip) + (if s == 0 then "" else "." + Padded(fp, s))
  }

  /**
   * Plain decimal notation: an optional '-', the integer part without leading zeros,
   * and, when the value is not an integer, '.' and the fraction without trailing zeros.
   */
  function Render(x: Decimal): (r: string)
    ensures r != [] && (r[0] == '-' <==> Value(x) < 0.0)
  {
    ValueSign(x);
    var n := Normalize(x);
    (if n.mantissa < 0 then "-" else "") + UnsignedText(Abs(n.mantissa), n.scale)
  }

  /** Index of the first '.', or |s| when there is none. */
  function DotIndex(s: string): (i: nat)
    ensures i <= |s| && (i < |s| ==> s[i] == '.')
    ensures forall j :: 0 <= j < i ==> s[j] != '.'
  {
    if s == [] then 0
    else if s[0] == '.' then 0
    else 1 + DotIndex(s[1..])
  }

  /** Reads back a string in the notation Render prints. */
  function ParseRendered(s: string): Decimal
  {
    if |s| > 0 && s[0] == '-' then
      var u := ParseUnsigned(s[1..]);
      Decimal(-u.mantissa, u.scale)
    else
      ParseUnsigned(s)
  }

  function ParseUnsigned(s: string): Decimal
  {
    var i := DotIndex(s);
    if i == |s| then Decimal(ParseDec(s), 0)
    else
      var f := s[i + 1..];
      Decimal(ParseDec(s[..i]) * Pow10(|f|) + ParseDec(f), |f|)
  }

  lemma {:induction false} DotIndexDigits(d: string, rest: string)
    requires forall j :: 0 <= j < |d| ==> IsDigit(d[j])
    requires rest == [] || rest[0] == '.'
    ensures DotIndex(d + rest) == |d|
  {
    if d != [] {
      assert (d + rest)[1..] == d[1..] + rest;
      DotIndexDigits(d[1..], rest);
    } else {
      assert d + rest == rest;
    }
  }

  lemma ParseUnsignedInteger(ip: nat)
    ensures ParseUnsigned(DecDigits(ip)) == Decimal(ip, 0)
  {
    DotIndexDigits(DecDigits(ip), []);
    assert DecDigits(ip) + [] == DecDigits(ip);
    ParseDecDigits(ip);
  }

  lemma ParseUnsignedFraction(ip: nat, f: string)
    ensures ParseUnsigned(DecDigits(ip) + "." + f) == Decimal(ip * Pow10(|f|) + ParseDec(f), |f|)
  {
    var d := DecDigits(ip);
    var text := d + "." + f;
    assert text == d + ("." + f);
    DotIndexDigits(d, "." + f);
    assert text[..|d|] == d;
    assert text[|d| + 1..] == f;
    ParseDecDigits(ip);
  }

  lemma ParseUnsignedText(a: nat, s: nat)
    ensures ParseUnsigned(UnsignedText(a, s)) == Decimal(a, s)
  {
    var p := Pow10(s);
    DivMod(a, p);
    var ip: nat, fp: nat := a / p, a % p;
    if s == 0 {
      assert ip == a;
      assert UnsignedText(a, s) == DecDigits(ip);
      ParseUnsignedInteger(ip);
    } else {
      var pd := FractionDigits(a, s);
      assert UnsignedText(a, s) == DecDigits(ip) + "." + pd;
      ParseUnsignedFraction(ip, pd);
      assert a == ip * p + fp;
    }
  }

  lemma FractionDigits(a: nat, s: nat) returns (pd: string)
    requires s > 0
    ensures pd == Padded(a % Pow10(s), s) && |pd| == s && ParseDec(pd) == a % Pow10(s)
  {
    var fp: nat := a % Pow10(s);
    DecDigitsLength(fp, s);
    pd := Padded(fp, s);
  }

  /** Printing then reading back gives the canonical representation. */
  lemma ParseRenderedRender(x: Decimal)
    ensures ParseRendered(Render(x)) == Normalize(x)
  {
    var n := Normalize(x);
    var body := UnsignedText(Abs(n.mantissa), n.scale);
    ParseUnsignedText(Abs(n.mantissa), n.scale);
    if n.mantissa < 0 {
      assert Render(x) == "-" + body;
      assert ("-" + body)[1..] == body;
    } else {
      assert Render(x) == body;
      assert IsDigit(body[0]);
    }
  }

  /** Two values print the same exactly when they are equal. */
  lemma RenderSame(x: Decimal, y: Decimal)
    ensures (Render(x) == Render(y)) == (Value(x) == Value(y))
  {
    NormalizeSameValue(x, y);
    if Render(x) == Render(y) {
      ParseRenderedRender(x);
      ParseRenderedRender(y);
    }
  }
}
