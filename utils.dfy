/**
 * The amount codec of utils.js: scaling a decimal amount by 10^decimals into the
 * "0x…" text that is passed as a uint256 contract argument (toHex), scaling back
 * down (toDec, up to but not including its final parseFloat), and isNumeric.
 */
module Utils {
  import opened Decimals

  // ---------------------------------------------------------------------------
  // The scaling factor
  // ---------------------------------------------------------------------------

  /** '1' + '0'.repeat(decimals): the text both conversions hand to BigNumber as the factor. */
  function Factor(decimals: nat): (r: string)
    ensures |r| == decimals + 1 && r[0] == '1'
    ensures forall i :: 1 <= i < |r| ==> r[i] == '0'
  {
    "1" + Zeros(decimals)
  }

  /** The factor text denotes exactly 10^decimals. */
  lemma {:induction false} FactorValue(decimals: nat)
    ensures ParseDec(Factor(decimals)) == Pow10(decimals)
  {
    if decimals > 0 {
      var f := Factor(decimals);
      assert f == Factor(decimals - 1) + ['0'];
      assert f[..|f| - 1] == Factor(decimals - 1);
      FactorValue(decimals - 1);
    }
  }

  // ---------------------------------------------------------------------------
  // Base 16
  // ---------------------------------------------------------------------------

  const HEX_DIGITS: string := "0123456789abcdef"

  predicate IsHexDigit(c: char)
  {
    IsDigit(c) || 'a' <= c <= 'f' || 'A' <= c <= 'F'
  }

  function HexDigitValue(c: char): nat
  {
    if IsDigit(c) then (c - '0') as nat
    else if 'a' <= c <= 'f' then (c - 'a') as nat + 10
    else if 'A' <= c <= 'F' then (c - 'A') as nat + 10
    else 0
  }

  lemma HexDigitRoundTrip(v: nat)
    requires v < 16
    ensures HexDigitValue(HEX_DIGITS[v]) == v
  {
  }

  /** The lower-case base-16 digits of n, most significant first, without leading zeros. */
  function HexDigits(n: nat): (s: string)
    ensures |s| > 0
    ensures forall i :: 0 <= i < |s| ==> s[i] in HEX_DIGITS
    ensures s[0] == '0' ==> n == 0
    decreases n
  {
    if n < 16 then [HEX_DIGITS[n]] else HexDigits(n / 16) + [HEX_DIGITS[n % 16]]
  }

  /** The value of a string of base-16 digits of either case. */
  function ParseHex(s: string): nat
  {
    if s == [] then 0 else ParseHex(s[..|s| - 1]) * 16 + HexDigitValue(s[|s| - 1])
  }

  lemma {:induction false} ParseHexDigits(n: nat)
    ensures ParseHex(HexDigits(n)) == n
    decreases n
  {
    if n < 16 {
      HexDigitRoundTrip(n);
      assert [HEX_DIGITS[n]][..0] == [];
    } else {
      var s := HexDigits(n / 16);
      ParseHexDigits(n / 16);
      HexDigitRoundTrip(n % 16);
      assert (s + [HEX_DIGITS[n % 16]])[..|s|] == s;
    }
  }

  /** What "0x" + value.toString(16) gives; a value with a fractional part is kept as it is. */
  datatype HexString =
    | Hex(text: string)
    | FractionalHex(value: Decimal)

  /** "0x" followed by BigNumber's base-16 rendering of v. */
  function Base16(v: Decimal): (h: HexString)
    ensures h.Hex? <==> v.mantissa % Pow10(v.scale) == 0
  {
    var p := Pow10(v.scale);
    if v.mantissa % p == 0 then
      var n := v.mantissa / p;
      Hex("0x" + (if n < 0 then "-" else "") + HexDigits(Abs(n)))
    else
      FractionalHex(v)
  }

  // ---------------------------------------------------------------------------
  // toHex and toDec
  // ---------------------------------------------------------------------------

  /**
   * Utils.toHex: the amount, read by BigNumber with base 10 (so rounded to 20
   * places), times the factor, in base 16 after "0x".
   */
  function ToHex(amount: Decimal, decimals: nat): (h: HexString)
    ensures h.Hex? ==> |h.text| >= 3 && h.text[..2] == "0x"
  {
    var length := Factor(decimals);
    FactorValue(decimals);
    Base16(Times(Round(amount, DECIMAL_PLACES), ParseDec(length)))
  }

  /**
   * Utils.toDec before its final parseFloat: the amount, read by BigNumber with
   * base 10, divided by the factor and rounded to 20 places.
   */
  function ToDec(amount: Decimal, decimals: nat): (r: Decimal)
    ensures r.scale == DECIMAL_PLACES
  {
    var length := Factor(decimals);
    FactorValue(decimals);
    DividedBy(Round(amount, DECIMAL_PLACES), ParseDec(length))
  }

  /** toHex is the base-16 text of the amount, rounded to 20 places, times 10^decimals. */
  lemma ToHexTimes(amount: Decimal, decimals: nat)
    ensures ToHex(amount, decimals) == Base16(Times(Round(amount, DECIMAL_PLACES), Pow10(decimals)))
  {
    FactorValue(decimals);
  }

  /** A value that is the whole number n is rendered as "0x" and the hex digits of n. */
  lemma Base16Whole(x: Decimal, n: nat)
    requires x.mantissa == n * Pow10(x.scale)
    ensures Base16(x) == Hex("0x" + HexDigits(n))
  {
    var p := Pow10(x.scale);
    DivUnique(x.mantissa, p, n, 0);
    assert x.mantissa % p == 0 && x.mantissa / p == n;
    assert Abs(n) == n && "0x" + "" == "0x";
  }

  /**
   * A non-negative amount kept as it is, with at most `decimals` places, scaled by
   * 10^decimals, is rendered as the hex digits of mantissa × 10^(decimals − scale).
   */
  lemma ScaledBase16(amount: Decimal, decimals: nat)
    requires amount.mantissa >= 0 && amount.scale <= decimals && amount.scale <= DECIMAL_PLACES
    ensures Base16(Times(Round(amount, DECIMAL_PLACES), Pow10(decimals)))
         == Hex("0x" + HexDigits(amount.mantissa * Pow10(decimals - amount.scale)))
  {
    TimesWhole(amount, decimals);
    Base16Whole(Times(amount, Pow10(decimals)), amount.mantissa * Pow10(decimals - amount.scale));
  }

  /**
   * Scaling by 10^decimals an amount with at most `decimals` places gives the whole
   * number mantissa × 10^(decimals − scale), still written with the amount's scale.
   */
  lemma TimesWhole(amount: Decimal, decimals: nat)
    requires amount.scale <= decimals
    ensures Times(amount, Pow10(decimals)).mantissa
         == (amount.mantissa * Pow10(decimals - amount.scale)) * Pow10(amount.scale)
  {
    var k := decimals - amount.scale;
    Pow10Add(k, amount.scale);
    MulSplit(amount.mantissa, Pow10(k), Pow10(amount.scale), Pow10(decimals));
  }

  /** The integer toHex encodes for an amount BigNumber keeps exactly and that times 10^decimals makes whole. */
  lemma ToHexInteger(amount: Decimal, decimals: nat)
    requires amount.mantissa >= 0 && amount.scale <= decimals && amount.scale <= DECIMAL_PLACES
    ensures ToHex(amount, decimals) == Hex("0x" + HexDigits(amount.mantissa * Pow10(decimals - amount.scale)))
  {
    ScaledBase16(amount, decimals);
    ToHexTimes(amount, decimals);
  }

  /**
   * toHex of an amount with at most `decimals` fractional digits (and at most 20) is
   * "0x" and the lower-case hex digits of the natural number amount × 10^decimals.
   */
  lemma ToHexWhole(amount: Decimal, decimals: nat) returns (n: nat)
    requires amount.mantissa >= 0 && amount.scale <= decimals && amount.scale <= DECIMAL_PLACES
    ensures n == amount.mantissa * Pow10(decimals - amount.scale)
    ensures ToHex(amount, decimals) == Hex("0x" + HexDigits(n))
    ensures ParseHex(ToHex(amount, decimals).text[2..]) == n
  {
    n := amount.mantissa * Pow10(decimals - amount.scale);
    ToHexInteger(amount, decimals);
    assert ("0x" + HexDigits(n))[2..] == HexDigits(n);
    ParseHexDigits(n);
  }

  /** toHex(0, d) is "0x0" whatever the scale the zero is written with. */
  lemma ToHexZero(scale: nat, decimals: nat)
    ensures ToHex(Decimal(0, scale), decimals) == Hex("0x0")
  {
    var z := Round(Decimal(0, scale), DECIMAL_PLACES);
    RoundZero(scale, DECIMAL_PLACES);
    var x := Times(z, Pow10(decimals));
    assert x.mantissa == 0 * Pow10(x.scale);
    Base16Whole(x, 0);
    assert HexDigits(0) == "0" && "0x" + "0" == "0x0";
    ToHexTimes(Decimal(0, scale), decimals);
  }

  /** For an amount BigNumber keeps as it is, toDec divides its mantissa by 10^(scale + decimals). */
  lemma ToDecQuotient(amount: Decimal, decimals: nat)
    requires amount.scale <= DECIMAL_PLACES
    ensures ToDec(amount, decimals)
         == Quotient(amount.mantissa, Pow10(amount.scale + decimals), DECIMAL_PLACES)
  {
    FactorValue(decimals);
    Pow10Add(amount.scale, decimals);
  }

  /** toDec of an amount whose shifted value fits 20 places loses nothing. */
  lemma ToDecFits(amount: Decimal, decimals: nat)
    requires amount.scale <= DECIMAL_PLACES
    requires FitsPlaces(Decimal(amount.mantissa, amount.scale + decimals), DECIMAL_PLACES)
    ensures Value(ToDec(amount, decimals)) == Value(Decimal(amount.mantissa, amount.scale + decimals))
  {
    ToDecQuotient(amount, decimals);
    QuotientValue(amount.mantissa, amount.scale + decimals, DECIMAL_PLACES);
  }

  /** toDec is exact when the exact quotient needs at most 20 decimal places. */
  lemma ToDecExact(amount: Decimal, decimals: nat)
    requires amount.scale <= DECIMAL_PLACES
    requires FitsPlaces(Decimal(amount.mantissa, amount.scale + decimals), DECIMAL_PLACES)
    ensures Value(ToDec(amount, decimals)) == Value(amount) / Pow10(decimals) as real
  {
    ToDecFits(amount, decimals);
    ValueShift(amount, decimals);
  }

  /** For at most 20 decimals, toDec of a whole number v of base units is exactly v / 10^decimals. */
  lemma ToDecWhole(v: int, decimals: nat)
    requires decimals <= DECIMAL_PLACES
    ensures Value(ToDec(Decimal(v, 0), decimals)) == v as real / Pow10(decimals) as real
  {
    assert 0 + decimals == decimals;
    ToDecFits(Decimal(v, 0), decimals);
  }

  /** toDec(0, d) is 0. */
  lemma ToDecZero(scale: nat, decimals: nat)
    ensures Value(ToDec(Decimal(0, scale), decimals)) == 0.0
  {
    var z := Round(Decimal(0, scale), DECIMAL_PLACES);
    RoundZero(scale, DECIMAL_PLACES);
    assert ToDec(Decimal(0, scale), decimals) == ToDec(z, decimals);
    ToDecQuotient(z, decimals);
    QuotientZero(Pow10(z.scale + decimals), DECIMAL_PLACES);
    ValueSign(Decimal(0, DECIMAL_PLACES));
  }

  /** Scaling up by 10^d and then down with toDec gives the amount back. */
  lemma ScaleRoundTrip(amount: Decimal, decimals: nat)
    requires amount.scale <= DECIMAL_PLACES
    ensures Value(ToDec(Times(amount, Pow10(decimals)), decimals)) == Value(amount)
  {
    var y := Times(amount, Pow10(decimals));
    ScaledFits(amount.mantissa, decimals, amount.scale, DECIMAL_PLACES);
    assert decimals + amount.scale == y.scale + decimals;
    ToDecFits(y, decimals);
    ValueScaleUp(amount, decimals);
  }

  /** toDec of the whole number amount × 10^decimals gives the amount back. */
  lemma ToDecScaled(amount: Decimal, decimals: nat)
    requires amount.scale <= decimals && amount.scale <= DECIMAL_PLACES
    ensures Value(ToDec(Decimal(amount.mantissa * Pow10(decimals - amount.scale), 0), decimals)) == Value(amount)
  {
    var k := decimals - amount.scale;
    var n := amount.mantissa * Pow10(k);
    assert k + amount.scale == decimals && amount.scale + k == 0 + decimals;
    ScaledFits(amount.mantissa, k, amount.scale, DECIMAL_PLACES);
    ToDecExact(Decimal(n, 0), decimals);
    ValueShift(Decimal(n, 0), decimals);
    ValueScaleUp(amount, k);
  }

  /**
   * toHex depends only on the value of an amount that BigNumber holds exactly: it is
   * that of any representation c of the same value with at most `decimals` places.
   */
  lemma ToHexByValue(amount: Decimal, c: Decimal, decimals: nat) returns (n: nat)
    requires FitsPlaces(amount, DECIMAL_PLACES) && Value(amount) == Value(c)
    requires c.mantissa >= 0 && c.scale <= decimals && c.scale <= DECIMAL_PLACES
    ensures n == c.mantissa * Pow10(decimals - c.scale)
    ensures ToHex(amount, decimals) == Hex("0x" + HexDigits(n))
  {
    n := c.mantissa * Pow10(decimals - c.scale);
    var r := Round(amount, DECIMAL_PLACES);
    var p := Pow10(decimals);
    RoundExact(amount, DECIMAL_PLACES);
    TimesSameValue(c, r, p);
    TimesWhole(c, decimals);
    ValueWhole(Times(c, p), Times(r, p), n);
    Base16Whole(Times(r, p), n);
    ToHexTimes(amount, decimals);
  }

  /** The digits after "0x" read back as the number they were rendered from. */
  lemma HexTextValue(n: nat)
    ensures ParseHex(("0x" + HexDigits(n))[2..]) == n
  {
    assert ("0x" + HexDigits(n))[2..] == HexDigits(n);
    ParseHexDigits(n);
  }

  /**
   * The whole codec: a non-negative amount whose value has at most `decimals` (and at
   * most 20) fractional digits, however it is written, is sent as toHex text, and read
   * back as the integer it encodes comes back from toDec unchanged.
   */
  lemma HexRoundTrip(amount: Decimal, decimals: nat)
    requires amount.mantissa >= 0
    requires Normalize(amount).scale <= decimals && Normalize(amount).scale <= DECIMAL_PLACES
    ensures ToHex(amount, decimals).Hex?
    ensures var n := ParseHex(ToHex(amount, decimals).text[2..]);
            Value(ToDec(Decimal(n, 0), decimals)) == Value(amount)
  {
    var c := Normalize(amount);
    NormalizeFits(amount, DECIMAL_PLACES);
    var n := ToHexByValue(amount, c, decimals);
    HexTextValue(n);
    ToDecScaled(c, decimals);
  }

  /**
   * The other direction, for tokens with at most 20 decimals: a whole number v of base
   * units, read as a token amount by toDec and sent with toHex, is encoded as v.
   */
  lemma BaseRoundTrip(v: nat, decimals: nat)
    requires decimals <= DECIMAL_PLACES
    ensures ToHex(ToDec(Decimal(v, 0), decimals), decimals) == Hex("0x" + HexDigits(v))
  {
    var x := ToDec(Decimal(v, 0), decimals);
    ToDecQuotient(Decimal(v, 0), decimals);
    assert 0 + decimals == decimals;
    PowDividesWithin(v, decimals, DECIMAL_PLACES);
    QuotientExact(v, Pow10(decimals), DECIMAL_PLACES);
    assert Times(x, Pow10(decimals)).mantissa == v * Pow10(x.scale);
    Base16Whole(Times(x, Pow10(decimals)), v);
    ToHexTimes(x, decimals);
  }

  /**
   * With more than 20 decimals the round trip breaks: toDec rounds one base unit to 20
   * places, which leaves 0.
   */
  lemma ToDecBeyondPlaces(decimals: nat)
    requires decimals > DECIMAL_PLACES
    ensures ToDec(Decimal(1, 0), decimals) == Decimal(0, DECIMAL_PLACES)
  {
    ToDecQuotient(Decimal(1, 0), decimals);
    assert 0 + decimals == decimals;
    PowBeyond(decimals, DECIMAL_PLACES);
    QuotientVanishes(1, Pow10(decimals), DECIMAL_PLACES);
  }

  // ---------------------------------------------------------------------------
  // isNumeric
  // ---------------------------------------------------------------------------

  /** A JavaScript value as isNumeric sees it: a string, or anything whose typeof is not "string". */
  datatype JsValue = JsString(s: string) | NotString

  /**
   * WhiteSpace (tab, vertical tab, form feed, space, no-break space, the byte order mark
   * and the other Unicode space separators) and LineTerminator code points, which
   * JavaScript trims before reading a number.
   */
  predicate IsJsSpace(c: char)
  {
    c == ' ' || c == '\t' || c == '\n' || c == '\r'
    || c as int == 0x0B || c as int == 0x0C || c as int == 0xA0 || c as int == 0xFEFF
    || c as int == 0x2028 || c as int == 0x2029
    || c as int == 0x1680 || 0x2000 <= c as int <= 0x200A || c as int == 0x202F
    || c as int == 0x205F || c as int == 0x3000
  }

  function TrimStart(s: string): (t: string)
    ensures |t| <= |s| && t == s[|s| - |t|..]
    ensures t != [] ==> !IsJsSpace(t[0])
  {
    if s != [] && IsJsSpace(s[0]) then TrimStart(s[1..]) else s
  }

  function TrimEnd(s: string): (t: string)
    ensures |t| <= |s| && t == s[..|t|]
  {
    if s != [] && IsJsSpace(s[|s| - 1]) then TrimEnd(s[..|s| - 1]) else s
  }

  function Trim(s: string): string
  {
    TrimEnd(TrimStart(s))
  }

  /** The length of the run of decimal digits at the start of s. */
  function DigitRun(s: string): (n: nat)
    ensures n <= |s|
    ensures forall k :: 0 <= k < n ==> IsDigit(s[k])
    ensures n < |s| ==> !IsDigit(s[n])
  {
    if s != [] && IsDigit(s[0]) then 1 + DigitRun(s[1..]) else 0
  }

  predicate AllDigits(s: string)
  {
    forall i :: 0 <= i < |s| ==> IsDigit(s[i])
  }

  /** An ExponentPart: e or E, an optional sign, and at least one digit. */
  predicate IsExponent(s: string)
  {
    |s| >= 2 && (s[0] == 'e' || s[0] == 'E')
    && var t := if s[1] == '+' || s[1] == '-' then s[2..] else s[1..];
       |t| > 0 && AllDigits(t)
  }

  /** StrUnsignedDecimalLiteral of the JavaScript grammar for string numerals. */
  predicate IsUnsignedDecimalLiteral(s: string)
  {
    s == "Infinity"
    || var i := DigitRun(s);
       var r := s[i..];
       if |r| > 0 && r[0] == '.' then
         var j := DigitRun(r[1..]);
         (i > 0 || j > 0) && (r[1 + j..] == [] || IsExponent(r[1 + j..]))
       else
         i > 0 && (r == [] || IsExponent(r))
  }

  predicate IsSign(c: char)
  {
    c == '+' || c == '-'
  }

  function Unsigned(s: string): string
  {
    if |s| > 0 && IsSign(s[0]) then s[1..] else s
  }

  /** StrDecimalLiteral: an optional sign and an unsigned decimal literal. */
  predicate IsDecimalLiteral(s: string)
  {
    IsUnsignedDecimalLiteral(Unsigned(s))
  }

  /** 0x / 0o / 0b literals, which Number() accepts and parseFloat reads as 0. */
  predicate IsNonDecimalIntegerLiteral(s: string)
  {
    |s| > 2 && s[0] == '0'
    && var body := s[2..];
       if s[1] == 'x' || s[1] == 'X' then forall i :: 0 <= i < |body| ==> IsHexDigit(body[i])
       else if s[1] == 'o' || s[1] == 'O' then forall i :: 0 <= i < |body| ==> '0' <= body[i] <= '7'
       else if s[1] == 'b' || s[1] == 'B' then forall i :: 0 <= i < |body| ==> '0' <= body[i] <= '1'
       else false
  }

  /** isNaN(s) for a string s: Number(s) is NaN. A blank string reads as 0. */
  predicate NumberIsNaN(s: string)
  {
    var t := Trim(s);
    !(t == [] || IsDecimalLiteral(t) || IsNonDecimalIntegerLiteral(t))
  }

  /** The text after the optional sign begins a decimal literal. */
  predicate StartsNumeral(u: string)
  {
    (|u| > 0 && IsDigit(u[0]))
    || (|u| > 1 && u[0] == '.' && IsDigit(u[1]))
    || (|u| >= 8 && u[..8] == "Infinity")
  }

  /** isNaN(parseFloat(s)): no prefix of s, after leading white space, is a decimal literal. */
  predicate ParseFloatIsNaN(s: string)
  {
    !StartsNumeral(Unsigned(TrimStart(s)))
  }

  /** Utils.isNumeric. */
  predicate IsNumeric(val: JsValue)
  {
    match val
    case NotString => true
    case JsString(s) => NumberIsNaN(s) && ParseFloatIsNaN(s)
  }

  /** Every unsigned decimal literal begins with something parseFloat reads. */
  lemma UnsignedLiteralStartsNumeral(u: string)
    requires IsUnsignedDecimalLiteral(u)
    ensures StartsNumeral(u)
  {
    if u != "Infinity" {
      var i := DigitRun(u);
      if i == 0 {
        assert u[i..] == u;
        assert IsDigit(u[1..][0]);
      }
    } else {
      assert u[..8] == "Infinity";
    }
  }

  lemma StartsNumeralPrefix(u: string, w: string)
    requires StartsNumeral(u) && |u| <= |w| && u == w[..|u|]
    ensures StartsNumeral(w)
  {
    if |u| >= 8 && u[..8] == "Infinity" {
      assert w[..8] == u[..8];
    }
  }

  lemma TrimIsPrefix(s: string)
    ensures Trim(s) == TrimStart(s)[..|Trim(s)|]
  {
  }

  /** A text that, after its sign, starts a numeral, still does so when more text follows. */
  lemma SignedPrefixStarts(t: string, w: string)
    requires t != [] && |t| <= |w| && t == w[..|t|]
    requires StartsNumeral(Unsigned(t))
    ensures StartsNumeral(Unsigned(w))
  {
    assert t[0] == w[0];
    if IsSign(t[0]) {
      assert t[1..] == w[1..][..|t| - 1];
      StartsNumeralPrefix(t[1..], w[1..]);
    } else {
      StartsNumeralPrefix(t, w);
    }
  }

  /** A string whose trimmed text is a decimal numeral is one parseFloat reads. */
  lemma DecimalLiteralParses(s: string)
    requires IsDecimalLiteral(Trim(s))
    ensures !ParseFloatIsNaN(s)
  {
    var t := Trim(s);
    TrimIsPrefix(s);
    UnsignedLiteralStartsNumeral(Unsigned(t));
    assert t != [] by {
      assert Unsigned([]) == [];
    }
    SignedPrefixStarts(t, TrimStart(s));
  }

  /**
   * isNumeric is true for every non-string, and for a string exactly when parseFloat
   * fails on it and it is neither blank nor a 0x/0o/0b literal: so no decimal numeral
   * is "numeric".
   */
  lemma IsNumericCharacterised(val: JsValue)
    ensures val.NotString? ==> IsNumeric(val)
    ensures val.JsString? ==>
      (IsNumeric(val) <==>
        ParseFloatIsNaN(val.s) && Trim(val.s) != [] && !IsNonDecimalIntegerLiteral(Trim(val.s)))
    ensures val.JsString? && IsDecimalLiteral(Trim(val.s)) ==> !IsNumeric(val)
  {
    if val.JsString? && IsDecimalLiteral(Trim(val.s)) {
      DecimalLiteralParses(val.s);
    }
  }

  /** parseFloat reads the numeral "42", so the inverted test calls it not numeric. */
  lemma NumeralNotNumeric()
    ensures !IsNumeric(JsString("42"))
  {
    assert TrimStart("42") == "42";
    assert Unsigned("42") == "42";
  }

  /** Neither Number nor parseFloat reads "abc", so the inverted test calls it numeric. */
  lemma WordNumeric()
    ensures IsNumeric(JsString("abc"))
  {
    WordTrimmed();
    WordNotLiteral();
  }

  /** "abc" has no white space to trim. */
  lemma WordTrimmed()
    ensures TrimStart("abc") == "abc" && Trim("abc") == "abc"
  {
    assert !IsJsSpace('a') && !IsJsSpace('c');
    assert TrimStart("abc") == "abc";
    assert TrimEnd("abc") == "abc";
  }

  /** "abc" neither is nor begins a numeral. */
  lemma WordNotLiteral()
    ensures !IsDecimalLiteral("abc") && !IsNonDecimalIntegerLiteral("abc") && !StartsNumeral(Unsigned("abc"))
  {
    assert Unsigned("abc") == "abc";
    assert DigitRun("abc") == 0;
    assert "abc"[0..] == "abc";
  }

  /** Concretely: the numeral "42" is not numeric, the word "abc" is. */
  lemma IsNumericInverted()
    ensures !IsNumeric(JsString("42"))
    ensures IsNumeric(JsString("abc"))
  {
    NumeralNotNumeric();
    WordNumeric();
  }

  /** What the name promises: a non-string, or a string that both Number() and parseFloat read. */
  predicate IsNumericIntended(val: JsValue)
  {
    match val
    case NotString => true
    case JsString(s) => !NumberIsNaN(s) && !ParseFloatIsNaN(s)
  }

  lemma {:induction false} TrimEndBlank(w: string)
    requires TrimEnd(w) == []
    ensures w == [] || IsJsSpace(w[0])
  {
    if |w| > 1 {
      TrimEndBlank(w[..|w| - 1]);
    }
  }

  /** parseFloat reads nothing from a blank string. */
  lemma BlankNotParsed(s: string)
    requires Trim(s) == []
    ensures ParseFloatIsNaN(s)
  {
    TrimEndBlank(TrimStart(s));
    assert TrimStart(s) == [];
  }

  /** parseFloat reads the leading 0 of a 0x / 0o / 0b literal. */
  lemma NonDecimalParses(s: string)
    requires IsNonDecimalIntegerLiteral(Trim(s))
    ensures !ParseFloatIsNaN(s)
  {
    var t, w := Trim(s), TrimStart(s);
    TrimIsPrefix(s);
    assert w[0] == t[0] == '0';
    assert Unsigned(w) == w;
  }

  /** The intended predicate accepts a string exactly when its trimmed text is a JavaScript numeral. */
  lemma IsNumericIntendedCharacterised(s: string)
    ensures IsNumericIntended(JsString(s)) <==>
      IsDecimalLiteral(Trim(s)) || IsNonDecimalIntegerLiteral(Trim(s))
  {
    var t := Trim(s);
    if IsDecimalLiteral(t) {
      DecimalLiteralParses(s);
    } else if IsNonDecimalIntegerLiteral(t) {
      NonDecimalParses(s);
    } else if t == [] {
      BlankNotParsed(s);
    }
  }
}
