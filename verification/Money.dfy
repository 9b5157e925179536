/** Exact money text and exchange-rate arithmetic (ledger-kernel money.ts and fx.ts). */
module Money {
  import opened Text

  /** Split a numeral `-?digits(.digits)?` into sign, whole and fractional digits. */
  datatype Decimal = Decimal(negative: bool, whole: string, frac: string)

  function IndexOfDot(s: string): (i: nat)
    ensures i <= |s|
    ensures forall k :: 0 <= k < i ==> s[k] != '.'
    ensures i < |s| ==> s[i] == '.'
  {
    if s == "" || s[0] == '.' then 0 else 1 + IndexOfDot(s[1..])
  }

  /** The match of `^(-)?(\d+)(?:\.(\d+))?$`, or None when the text does not match. */
  function MatchDecimal(s: string): (r: Option<Decimal>)
    ensures r.Some? ==> AllDigits(r.value.whole) && r.value.whole != "" && AllDigits(r.value.frac)
  {
    var negative := s != "" && s[0] == '-';
    var body := if negative then s[1..] else s;
    var dot := IndexOfDot(body);
    var whole, frac := body[..dot], if dot < |body| then body[dot + 1..] else "";
    if whole == "" || !AllDigits(whole) || !AllDigits(frac) || (dot < |body| && frac == "")
    then None
    else Some(Decimal(negative, whole, frac))
  }

  datatype ParseError = NotADecimal | TooPrecise

  /** `Money.fromDecimal`: minor units of an exact decimal string at a currency scale. */
  function FromDecimal(value: string, scale: nat): Result<int, ParseError> {
    match MatchDecimal(Trim(value))
    case None => Err(NotADecimal)
    case Some(d) => if |d.frac| > scale then Err(TooPrecise) else Ok(MinorUnits(d, scale))
  }

  function MinorUnits(d: Decimal, scale: nat): int
    requires AllDigits(d.whole) && AllDigits(d.frac) && |d.frac| <= scale
  {
    TextNatConcat(d.frac, Zeros(scale - |d.frac|));
    var combined := Shift(TextNat(d.whole), scale) + TextNat(PadEnd(d.frac, scale));
    if d.negative then -combined else combined
  }

  lemma MinorUnitsAtOwnScale(d: Decimal)
    requires AllDigits(d.whole) && AllDigits(d.frac)
    ensures AllDigits(d.whole + d.frac)
    ensures MinorUnits(d, |d.frac|) == if d.negative then -TextNat(d.whole + d.frac) else TextNat(d.whole + d.frac)
  {
    TextNatConcat(d.whole, d.frac);
    assert PadEnd(d.frac, |d.frac|) == d.frac;
  }

  /** `Money.toDecimalString`: the minor units printed with `scale` fractional digits. */
  function ToDecimalString(minor: int, scale: nat): string {
    var magnitude: nat := if minor < 0 then -minor else minor;
    var s := PadStart(NatText(magnitude), scale + 1);
    var cut := |s| - scale;
    (if minor < 0 then "-" else "") + s[..cut] + (if scale > 0 then "." + s[cut..] else "")
  }

  lemma {:induction false} DotAfterDigits(digits: string, rest: string)
    requires AllDigits(digits)
    requires rest == "" || rest[0] == '.'
    ensures IndexOfDot(digits + rest) == |digits|
  {
    if digits != "" {
      assert (digits + rest)[1..] == digits[1..] + rest;
      DotAfterDigits(digits[1..], rest);
    } else {
      assert digits + rest == rest;
    }
  }

  /** The text `-?whole(.frac)?`, the point left out when there are no fractional digits. */
  function DecimalText(negative: bool, whole: string, frac: string): string {
    (if negative then ['-'] else []) + Unsigned(whole, frac)
  }

  function Unsigned(whole: string, frac: string): string {
    whole + if frac != "" then ['.'] + frac else []
  }

  lemma UnsignedSplits(whole: string, frac: string)
    requires AllDigits(whole) && whole != "" && AllDigits(frac)
    ensures var body := Unsigned(whole, frac);
            && IndexOfDot(body) == |whole|
            && body[..|whole|] == whole
            && (frac == "" ==> |body| == |whole|)
            && (frac != "" ==> |body| > |whole| && body[|whole| + 1..] == frac)
            && body[0] != '-' && !IsSpace(body[0]) && !IsSpace(body[|body| - 1])
  {
    DotAfterDigits(whole, if frac != "" then ['.'] + frac else []);
    assert IsDigit(whole[0]) && IsDigit(whole[|whole| - 1]);
  }

  lemma MatchOfPrinted(negative: bool, whole: string, frac: string)
    requires AllDigits(whole) && whole != "" && AllDigits(frac)
    ensures var s := DecimalText(negative, whole, frac);
            Trim(s) == s && MatchDecimal(s) == Some(Decimal(negative, whole, frac))
  {
    UnsignedSplits(whole, frac);
    PrintedIsTrimmed(negative, whole, frac);
    var s := DecimalText(negative, whole, frac);
    assert (if negative then s[1..] else s) == Unsigned(whole, frac);
  }

  lemma PrintedIsTrimmed(negative: bool, whole: string, frac: string)
    requires AllDigits(whole) && whole != "" && AllDigits(frac)
    ensures Trim(DecimalText(negative, whole, frac)) == DecimalText(negative, whole, frac)
  {
    UnsignedSplits(whole, frac);
    var s, body := DecimalText(negative, whole, frac), Unsigned(whole, frac);
    assert s[|s| - 1] == body[|body| - 1];
    TrimKeepsTrimmed(s);
  }

  /** A padded numeral cut `places` from its end: both halves are digits and keep its value. */
  lemma CutNumeral(n: nat, places: nat)
    ensures var s := PadStart(NatText(n), places + 1);
            && |s| > places && AllDigits(s)
            && s == s[..|s| - places] + s[|s| - places..]
            && TextNat(s) == n
  {
    PaddingKeepsValue(NatText(n), places + 1);
    NumeralParsesBack(n);
  }

  lemma ParseOfMatch(text: string, d: Decimal)
    requires AllDigits(d.whole) && AllDigits(d.frac)
    requires MatchDecimal(Trim(text)) == Some(d)
    ensures AllDigits(d.whole + d.frac)
    ensures FromDecimal(text, |d.frac|)
         == Ok(if d.negative then -TextNat(d.whole + d.frac) else TextNat(d.whole + d.frac))
  {
    MinorUnitsAtOwnScale(d);
  }

  lemma PrintedShape(minor: int, scale: nat) returns (whole: string, frac: string)
    ensures AllDigits(whole) && whole != "" && AllDigits(frac) && |frac| == scale
    ensures AllDigits(whole + frac) && TextNat(whole + frac) == Abs(minor)
    ensures ToDecimalString(minor, scale) == DecimalText(minor < 0, whole, frac)
  {
    CutNumeral(Abs(minor), scale);
    var s := PadStart(NatText(Abs(minor)), scale + 1);
    whole, frac := s[..|s| - scale], s[|s| - scale..];
  }

  /** Printing then parsing returns the same amount, at every scale. */
  lemma DecimalRoundTrip(minor: int, scale: nat)
    ensures FromDecimal(ToDecimalString(minor, scale), scale) == Ok(minor)
  {
    var whole, frac := PrintedShape(minor, scale);
    MatchOfPrinted(minor < 0, whole, frac);
    ParseOfMatch(ToDecimalString(minor, scale), Decimal(minor < 0, whole, frac));
  }

  /** Two amounts that print alike are equal. */
  lemma PrintingIsInjective(a: int, b: int, scale: nat)
    requires ToDecimalString(a, scale) == ToDecimalString(b, scale)
    ensures a == b
  {
    DecimalRoundTrip(a, scale);
    DecimalRoundTrip(b, scale);
  }

  /** Only numerals match: an optional minus, digits, and a point followed by digits. */
  lemma OnlyNumeralsMatch(s: string)
    ensures MatchDecimal(s).Some? ==>
              var d := MatchDecimal(s).value; s == DecimalText(d.negative, d.whole, d.frac)
  {
    if MatchDecimal(s).Some? {
      var d := MatchDecimal(s).value;
      var body := if d.negative then s[1..] else s;
      MatchedBody(s);
      BodyIs(body, d);
      assert s == (if d.negative then ['-'] else []) + body;
    }
  }

  lemma MatchedBody(s: string)
    requires MatchDecimal(s).Some?
    ensures var d := MatchDecimal(s).value;
            var body := if d.negative && s != "" then s[1..] else s;
            var dot := IndexOfDot(body);
            && (d.negative <==> s != "" && s[0] == '-') && d.whole == body[..dot]
            && if dot < |body| then d.frac == body[dot + 1..] && d.frac != "" else d.frac == ""
  {
  }

  lemma BodyIs(body: string, d: Decimal)
    requires var dot := IndexOfDot(body);
             d.whole == body[..dot] && (if dot < |body| then d.frac == body[dot + 1..] && d.frac != "" else d.frac == "")
    ensures body == Unsigned(d.whole, d.frac)
  {
    CutAt(body, IndexOfDot(body), d.whole, d.frac);
  }

  lemma CutAt(body: string, dot: nat, whole: string, frac: string)
    requires dot <= |body| && whole == body[..dot]
    requires if dot < |body| then body[dot] == '.' && frac == body[dot + 1..] && frac != "" else frac == ""
    ensures body == Unsigned(whole, frac)
  {
    if dot < |body| {
      assert body[dot..] == ['.'] + frac;
      assert body == whole + body[dot..];
    } else {
      assert whole + [] == body;
    }
  }

  /** Every numeral matches, as its own sign, digits and places. */
  lemma NumeralsMatch(d: Decimal)
    requires AllDigits(d.whole) && d.whole != "" && AllDigits(d.frac)
    ensures MatchDecimal(DecimalText(d.negative, d.whole, d.frac)) == Some(d)
  {
    MatchOfPrinted(d.negative, d.whole, d.frac);
  }

  /** A numeral is worth its digits, with the places it leaves out filled by zeros; more places than the scale are refused. */
  lemma NumeralIsWorth(text: string, d: Decimal, scale: nat)
    requires MatchDecimal(Trim(text)) == Some(d)
    ensures AllDigits(d.whole + d.frac)
    ensures |d.frac| > scale ==> FromDecimal(text, scale) == Err(TooPrecise)
    ensures |d.frac| <= scale ==>
              var units := Shift(TextNat(d.whole + d.frac), scale - |d.frac|);
              FromDecimal(text, scale) == Ok(if d.negative then -units else units)
  {
    TextNatConcat(d.whole, d.frac);
    if |d.frac| <= scale {
      UnitsAre(d, scale);
    }
  }

  lemma UnitsAre(d: Decimal, scale: nat)
    requires AllDigits(d.whole) && AllDigits(d.frac) && |d.frac| <= scale
    ensures AllDigits(d.whole + d.frac)
    ensures var units := Shift(TextNat(d.whole + d.frac), scale - |d.frac|);
            MinorUnits(d, scale) == if d.negative then -units else units
  {
    var k := scale - |d.frac|;
    TextNatConcat(d.whole, d.frac);
    TextNatConcat(d.frac, Zeros(k));
    ZerosDenoteZero(k);
    ShiftTwice(TextNat(d.whole), |d.frac|, k);
    ShiftAdds(Shift(TextNat(d.whole), |d.frac|), TextNat(d.frac), k);
    PaddedEnd(d.frac, scale);
  }

  lemma PaddedEnd(s: string, width: nat)
    requires |s| <= width
    ensures PadEnd(s, width) == s + Zeros(width - |s|)
  {
    if |s| == width {
      assert Zeros(0) == "" && s + "" == s;
    }
  }

  lemma {:induction false} ShiftTwice(n: int, a: nat, b: nat)
    ensures Shift(Shift(n, a), b) == Shift(n, a + b)
  {
    if b > 0 {
      ShiftTwice(n, a, b - 1);
    }
  }

  lemma {:induction false} ShiftAdds(m: int, n: int, k: nat)
    ensures Shift(m + n, k) == Shift(m, k) + Shift(n, k)
  {
    if k > 0 {
      ShiftAdds(m, n, k - 1);
    }
  }

  // --- exchange rates ---------------------------------------------------------------

  /** Division rounding half away from zero; the code flips a negative divisor first. */
  function DivRoundHalfUp(numerator: int, denominator: int): int
    requires denominator != 0
  {
    var d := Abs(denominator);
    var n := if denominator < 0 then -numerator else numerator;
    var q, r := Abs(n) / d, Abs(n) % d;
    var rounded := if r * 2 >= d then q + 1 else q;
    if n < 0 then -rounded else rounded
  }

  /** A rounded quotient is within half of the divisor, and ties go away from zero. */
  lemma RoundedQuotientIsNearest(numerator: int, denominator: int)
    requires denominator > 0
    ensures var q := DivRoundHalfUp(numerator, denominator);
            && 2 * Abs(q * denominator - numerator) <= denominator
            && (2 * Abs(q * denominator - numerator) == denominator ==> Abs(q * denominator) > Abs(numerator))
  {
    var n := Abs(numerator);
    var q, r := n / denominator, n % denominator;
    assert n == q * denominator + r;
    var up := (q + 1) * denominator;
    assert up == q * denominator + denominator;
    var result := DivRoundHalfUp(numerator, denominator);
    var size := if r * 2 >= denominator then q + 1 else q;
    assert size * denominator - n == if r * 2 >= denominator then denominator - r else -r;
    if numerator < 0 {
      assert result * denominator == -(size * denominator);
    }
  }

  /** `parseDecimal` of fx.ts: the digits as one integer, and how many are fractional. */
  function ParseRate(rate: string): (r: Option<(int, nat)>) {
    match MatchDecimal(Trim(rate))
    case None => None
    case Some(d) =>
      var digits: int := TextNat(d.whole + d.frac);
      Some((if d.negative then -digits else digits, |d.frac|))
  }

  /** `convert`: minor units at `fromScale` into minor units at `toScale`. */
  function Convert(minor: int, fromScale: nat, toScale: nat, rate: string): Option<int> {
    match ParseRate(rate)
    case None => None
    case Some(parsed) =>
      var (num, scale) := parsed;
      Some(DivRoundHalfUp(minor * num * Pow10(toScale), Pow10(scale) * Pow10(fromScale)))
  }

  /**
   * A conversion is within half a target minor unit of the exact rational
   * `minor * rate * 10^toScale / 10^fromScale`.
   */
  lemma ConvertIsNearest(minor: int, fromScale: nat, toScale: nat, rate: string)
    requires ParseRate(rate).Some?
    ensures var (num, scale) := ParseRate(rate).value;
            var exact := minor * num * Pow10(toScale);
            var unit := Pow10(scale + fromScale);
            2 * Abs(Convert(minor, fromScale, toScale, rate).value * unit - exact) <= unit
  {
    var (num, scale) := ParseRate(rate).value;
    Pow10Adds(scale, fromScale);
    RoundedQuotientIsNearest(minor * num * Pow10(toScale), Pow10(scale) * Pow10(fromScale));
  }

  /** `reciprocal`: the inverse rate to `digits` places, as text. None for a zero rate. */
  function Reciprocal(rate: string, digits: nat): Option<string> {
    match ParseRate(rate)
    case None => None
    case Some(parsed) =>
      var (num, scale) := parsed;
      if num == 0 then None
      else
        var q := DivRoundHalfUp(Pow10(scale) * Pow10(digits), num);
        Some(FixedPoint(q, digits))
  }

  /** `q` printed with the point `digits` places from its end. */
  function FixedPoint(q: int, digits: nat): string {
    var s := PadStart(IntText(q), digits + 1);
    var cut := |s| - digits;
    (if s[..cut] == "" then "0" else s[..cut]) + "." + s[cut..]
  }

  /**
   * The printed inverse of a positive rate reads back as the integer nearest to
   * 10^(scale+digits)/num, with exactly `digits` fractional digits.
   */
  lemma ReciprocalReadsBack(rate: string, digits: nat) returns (text: string, q: nat)
    requires digits > 0
    requires ParseRate(rate).Some? && ParseRate(rate).value.0 > 0
    ensures Reciprocal(rate, digits) == Some(text)
    ensures ParseRate(text) == Some((q as int, digits))
    ensures var (num, scale) := ParseRate(rate).value;
            2 * Abs(q * num - Pow10(scale + digits)) <= num
  {
    q := InverseIsNearest(rate, digits);
    text := FixedPoint(q, digits);
    FixedPointReadsBack(q, digits);
  }

  lemma InverseIsNearest(rate: string, digits: nat) returns (q: nat)
    requires ParseRate(rate).Some? && ParseRate(rate).value.0 > 0
    ensures Reciprocal(rate, digits) == Some(FixedPoint(q, digits))
    ensures var (num, scale) := ParseRate(rate).value;
            2 * Abs(q * num - Pow10(scale + digits)) <= num
  {
    var (num, scale) := ParseRate(rate).value;
    Pow10Adds(scale, digits);
    q := NearestQuotient(Pow10(scale) * Pow10(digits), num);
  }

  lemma NearestQuotient(numerator: nat, denominator: nat) returns (q: nat)
    requires denominator > 0
    ensures q == DivRoundHalfUp(numerator, denominator) && 2 * Abs(q * denominator - numerator) <= denominator
  {
    RoundedQuotientIsNearest(numerator, denominator);
    RoundedIsNatural(numerator, denominator);
    q := DivRoundHalfUp(numerator, denominator);
  }

  lemma FixedPointReadsBack(q: nat, digits: nat)
    requires digits > 0
    ensures ParseRate(FixedPoint(q, digits)) == Some((q as int, digits))
  {
    var whole, frac := InverseShape(q, digits);
    RateOfPrinted(whole, frac);
  }

  lemma InverseShape(q: nat, digits: nat) returns (whole: string, frac: string)
    ensures AllDigits(whole) && whole != "" && AllDigits(frac) && |frac| == digits
    ensures AllDigits(whole + frac) && TextNat(whole + frac) == q
    ensures FixedPoint(q, digits) == whole + "." + frac
  {
    CutNumeral(q, digits);
    var s := PadStart(NatText(q), digits + 1);
    whole, frac := s[..|s| - digits], s[|s| - digits..];
  }

  lemma RateOfPrinted(whole: string, frac: string)
    requires AllDigits(whole) && whole != "" && AllDigits(frac) && frac != ""
    ensures AllDigits(whole + frac)
    ensures ParseRate(whole + "." + frac) == Some((TextNat(whole + frac), |frac|))
  {
    MatchOfPrinted(false, whole, frac);
    assert whole + "." + frac == DecimalText(false, whole, frac);
  }

  lemma RoundedIsNatural(numerator: nat, denominator: nat)
    requires denominator > 0
    ensures DivRoundHalfUp(numerator, denominator) >= 0
  {
  }
}
