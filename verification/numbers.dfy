/**
 * Numbers read from form fields. Every amount field of the application is an
 * `<input type="number">`, whose value is empty or an HTML floating-point numeral. This module
 * reads the numerals without an exponent (`-`? digits, `.` digits, at least one digit) exactly,
 * as `real`; on those `parseFloat`, `Number` and the implicit conversion of `"x" <= 0` agree.
 * A numeral with an exponent (`1e3`) is read as `NaN` here, where `parseFloat` reads its value.
 */
module Numbers {
  import opened Wrappers

  /** A JavaScript number as far as these forms can produce one: a finite value or `NaN`. */
  datatype JsNumber = Finite(value: real) | NaN

  predicate IsDigit(c: char) { '0' <= c <= '9' }

  predicate AllDigits(s: string) { forall i :: 0 <= i < |s| ==> IsDigit(s[i]) }

  /** The value of a string of decimal digits (0 for the empty string). */
  function DigitsValue(s: string): (v: nat)
    requires AllDigits(s)
  {
    if s == [] then 0 else DigitsValue(s[..|s| - 1]) * 10 + (s[|s| - 1] as int - '0' as int)
  }

  function Pow10(k: nat): (p: nat)
    ensures p >= 1
  {
    if k == 0 then 1 else 10 * Pow10(k - 1)
  }

  /** The index of the first `c` in `s`, if any. */
  function IndexOf(s: string, c: char): (r: Option<nat>)
    ensures r.Some? ==> r.value < |s| && s[r.value] == c && c !in s[..r.value]
    ensures r.None? ==> c !in s
  {
    if s == [] then None
    else if s[0] == c then Some(0)
    else match IndexOf(s[1..], c)
      case Some(k) => (assert s[..k + 1] == [s[0]] + s[1..][..k]; Some(k + 1))
      case None => None
  }

  /** The value of the numeral `whole.fraction`: the whole part plus the fraction digits over the matching power of ten. */
  function DecimalValue(whole: string, fraction: string): real
    requires AllDigits(whole) && AllDigits(fraction)
  {
    DigitsValue(whole) as real + DigitsValue(fraction) as real / Pow10(|fraction|) as real
  }

  /** An unsigned numeral: digits, or digits `.` digits, with at least one digit on the side that has them. */
  function ParseUnsigned(s: string): (r: Option<real>)
    ensures r.Some? ==> r.value >= 0.0
    ensures r.Some? ==> s != [] && s[0] != '-'
  {
    match IndexOf(s, '.')
    case None => if s != [] && AllDigits(s) then Some(DigitsValue(s) as real) else None
    case Some(p) =>
      var whole, fraction := s[..p], s[p + 1..];
      if AllDigits(whole) && AllDigits(fraction) && fraction != [] then
        Some(DecimalValue(whole, fraction))
      else None
  }

  /** Digits alone read as the integer they spell. */
  lemma IntegerReads(s: string)
    requires s != [] && AllDigits(s)
    ensures ParseUnsigned(s) == Some(DigitsValue(s) as real)
  {
    assert '.' !in s by {
      forall i | 0 <= i < |s| ensures s[i] != '.' { assert IsDigit(s[i]); }
    }
    assert IndexOf(s, '.') == None;
  }

  /** `whole.fraction` reads as its decimal value. */
  lemma FractionReads(s: string, p: nat)
    requires p < |s| - 1 && s[p] == '.' && AllDigits(s[..p]) && AllDigits(s[p + 1..])
    ensures ParseUnsigned(s) == Some(DecimalValue(s[..p], s[p + 1..]))
  {
    var whole, fraction := s[..p], s[p + 1..];
    assert '.' !in whole by {
      forall i | 0 <= i < |whole| ensures whole[i] != '.' { assert IsDigit(whole[i]); }
    }
    IndexOfFirst(s, '.', p);
    assert fraction != [];
  }

  /** An occurrence with none before it is the first one. */
  lemma {:induction false} IndexOfFirst(s: string, c: char, p: nat)
    requires p < |s| && s[p] == c && c !in s[..p]
    ensures IndexOf(s, c) == Some(p)
  {
    if p > 0 {
      assert s[0] == s[..p][0];
      assert s[1..][..p - 1] == s[..p][1..];
      IndexOfFirst(s[1..], c, p - 1);
    }
  }

  /** `parseFloat(s)` on what a number field can hold; anything else, the empty string included, is `NaN`. */
  function ParseFloat(s: string): (r: JsNumber)
    ensures s == [] ==> r == NaN
    ensures r.Finite? && s[0] != '-' ==> r.value >= 0.0
    ensures ParseUnsigned(s).Some? ==> r == Finite(ParseUnsigned(s).value)
    ensures s != [] && s[0] != '-' && ParseUnsigned(s).None? ==> r == NaN
  {
    var unsigned := if s != [] && s[0] == '-' then ParseUnsigned(s[1..]) else ParseUnsigned(s);
    match unsigned
    case None => NaN
    case Some(v) => if s[0] == '-' then Finite(-v) else Finite(v)
  }

  /** A leading minus sign negates the number that follows it; without a number after it the result is `NaN`. */
  lemma ParseFloatNegate(t: string)
    ensures ParseUnsigned(t).Some? ==> ParseFloat("-" + t) == Finite(-ParseUnsigned(t).value)
    ensures ParseUnsigned(t).None? ==> ParseFloat("-" + t) == NaN
  {
    assert ("-" + t)[1..] == t;
  }

  /** The amount the receipt scan fills in, and an integral amount, read as the numbers they spell. */
  lemma ParseFloatExamples()
    ensures ParseFloat("36.84") == Finite(36.84)
    ensures ParseFloat("1500") == Finite(1500.0)
    ensures ParseFloat("-2.5") == Finite(-2.5)
    ensures ParseFloat("1e3") == NaN
  {
    ReceiptAmountReads();
    IntegralAmountReads();
    NegativeAmountReads();
    ExponentNotRead();
  }

  lemma ReceiptAmountReads()
    ensures ParseFloat("36.84") == Finite(36.84)
  {
    var s := "36.84";
    assert s[..2] == "36" && s[3..] == "84";
    assert DigitsValue("36") == 36 by { assert "36"[..1] == "3"; }
    assert DigitsValue("84") == 84 by { assert "84"[..1] == "8"; }
    FractionReads(s, 2);
  }

  lemma IntegralAmountReads()
    ensures ParseFloat("1500") == Finite(1500.0)
  {
    assert DigitsValue("1500") == 1500 by {
      assert "1500"[..3] == "150" && "150"[..2] == "15" && "15"[..1] == "1";
    }
    IntegerReads("1500");
  }

  lemma NegativeAmountReads()
    ensures ParseFloat("-2.5") == Finite(-2.5)
  {
    var t := "2.5";
    assert t[..1] == "2" && t[2..] == "5";
    FractionReads(t, 1);
    ParseFloatNegate(t);
    assert "-" + t == "-2.5";
  }

  lemma ExponentNotRead()
    ensures ParseFloat("1e3") == NaN
  {
    var s := "1e3";
    assert !AllDigits(s) by { assert !IsDigit(s[1]); }
    assert '.' !in s;
  }

  /** `parseFloat(s) || 0`: `NaN` (and zero) become 0. */
  function FloatOrZero(s: string): (r: real)
    ensures ParseFloat(s).NaN? ==> r == 0.0
    ensures ParseFloat(s).Finite? ==> r == ParseFloat(s).value
  {
    match ParseFloat(s)
    case Finite(v) => v
    case NaN => 0.0
  }
}
