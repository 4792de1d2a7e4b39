/**
 * The amount the add flow reads: Double.parseDouble on the trimmed input
 * line, then the check that the amount is positive.
 */
module Amounts {
  import opened Wrappers
  import opened Text

  /** A Java double, with its value as an exact real. */
  datatype JavaDouble = Finite(value: real) | NaN | Infinity(negative: bool)

  /** Position of the first '.' in t, or |t| when there is none. */
  function DotIndex(t: string): (k: nat)
    ensures k <= |t| && (k < |t| ==> t[k] == '.')
    ensures forall i :: 0 <= i < k ==> t[i] != '.'
  {
    if t == [] || t[0] == '.' then 0 else 1 + DotIndex(t[1..])
  }

  /**
   * An unsigned decimal literal: digits, optionally a point and more digits,
   * with at least one digit in all ("5", "5.", ".5", "12.50").
   */
  function ParseUnsignedDecimal(t: string): (r: Option<real>)
    ensures r.Some? ==> r.value >= 0.0
  {
    var k := DotIndex(t);
    var whole := t[..k];
    var fraction := if k < |t| then t[k + 1..] else [];
    if AllDigits(whole) && AllDigits(fraction) && |whole| + |fraction| > 0 then
      Some(DigitsValue(whole) as real + DigitsValue(fraction) as real / Pow10(|fraction|) as real)
    else None
  }

  /**
   * Double.parseDouble: the trimmed text with an optional sign, then "NaN",
   * "Infinity" or a decimal literal. None stands for NumberFormatException.
   */
  function ParseDouble(s: string): (r: Option<JavaDouble>)
    ensures r.Some? ==> Trim(s) != []
    ensures r.Some? && r.value.Finite? && r.value.value < 0.0 ==> Trim(s)[0] == '-'
  {
    ParseLiteral(Trim(s))
  }

  /** Double.parseDouble on text without surrounding whitespace. */
  function ParseLiteral(t: string): (r: Option<JavaDouble>)
    ensures r.Some? ==> t != []
    ensures r.Some? && r.value.Finite? && r.value.value < 0.0 ==> t[0] == '-'
  {
    if t != [] && (t[0] == '-' || t[0] == '+') then ParseUnsigned(t[0] == '-', t[1..])
    else ParseUnsigned(false, t)
  }

  /**
   * What follows the sign: text starting with 'N' must be "NaN", text
   * starting with 'I' must be "Infinity", anything else a decimal literal.
   */
  function ParseUnsigned(negative: bool, body: string): (r: Option<JavaDouble>)
  {
    if body != [] && body[0] == 'N' then (if body == "NaN" then Some(NaN) else None)
    else if body != [] && body[0] == 'I' then (if body == "Infinity" then Some(Infinity(negative)) else None)
    else match ParseUnsignedDecimal(body)
      case Some(v) => Some(Finite(if negative then -v else v))
      case None => None
  }

  lemma ParseUnpadded(s: string)
    requires IsTrimmed(s)
    ensures ParseDouble(s) == ParseLiteral(s)
  {
    TrimUnpadded(s);
  }

  /** A run of digits has no point in it. */
  lemma {:induction false} DotIndexOfDigits(s: string)
    requires AllDigits(s)
    ensures DotIndex(s) == |s|
  {
    if s != [] {
      DotIndexOfDigits(s[1..]);
    }
  }

  /** A run of digits is an unsigned decimal literal without a fraction. */
  lemma DecimalOfDigits(s: string)
    requires s != [] && AllDigits(s)
    ensures ParseUnsignedDecimal(s) == Some(DigitsValue(s) as real)
  {
    DotIndexOfDigits(s);
    assert s[..|s|] == s;
    assert DigitsValue([]) as real / Pow10(0) as real == 0.0;
  }

  lemma LiteralDigits(n: nat, width: nat)
    requires 0 < width && n < Pow10(width)
    ensures ParseLiteral(PadDigits(n, width)) == Some(Finite(n as real))
  {
    var s := PadDigits(n, width);
    assert IsDigit(s[0]);
    DecimalOfDigits(s);
    PadDigitsRoundTrip(n, width);
  }

  /** A run of digits reads as the number it denotes. */
  lemma ParseDigits(n: nat, width: nat)
    requires 0 < width && n < Pow10(width)
    ensures ParseDouble(PadDigits(n, width)) == Some(Finite(n as real))
  {
    ParseUnpadded(PadDigits(n, width));
    LiteralDigits(n, width);
  }

  /**
   * A leading minus sign negates the number read, turns Infinity into
   * -Infinity and leaves NaN as it is; text that does not parse still does
   * not. The text after the minus sign carries no sign of its own.
   */
  lemma LiteralNegated(t: string)
    requires t == [] || (t[0] != '-' && t[0] != '+')
    ensures ParseLiteral("-" + t) == match ParseLiteral(t)
      case Some(Finite(v)) => Some(Finite(-v))
      case Some(Infinity(_)) => Some(Infinity(true))
      case other => other
  {
    assert ("-" + t)[1..] == t;
  }

  /** The same for Double.parseDouble on a line without surrounding whitespace. */
  lemma ParseNegated(t: string)
    requires t != [] && t[0] != '-' && t[0] != '+' && IsTrimmed(t)
    ensures ParseDouble("-" + t) == match ParseDouble(t)
      case Some(Finite(v)) => Some(Finite(-v))
      case Some(Infinity(_)) => Some(Infinity(true))
      case other => other
  {
    var m := "-" + t;
    assert m[0] == '-' && m[|m| - 1] == t[|t| - 1];
    ParseUnpadded(t);
    ParseUnpadded(m);
    LiteralNegated(t);
  }

  datatype AmountError =
    | NotANumber   // "Invalid amount! Please enter a number."
    | NotPositive  // "Amount must be positive!"

  /** Java's `amount <= 0` on a double: false for NaN. */
  predicate AtMostZero(d: JavaDouble) {
    match d
    case Finite(v) => v <= 0.0
    case NaN => false
    case Infinity(negative) => negative
  }

  /**
   * The add flow's amount check as written: reject what does not parse and
   * what compares `<= 0`, accept everything else.
   */
  function AmountGateAsWritten(parsed: Option<JavaDouble>): (r: Result<JavaDouble, AmountError>)
    ensures r.Success? <==> parsed.Some? && !AtMostZero(parsed.value)
  {
    match parsed
    case None => Failure(NotANumber)
    case Some(d) => if AtMostZero(d) then Failure(NotPositive) else Success(d)
  }

  /**
   * As written, the check lets "NaN" and "Infinity" through: neither
   * compares `<= 0`, so an expense with no meaningful amount is recorded.
   */
  lemma AsWrittenAdmitsNaN()
    ensures ParseDouble("NaN") == Some(NaN) && AmountGateAsWritten(ParseDouble("NaN")) == Success(NaN)
    ensures ParseDouble("Infinity") == Some(Infinity(false))
    ensures AmountGateAsWritten(ParseDouble("Infinity")) == Success(Infinity(false))
  {
    ParseUnpadded("NaN");
    ParseUnpadded("Infinity");
  }

  /**
   * The amount check the add flow evidently intends: a positive, finite
   * number. NaN and +Infinity are refused as not a number, -Infinity as
   * not positive.
   */
  function AmountGate(parsed: Option<JavaDouble>): (r: Result<real, AmountError>)
    ensures r.Success? <==> parsed.Some? && parsed.value.Finite? && parsed.value.value > 0.0
    ensures r.Success? ==> r.value > 0.0 && parsed == Some(Finite(r.value))
  {
    match parsed
    case None => Failure(NotANumber)
    case Some(NaN) => Failure(NotANumber)
    case Some(Infinity(negative)) => if negative then Failure(NotPositive) else Failure(NotANumber)
    case Some(Finite(v)) => if v <= 0.0 then Failure(NotPositive) else Success(v)
  }

  /** The intended check differs from the written one on NaN and +Infinity only. */
  lemma AmountGateAgreesElsewhere(parsed: Option<JavaDouble>)
    requires parsed != Some(NaN) && parsed != Some(Infinity(false))
    ensures AmountGate(parsed).Success? <==> AmountGateAsWritten(parsed).Success?
    ensures AmountGate(parsed).Success? ==> AmountGateAsWritten(parsed).value == Finite(AmountGate(parsed).value)
    ensures AmountGate(parsed).Failure? ==> AmountGate(parsed).error == AmountGateAsWritten(parsed).error
  {
  }

  lemma AmountGateRejectsNaN()
    ensures AmountGate(Some(NaN)) == Failure(NotANumber)
    ensures AmountGate(Some(Infinity(false))) == Failure(NotANumber)
  {
  }

  lemma LiteralScenarioAmounts()
    ensures ParseLiteral("12.50") == Some(Finite(12.5))
    ensures ParseLiteral("7.00") == Some(Finite(7.0))
  {
    assert DotIndex("12.50") == 2;
    assert DotIndex("7.00") == 1;
    assert "12.50"[..2] == "12" && "12.50"[3..] == "50";
    assert "7.00"[..1] == "7" && "7.00"[2..] == "00";
    assert DigitsValue("12") == 12 && DigitsValue("50") == 50 && DigitsValue("00") == 0;
    assert Pow10(2) == 100;
  }

  /** The amounts of a lunch and a bus fare. */
  lemma ParseScenarioAmounts()
    ensures ParseDouble("12.50") == Some(Finite(12.5))
    ensures ParseDouble("7.00") == Some(Finite(7.0))
  {
    ParseUnpadded("12.50");
    ParseUnpadded("7.00");
    LiteralScenarioAmounts();
  }

  lemma LiteralRejectedAmounts()
    ensures ParseLiteral("-3") == Some(Finite(-3.0))
    ensures ParseLiteral("abc") == None
  {
    assert "-3"[1..] == "3";
    assert DotIndex("abc") == 3;
    assert !IsDigit("abc"[0]);
  }

  /** A negative amount parses (and is then refused as not positive); letters do not parse. */
  lemma ParseRejectedAmounts()
    ensures ParseDouble("-3") == Some(Finite(-3.0))
    ensures AmountGate(ParseDouble("-3")) == Failure(NotPositive)
    ensures ParseDouble("abc") == None
    ensures AmountGate(ParseDouble("abc")) == Failure(NotANumber)
  {
    ParseUnpadded("-3");
    ParseUnpadded("abc");
    LiteralRejectedAmounts();
  }
}
