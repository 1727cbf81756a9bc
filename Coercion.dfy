/** Numeric coercion of a text field (`_to_float`): the field is stripped of
    surrounding whitespace and read as a decimal number; text that is not a
    number reads as 0. The accepted numbers are an optional sign, digits, and
    an optional point followed by more digits, with at least one digit in all
    (`"5"`, `"-5"`, `"+5.25"`, `"5."`, `".5"`). */
module Coercion {
  import opened Text
  import opened Optional
  import opened Rounding

  predicate IsDigit(c: char) {
    '0' <= c <= '9'
  }

  predicate AllDigits(s: string) {
    forall i :: 0 <= i < |s| ==> IsDigit(s[i])
  }

  /** The characters a number can be written with. */
  predicate IsNumeralChar(c: char) {
    IsDigit(c) || c == '+' || c == '-' || c == '.'
  }

  /** The value of one decimal digit. */
  function DigitValue(c: char): int {
    (c as int) - ('0' as int)
  }

  /** The value of a string of decimal digits, leading zeros allowed. */
  function DigitsValue(s: string): nat
    requires AllDigits(s)
  {
    PrefixValue(s, |s|)
  }

  /** The value of the first `n` characters of `s`, read as decimal digits. */
  function PrefixValue(s: string, n: nat): (v: int)
    requires n <= |s|
    ensures (forall i :: 0 <= i < n ==> IsDigit(s[i])) ==> v >= 0
  {
    if n == 0 then 0 else 10 * PrefixValue(s, n - 1) + DigitValue(s[n - 1])
  }

  /** The length of the run of digits that `s` starts with. */
  function DigitRun(s: string): (n: nat)
    ensures n <= |s| && forall i :: 0 <= i < n ==> IsDigit(s[i])
    ensures n == |s| || !IsDigit(s[n])
  {
    if |s| > 0 && IsDigit(s[0]) then 1 + DigitRun(s[1..]) else 0
  }

  datatype Sign = NoSign | Plus | Minus

  /** A decimal literal as written: its sign, the digits before the point and,
      when there is a point, the digits after it. */
  datatype Literal = Literal(sign: Sign, whole: string, fraction: Option<string>)

  predicate WellFormed(l: Literal) {
    && AllDigits(l.whole)
    && (l.fraction.Some? ==> AllDigits(l.fraction.value))
    && (l.whole != [] || (l.fraction.Some? && l.fraction.value != []))
  }

  function SignText(sign: Sign): string {
    match sign
    case NoSign => ""
    case Plus => "+"
    case Minus => "-"
  }

  /** The text of the fractional part of a literal: nothing, or the point and
      the digits after it. */
  function FractionText(fraction: Option<string>): string {
    match fraction
    case None => ""
    case Some(f) => "." + f
  }

  /** The text of a literal. */
  function Render(l: Literal): string {
    SignText(l.sign) + l.whole + FractionText(l.fraction)
  }

  /** The exact number a literal denotes. */
  function Value(l: Literal): real
    requires WellFormed(l)
  {
    var magnitude := DigitsValue(l.whole) as real
      + (match l.fraction case None => 0.0 case Some(f) => Unshift(DigitsValue(f) as real, |f|));
    if l.sign == Minus then -magnitude else magnitude
  }

  /** Reads `s`, which must be a decimal literal and nothing else. Whatever it
      accepts is the text of a well-formed literal. */
  function Scan(s: string): (r: Option<Literal>)
    ensures r.Some? ==> WellFormed(r.value) && Render(r.value) == s
  {
    if |s| > 0 && s[0] == '+' then
      assert s == "+" + s[1..];
      ScanUnsigned(Plus, s[1..])
    else if |s| > 0 && s[0] == '-' then
      assert s == "-" + s[1..];
      ScanUnsigned(Minus, s[1..])
    else
      ScanUnsigned(NoSign, s)
  }

  /** Reads the part of a literal after its sign. */
  function ScanUnsigned(sign: Sign, body: string): (r: Option<Literal>)
    ensures r.Some? ==> WellFormed(r.value) && Render(r.value) == SignText(sign) + body
  {
    var n := DigitRun(body);
    var whole, rest := body[..n], body[n..];
    assert body == whole + rest;
    if rest == [] then
      if n > 0 then Some(Literal(sign, whole, None)) else None
    else if rest[0] == '.' && AllDigits(rest[1..]) && (n > 0 || |rest| > 1) then
      assert rest == "." + rest[1..];
      Some(Literal(sign, whole, Some(rest[1..])))
    else
      None
  }

  lemma {:induction false} DigitRunOf(w: string, t: string)
    requires AllDigits(w)
    requires t == [] || !IsDigit(t[0])
    ensures DigitRun(w + t) == |w|
  {
    if w != [] {
      assert (w + t)[1..] == w[1..] + t;
      DigitRunOf(w[1..], t);
    }
  }

  /** `Scan` reads back every literal it could have been given: together with
      the contract of `Scan`, a string is accepted exactly when it is the text
      of a well-formed literal. */
  lemma ScanRender(l: Literal)
    requires WellFormed(l)
    ensures Scan(Render(l)) == Some(l)
  {
    var body := l.whole + FractionText(l.fraction);
    var sign := SignText(l.sign);
    Assoc(sign, l.whole, FractionText(l.fraction));
    ScanBody(l);
    if l.sign == NoSign {
      assert Render(l) == body;
    } else {
      SplitConcat(sign, body);
    }
  }

  /** The part of a literal's text after its sign reads back as the literal. */
  lemma ScanBody(l: Literal)
    requires WellFormed(l)
    ensures var body := l.whole + FractionText(l.fraction);
      && |body| > 0 && (IsDigit(body[0]) || body[0] == '.')
      && ScanUnsigned(l.sign, body) == Some(l)
  {
    var tail := FractionText(l.fraction);
    var body := l.whole + tail;
    if l.whole != [] {
      assert body[0] == l.whole[0];
    }
    DigitRunOf(l.whole, tail);
    SplitConcat(l.whole, tail);
  }

  /** A literal's text is not empty and uses digits, signs and the point only. */
  lemma RenderNumeral(l: Literal)
    requires WellFormed(l)
    ensures |Render(l)| > 0
    ensures forall i :: 0 <= i < |Render(l)| ==> IsNumeralChar(Render(l)[i])
  {
    var tail := FractionText(l.fraction);
    assert Render(l) == SignText(l.sign) + l.whole + tail;
  }

  /** `_to_float`: never fails; text that does not read as a number gives 0.
      In particular an empty or whitespace-only field reads as 0, and only a
      field whose stripped text is made of digits, signs and the point can
      read as anything else. */
  function ToFloat(x: string): (r: real)
    ensures AllSpace(x) ==> r == 0.0
    ensures r != 0.0 ==> Trim(x) != [] && forall i :: 0 <= i < |Trim(x)| ==> IsNumeralChar(Trim(x)[i])
  {
    match Scan(Trim(x))
    case Some(l) => RenderNumeral(l); Value(l)
    case None => 0.0
  }

  /** A number written with any whitespace around it reads as its value. */
  lemma ToFloatLiteral(w1: string, l: Literal, w2: string)
    requires AllSpace(w1) && AllSpace(w2) && WellFormed(l)
    ensures ToFloat(w1 + Render(l) + w2) == Value(l)
  {
    var t := Render(l);
    RenderNumeral(l);
    assert IsNumeralChar(t[0]) && IsNumeralChar(t[|t| - 1]);
    TrimUnique(w1, t, w2);
    ScanRender(l);
  }

  /** A field holding any character that is neither whitespace nor part of a
      number in the grammar modelled here, which leaves out exponents, `inf`,
      `nan` and underscores, reads as 0. */
  lemma ToFloatForeign(x: string, i: int)
    requires 0 <= i < |x| && !IsSpace(x[i]) && !IsNumeralChar(x[i])
    ensures ToFloat(x) == 0.0
  {
    var lo, hi := TrimKeeps(x, i);
    var t := Trim(x);
    assert t[i - lo] == x[i];
    match Scan(t)
    case None =>
    case Some(l) =>
      RenderNumeral(l);
      assert false;
  }

  /** A run of digits, with any whitespace around it, reads as its value. */
  lemma ToFloatWhole(x: string, w1: string, digits: string, w2: string)
    requires AllSpace(w1) && AllSpace(w2) && AllDigits(digits) && digits != []
    requires x == w1 + digits + w2
    ensures ToFloat(x) == DigitsValue(digits) as real
  {
    var l := Literal(NoSign, digits, None);
    assert Render(l) == digits;
    ToFloatLiteral(w1, l, w2);
  }

  /** A minus sign before a run of digits negates its value. */
  lemma ToFloatNegative(x: string, digits: string)
    requires AllDigits(digits) && digits != []
    requires x == "-" + digits
    ensures ToFloat(x) == -(DigitsValue(digits) as real)
  {
    var l := Literal(Minus, digits, None);
    assert Render(l) == x;
    assert "" + x + "" == x;
    ToFloatLiteral("", l, "");
  }

  /** Digits, a point and more digits, with any whitespace around them, read
      as the whole part plus the fraction, exactly. */
  lemma ToFloatFraction(x: string, w1: string, whole: string, fraction: string, w2: string)
    requires AllSpace(w1) && AllSpace(w2) && AllDigits(whole) && AllDigits(fraction)
    requires whole != [] || fraction != []
    requires x == w1 + (whole + "." + fraction) + w2
    ensures ToFloat(x) == DigitsValue(whole) as real + Unshift(DigitsValue(fraction) as real, |fraction|)
  {
    var l := Literal(NoSign, whole, Some(fraction));
    FractionLiteral(whole, fraction);
    ToFloatLiteral(w1, l, w2);
  }

  lemma FractionLiteral(whole: string, fraction: string)
    requires AllDigits(whole) && AllDigits(fraction)
    requires whole != [] || fraction != []
    ensures var l := Literal(NoSign, whole, Some(fraction));
      && WellFormed(l) && Render(l) == whole + "." + fraction
      && Value(l) == DigitsValue(whole) as real + Unshift(DigitsValue(fraction) as real, |fraction|)
  {
    var l := Literal(NoSign, whole, Some(fraction));
    UnsignedText(whole, ".", fraction);
  }

  lemma UnsignedText(whole: string, point: string, fraction: string)
    ensures "" + whole + (point + fraction) == whole + point + fraction
  {
  }

  lemma DigitsValueExamples()
    ensures DigitsValue("0") == 0 && DigitsValue("25") == 25 && DigitsValue("250") == 250
  {
    assert PrefixValue("0", 1) == 0;
    assert PrefixValue("25", 2) == 25;
    assert PrefixValue("250", 3) == 250;
  }

  lemma PaddedText(x: string)
    requires x == " 250.0 "
    ensures ToFloat(x) == DigitsValue("250") as real + Unshift(DigitsValue("0") as real, 1)
  {
    assert x == " " + ("250" + "." + "0") + " ";
    ToFloatFraction(x, " ", "250", "0", " ");
  }

  /** Surrounding whitespace is ignored: `" 250.0 "` reads as 250. */
  lemma ToFloatPaddedExample(x: string)
    requires x == " 250.0 "
    ensures ToFloat(x) == 250.0
  {
    PaddedText(x);
    DigitsValueExamples();
    assert Unshift(0.0, 1) == 0.0;
  }

  lemma NegativeText(x: string)
    requires x == "-25"
    ensures ToFloat(x) == -(DigitsValue("25") as real)
  {
    assert x == "-" + "25";
    ToFloatNegative(x, "25");
  }

  /** A leading minus sign is read: `"-25"` reads as -25. */
  lemma ToFloatNegativeExample(x: string)
    requires x == "-25"
    ensures ToFloat(x) == -25.0
  {
    NegativeText(x);
    DigitsValueExamples();
  }
}
