/** Decimal digit strings and Python's `float()` on plain decimal notation
    (an optional sign, digits, and an optional point with digits after it). */
module Decimal {
  import opened Wrappers

  predicate IsDigit(c: char) {
    '0' <= c <= '9'
  }

  predicate AllDigits(s: string) {
    forall i :: 0 <= i < |s| ==> IsDigit(s[i])
  }

  function DigitValue(c: char): nat
    requires IsDigit(c)
  {
    c as int - '0' as int
  }

  /** The number a string of decimal digits denotes (0 for the empty string). */
  function DigitsValue(ds: string): nat
    requires AllDigits(ds)
    decreases |ds|
  {
    if ds == [] then 0 else 10 * DigitsValue(ds[..|ds| - 1]) + DigitValue(ds[|ds| - 1])
  }

  function Pow10(n: nat): (p: nat)
    ensures p >= 1
  {
    if n == 0 then 1 else 10 * Pow10(n - 1)
  }

  datatype Sign = Unsigned | Plus | Minus

  function SignText(sign: Sign): string {
    match sign
    case Unsigned => ""
    case Plus => "+"
    case Minus => "-"
  }

  /** A decimal literal: its sign, the digits before the point, and, when a
      point is written, the digits after it. */
  datatype Literal = Literal(sign: Sign, whole: string, frac: Option<string>)

  /** Digits only, and at least one digit on one side of the point. */
  predicate WellFormed(l: Literal) {
    && AllDigits(l.whole)
    && (l.frac.Some? ==> AllDigits(l.frac.value))
    && (l.whole != [] || (l.frac.Some? && l.frac.value != []))
  }

  /** The text of a literal. */
  function Render(l: Literal): string {
    SignText(l.sign) + (l.whole + FracText(l.frac))
  }

  /** The point and the digits after it, when a point is written. */
  function FracText(frac: Option<string>): string {
    match frac
    case None => ""
    case Some(f) => "." + f
  }

  lemma RenderNonEmpty(l: Literal)
    requires WellFormed(l)
    ensures |Render(l)| > 0
  {
    if l.whole == [] {
      assert |FracText(l.frac)| > 0;
    }
  }

  /** True when digits follow the point. */
  predicate HasFraction(l: Literal) {
    l.frac.Some? && l.frac.value != []
  }

  function Magnitude(l: Literal): real
    requires WellFormed(l)
  {
    DigitsValue(l.whole) as real
    + match l.frac
      case None => 0.0
      case Some(f) => DigitsValue(f) as real / Pow10(|f|) as real
  }

  /** The exact value of a literal (binary floating-point rounding is not modelled). */
  function Value(l: Literal): real
    requires WellFormed(l)
  {
    if l.sign == Minus then -Magnitude(l) else Magnitude(l)
  }

  /** Index of the first '.' in `s`. */
  function IndexOfDot(s: string): (r: Option<nat>)
    ensures r.Some? ==> r.value < |s| && s[r.value] == '.'
    ensures r.Some? ==> forall j :: 0 <= j < r.value ==> s[j] != '.'
    ensures r.None? ==> forall j :: 0 <= j < |s| ==> s[j] != '.'
  {
    if s == [] then None
    else if s[0] == '.' then Some(0)
    else match IndexOfDot(s[1..])
      case None => None
      case Some(d) => Some(d + 1)
  }

  /** Splits an unsigned body at its first point into whole part and fraction. */
  function ParseBody(sign: Sign, body: string): (r: Option<Literal>)
    ensures r.Some? ==> WellFormed(r.value) && r.value.sign == sign
    ensures r.Some? ==> r.value.whole + FracText(r.value.frac) == body
  {
    var l := match IndexOfDot(body)
      case None => Literal(sign, body, None)
      case Some(d) => Literal(sign, body[..d], Some(body[d + 1..]));
    if WellFormed(l) then
      assert IndexOfDot(body).Some? ==> body == body[..IndexOfDot(body).value] + "." + body[IndexOfDot(body).value + 1..];
      Some(l)
    else None
  }

  /** Reads `s` as a literal: a leading sign, then everything up to the first
      point as the whole part and everything after it as the fraction. */
  function Decompose(s: string): (r: Option<Literal>)
    ensures r.Some? ==> WellFormed(r.value) && Render(r.value) == s
  {
    var sign := if |s| > 0 && s[0] == '+' then Plus else if |s| > 0 && s[0] == '-' then Minus else Unsigned;
    var body := if sign == Unsigned then s else s[1..];
    assert s == SignText(sign) + body;
    ParseBody(sign, body)
  }

  /** `float(s)` for plain decimal notation; None where Python raises ValueError. */
  function ParseFloat(s: string): (r: Option<real>)
    ensures r.Some? ==> exists l :: WellFormed(l) && Render(l) == s && r.value == Value(l)
  {
    match Decompose(s)
    case None => None
    case Some(l) => Some(Value(l))
  }

  /** The first point of a whole part followed by a fraction is the one
      that starts the fraction. */
  lemma ParseBodyOfParts(l: Literal)
    requires WellFormed(l)
    ensures ParseBody(l.sign, l.whole + FracText(l.frac)) == Some(l)
  {
    var body := l.whole + FracText(l.frac);
    match l.frac {
      case None =>
        assert body == l.whole;
      case Some(f) =>
        assert body[|l.whole|] == '.';
        assert forall j :: 0 <= j < |l.whole| ==> body[j] == l.whole[j];
        assert IndexOfDot(body) == Some(|l.whole|);
        assert body[..|l.whole|] == l.whole;
        assert body[|l.whole| + 1..] == f;
    }
  }

  /** Decompose inverts Render: every well-formed literal is read back as itself. */
  lemma DecomposeRender(l: Literal)
    requires WellFormed(l)
    ensures Decompose(Render(l)) == Some(l)
  {
    var body := l.whole + FracText(l.frac);
    var s := Render(l);
    assert |body| > 0 && !(body[0] == '+' || body[0] == '-') by {
      if l.whole != [] {
        assert body[0] == l.whole[0];
      } else {
        assert body[0] == '.';
      }
    }
    if l.sign == Unsigned {
      assert s == body;
    } else {
      assert s[1..] == body;
    }
    ParseBodyOfParts(l);
  }

  /** `float()` accepts exactly the renderings of well-formed literals and
      returns their values. */
  lemma ParseFloatOfLiteral(l: Literal)
    requires WellFormed(l)
    ensures ParseFloat(Render(l)) == Some(Value(l))
  {
    DecomposeRender(l);
  }
}
