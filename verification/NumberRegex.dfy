/** `re.findall(r"[-+]?\d*\.\d+|\d+", s)` followed by `map(float, ...)`,
    the number lexer of extract_path_scans.py, written as a scanner over
    characters. The first alternative is a signed decimal with digits after
    the point; the second an unsigned run of digits. At each position the
    first alternative is tried before the second, a match resumes the scan
    after its last character, and a failed position is skipped. */
module NumberRegex {
  import opened Wrappers
  import opened Decimal

  /** Number of consecutive digits starting at index `p`. */
  function DigitRun(s: string, p: nat): (n: nat)
    requires p <= |s|
    ensures p + n <= |s|
    ensures forall i :: p <= i < p + n ==> IsDigit(s[i])
    ensures p + n < |s| ==> !IsDigit(s[p + n])
    decreases |s| - p
  {
    if p < |s| && IsDigit(s[p]) then 1 + DigitRun(s, p + 1) else 0
  }

  /** A digit block that ends at the end of `s` or before a non-digit is the run. */
  lemma DigitRunIs(s: string, p: nat, n: nat)
    requires p + n <= |s|
    requires forall i :: p <= i < p + n ==> IsDigit(s[i])
    requires p + n < |s| ==> !IsDigit(s[p + n])
    ensures DigitRun(s, p) == n
  {
  }

  /** The sign character at `p`, if there is one. */
  function SignAt(s: string, p: nat): Sign
    requires p <= |s|
  {
    if p < |s| && s[p] == '+' then Plus
    else if p < |s| && s[p] == '-' then Minus
    else Unsigned
  }

  /** The sign character at `p` is the text of that sign. */
  lemma SignTextAt(s: string, p: nat)
    requires p <= |s|
    ensures p + |SignText(SignAt(s, p))| <= |s|
    ensures s[p..p + |SignText(SignAt(s, p))|] == SignText(SignAt(s, p))
  {
  }

  /** A text cut at a point is its three pieces around the point. */
  lemma SplitAtDot(s: string, p: nat, q: nat, dot: nat, end: nat)
    requires p <= q <= dot < end <= |s| && s[dot] == '.'
    ensures s[p..end] == s[p..q] + (s[q..dot] + ("." + s[dot + 1..end]))
  {
    assert s[dot..end] == "." + s[dot + 1..end];
    assert s[q..end] == s[q..dot] + s[dot..end];
    assert s[p..end] == s[p..q] + s[q..end];
  }

  /** The first alternative `[-+]?\d*\.\d+` at `p`: an optional sign, the
      longest digit run, a point, and a non-empty longest digit run. */
  function SignedDecimalAt(s: string, p: nat): (m: Option<Literal>)
    requires p <= |s|
    ensures m.Some? ==> HasFraction(m.value)
  {
    var sign := SignAt(s, p);
    var q := p + |SignText(sign)|;
    var dot := q + DigitRun(s, q);
    if dot < |s| && s[dot] == '.' && DigitRun(s, dot + 1) > 0 then
      Some(Literal(sign, s[q..dot], Some(s[dot + 1..dot + 1 + DigitRun(s, dot + 1)])))
    else None
  }

  /** What the first alternative matches is a well-formed literal inside the text. */
  lemma SignedDecimalFits(s: string, p: nat)
    requires p <= |s| && SignedDecimalAt(s, p).Some?
    ensures var l := SignedDecimalAt(s, p).value; WellFormed(l) && p + |Render(l)| <= |s|
  {
    SignTextAt(s, p);
  }

  /** The second alternative `\d+` at `p`: the longest digit run. */
  function IntegerAt(s: string, p: nat): (m: Option<Literal>)
    requires p <= |s|
    ensures m.Some? ==> WellFormed(m.value) && !HasFraction(m.value) && m.value.sign == Unsigned
    ensures m.Some? ==> p + |Render(m.value)| <= |s|
  {
    var n := DigitRun(s, p);
    if n > 0 then Some(Literal(Unsigned, s[p..p + n], None)) else None
  }

  /** The pattern at `p`: the first alternative, else the second. */
  function MatchAt(s: string, p: nat): (m: Option<Literal>)
    requires p <= |s|
    ensures m.Some? ==> WellFormed(m.value) && |Render(m.value)| > 0 && p + |Render(m.value)| <= |s|
  {
    match SignedDecimalAt(s, p)
    case Some(l) => SignedDecimalFits(s, p); Some(l)
    case None => IntegerAt(s, p)
  }

  /** A match is the text it stands at: the characters from `p` on spell
      the rendering of the matched literal. */
  lemma MatchIsText(s: string, p: nat)
    requires p <= |s| && MatchAt(s, p).Some?
    ensures var l := MatchAt(s, p).value; s[p..p + |Render(l)|] == Render(l)
  {
    if SignedDecimalAt(s, p).Some? {
      SignedDecimalText(s, p);
    } else {
      IntegerText(s, p);
    }
  }

  lemma SignedDecimalText(s: string, p: nat)
    requires p <= |s| && SignedDecimalAt(s, p).Some?
    ensures var l := SignedDecimalAt(s, p).value; s[p..p + |Render(l)|] == Render(l)
  {
    var sign := SignAt(s, p);
    var q := p + |SignText(sign)|;
    var dot := q + DigitRun(s, q);
    var end := dot + 1 + DigitRun(s, dot + 1);
    var l := Literal(sign, s[q..dot], Some(s[dot + 1..end]));
    assert SignedDecimalAt(s, p) == Some(l);
    assert Render(l) == SignText(sign) + (s[q..dot] + ("." + s[dot + 1..end]));
    SignTextAt(s, p);
    SplitAtDot(s, p, q, dot, end);
  }

  lemma IntegerText(s: string, p: nat)
    requires p <= |s| && IntegerAt(s, p).Some?
    ensures var l := IntegerAt(s, p).value; s[p..p + |Render(l)|] == Render(l)
  {
    var l := IntegerAt(s, p).value;
    assert Render(l) == l.whole;
  }

  /** The matches from index `p` on, left to right: a match resumes the scan
      after its last character, a failed position is skipped. */
  function MatchesFrom(s: string, p: nat): (ms: seq<Literal>)
    requires p <= |s|
    ensures forall k :: 0 <= k < |ms| ==> WellFormed(ms[k])
    decreases |s| - p
  {
    if p == |s| then []
    else match MatchAt(s, p)
      case None => MatchesFrom(s, p + 1)
      case Some(l) => [l] + MatchesFrom(s, p + |Render(l)|)
  }

  function Matches(s: string): seq<Literal> {
    MatchesFrom(s, 0)
  }

  /** `re.findall(pattern, s)`: the matched texts. */
  function FindAll(s: string): (ts: seq<string>)
    ensures |ts| == |Matches(s)|
  {
    var ms := Matches(s);
    seq(|ms|, k requires 0 <= k < |ms| => Render(ms[k]))
  }

  /** The values of the matches. */
  function Numbers(s: string): (r: seq<real>)
    ensures |r| == |Matches(s)|
  {
    var ms := Matches(s);
    seq(|ms|, k requires 0 <= k < |ms| => Value(ms[k]))
  }

  /** `list(map(float, re.findall(pattern, s)))` is `Numbers(s)`: `float()`
      accepts every matched text and returns the value of its match. */
  lemma NumbersAreFloats(s: string)
    ensures |FindAll(s)| == |Numbers(s)|
    ensures forall k :: 0 <= k < |FindAll(s)| ==> ParseFloat(FindAll(s)[k]) == Some(Numbers(s)[k])
  {
    var ms := Matches(s);
    forall k | 0 <= k < |ms|
      ensures ParseFloat(FindAll(s)[k]) == Some(Numbers(s)[k])
    {
      ParseFloatOfLiteral(ms[k]);
    }
  }

  /** Where the parts of a rendered literal sit in its text. */
  lemma RenderLayout(l: Literal)
    requires WellFormed(l)
    ensures var s, q, w := Render(l), |SignText(l.sign)|, |l.whole|;
      && q + w <= |s|
      && SignAt(s, 0) == l.sign
      && (forall i :: q <= i < q + w ==> IsDigit(s[i]))
      && s[q..q + w] == l.whole
      && (l.frac.None? ==> q + w == |s|)
      && (l.frac.Some? ==> q + w < |s| && s[q + w] == '.' && s[q + w + 1..] == l.frac.value)
  {
    var s, q, w := Render(l), |SignText(l.sign)|, |l.whole|;
    assert s == SignText(l.sign) + (l.whole + FracText(l.frac));
    assert s[q..q + w] == l.whole;
    assert forall i :: q <= i < q + w ==> s[i] == l.whole[i - q];
    RenderNonEmpty(l);
    if l.sign == Unsigned {
      if w > 0 {
        assert s[0] == l.whole[0];
      } else {
        assert s[0] == '.';
      }
    }
    if l.frac.Some? {
      assert s[q + w..] == "." + l.frac.value;
    }
  }

  /** A literal with digits after its point is one match of the first
      alternative, covering the whole text. */
  lemma FractionLexes(l: Literal)
    requires WellFormed(l) && HasFraction(l)
    ensures Matches(Render(l)) == [l]
  {
    var s := Render(l);
    FractionMatchesWhole(l);
    assert MatchAt(s, 0) == Some(l);
    assert MatchesFrom(s, 0) == [l] + MatchesFrom(s, |s|);
  }

  /** The first alternative, tried at the start of such a literal, takes
      all of it. */
  lemma FractionMatchesWhole(l: Literal)
    requires WellFormed(l) && HasFraction(l)
    ensures SignedDecimalAt(Render(l), 0) == Some(l)
  {
    var s, q, w := Render(l), |SignText(l.sign)|, |l.whole|;
    var f, d := l.frac.value, q + w + 1;
    RenderLayout(l);
    DigitRunIs(s, q, w);
    assert |s| == d + |f|;
    forall i | d <= i < |s|
      ensures IsDigit(s[i])
    {
      assert s[i] == s[d..][i - d] == f[i - d];
    }
    DigitRunIs(s, d, |f|);
    SignedDecimalAtIs(s, 0, q, q + w);
  }

  /** The first alternative at `p` when a sign (or none), a digit run, a
      point and a digit run that ends the text follow each other. */
  lemma SignedDecimalAtIs(s: string, p: nat, q: nat, dot: nat)
    requires p <= q <= dot < |s|
    requires q == p + |SignText(SignAt(s, p))|
    requires DigitRun(s, q) == dot - q && s[dot] == '.'
    requires DigitRun(s, dot + 1) == |s| - dot - 1 > 0
    ensures SignedDecimalAt(s, p) == Some(Literal(SignAt(s, p), s[q..dot], Some(s[dot + 1..])))
  {
    var sign := SignAt(s, p);
    var end := dot + 1 + DigitRun(s, dot + 1);
    assert end == |s|;
    assert s[dot + 1..end] == s[dot + 1..];
    assert SignedDecimalAt(s, p) == Some(Literal(sign, s[q..dot], Some(s[dot + 1..end])));
  }

  /** A literal without digits after its point: the sign (if any) matches
      nothing, the whole part matches the second alternative, and a trailing
      point matches nothing. */
  lemma WholeLexes(l: Literal)
    requires WellFormed(l) && !HasFraction(l)
    ensures Matches(Render(l)) == [Literal(Unsigned, l.whole, None)]
  {
    WholeSkipsSign(l);
    WholeDigitsMatch(l);
    WholeSkipsPoint(l);
  }

  /** A sign with no digits after a point matches nothing. */
  lemma WholeSkipsSign(l: Literal)
    requires WellFormed(l) && !HasFraction(l)
    ensures MatchesFrom(Render(l), 0) == MatchesFrom(Render(l), |SignText(l.sign)|)
  {
    var s, q, w := Render(l), |SignText(l.sign)|, |l.whole|;
    if q == 1 {
      RenderLayout(l);
      DigitRunIs(s, q, w);
      DigitRunIs(s, 0, 0);
      if l.frac.Some? {
        DigitRunIs(s, q + w + 1, 0);
      }
      assert SignedDecimalAt(s, 0) == None;
      assert MatchAt(s, 0) == None;
    }
  }

  /** The whole part matches the second alternative. */
  lemma WholeDigitsMatch(l: Literal)
    requires WellFormed(l) && !HasFraction(l)
    ensures var s, q, w := Render(l), |SignText(l.sign)|, |l.whole|;
      q + w <= |s| && MatchesFrom(s, q) == [Literal(Unsigned, l.whole, None)] + MatchesFrom(s, q + w)
  {
    var s, q, w := Render(l), |SignText(l.sign)|, |l.whole|;
    RenderLayout(l);
    DigitRunIs(s, q, w);
    assert w > 0;
    assert SignAt(s, q) == Unsigned;
    if l.frac.Some? {
      DigitRunIs(s, q + w + 1, 0);
    }
    assert SignedDecimalAt(s, q) == None;
    var whole := Literal(Unsigned, l.whole, None);
    assert Render(whole) == l.whole;
    assert IntegerAt(s, q) == Some(whole);
  }

  /** A trailing point matches nothing. */
  lemma WholeSkipsPoint(l: Literal)
    requires WellFormed(l) && !HasFraction(l)
    ensures var s, q, w := Render(l), |SignText(l.sign)|, |l.whole|;
      q + w <= |s| && MatchesFrom(s, q + w) == []
  {
    var s, q, w := Render(l), |SignText(l.sign)|, |l.whole|;
    RenderLayout(l);
    if l.frac.Some? {
      DigitRunIs(s, q + w, 0);
      DigitRunIs(s, q + w + 1, 0);
      assert MatchAt(s, q + w) == None;
      assert MatchesFrom(s, q + w) == MatchesFrom(s, q + w + 1);
    }
  }

  /** A literal on its own lexes as exactly one number: its `float()` value
      when digits follow the point, and otherwise the value of its digits with
      the sign dropped, because the integer alternative has no sign. */
  lemma LiteralNumbers(l: Literal)
    requires WellFormed(l)
    ensures Numbers(Render(l)) == [if HasFraction(l) then Value(l) else DigitsValue(l.whole) as real]
  {
    if HasFraction(l) {
      FractionLexes(l);
    } else {
      WholeLexes(l);
    }
  }

  /** `-5` lexes as 5: a negative integer loses its sign, because the
      integer alternative has none. */
  lemma NegativeIntegerLosesSign(ds: string)
    requires ds != [] && AllDigits(ds)
    ensures Numbers("-" + ds) == [DigitsValue(ds) as real]
  {
    var l := Literal(Minus, ds, None);
    assert Render(l) == "-" + ds;
    LiteralNumbers(l);
  }

  /** `float("-5")` is -5, so the lexer and `float()` disagree on a negative
      integer. */
  lemma NegativeIntegerParses(ds: string)
    requires ds != [] && AllDigits(ds)
    ensures ParseFloat("-" + ds) == Some(-(DigitsValue(ds) as real))
  {
    var l := Literal(Minus, ds, None);
    assert Render(l) == "-" + ds;
    ParseFloatOfLiteral(l);
  }
}
