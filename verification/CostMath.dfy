/** Integer money arithmetic in micro-cents: decimal parsing, summing and drift. */
module CostMath {
  import opened Prelude
  import opened Decimal

  const MICRO_CENTS_PER_CENT := 10000
  const MAX_SAFE_INTEGER := 9007199254740991

  datatype CostError = NotDecimal | NotSafe

  predicate IsSafe(v: int) {
    -MAX_SAFE_INTEGER <= v <= MAX_SAFE_INTEGER
  }

  // ---------------------------------------------------------------------------------------------
  // The grammar
  // ---------------------------------------------------------------------------------------------

  /** A decimal numeral: sign, integer digits, fraction digits (possibly none). */
  datatype Numeral = Numeral(negative: bool, whole: string, fraction: string)

  predicate IsNumeral(n: Numeral) {
    n.whole != "" && AllDigits(n.whole) && AllDigits(n.fraction)
  }

  function Unsigned(n: Numeral): string {
    n.whole + (if n.fraction == "" then "" else "." + n.fraction)
  }

  /** The texts that stand for `n`. */
  predicate Spells(s: string, n: Numeral) {
    IsNumeral(n) && (if n.negative then s == "-" + Unsigned(n) else s == Unsigned(n) || s == "+" + Unsigned(n))
  }

  function DigitRun(s: string): (k: nat)
    ensures k <= |s| && AllDigits(s[..k]) && (k < |s| ==> !IsDigit(s[k]))
  {
    if s == "" || !IsDigit(s[0]) then 0 else 1 + DigitRun(s[1..])
  }

  /** The match of the decimal pattern against the whole text. */
  function Match(s: string): Option<Numeral> {
    MatchBody(s != "" && s[0] == '-', Body(s))
  }

  lemma {:induction false} DigitRunIs(a: string, b: string)
    requires AllDigits(a) && (b == "" || !IsDigit(b[0]))
    ensures DigitRun(a + b) == |a|
  {
    if a == "" {
      assert a + b == b;
    } else {
      assert (a + b)[1..] == a[1..] + b;
      DigitRunIs(a[1..], b);
    }
  }

  lemma MatchUnsigned(n: Numeral)
    requires IsNumeral(n)
    ensures var body := Unsigned(n);
      && body != "" && IsDigit(body[0])
      && DigitRun(body) == |n.whole|
      && (n.fraction != "" ==> body[|n.whole|] == '.' && body[|n.whole| + 1..] == n.fraction && DigitRun(n.fraction) == |n.fraction|)
      && body[..|n.whole|] == n.whole
  {
    DigitRunIs(n.whole, if n.fraction == "" then "" else "." + n.fraction);
    DigitRunIs(n.fraction, "");
    assert n.fraction + "" == n.fraction;
  }

  function Body(s: string): string {
    if s != "" && s[0] in {'-', '+'} then s[1..] else s
  }

  function MatchBody(negative: bool, body: string): Option<Numeral> {
    var k := DigitRun(body);
    if k == 0 then None
    else if k == |body| then Some(Numeral(negative, body, ""))
    else if body[k] == '.' && |body| > k + 1 && DigitRun(body[k + 1..]) == |body| - k - 1
    then Some(Numeral(negative, body[..k], body[k + 1..]))
    else None
  }

  lemma MatchBodyOfUnsigned(n: Numeral)
    requires IsNumeral(n)
    ensures MatchBody(n.negative, Unsigned(n)) == Some(n)
  {
    MatchUnsigned(n);
    assert n.fraction == "" ==> Unsigned(n) == n.whole && n == Numeral(n.negative, n.whole, "");
    assert n.fraction != "" ==> |Unsigned(n)| == |n.whole| + 1 + |n.fraction|;
  }

  lemma MatchBodySpells(negative: bool, body: string, n: Numeral)
    requires MatchBody(negative, body) == Some(n)
    ensures IsNumeral(n) && n.negative == negative && body == Unsigned(n)
  {
    var k := DigitRun(body);
    if k < |body| {
      var rest := body[k + 1..];
      assert rest[..DigitRun(rest)] == rest;
      assert body == body[..k] + [body[k]] + rest;
    } else {
      assert body[..k] == body;
    }
  }

  lemma SpellingMatches(s: string, n: Numeral)
    requires Spells(s, n)
    ensures Match(s) == Some(n)
  {
    MatchUnsigned(n);
    MatchBodyOfUnsigned(n);
    hide DigitRun, MatchBody, IsNumeral, AllDigits, Unsigned;
    var body := Unsigned(n);
    assert s == body || s[1..] == body;
    assert Body(s) == body;
  }

  lemma MatchSpells(s: string, n: Numeral)
    requires Match(s) == Some(n)
    ensures Spells(s, n)
  {
    hide DigitRun;
    MatchBodySpells(s != "" && s[0] == '-', Body(s), n);
    assert s != "" && s[0] in {'-', '+'} ==> s == [s[0]] + Body(s);
  }

  /** The pattern matches exactly the spellings of numerals, and yields the numeral spelled. */
  lemma MatchIffSpells(s: string, n: Numeral)
    ensures Match(s) == Some(n) <==> Spells(s, n)
  {
    if Match(s) == Some(n) { MatchSpells(s, n); }
    if Spells(s, n) { SpellingMatches(s, n); }
  }

  // ---------------------------------------------------------------------------------------------
  // Exact rounding
  // ---------------------------------------------------------------------------------------------

  /** a / d rounded to the nearest integer, halves upwards. */
  function RoundHalfUp(a: nat, d: nat): nat
    requires d > 0
  {
    (2 * a + d) / (2 * d)
  }

  /** The integer and the power of ten whose quotient is the magnitude in micro-cents. */
  function Scaled(n: Numeral): nat
    requires IsNumeral(n)
  {
    AllDigitsAppend(n.whole, n.fraction);
    Value(n.whole + n.fraction) * MICRO_CENTS_PER_CENT
  }

  lemma AllDigitsAppend(a: string, b: string)
    requires AllDigits(a) && AllDigits(b)
    ensures AllDigits(a + b)
  {
  }

  function Signed(negative: bool, magnitude: nat): int {
    if negative then 0 - magnitude else magnitude
  }

  /** The reference: the magnitude in micro-cents, rounded half up, with the sign. */
  function Rounded(n: Numeral): int
    requires IsNumeral(n)
  {
    Signed(n.negative, RoundHalfUp(Scaled(n), Pow10(|n.fraction|)))
  }

  lemma MulMono(a: nat, b: nat, d: nat)
    ensures a <= b ==> a * d <= b * d
  {
    if a <= b { assert b * d == a * d + (b - a) * d; }
  }

  lemma QuotientUnique(q: nat, r: nat, d: nat)
    requires r < d
    ensures (q * d + r) / d == q
  {
    var t := (q * d + r) / d;
    assert q * d + r == t * d + (q * d + r) % d;
    MulMono(t + 1, q, d);
    MulMono(q + 1, t, d);
    assert (t + 1) * d == t * d + d && (q + 1) * d == q * d + d;
  }

  lemma RoundQuotient(q: nat, r: nat, d: nat)
    requires r < d
    ensures RoundHalfUp(q * d + r, d) == q + (if 2 * r >= d then 1 else 0)
  {
    var up := 2 * r >= d;
    var q', r' := if up then q + 1 else q, if up then 2 * r - d else 2 * r + d;
    Distribute(q, d);
    Distribute(q + 1, d);
    assert 2 * (q * d + r) + d == q' * (2 * d) + r';
    QuotientUnique(q', r', 2 * d);
  }

  lemma Distribute(q: nat, d: nat)
    ensures 2 * (q * d) == q * (2 * d) && (q + 1) * (2 * d) == q * (2 * d) + 2 * d
  {
  }

  lemma LeadingDigit(s: string)
    requires AllDigits(s) && s != ""
    ensures 2 * Value(s) >= Pow10(|s|) <==> DigitValue(s[0]) >= 5
  {
    var head, tail := s[..1], s[1..];
    assert s == head + tail;
    ValueAppend(head, tail);
    ValueBound(tail);
    assert head[..0] == "";
    assert Value(head) == DigitValue(s[0]);
    assert Pow10(|s|) == 10 * Pow10(|tail|);
    LeadingDigitArithmetic(DigitValue(s[0]), Pow10(|tail|), Value(tail));
  }

  lemma LeadingDigitArithmetic(d: nat, p: nat, v: nat)
    requires v < p
    ensures 2 * (d * p + v) >= 10 * p <==> d >= 5
  {
    MulMono(5, d, p);
    MulMono(d, 4, p);
  }

  lemma {:induction false} ZerosAreNothing(k: nat)
    ensures AllDigits(seq(k, _ => '0')) && Value(seq(k, _ => '0')) == 0
  {
    if k > 0 {
      ZerosAreNothing(k - 1);
      assert seq(k, _ => '0')[..k - 1] == seq(k - 1, _ => '0');
    }
  }

  function PadEnd4(s: string): string
    requires |s| <= 4
  {
    s + seq(4 - |s|, _ => '0')
  }

  function Take4(s: string): string {
    if |s| <= 4 then s else s[..4]
  }

  /** What the code computes from the digits. */
  function CodeMagnitude(n: Numeral): nat
    requires IsNumeral(n)
  {
    ZerosAreNothing(4 - |Take4(n.fraction)|);
    Value(n.whole) * MICRO_CENTS_PER_CENT + Value(PadEnd4(Take4(n.fraction)))
    + (if |n.fraction| > 4 && DigitValue(n.fraction[4]) >= 5 then 1 else 0)
  }

  lemma Pow10Values()
    ensures Pow10(0) == 1 && Pow10(1) == 10 && Pow10(2) == 100 && Pow10(3) == 1000 && Pow10(4) == 10000
  {
    assert Pow10(2) == 10 * Pow10(1);
    assert Pow10(3) == 10 * Pow10(2);
    assert Pow10(4) == 10 * Pow10(3);
  }

  /** The digits of the whole and fraction parts, scaled to four decimals. */
  lemma ShortArithmetic(w: nat, v: nat, k: nat)
    requires k <= 4
    ensures (w * Pow10(k) + v) * 10000 == (w * 10000 + v * Pow10(4 - k)) * Pow10(k)
  {
    Pow10Values();
    if k == 0 {} else if k == 1 {} else if k == 2 {} else if k == 3 {} else {}
  }

  lemma ShortFraction(n: Numeral)
    requires IsNumeral(n) && |n.fraction| <= 4
    ensures CodeMagnitude(n) == RoundHalfUp(Scaled(n), Pow10(|n.fraction|))
  {
    hide Value, RoundHalfUp;
    var f, k := n.fraction, |n.fraction|;
    ZerosAreNothing(4 - k);
    ValueAppend(f, seq(4 - k, _ => '0'));
    ValueAppend(n.whole, f);
    var w, v := Value(n.whole), Value(f);
    ShortArithmetic(w, v, k);
    RoundQuotient(w * 10000 + v * Pow10(4 - k), 0, Pow10(k));
  }

  lemma LongFraction(n: Numeral)
    requires IsNumeral(n) && |n.fraction| > 4
    ensures CodeMagnitude(n) == RoundHalfUp(Scaled(n), Pow10(|n.fraction|))
  {
    var first, rest := n.fraction[..4], n.fraction[4..];
    LongScaled(n, first, rest);
    ValueBound(rest);
    LeadingDigit(rest);
    LongArithmetic(Value(n.whole + first), Value(rest), Pow10(|rest|));
    assert rest[0] == n.fraction[4];
    hide Value, RoundHalfUp, Pow10;
  }

  lemma LongArithmetic(q: nat, r: nat, d: nat)
    requires r < d
    ensures RoundHalfUp((q * d + r) * 10000, 10000 * d) == q + (if 2 * r >= d then 1 else 0)
  {
    ScaleRound(q * d + r, d, 10000);
    RoundQuotient(q, r, d);
  }

  lemma LongScaled(n: Numeral, first: string, rest: string)
    requires IsNumeral(n) && |n.fraction| > 4 && first == n.fraction[..4] && rest == n.fraction[4..]
    ensures AllDigits(first) && AllDigits(rest) && AllDigits(n.whole + first)
    ensures Scaled(n) == (Value(n.whole + first) * Pow10(|rest|) + Value(rest)) * 10000
    ensures Pow10(|n.fraction|) == 10000 * Pow10(|rest|)
    ensures PadEnd4(first) == first && Value(n.whole + first) == Value(n.whole) * 10000 + Value(first)
  {
    assert n.fraction == first + rest && n.whole + n.fraction == (n.whole + first) + rest;
    ValueAppend(n.whole + first, rest);
    ValueAppend(n.whole, first);
    Pow10Values();
    PowerAppend(4, |rest|);
  }

  lemma {:induction false} PowerAppend(a: nat, b: nat)
    ensures Pow10(a + b) == Pow10(a) * Pow10(b)
  {
    if a > 0 {
      PowerAppend(a - 1, b);
      assert Pow10(a) * Pow10(b) == 10 * (Pow10(a - 1) * Pow10(b));
    }
  }

  /** Scaling numerator and denominator does not change the rounding. */
  lemma ScaleRound(a: nat, d: nat, c: nat)
    requires d > 0 && c > 0
    ensures c * d > 0 && RoundHalfUp(a * c, c * d) == RoundHalfUp(a, d)
  {
    var x, y := 2 * a + d, 2 * d;
    assert 2 * (a * c) + c * d == x * c;
    assert 2 * (c * d) == y * c;
    var q, r := x / y, x % y;
    assert x * c == q * (y * c) + r * c by {
      assert x == q * y + r;
      assert (q * y + r) * c == q * (y * c) + r * c;
    }
    assert r * c < y * c;
    QuotientUnique(q, r * c, y * c);
  }

  /**
   * parseDecimalCentsToMicroCents. For any decimal text the result is the exact magnitude in
   * micro-cents rounded half up, with the sign, unless that leaves the safe integers.
   */
  method ParseDecimalCentsToMicroCents(raw: string) returns (r: Result<int, CostError>)
    ensures r == match Match(Trim(raw))
                 case None => Err(NotDecimal)
                 case Some(n) => if -9007199254740991 <= ParsedValue(n) <= 9007199254740991 then Ok(ParsedValue(n)) else Err(NotSafe)
  {
    hide Match, Value, Trim, Rounded;
    var m := Match(Trim(raw));
    if m.None? {
      return Err(NotDecimal);
    }
    MatchIffSpells(Trim(raw), m.value);
    var wholePart, fracPart := m.value.whole, m.value.fraction;
    var intMicro := Value(wholePart) * MICRO_CENTS_PER_CENT;
    ZerosAreNothing(4 - |Take4(fracPart)|);
    var fracMicro := Value(PadEnd4(Take4(fracPart)));
    if |fracPart| > 4 && DigitValue(fracPart[4]) >= 5 {
      fracMicro := fracMicro + 1;
    }
    CodeIsRounded(m.value);
    var micro := if m.value.negative then -(intMicro + fracMicro) else intMicro + fracMicro;
    if !IsSafe(micro) {
      return Err(NotSafe);
    }
    return Ok(micro);
  }

  function ParsedValue(n: Numeral): int {
    if IsNumeral(n) then Rounded(n) else 0
  }

  lemma CodeIsRounded(n: Numeral)
    requires IsNumeral(n)
    ensures Signed(n.negative, CodeMagnitude(n)) == Rounded(n)
  {
    if |n.fraction| <= 4 { ShortFraction(n); } else { LongFraction(n); }
  }

  // ---------------------------------------------------------------------------------------------
  // Laws of the parsed value
  // ---------------------------------------------------------------------------------------------

  /** Odd in the sign. */
  lemma OddInSign(n: Numeral)
    requires IsNumeral(n)
    ensures Rounded(n.(negative := !n.negative)) == -Rounded(n)
  {
  }

  /** Trailing zeros of the fraction do not matter. */
  lemma TrailingZeroIgnored(n: Numeral)
    requires IsNumeral(n)
    ensures IsNumeral(n.(fraction := n.fraction + "0")) && Rounded(n.(fraction := n.fraction + "0")) == Rounded(n)
  {
    var n' := n.(fraction := n.fraction + "0");
    assert n.whole + n'.fraction == (n.whole + n.fraction) + "0";
    ValueAppend(n.whole + n.fraction, "0");
    assert "0"[..0] == "" && Value("0") == 0;
    Pow10Values();
    assert Scaled(n') == Scaled(n) * 10;
    PowerAppend(1, |n.fraction|);
    ScaleRound(Scaled(n), Pow10(|n.fraction|), 10);
  }

  function Pad4(v: nat): string
    requires v < 10000
  {
    [DigitChar(v / 1000), DigitChar(v / 100 % 10), DigitChar(v / 10 % 10), DigitChar(v % 10)]
  }

  /** An amount of micro-cents as cents with four decimals. */
  function PrintCents(micro: int): string {
    var m := if micro < 0 then -micro else micro;
    (if micro < 0 then "-" else "") + Digits(m / 10000) + "." + Pad4(m % 10000)
  }

  lemma Pad4Value(v: nat)
    requires v < 10000
    ensures AllDigits(Pad4(v)) && Value(Pad4(v)) == v
  {
    var a, b, c, d := v / 1000, v / 100 % 10, v / 10 % 10, v % 10;
    FourDigits(v);
    assert Pad4(v) == [DigitChar(a), DigitChar(b), DigitChar(c), DigitChar(d)];
    hide Pad4;
    ValueOfFour(a, b, c, d);
  }

  lemma FourDigits(v: nat)
    requires v < 10000
    ensures v == v / 1000 * 1000 + v / 100 % 10 * 100 + v / 10 % 10 * 10 + v % 10
  {
    var tens := v / 10;
    var hundreds := tens / 10;
    var thousands := hundreds / 10;
    assert v == 10 * tens + v % 10 && tens == 10 * hundreds + tens % 10 && hundreds == 10 * thousands + hundreds % 10;
    assert 100 * hundreds <= v < 100 * hundreds + 100 && 1000 * thousands <= v < 1000 * thousands + 1000;
    assert v / 100 == hundreds && v / 1000 == thousands;
  }

  lemma ValueOfFour(a: nat, b: nat, c: nat, d: nat)
    requires a < 10 && b < 10 && c < 10 && d < 10
    ensures var s := [DigitChar(a), DigitChar(b), DigitChar(c), DigitChar(d)];
      AllDigits(s) && Value(s) == a * 1000 + b * 100 + c * 10 + d
  {
    var s := [DigitChar(a), DigitChar(b), DigitChar(c), DigitChar(d)];
    assert s[..3][..2] == s[..2] && s[..2][..1] == s[..1] && s[..1][..0] == "";
    assert Value(s[..1]) == a;
    assert Value(s[..2]) == 10 * a + b;
    assert Value(s[..3]) == 10 * (10 * a + b) + c;
  }

  /** The numeral that the printer writes. */
  function Printed(micro: int): Numeral {
    var a := if micro < 0 then -micro else micro;
    Numeral(micro < 0, Digits(a / 10000), Pad4(a % 10000))
  }

  lemma PrintedIs(micro: int)
    ensures IsNumeral(Printed(micro)) && Rounded(Printed(micro)) == micro
  {
    var a, n := if micro < 0 then -micro else micro, Printed(micro);
    PrintedValue(a);
    hide Value, RoundHalfUp, Digits, Pad4, AllDigits;
    Pow10Values();
    assert Scaled(n) == a * 10000;
    RoundQuotient(a, 0, 10000);
  }

  /** The digits of an amount, without the point, spell it. */
  lemma PrintedValue(a: nat)
    ensures var whole, fraction := Digits(a / 10000), Pad4(a % 10000);
      && whole != "" && |fraction| == 4 && AllDigits(whole) && AllDigits(fraction) && AllDigits(whole + fraction)
      && Value(whole + fraction) == a
  {
    var whole, fraction := Digits(a / 10000), Pad4(a % 10000);
    Pad4Value(a % 10000);
    ValueOfDigits(a / 10000);
    AllDigitsAppend(whole, fraction);
    ValueAppend(whole, fraction);
    Pow10Values();
    hide Value, Digits, AllDigits;
    assert |fraction| == 4;
  }

  /** Parsing inverts the four-decimal printer on every amount. */
  lemma ParseInvertsPrint(micro: int)
    ensures var m := Match(PrintCents(micro)); m.Some? && IsNumeral(m.value) && Rounded(m.value) == micro
  {
    var n := Printed(micro);
    PrintedIs(micro);
    assert n.fraction != "";
    hide Match, Rounded, Digits, Pad4, IsNumeral;
    assert Spells(PrintCents(micro), n) by {
      assert PrintCents(micro) == if micro < 0 then "-" + Unsigned(n) else Unsigned(n);
    }
    MatchIffSpells(PrintCents(micro), n);
  }

  /** The exact amount in micro-cents that a numeral stands for. */
  function Exact(n: Numeral): real
    requires IsNumeral(n)
  {
    var x := Scaled(n) as real / Pow10(|n.fraction|) as real;
    if n.negative then -x else x
  }

  function Abs(x: real): real {
    if x < 0.0 then -x else x
  }

  lemma RoundError(a: nat, d: nat)
    requires d > 0
    ensures -(d as int) <= 2 * (RoundHalfUp(a, d) * d - a) <= d
  {
    var x := 2 * a + d;
    var q := x / (2 * d);
    assert x == q * (2 * d) + x % (2 * d);
    assert q * (2 * d) == 2 * (q * d);
  }

  lemma QuotientError(v: int, a: int, d: int)
    requires d > 0 && -d <= 2 * (v * d - a) <= d
    ensures Abs(v as real - a as real / d as real) <= 0.5
  {
    var x, r := a as real / d as real, d as real;
    assert x * r == a as real;
    HalfApart(v as real - x, r, (v * d - a) as real);
  }

  lemma HalfApart(e: real, r: real, m: real)
    requires r > 0.0 && e * r == m && -r <= 2.0 * m <= r
    ensures Abs(e) <= 0.5
  {
    KeepsSign(e - 0.5, r);
    KeepsSign(-0.5 - e, r);
  }

  lemma KeepsSign(x: real, r: real)
    requires r > 0.0
    ensures x > 0.0 ==> x * r > 0.0
  {
  }

  /** A parsed value is at most half a micro-cent away from the exact amount. */
  lemma ParseError(n: Numeral)
    requires IsNumeral(n)
    ensures Abs(Rounded(n) as real - Exact(n)) <= 0.5
  {
    var a, d := Scaled(n), Pow10(|n.fraction|);
    RoundError(a, d);
    QuotientError(RoundHalfUp(a, d), a, d);
  }

  /** It is the nearest number of micro-cents; an amount halfway between two goes away from zero. */
  lemma TiesAwayFromZero(n: Numeral)
    requires IsNumeral(n)
    ensures var v, x := Rounded(n) as real, Exact(n);
      if n.negative then v - 0.5 < x <= v + 0.5 else v - 0.5 <= x < v + 0.5
  {
    var a, d := Scaled(n), Pow10(|n.fraction|);
    NearestAbove(a, d);
    NearestQuotient(RoundHalfUp(a, d), a, d);
  }

  lemma NearestQuotient(q: int, a: nat, d: nat)
    requires d > 0 && -(d as int) < 2 * (q * d - a) <= d
    ensures q as real - 0.5 <= a as real / d as real < q as real + 0.5
  {
    var x, r := a as real / d as real, d as real;
    assert x * r == a as real;
    HalfUpApart(q as real - x, r, (q * d - a) as real);
  }

  lemma HalfUpApart(e: real, r: real, m: real)
    requires r > 0.0 && e * r == m && -r < 2.0 * m <= r
    ensures -0.5 < e <= 0.5
  {
    KeepsSign(e - 0.5, r);
    assert (e + 0.5) * r == m + 0.5 * r;
    NegativeTimes(e + 0.5, r);
  }

  lemma NegativeTimes(x: real, r: real)
    requires r > 0.0
    ensures x <= 0.0 ==> x * r <= 0.0
  {
  }

  lemma NearestAbove(a: nat, d: nat)
    requires d > 0
    ensures -(d as int) < 2 * (RoundHalfUp(a, d) * d - a) <= d
  {
    var x := 2 * a + d;
    var q := x / (2 * d);
    assert x == q * (2 * d) + x % (2 * d);
    assert q * (2 * d) == 2 * (q * d);
  }

  // ---------------------------------------------------------------------------------------------
  // Sums and drift
  // ---------------------------------------------------------------------------------------------

  function Total(values: seq<int>): int {
    if values == [] then 0 else Total(values[..|values| - 1]) + values[|values| - 1]
  }

  /** sumMicroCents: the sum, provided every element and every running total is safe. */
  method SumMicroCents(values: seq<int>) returns (r: Result<int, CostError>)
    ensures r.Ok? <==> forall k | 0 <= k < |values| :: IsSafe(values[k]) && IsSafe(Total(values[..k + 1]))
    ensures r.Ok? ==> r.value == Total(values) && IsSafe(r.value)
    ensures r.Err? ==> r.error == NotSafe
  {
    var total := 0;
    var i := 0;
    while i < |values|
      invariant 0 <= i <= |values| && total == Total(values[..i]) && IsSafe(total)
      invariant forall k | 0 <= k < i :: IsSafe(values[k]) && IsSafe(Total(values[..k + 1]))
    {
      if !IsSafe(values[i]) {
        return Err(NotSafe);
      }
      assert values[..i + 1][..i] == values[..i];
      total := total + values[i];
      if !IsSafe(total) {
        return Err(NotSafe);
      }
      i := i + 1;
    }
    assert values[..i] == values;
    return Ok(total);
  }

  function ExactTotal(ns: seq<Numeral>): real
    requires forall i | 0 <= i < |ns| :: IsNumeral(ns[i])
  {
    if ns == [] then 0.0 else ExactTotal(ns[..|ns| - 1]) + Exact(ns[|ns| - 1])
  }

  function RoundedAll(ns: seq<Numeral>): seq<int>
    requires forall i | 0 <= i < |ns| :: IsNumeral(ns[i])
  {
    if ns == [] then [] else RoundedAll(ns[..|ns| - 1]) + [Rounded(ns[|ns| - 1])]
  }

  /** A sum of n parsed values is at most n/2 micro-cents away from the exact sum. */
  lemma {:induction false} SumError(ns: seq<Numeral>)
    requires forall i | 0 <= i < |ns| :: IsNumeral(ns[i])
    ensures Abs(Total(RoundedAll(ns)) as real - ExactTotal(ns)) <= |ns| as real / 2.0
  {
    if ns != [] {
      var front, last := ns[..|ns| - 1], ns[|ns| - 1];
      SumError(front);
      ParseError(last);
      var r := RoundedAll(ns);
      assert r[..|r| - 1] == RoundedAll(front) && r[|r| - 1] == Rounded(last);
      assert Total(r) == Total(RoundedAll(front)) + Rounded(last);
    }
  }

  datatype Drift = Drift(driftMicroCents: int, driftPct: Option<real>)

  method ComputeDrift(local: int, vendor: int) returns (r: Result<Drift, CostError>)
    ensures r.Ok? <==> IsSafe(local) && IsSafe(vendor) && IsSafe(local - vendor)
    ensures r.Ok? ==> vendor + r.value.driftMicroCents == local && (r.value.driftPct.None? <==> vendor == 0)
    ensures r.Ok? && vendor != 0 ==> vendor as real * (1.0 + r.value.driftPct.value / 100.0) == local as real
  {
    if !IsSafe(local) || !IsSafe(vendor) || !IsSafe(local - vendor) {
      return Err(NotSafe);
    }
    var drift := local - vendor;
    if vendor == 0 {
      return Ok(Drift(drift, None));
    }
    var ratio := drift as real / vendor as real;
    assert vendor as real * ratio == drift as real;
    return Ok(Drift(drift, Some(ratio * 100.0)));
  }

  lemma Triangle(a: int, x: real, m: nat, b: int, y: real, n: nat)
    requires Abs(a as real - x) <= m as real / 2.0 && Abs(b as real - y) <= n as real / 2.0
    ensures Abs((a - b) as real - (x - y)) <= (m + n) as real / 2.0
  {
  }

  /** The drift between two sums of parsed amounts is off by at most half a micro-cent per amount. */
  lemma DriftError(local: seq<Numeral>, vendor: seq<Numeral>)
    requires forall i | 0 <= i < |local| :: IsNumeral(local[i])
    requires forall i | 0 <= i < |vendor| :: IsNumeral(vendor[i])
    ensures Abs((Total(RoundedAll(local)) - Total(RoundedAll(vendor))) as real - (ExactTotal(local) - ExactTotal(vendor)))
         <= (|local| + |vendor|) as real / 2.0
  {
    hide Total, ExactTotal, RoundedAll, Abs;
    SumError(local);
    SumError(vendor);
    Triangle(Total(RoundedAll(local)), ExactTotal(local), |local|, Total(RoundedAll(vendor)), ExactTotal(vendor), |vendor|);
  }
}
