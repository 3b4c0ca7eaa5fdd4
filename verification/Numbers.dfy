/** JSON number literals (RFC 8259, section 6), and what the binary64 number nearest to one is. */
module Numbers {
  import opened Prelude

  datatype Parsed<+T> = Fail | Got(value: T, rest: string)

  // ---- reading ---------------------------------------------------------------

  predicate IsDigit(c: char) { '0' <= c <= '9' }

  function ReadDigits(acc: nat, s: string): (r: (nat, string))
    ensures |r.1| <= |s|
    decreases |s|
  {
    if s != "" && IsDigit(s[0]) then ReadDigits(acc * 10 + (s[0] as int - '0' as int), s[1..]) else (acc, s)
  }

  function ParseNat(s: string): (p: Parsed<nat>)
    ensures p.Got? ==> |p.rest| < |s|
  {
    if s == "" || !IsDigit(s[0]) then Fail
    else if s[0] == '0' then Got(0, s[1..])
    else
      var (n, r) := ReadDigits(s[0] as int - '0' as int, s[1..]);
      Got(n, r)
  }

  /** The integer part, with its sign. */
  function ParseInt(s: string): (p: Parsed<int>)
    ensures p.Got? ==> |p.rest| < |s|
  {
    if s != "" && s[0] == '-' then
      match ParseNat(s[1..])
      case Fail => Fail
      case Got(n, r) => Got(-(n as int), r)
    else
      match ParseNat(s)
      case Fail => Fail
      case Got(n, r) => Got(n, r)
  }

  /** How many digits `s` begins with. */
  function Run(s: string): (n: nat)
    ensures n <= |s| && (forall i :: 0 <= i < n ==> IsDigit(s[i])) && (n < |s| ==> !IsDigit(s[n]))
  {
    if s != "" && IsDigit(s[0]) then 1 + Run(s[1..]) else 0
  }

  /** The length of a fraction at the start of `s`, if one is there: a point and at least one digit. */
  function FractionLength(s: string): (n: nat)
    ensures n <= |s|
  {
    if s != "" && s[0] == '.' && Run(s[1..]) > 0 then 1 + Run(s[1..]) else 0
  }

  /** The length of an exponent at the start of `s`, if one is there. */
  function ExponentLength(s: string): (n: nat)
    ensures n <= |s|
  {
    if s == "" || (s[0] != 'e' && s[0] != 'E') then 0
    else
      var digits := if |s| > 1 && (s[1] == '+' || s[1] == '-') then 2 else 1;
      if Run(s[digits..]) > 0 then digits + Run(s[digits..]) else 0
  }

  function TailLength(s: string): (n: nat)
    ensures n <= |s|
  {
    FractionLength(s) + ExponentLength(s[FractionLength(s)..])
  }

  /** A number with a fraction, an exponent or both. */
  predicate Literal(t: string) {
    ParseInt(t).Got? && ParseInt(t).rest != "" && TailLength(ParseInt(t).rest) == |ParseInt(t).rest|
  }

  /** The words Python's reader takes and its printer writes for the numbers that are not finite. */
  const NON_FINITE := {"NaN", "Infinity", "-Infinity"}

  predicate FloatText(t: string) { Literal(t) || t in NON_FINITE }

  // ---- the nearest binary64 number ---------------------------------------------

  /** The value of a literal is `mantissa` times ten to the `exponent`, negated when it begins with a sign. */
  datatype Decimal = Decimal(mantissa: nat, exponent: int)

  function ExponentValue(s: string): int {
    if s == "" then 0
    else if |s| > 1 && s[1] == '-' then -(ReadDigits(0, s[2..]).0 as int)
    else if |s| > 1 && s[1] == '+' then ReadDigits(0, s[2..]).0
    else ReadDigits(0, s[1..]).0
  }

  function DecimalOf(t: string): Decimal {
    var (n, tail) := ReadDigits(0, if t != "" && t[0] == '-' then t[1..] else t);
    var f := FractionLength(tail);
    var exponent := ExponentValue(tail[f..]);
    if f == 0 then Decimal(n, exponent) else Decimal(ReadDigits(n, tail[1..]).0, exponent - (f - 1))
  }

  function TimesTen(m: nat, e: nat): nat
    decreases e
  {
    if e == 0 then m else TimesTen(10 * m, e - 1)
  }

  /** Two numbers that compare as the value of `d` does with `a / b`. */
  function Compared(d: Decimal, a: nat, b: nat): (int, int) {
    if d.exponent >= 0 then (TimesTen(d.mantissa, d.exponent) * b, a) else (d.mantissa * b, TimesTen(a, -d.exponent))
  }

  predicate AtMost(d: Decimal, a: nat, b: nat) { Compared(d, a, b).0 <= Compared(d, a, b).1 }
  predicate AtLeast(d: Decimal, a: nat, b: nat) { Compared(d, a, b).0 >= Compared(d, a, b).1 }

  const TWO_54 := 0x40_0000_0000_0000
  const TWO_202 := 0x4_0000000000_0000000000_0000000000_0000000000_0000000000
  const TWO_256 := 0x1_0000000000000000_0000000000000000_0000000000000000_0000000000000000

  /** Half-way past the largest binary64 number: from here on, rounding gives infinity. */
  const OVERFLOW := (TWO_54 - 1) * TWO_202 * TWO_256 * TWO_256 * TWO_256

  /** One over half of the smallest positive binary64 number: up to there, rounding gives zero. */
  const UNDERFLOW := 0x8_0000_0000_0000 * TWO_256 * TWO_256 * TWO_256 * TWO_256

  predicate IsFinite(t: string) { t !in NON_FINITE && !AtLeast(DecimalOf(t), OVERFLOW, 1) }

  predicate IsZero(t: string) { t !in NON_FINITE && AtMost(DecimalOf(t), 1, UNDERFLOW) }

  /** The value lies between `lo` and `hi`, both counted in units of two to the minus 54. */
  predicate Between(t: string, lo: nat, hi: nat) {
    t !in NON_FINITE && t != "" && t[0] != '-'
    && AtLeast(DecimalOf(t), lo, TWO_54) && AtMost(DecimalOf(t), hi, TWO_54)
  }

  /** The number from 0 to 4 that the literal rounds to, if it rounds to one; a tie goes to these, being even. */
  function SmallInteger(t: string): Option<nat> {
    if IsZero(t) then Some(0)
    else if Between(t, TWO_54 - 1, TWO_54 + 2) then Some(1)
    else if Between(t, 2 * TWO_54 - 2, 2 * TWO_54 + 4) then Some(2)
    else if Between(t, 3 * TWO_54 - 4, 3 * TWO_54 + 4) then Some(3)
    else if Between(t, 4 * TWO_54 - 4, 4 * TWO_54 + 8) then Some(4)
    else None
  }

  // ---- literals in a longer text -----------------------------------------------

  /** What may follow a number without being read as part of it. */
  predicate EndsNumber(rest: string) {
    rest == "" || !(IsDigit(rest[0]) || rest[0] == '.' || rest[0] == 'e' || rest[0] == 'E')
  }

  lemma {:induction false} ReadDigitsBefore(acc: nat, s: string, rest: string)
    requires ReadDigits(acc, s).1 != ""
    ensures ReadDigits(acc, s + rest) == (ReadDigits(acc, s).0, ReadDigits(acc, s).1 + rest)
    decreases |s|
  {
    assert (s + rest)[0] == s[0];
    if IsDigit(s[0]) {
      assert (s + rest)[1..] == s[1..] + rest;
      ReadDigitsBefore(acc * 10 + (s[0] as int - '0' as int), s[1..], rest);
    }
  }

  lemma ParseNatBefore(s: string, rest: string)
    requires ParseNat(s).Got? && ParseNat(s).rest != ""
    ensures ParseNat(s + rest) == Got(ParseNat(s).value, ParseNat(s).rest + rest)
  {
    assert (s + rest)[0] == s[0] && (s + rest)[1..] == s[1..] + rest;
    if s[0] != '0' { ReadDigitsBefore(s[0] as int - '0' as int, s[1..], rest); }
  }

  lemma ParseIntBefore(s: string, rest: string)
    requires ParseInt(s).Got? && ParseInt(s).rest != ""
    ensures ParseInt(s + rest) == Got(ParseInt(s).value, ParseInt(s).rest + rest)
  {
    assert (s + rest)[0] == s[0] && (s + rest)[1..] == s[1..] + rest;
    ParseNatBefore(if s[0] == '-' then s[1..] else s, rest);
  }

  lemma {:induction false} RunBefore(s: string, rest: string)
    requires rest == "" || !IsDigit(rest[0])
    ensures Run(s + rest) == Run(s)
  {
    if s == "" {
      assert s + rest == rest;
    } else if IsDigit(s[0]) {
      assert (s + rest)[1..] == s[1..] + rest;
      RunBefore(s[1..], rest);
    }
  }

  lemma FractionBefore(s: string, rest: string)
    requires s != "" && EndsNumber(rest)
    ensures FractionLength(s + rest) == FractionLength(s)
  {
    assert (s + rest)[0] == s[0] && (s + rest)[1..] == s[1..] + rest;
    RunBefore(s[1..], rest);
  }

  lemma ExponentBefore(s: string, rest: string)
    requires ExponentLength(s) == |s| && EndsNumber(rest)
    ensures ExponentLength(s + rest) == |s|
  {
    if s == "" {
      assert s + rest == rest;
    } else {
      var digits := if |s| > 1 && (s[1] == '+' || s[1] == '-') then 2 else 1;
      assert (s + rest)[digits..] == s[digits..] + rest;
      RunBefore(s[digits..], rest);
    }
  }

  lemma TailBefore(s: string, rest: string)
    requires s != "" && TailLength(s) == |s| && EndsNumber(rest)
    ensures TailLength(s + rest) == |s|
  {
    var f := FractionLength(s);
    FractionBefore(s, rest);
    assert (s + rest)[f..] == s[f..] + rest;
    ExponentBefore(s[f..], rest);
  }

  lemma NoTail(rest: string)
    requires EndsNumber(rest)
    ensures TailLength(rest) == 0
  {
  }

  // ---- the characters of a literal ---------------------------------------------

  predicate NumberChar(c: char) { IsDigit(c) || c == '-' || c == '+' || c == '.' || c == 'e' || c == 'E' }

  lemma {:induction false} ReadDigitsTakes(acc: nat, s: string)
    ensures var rest := ReadDigits(acc, s).1; var k := |s| - |rest|;
      s[k..] == rest && forall i :: 0 <= i < k ==> NumberChar(s[i])
    decreases |s|
  {
    if s != "" && IsDigit(s[0]) { ReadDigitsTakes(acc * 10 + (s[0] as int - '0' as int), s[1..]); }
  }

  lemma ParseIntTakes(s: string)
    requires ParseInt(s).Got?
    ensures var rest := ParseInt(s).rest; var k := |s| - |rest|;
      s[k..] == rest && forall i :: 0 <= i < k ==> NumberChar(s[i])
  {
    var t := if s[0] == '-' then s[1..] else s;
    if t[0] != '0' { ReadDigitsTakes(t[0] as int - '0' as int, t[1..]); }
  }

  lemma TailTakes(s: string)
    ensures forall i :: 0 <= i < TailLength(s) ==> NumberChar(s[i])
  {
    var f := FractionLength(s);
    assert forall i :: 1 <= i < f ==> s[i] == s[1..][i - 1];
    var x := s[f..];
    var digits := if |x| > 1 && (x[1] == '+' || x[1] == '-') then 2 else 1;
    if ExponentLength(x) > 0 {
      forall i | f + digits <= i < TailLength(s) ensures IsDigit(s[i]) {
        assert s[i] == x[digits..][i - f - digits];
      }
      forall i | f <= i < f + digits ensures NumberChar(s[i]) {
        assert s[i] == x[i - f];
      }
    }
  }

  lemma LiteralChars(t: string)
    requires Literal(t)
    ensures t != "" && (t[0] == '-' || IsDigit(t[0])) && forall i :: 0 <= i < |t| ==> NumberChar(t[i])
  {
    ParseIntTakes(t);
    var rest := ParseInt(t).rest;
    TailTakes(rest);
    forall i | |t| - |rest| <= i < |t| ensures NumberChar(t[i]) {
      assert t[i] == rest[i - (|t| - |rest|)];
    }
  }
}
