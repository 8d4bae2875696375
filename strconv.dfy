/** Go's `strconv.Atoi` on a 64-bit platform, as a total function, with its
    inverse `strconv.Itoa` as a reference for the round trip. */
module Strconv {
  import opened Base

  const MinInt: int := -0x8000_0000_0000_0000
  const MaxInt: int := 0x7fff_ffff_ffff_ffff

  /** The range of Go's `int` on a 64-bit platform. */
  predicate InIntRange(n: int) {
    MinInt <= n <= MaxInt
  }

  predicate IsDigit(c: char) {
    '0' <= c <= '9'
  }

  predicate AllDigits(s: string) {
    forall i :: 0 <= i < |s| ==> IsDigit(s[i])
  }

  function DigitValue(c: char): (d: nat)
    requires IsDigit(c)
    ensures d < 10
  {
    c as int - '0' as int
  }

  function DigitChar(d: nat): (c: char)
    requires d < 10
    ensures IsDigit(c) && DigitValue(c) == d
  {
    ('0' as int + d) as char
  }

  /** The value of a numeral in base 10, most significant digit first. */
  function DecimalValue(ds: string): nat
    requires AllDigits(ds)
  {
    if ds == [] then 0 else DecimalValue(ds[..|ds| - 1]) * 10 + DigitValue(ds[|ds| - 1])
  }

  /** The input with its optional leading sign removed. */
  function Unsigned(s: string): string {
    if |s| > 0 && (s[0] == '+' || s[0] == '-') then s[1..] else s
  }

  predicate Negative(s: string) {
    |s| > 0 && s[0] == '-'
  }

  /** An optional `+` or `-`, then one or more decimal digits: the only
      syntax that Atoi accepts with base 10 (no prefixes, no underscores). */
  predicate IsIntLiteral(s: string) {
    |Unsigned(s)| > 0 && AllDigits(Unsigned(s))
  }

  function LiteralValue(s: string): int
    requires IsIntLiteral(s)
  {
    if Negative(s) then -(DecimalValue(Unsigned(s)) as int) else DecimalValue(Unsigned(s))
  }

  /** strconv.Atoi: the value of a well-formed decimal literal that fits in
      `int`; a syntax error or a range error is None. */
  function Atoi(s: string): (r: Option<int>)
    ensures r.Some? ==> InIntRange(r.value) && IsIntLiteral(s)
    ensures s == [] ==> r.None?
  {
    if IsIntLiteral(s) && InIntRange(LiteralValue(s)) then Some(LiteralValue(s)) else None
  }

  /** The shortest numeral of a natural number. */
  function NatToDecimal(n: nat): (s: string)
    ensures |s| > 0 && AllDigits(s)
  {
    if n < 10 then [DigitChar(n)] else NatToDecimal(n / 10) + [DigitChar(n % 10)]
  }

  /** strconv.Itoa: the canonical decimal rendering of an integer. */
  function Itoa(n: int): (s: string)
    ensures IsIntLiteral(s)
  {
    if n < 0 then "-" + NatToDecimal(-n) else NatToDecimal(n)
  }

  lemma {:induction false} DecimalValueOfNatToDecimal(n: nat)
    ensures DecimalValue(NatToDecimal(n)) == n
  {
    if n >= 10 {
      DecimalValueOfNatToDecimal(n / 10);
      var s := NatToDecimal(n);
      assert s[..|s| - 1] == NatToDecimal(n / 10);
    }
  }

  /** Atoi reads back every `int` that Itoa renders, and rejects the
      rendering of every integer outside the range of `int`. */
  lemma AtoiItoa(n: int)
    ensures Atoi(Itoa(n)) == if InIntRange(n) then Some(n) else None
  {
    if n < 0 {
      DecimalValueOfNatToDecimal(-n);
      assert Unsigned(Itoa(n)) == NatToDecimal(-n);
    } else {
      DecimalValueOfNatToDecimal(n);
      var s := NatToDecimal(n);
      assert IsDigit(s[0]);
      assert Unsigned(s) == s;
    }
  }

  /** Leading zeros do not change the value Atoi reads. */
  lemma {:induction false} LeadingZeroIgnored(ds: string)
    requires |ds| > 0 && AllDigits(ds)
    ensures DecimalValue("0" + ds) == DecimalValue(ds)
  {
    if |ds| > 1 {
      LeadingZeroIgnored(ds[..|ds| - 1]);
      assert ("0" + ds)[..|ds|] == "0" + ds[..|ds| - 1];
    } else {
      assert ("0" + ds)[..1] == "0";
    }
  }

  /** A `+` sign is accepted and changes nothing; a `-` sign negates, so
      -9223372036854775808 is read although its magnitude alone is not. */
  lemma SignedLiterals(ds: string)
    requires |ds| > 0 && AllDigits(ds)
    ensures Atoi("+" + ds) == Atoi(ds)
    ensures Atoi("-" + ds) == if DecimalValue(ds) <= -MinInt then Some(-(DecimalValue(ds) as int)) else None
  {
    assert IsDigit(ds[0]);
    assert Unsigned("+" + ds) == ds && Unsigned("-" + ds) == ds && Unsigned(ds) == ds;
  }

  /** The inputs of the listing endpoint that Atoi accepts or rejects. */
  lemma AtoiExamples()
    ensures Atoi("") == None && Atoi("+") == None && Atoi("abc") == None && Atoi("1.5") == None
    ensures Atoi("0") == Some(0) && Atoi("3") == Some(3) && Atoi("20") == Some(20) && Atoi("-5") == Some(-5)
  {
  }
}
