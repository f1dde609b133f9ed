/**
 * The integer arithmetic the core relies on: Go's `strconv.Atoi` for a
 * 64-bit `int`, its inverse `Itoa`, and two's-complement wrap-around of
 * `int64` (Go's `time.Duration`).
 */
module Strconv {
  import opened Errors

  const MinInt64: int := -0x8000_0000_0000_0000
  const MaxInt64: int := 0x7FFF_FFFF_FFFF_FFFF
  const Modulus64: int := 0x1_0000_0000_0000_0000

  predicate IsInt64(x: int) {
    MinInt64 <= x <= MaxInt64
  }

  /** The int64 that an unbounded result wraps to, as Go's int64 multiplication does. */
  function Wrap64(x: int): (r: int)
    ensures IsInt64(r)
    ensures IsInt64(x) ==> r == x
    ensures (x - r) % Modulus64 == 0
  {
    var k := (x - MinInt64) / Modulus64;
    assert x - MinInt64 == k * Modulus64 + (x - MinInt64) % Modulus64;
    assert x - ((x - MinInt64) % Modulus64 + MinInt64) == k * Modulus64;
    (x - MinInt64) % Modulus64 + MinInt64
  }

  predicate IsDigit(c: char) {
    '0' <= c <= '9'
  }

  predicate AllDigits(s: string) {
    forall i :: 0 <= i < |s| ==> IsDigit(s[i])
  }

  function DigitValue(c: char): (d: nat)
    requires IsDigit(c)
    ensures d < 10
  {
    (c as int) - ('0' as int)
  }

  function DigitChar(d: nat): (c: char)
    requires d < 10
    ensures IsDigit(c) && DigitValue(c) == d
  {
    (('0' as int) + d) as char
  }

  function Pow10(n: nat): (p: nat)
    ensures p >= 1
  {
    if n == 0 then 1 else 10 * Pow10(n - 1)
  }

  /** The positional value of a string of digits: each digit times ten to the number of digits after it. */
  function DigitsValue(s: string): nat
    requires AllDigits(s)
  {
    if |s| == 0 then 0 else DigitValue(s[0]) * Pow10(|s| - 1) + DigitsValue(s[1..])
  }

  lemma AllDigitsConcat(s: string, t: string)
    ensures AllDigits(s + t) <==> AllDigits(s) && AllDigits(t)
  {
    var u := s + t;
    if AllDigits(s) && AllDigits(t) {
      forall i | 0 <= i < |u| ensures IsDigit(u[i]) {
        if i < |s| { assert u[i] == s[i]; } else { assert u[i] == t[i - |s|]; }
      }
    }
    if AllDigits(u) {
      forall i | 0 <= i < |s| ensures IsDigit(s[i]) { assert u[i] == s[i]; }
      forall i | 0 <= i < |t| ensures IsDigit(t[i]) { assert u[i + |s|] == t[i]; }
    }
  }

  lemma ShiftDigit(a: nat, p: nat, b: nat, c: nat)
    ensures a * (10 * p) + (10 * b + c) == 10 * (a * p + b) + c
  {
    assert a * (10 * p) == 10 * (a * p);
  }

  /** Appending a digit multiplies the value so far by ten and adds the digit. */
  lemma {:induction false} DigitsValueSnoc(s: string, c: char)
    requires AllDigits(s) && IsDigit(c)
    ensures AllDigits(s + [c])
    ensures DigitsValue(s + [c]) == 10 * DigitsValue(s) + DigitValue(c)
  {
    var t := s + [c];
    AllDigitsConcat(s, [c]);
    if |s| > 0 {
      assert t[0] == s[0] && t[1..] == s[1..] + [c];
      assert AllDigits(s[1..]);
      DigitsValueSnoc(s[1..], c);
      assert Pow10(|t| - 1) == 10 * Pow10(|s| - 1);
      assert DigitsValue(t) == DigitValue(s[0]) * (10 * Pow10(|s| - 1)) + (10 * DigitsValue(s[1..]) + DigitValue(c));
      ShiftDigit(DigitValue(s[0]), Pow10(|s| - 1), DigitsValue(s[1..]), DigitValue(c));
    } else {
      assert t == [c] && t[1..] == [];
    }
  }

  /** The value of a non-empty string of decimal digits; None for anything else. */
  function ParseDigits(s: string): (r: Option<nat>)
    ensures r.Some? <==> |s| > 0 && AllDigits(s)
    ensures r.Some? ==> r.value == DigitsValue(s)
  {
    if |s| == 0 || !IsDigit(s[|s| - 1]) then None
    else if |s| == 1 then Some(DigitValue(s[0]))
    else
      match ParseDigits(s[..|s| - 1])
      case None => None
      case Some(v) =>
        assert s == s[..|s| - 1] + [s[|s| - 1]];
        DigitsValueSnoc(s[..|s| - 1], s[|s| - 1]);
        Some(10 * v + DigitValue(s[|s| - 1]))
  }

  /** Whether the string has a leading '+' or '-'. */
  predicate Signed(s: string) {
    |s| > 0 && (s[0] == '+' || s[0] == '-')
  }

  /** The syntax strconv.Atoi accepts: an optional sign, then at least one ASCII digit, and nothing else. */
  predicate IsDecimal(s: string) {
    if Signed(s) then |s| > 1 && AllDigits(s[1..]) else |s| > 0 && AllDigits(s)
  }

  /** The value a decimal string denotes, negated after a '-'. */
  function DecimalValue(s: string): int
    requires IsDecimal(s)
  {
    if !Signed(s) then DigitsValue(s)
    else if s[0] == '-' then 0 - (DigitsValue(s[1..]) as int)
    else DigitsValue(s[1..])
  }

  /**
   * strconv.Atoi with a 64-bit int: an optional '+' or '-', then at least
   * one decimal digit and nothing else; a value outside int64 is a range
   * error. Both error kinds are None here.
   */
  function Atoi(s: string): (r: Option<int>)
    ensures r.Some? <==> IsDecimal(s) && IsInt64(DecimalValue(s))
    ensures r.Some? ==> r.value == DecimalValue(s)
    ensures r.Some? ==> IsInt64(r.value)
    ensures r.Some? ==> |s| > 0
    ensures r.Some? && !(s[0] == '+' || s[0] == '-') ==> AllDigits(s)
  {
    var signed := |s| > 0 && (s[0] == '+' || s[0] == '-');
    var digits := if signed then s[1..] else s;
    match ParseDigits(digits)
    case None => None
    case Some(magnitude) =>
      var v: int := if signed && s[0] == '-' then 0 - (magnitude as int) else magnitude;
      if IsInt64(v) then Some(v) else None
  }

  /** Decimal digits of a natural number, most significant first, without leading zeros. */
  function FormatNat(n: nat): (s: string)
    ensures |s| > 0 && AllDigits(s)
  {
    if n < 10 then [DigitChar(n)] else FormatNat(n / 10) + [DigitChar(n % 10)]
  }

  /** strconv.Itoa: the decimal form of n, with a leading '-' when negative. */
  function Itoa(n: int): (s: string)
    ensures |s| > 0
  {
    if n < 0 then "-" + FormatNat(-n) else FormatNat(n)
  }

  lemma {:induction false} ParseFormatNat(n: nat)
    ensures ParseDigits(FormatNat(n)) == Some(n)
  {
    if n >= 10 {
      var s := FormatNat(n);
      assert s[..|s| - 1] == FormatNat(n / 10);
      ParseFormatNat(n / 10);
    }
  }

  /** A leading '0' does not change the value of a digit string. */
  lemma LeadingZero(d: string)
    requires |d| > 0
    ensures ParseDigits("0" + d) == ParseDigits(d)
  {
    var t := "0" + d;
    AllDigitsConcat("0", d);
    if AllDigits(d) {
      assert t[0] == '0' && t[1..] == d;
      assert DigitsValue(t) == DigitValue('0') * Pow10(|d|) + DigitsValue(d);
    }
  }

  /** A '+' before a digit string changes nothing: Atoi("+" + d) == Atoi(d). */
  lemma PlusSign(d: string)
    requires AllDigits(d)
    ensures Atoi("+" + d) == Atoi(d)
  {
    var t := "+" + d;
    assert t[1..] == d;
    if |d| > 0 {
      assert !Signed(d);
    }
  }

  /** Atoi reads back every int64 that Itoa writes. */
  lemma AtoiItoa(n: int)
    requires IsInt64(n)
    ensures Atoi(Itoa(n)) == Some(n)
  {
    var s := Itoa(n);
    if n < 0 {
      assert s[1..] == FormatNat(-n);
      ParseFormatNat(-n);
    } else {
      ParseFormatNat(n);
    }
  }
}
