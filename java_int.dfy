/** Java's 32-bit `int`: two's complement wrap-around of `+` and `*`,
    `Integer.parseInt` on decimal text and `String.valueOf` back to text. */
module JavaInt {
  import opened Wrappers

  const MIN_VALUE: int := -0x8000_0000
  const MAX_VALUE: int := 0x7FFF_FFFF
  const MODULUS: int := 0x1_0000_0000

  type int32 = x: int | -0x8000_0000 <= x < 0x8000_0000

  /** The `int` that Java's arithmetic yields for the exact result `x`: `x`
      modulo 2^32, read as a two's complement number. */
  function Wrap(x: int): (r: int32)
    ensures (x - r) % MODULUS == 0
    ensures MIN_VALUE <= x <= MAX_VALUE ==> r == x
  {
    var r := (x + 0x8000_0000) % MODULUS - 0x8000_0000;
    assert x - r == MODULUS * ((x + 0x8000_0000) / MODULUS);
    r
  }

  /** Two numbers that differ by a multiple of 2^32 wrap to the same `int`. */
  lemma WrapCongruent(x: int, y: int)
    requires (x - y) % MODULUS == 0
    ensures Wrap(x) == Wrap(y)
  {
  }

  /** Wrapping an operand of a sum first does not change the wrapped sum:
      Java's `result += a * b` keeps the exact sum modulo 2^32. */
  lemma WrapAddRight(x: int, y: int)
    ensures Wrap(x + Wrap(y)) == Wrap(x + y)
  {
  }

  lemma WrapAddLeft(x: int, y: int)
    ensures Wrap(Wrap(x) + y) == Wrap(x + y)
  {
  }

  /** Overflow wraps around: one past the largest `int` is the smallest,
      and 65536 * 65536 = 2^32 is 0. */
  lemma WrapExamples()
    ensures Wrap(MAX_VALUE + 1) == MIN_VALUE
    ensures Wrap(0x1_0000 * 0x1_0000) == 0
    ensures Wrap(MAX_VALUE * 2) == -2
  {
  }

  // ---------------------------------------------------------------------
  // Decimal text

  predicate IsDigit(c: char) {
    '0' <= c <= '9'
  }

  predicate AllDigits(s: string) {
    forall i :: 0 <= i < |s| ==> IsDigit(s[i])
  }

  function DigitValue(c: char): (d: nat)
    requires IsDigit(c)
    ensures d < 10
  {
    c as int - '0' as int
  }

  function DigitChar(d: nat): (c: char)
    requires d < 10
    ensures IsDigit(c) && DigitValue(c) == d
  {
    ('0' as int + d) as char
  }

  /** The number a string of decimal digits denotes, most significant
      first; leading zeros are allowed. */
  function DigitsValue(s: string): nat
    requires AllDigits(s)
  {
    if |s| == 0 then 0 else DigitsValue(s[..|s| - 1]) * 10 + DigitValue(s[|s| - 1])
  }

  /** `Integer.parseInt(s)` (radix 10): an optional `-` or `+` followed by
      one or more digits whose value fits in an `int`. Anything else —
      the empty string, a lone sign, a space, a letter, a value out of
      range — makes Java throw `NumberFormatException`, modelled as None. */
  function ParseInt(s: string): (r: Option<int32>)
    ensures r.Some? ==> |s| > 0
  {
    if |s| == 0 then None
    else
      var signed := s[0] == '-' || s[0] == '+';
      var digits := if signed then s[1..] else s;
      if |digits| == 0 || !AllDigits(digits) then None
      else
        var magnitude: int := DigitsValue(digits);
        var value := if s[0] == '-' then -magnitude else magnitude;
        if MIN_VALUE <= value <= MAX_VALUE then Some(value) else None
  }

  /** The shortest decimal digits of `n`, most significant first. */
  function NatDigits(n: nat): (s: string)
    ensures |s| > 0 && AllDigits(s)
    ensures s[0] == '0' <==> n == 0
    decreases n
  {
    if n < 10 then [DigitChar(n)] else NatDigits(n / 10) + [DigitChar(n % 10)]
  }

  /** `String.valueOf(n)`: a `-` for negative numbers, then the digits of
      the magnitude without leading zeros. */
  function Decimal(n: int32): (s: string)
    ensures |s| > 0
    ensures s[0] == '-' <==> n < 0
  {
    if n < 0 then "-" + NatDigits(-(n as int)) else NatDigits(n)
  }

  lemma {:induction false} NatDigitsValue(n: nat)
    ensures DigitsValue(NatDigits(n)) == n
    decreases n
  {
    if n >= 10 {
      var s := NatDigits(n);
      assert s[..|s| - 1] == NatDigits(n / 10);
      NatDigitsValue(n / 10);
    }
  }

  /** Parsing the text Java prints for an `int` gives that `int` back. */
  lemma ParseDecimal(n: int32)
    ensures ParseInt(Decimal(n)) == Some(n)
  {
    var s := Decimal(n);
    if n < 0 {
      var digits := NatDigits(-(n as int));
      assert s[1..] == digits;
      NatDigitsValue(-(n as int));
    } else {
      assert IsDigit(s[0]);
      NatDigitsValue(n);
    }
  }

  /** A leading `+` is accepted and changes nothing. */
  lemma ParsePlus(n: int32)
    requires n >= 0
    ensures ParseInt("+" + Decimal(n)) == Some(n)
  {
    assert ("+" + Decimal(n))[1..] == Decimal(n);
    NatDigitsValue(n);
  }

  /** A character other than a digit after the optional sign makes parsing
      fail; in particular no surrounding space is trimmed. */
  lemma ParseRejectsNonDigit(s: string, i: nat)
    requires i < |s| && !IsDigit(s[i])
    requires i > 0 || (s[0] != '-' && s[0] != '+')
    ensures ParseInt(s) == None
  {
  }

  /** Digits whose value leaves the `int` range make parsing fail. */
  lemma ParseRejectsOverflow(s: string)
    requires |s| > 0 && AllDigits(s) && DigitsValue(s) > MAX_VALUE
    ensures ParseInt(s) == None
    ensures DigitsValue(s) > -MIN_VALUE ==> ParseInt("-" + s) == None
  {
  }

  /** Malformed text and leading zeros in `Integer.parseInt`. */
  lemma ParseIntExamples()
    ensures ParseInt("") == None
    ensures ParseInt("-") == None && ParseInt("+") == None
    ensures ParseInt("007") == Some(7)
    ensures ParseInt("-0") == Some(0)
    ensures ParseInt(" 1") == None && ParseInt("1 ") == None
  {
    assert "007"[..2] == "00" && "00"[..1] == "0";
    assert "-0"[1..] == "0";
    ParseRejectsNonDigit(" 1", 0);
    ParseRejectsNonDigit("1 ", 1);
  }

  /** The digits of the smallest `int` parse only with their minus sign:
      the magnitude 2^31 alone is out of range, as is anything above it. */
  lemma ParseIntMinMagnitude()
    ensures ParseInt("-" + NatDigits(-MIN_VALUE)) == Some(MIN_VALUE)
    ensures ParseInt(NatDigits(-MIN_VALUE)) == None
    ensures ParseInt(NatDigits(-MIN_VALUE + 1)) == None && ParseInt("-" + NatDigits(-MIN_VALUE + 1)) == None
  {
    ParseDecimal(MIN_VALUE);
    NatDigitsValue(-MIN_VALUE);
    ParseRejectsOverflow(NatDigits(-MIN_VALUE));
    NatDigitsValue(-MIN_VALUE + 1);
    ParseRejectsOverflow(NatDigits(-MIN_VALUE + 1));
  }
}
