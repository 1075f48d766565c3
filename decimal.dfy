/** Decimal text: C's `atoi` and the decimal rendering of integers that
    Python's `str(int)` produces. */
module Decimal {

  predicate IsDigit(c: char)
  {
    '0' <= c <= '9'
  }

  predicate AllDigits(s: string)
  {
    forall i :: 0 <= i < |s| ==> IsDigit(s[i])
  }

  function DigitValue(c: char): (d: nat)
    requires IsDigit(c)
    ensures d < 10
  {
    c as int - '0' as int
  }

  function DigitChar(d: nat): (c: char)
    requires d < 10
    ensures IsDigit(c) && DigitValue(c) == d
  {
    ('0' as int + d) as char
  }

  /** The shortest decimal rendering of `n`: no sign and no leading zero. */
  function NatToString(n: nat): (s: string)
    ensures |s| >= 1 && AllDigits(s)
    ensures |s| > 1 ==> s[0] != '0'
  {
    if n < 10 then [DigitChar(n)] else NatToString(n / 10) + [DigitChar(n % 10)]
  }

  /** Python's `str()` of an int: a minus sign before the magnitude when negative. */
  function IntToString(i: int): (s: string)
    ensures |s| >= 1
    ensures (s[0] == '-') <==> i < 0
    ensures IsDigit(s[|s| - 1])
    ensures forall k :: 1 <= k < |s| ==> IsDigit(s[k])
  {
    if i < 0 then "-" + NatToString(-i) else NatToString(i)
  }

  /** The white-space characters C's `isspace` accepts in the "C" locale. */
  predicate IsCSpace(c: char)
  {
    c == ' ' || c == '\t' || c == '\n' || c == '\U{0B}' || c == '\U{0C}' || c == '\r'
  }

  /** Reads digits for as long as they last, starting from the value `acc`. */
  function ReadDigits(s: string, acc: nat): nat
  {
    if |s| > 0 && IsDigit(s[0]) then ReadDigits(s[1..], acc * 10 + DigitValue(s[0])) else acc
  }

  /** C's `atoi`: leading white space, an optional sign, then as many digits as
      follow; a string without digits reads as 0. (The C result is undefined
      when the value does not fit an `int`; here the integer is unbounded.) */
  function Atoi(s: string): int
  {
    if |s| > 0 && IsCSpace(s[0]) then Atoi(s[1..])
    else if |s| > 0 && s[0] == '-' then -(ReadDigits(s[1..], 0) as int)
    else if |s| > 0 && s[0] == '+' then ReadDigits(s[1..], 0)
    else ReadDigits(s, 0)
  }

  /** One more digit at the end multiplies what was read by ten and adds it. */
  lemma {:induction false} ReadDigitsSnoc(d: string, c: char, acc: nat)
    requires AllDigits(d) && IsDigit(c)
    ensures ReadDigits(d + [c], acc) == ReadDigits(d, acc) * 10 + DigitValue(c)
    decreases |d|
  {
    if |d| == 0 {
      assert d + [c] == [c];
      assert [c][1..] == [];
    } else {
      assert (d + [c])[1..] == d[1..] + [c];
      ReadDigitsSnoc(d[1..], c, acc * 10 + DigitValue(d[0]));
    }
  }

  lemma {:induction false} ReadNatToString(n: nat)
    ensures ReadDigits(NatToString(n), 0) == n
  {
    if n < 10 {
      assert NatToString(n)[1..] == [];
    } else {
      ReadNatToString(n / 10);
      ReadDigitsSnoc(NatToString(n / 10), DigitChar(n % 10), 0);
    }
  }

  /** `atoi` reads back every integer Python's `str()` writes. */
  lemma {:induction false} AtoiOfIntToString(i: int)
    ensures Atoi(IntToString(i)) == i
  {
    if i < 0 {
      var s := "-" + NatToString(-i);
      ReadNatToString(-i);
      assert s[1..] == NatToString(-i);
    } else {
      ReadNatToString(i);
    }
  }

  /** Reading stops at the first character that is not a digit. */
  lemma {:induction false} ReadDigitsStops(d: string, rest: string, acc: nat)
    requires AllDigits(d) && (|rest| == 0 || !IsDigit(rest[0]))
    ensures ReadDigits(d + rest, acc) == ReadDigits(d, acc)
    decreases |d|
  {
    if |d| == 0 {
      assert d + rest == rest;
    } else {
      assert (d + rest)[1..] == d[1..] + rest;
      ReadDigitsStops(d[1..], rest, acc * 10 + DigitValue(d[0]));
    }
  }

  lemma AppendAssociates(a: string, b: string, c: string)
    ensures (a + b) + c == a + (b + c)
  {
  }

  lemma AtoiMinus(t: string)
    ensures Atoi("-" + t) == -(ReadDigits(t, 0) as int)
  {
    assert ("-" + t)[1..] == t;
  }

  /** A decimal rendering of a non-negative integer is read back by `atoi`
      whatever non-digit text follows it. */
  lemma AtoiOfNonNegativeThen(i: int, rest: string)
    requires i >= 0
    requires |rest| == 0 || !IsDigit(rest[0])
    ensures Atoi(IntToString(i) + rest) == i
  {
    var d := NatToString(i);
    assert (d + rest)[0] == d[0];
    ReadDigitsStops(d, rest, 0);
    ReadNatToString(i);
  }

  /** The same for a negative integer, written with a minus sign. */
  lemma AtoiOfNegativeThen(i: int, rest: string)
    requires i < 0
    requires |rest| == 0 || !IsDigit(rest[0])
    ensures Atoi(IntToString(i) + rest) == i
  {
    var d := NatToString(-i);
    AppendAssociates("-", d, rest);
    AtoiMinus(d + rest);
    ReadDigitsStops(d, rest, 0);
    ReadNatToString(-i);
  }

  /** `atoi` reads back the number at the front of a text that goes on with
      something other than a digit. */
  lemma AtoiOfIntToStringThen(i: int, rest: string)
    requires |rest| == 0 || !IsDigit(rest[0])
    ensures Atoi(IntToString(i) + rest) == i
  {
    if i < 0 {
      AtoiOfNegativeThen(i, rest);
    } else {
      AtoiOfNonNegativeThen(i, rest);
    }
  }
}
