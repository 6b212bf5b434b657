/**
 * Decimal text and integers, as Go's `strconv` package converts them:
 * `Atoi` parses an optionally signed run of ASCII digits into a Go `int`,
 * `IntToString` renders an integer the way `strconv.Itoa` does.
 * Go's `int` is taken to be 64 bits wide.
 */
module Decimal {
  import opened Wrappers

  /** The range of Go's `int` on a 64-bit platform. */
  const MinInt: int := -0x8000_0000_0000_0000
  const MaxInt: int := 0x7fff_ffff_ffff_ffff

  predicate InIntRange(n: int) {
    MinInt <= n <= MaxInt
  }

  predicate IsDigit(c: char) {
    '0' <= c <= '9'
  }

  predicate AllDigits(s: string) {
    forall i :: 0 <= i < |s| ==> IsDigit(s[i])
  }

  function DigitValue(c: char): (d: nat)
    requires IsDigit(c)
    ensures d < 10
  {
    c as int - '0' as int
  }

  function DigitChar(d: nat): (c: char)
    requires d < 10
    ensures IsDigit(c) && DigitValue(c) == d
  {
    ('0' as int + d) as char
  }

  /** The number a run of digits denotes, most significant digit first. */
  function DigitsValue(s: string): nat
    requires AllDigits(s)
  {
    if s == [] then 0 else DigitsValue(s[..|s| - 1]) * 10 + DigitValue(s[|s| - 1])
  }

  /** The shortest run of digits that denotes `n`. */
  function NatToDigits(n: nat): (s: string)
    ensures |s| >= 1 && AllDigits(s)
  {
    if n < 10 then [DigitChar(n)] else NatToDigits(n / 10) + [DigitChar(n % 10)]
  }

  /** `strconv.Itoa`: a minus sign for negative numbers, then the digits of the magnitude. */
  function IntToString(n: int): string {
    if n < 0 then "-" + NatToDigits(-n) else NatToDigits(n)
  }

  /**
   * `strconv.Atoi`: an optional `+` or `-`, then one or more ASCII digits
   * (leading zeros allowed, nothing else); a value outside Go's `int`
   * range is an error, like every other malformed input.
   */
  function Atoi(s: string): (r: Option<int>)
    ensures r.Some? ==> InIntRange(r.value)
    ensures r.Some? ==> |s| >= 1 && IsDigit(s[|s| - 1])
  {
    var digits := Unsigned(s);
    if |digits| == 0 || !AllDigits(digits) then None
    else
      var magnitude: int := DigitsValue(digits);
      var v := if Negative(s) then -magnitude else magnitude;
      assert IsDigit(s[|s| - 1]) by { assert s[|s| - 1] == digits[|digits| - 1]; }
      if InIntRange(v) then Some(v) else None
  }

  /** The text starts with a minus sign. */
  predicate Negative(s: string) {
    |s| > 0 && s[0] == '-'
  }

  /** The text after an optional leading sign. */
  function Unsigned(s: string): string {
    if |s| > 0 && (s[0] == '+' || s[0] == '-') then s[1..] else s
  }

  /** A run of digits without superfluous leading zeros. */
  predicate CanonicalDigits(d: string) {
    |d| >= 1 && AllDigits(d) && (d[0] == '0' ==> |d| == 1)
  }

  /** The form `strconv.Itoa` produces: canonical digits, with `-` only before a non-zero magnitude. */
  predicate Canonical(s: string) {
    CanonicalDigits(s) || (|s| >= 2 && s[0] == '-' && CanonicalDigits(s[1..]) && s[1] != '0')
  }

  lemma {:induction false} DigitsValueOfNatToDigits(n: nat)
    ensures DigitsValue(NatToDigits(n)) == n
  {
    var s := NatToDigits(n);
    if n < 10 {
      assert s[..|s| - 1] == [];
    } else {
      assert s[..|s| - 1] == NatToDigits(n / 10);
      DigitsValueOfNatToDigits(n / 10);
    }
  }

  lemma {:induction false} NatToDigitsIsCanonical(n: nat)
    ensures CanonicalDigits(NatToDigits(n))
    ensures n >= 1 ==> NatToDigits(n)[0] != '0'
  {
    if n >= 10 {
      NatToDigitsIsCanonical(n / 10);
    }
  }

  lemma {:induction false} LeadingNonZeroIsPositive(d: string)
    requires |d| >= 1 && AllDigits(d) && d[0] != '0'
    ensures DigitsValue(d) >= 1
  {
    if |d| > 1 {
      LeadingNonZeroIsPositive(d[..|d| - 1]);
    } else {
      assert d[..|d| - 1] == [];
    }
  }

  lemma {:induction false} NatToDigitsOfDigitsValue(d: string)
    requires CanonicalDigits(d)
    ensures NatToDigits(DigitsValue(d)) == d
  {
    var p := d[..|d| - 1];
    var c := d[|d| - 1];
    if |d| == 1 {
      assert p == [];
      assert d == [c];
    } else {
      assert p[0] == d[0];
      LeadingNonZeroIsPositive(p);
      NatToDigitsOfDigitsValue(p);
      var n := DigitsValue(d);
      assert n / 10 == DigitsValue(p) && n % 10 == DigitValue(c);
      assert DigitChar(DigitValue(c)) == c;
      assert d == p + [c];
    }
  }

  /** Rendering then parsing gives back every `int`, and rejects everything outside the range. */
  lemma AtoiOfIntToString(n: int)
    ensures Atoi(IntToString(n)) == if InIntRange(n) then Some(n) else None
  {
    var s := IntToString(n);
    if n < 0 {
      assert s[1..] == NatToDigits(-n);
      DigitsValueOfNatToDigits(-n);
    } else {
      DigitsValueOfNatToDigits(n);
    }
  }

  /** `IntToString` always yields the canonical form. */
  lemma IntToStringIsCanonical(n: int)
    ensures Canonical(IntToString(n))
  {
    if n < 0 {
      NatToDigitsIsCanonical(-n);
      assert IntToString(n)[1..] == NatToDigits(-n);
    } else {
      NatToDigitsIsCanonical(n);
    }
  }

  /** Parsing then rendering gives back every canonical string that parses. */
  lemma IntToStringOfAtoi(s: string)
    requires Canonical(s) && Atoi(s).Some?
    ensures IntToString(Atoi(s).value) == s
  {
    if CanonicalDigits(s) {
      NatToDigitsOfDigitsValue(s);
    } else {
      var d := s[1..];
      LeadingNonZeroIsPositive(d);
      NatToDigitsOfDigitsValue(d);
      assert s == "-" + d;
    }
  }

  /** A character that is neither a digit nor a leading sign makes `Atoi` fail. */
  lemma AtoiRejectsNonDigit(s: string, i: int)
    requires 0 <= i < |s| && !IsDigit(s[i])
    requires i > 0 || (s[i] != '+' && s[i] != '-')
    ensures Atoi(s) == None
  {
  }

  /** The optional sign in front of the digits. */
  datatype Sign = NoSign | Plus | Minus

  function SignText(sign: Sign): string {
    match sign
    case NoSign => ""
    case Plus => "+"
    case Minus => "-"
  }

  /** A sign followed by digits parses to the signed value of the digits, when it fits an `int`. */
  lemma AtoiOfSignedDigits(sign: Sign, d: string)
    requires |d| >= 1 && AllDigits(d)
    ensures var m: int := DigitsValue(d);
            var v := if sign == Minus then -m else m;
            Atoi(SignText(sign) + d) == if InIntRange(v) then Some(v) else None
  {
    var s := SignText(sign) + d;
    if sign == NoSign {
      assert s == d;
      assert IsDigit(d[0]);
    } else {
      assert s[1..] == d;
    }
    assert Unsigned(s) == d;
    assert Negative(s) <==> sign == Minus;
    var m: int := DigitsValue(d);
    assert Atoi(s) == (var v := if Negative(s) then -m else m; if InIntRange(v) then Some(v) else None);
  }

  /** The empty string and a bare sign are malformed. */
  lemma AtoiRejectsEmpty()
    ensures Atoi("") == None && Atoi("+") == None && Atoi("-") == None
  {
  }
}
