/** Go's `strconv.Atoi` and `strconv.Itoa` on a 64-bit platform, the two
    conversions the component handler uses to turn custom IDs and menu values
    into integers. */
module Strconv {
  import opened Optional

  /** Bounds of Go's `int` on a 64-bit platform. */
  const MinInt: int := -0x8000_0000_0000_0000
  const MaxInt: int :=  0x7FFF_FFFF_FFFF_FFFF

  predicate InIntRange(n: int) {
    MinInt <= n <= MaxInt
  }

  predicate IsDigit(c: char) {
    '0' <= c <= '9'
  }

  predicate AllDigits(s: string) {
    forall k :: 0 <= k < |s| ==> IsDigit(s[k])
  }

  function DigitValue(c: char): (d: nat)
    requires IsDigit(c)
    ensures d < 10
  {
    c as int - '0' as int
  }

  function DigitChar(d: nat): (c: char)
    requires d < 10
    ensures IsDigit(c) && DigitValue(c) == d
  {
    ('0' as int + d) as char
  }

  /** The value of a string of decimal digits, most significant first. */
  function DigitsValue(s: string): nat
    requires AllDigits(s)
    decreases |s|
  {
    if |s| == 0 then 0 else 10 * DigitsValue(s[..|s| - 1]) + DigitValue(s[|s| - 1])
  }

  /** `strconv.Atoi`: an optional `+` or `-` sign followed by at least one
      decimal digit (leading zeros allowed, no underscores, no spaces), whose
      value fits a 64-bit `int`; anything else is a syntax or range error. */
  function Atoi(s: string): (r: Option<int>)
    ensures r.Some? ==> InIntRange(r.value)
    ensures r.Some? ==> 0 < |s| && forall k :: 0 < k < |s| ==> IsDigit(s[k])
    ensures r.Some? ==> IsDigit(s[0]) || s[0] == '+' || s[0] == '-'
  {
    if |s| == 0 then None
    else
      var signed := s[0] == '+' || s[0] == '-';
      var digits := if signed then s[1..] else s;
      if |digits| == 0 || !AllDigits(digits) then None
      else
        var magnitude: int := DigitsValue(digits);
        var n := if s[0] == '-' then -magnitude else magnitude;
        if InIntRange(n) then Some(n) else None
  }

  /** The shortest decimal spelling of a natural number. */
  function NatDigits(v: nat): (s: string)
    ensures 0 < |s| && AllDigits(s)
    ensures DigitsValue(s) == v
    ensures s[0] == '0' ==> s == "0"
    decreases v
  {
    if v < 10 then [DigitChar(v)]
    else
      var front := NatDigits(v / 10);
      var s := front + [DigitChar(v % 10)];
      assert s[..|s| - 1] == front;
      s
  }

  /** `strconv.Itoa`: a leading `-` for negative numbers, then the digits of
      the magnitude without leading zeros. */
  function Itoa(n: int): string {
    if n < 0 then "-" + NatDigits(-n) else NatDigits(n)
  }

  /** Every character `Itoa` produces is a digit or the leading minus sign. */
  lemma ItoaAlphabet(n: int)
    ensures 0 < |Itoa(n)|
    ensures forall k :: 0 <= k < |Itoa(n)| ==> IsDigit(Itoa(n)[k]) || (k == 0 && n < 0 && Itoa(n)[k] == '-')
  {
  }

  /** Parsing what `Itoa` printed gives back the number, for every `int`. */
  lemma AtoiItoa(n: int)
    requires InIntRange(n)
    ensures Atoi(Itoa(n)) == Some(n)
  {
    var s := Itoa(n);
    if n < 0 {
      assert s[1..] == NatDigits(-n);
    }
  }

  /** Conversely, a string `Atoi` accepts is `Itoa` of the result exactly
      when it is written canonically: no `+`, no leading zero, no `-0`. */
  lemma ItoaAtoi(s: string)
    requires Atoi(s).Some?
    requires s[0] != '+'
    requires s[0] == '-' ==> 1 < |s| && s[1] != '0'
    requires s[0] == '0' ==> s == "0"
    ensures Itoa(Atoi(s).value) == s
  {
    var digits := if s[0] == '-' then s[1..] else s;
    CanonicalDigits(digits);
    if s[0] == '-' {
      if DigitsValue(digits) == 0 {
        ZeroDigits(digits);
        assert false;
      }
      assert s == "-" + digits;
    }
  }

  /** And only such strings are: a string that `Itoa` reproduces has no
      `+`, no leading zero and no `-0`. */
  lemma CanonicalOfItoa(s: string)
    requires Atoi(s).Some? && Itoa(Atoi(s).value) == s
    ensures s[0] != '+'
    ensures s[0] == '-' ==> 1 < |s| && s[1] != '0'
    ensures s[0] == '0' ==> s == "0"
  {
    var n := Atoi(s).value;
    if n < 0 {
      var digits := NatDigits(-n);
      assert s == "-" + digits;
      assert s[1] == digits[0];
    }
  }

  /** Digit strings without a leading zero are the spelling of their value. */
  lemma {:induction false} CanonicalDigits(s: string)
    requires 0 < |s| && AllDigits(s)
    requires s[0] == '0' ==> s == "0"
    ensures NatDigits(DigitsValue(s)) == s
    decreases |s|
  {
    var v := DigitsValue(s);
    if |s| == 1 {
      assert s[..|s| - 1] == [];
      assert DigitsValue(s[..|s| - 1]) == 0;
      assert v == DigitValue(s[0]);
      assert s == [s[0]];
    } else {
      var front := s[..|s| - 1];
      assert front[0] == s[0];
      if DigitsValue(front) == 0 {
        ZeroDigits(front);
        assert false;
      }
      CanonicalDigits(front);
      assert v / 10 == DigitsValue(front);
      assert v % 10 == DigitValue(s[|s| - 1]);
      assert s == front + [s[|s| - 1]];
    }
  }

  /** Only digit strings starting with '0' (or empty) have value zero. */
  lemma {:induction false} ZeroDigits(s: string)
    requires 0 < |s| && AllDigits(s)
    requires DigitsValue(s) == 0
    ensures s[0] == '0'
    decreases |s|
  {
    if |s| > 1 {
      var front := s[..|s| - 1];
      ZeroDigits(front);
      assert front[0] == s[0];
    }
  }
}
