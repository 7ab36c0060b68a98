/**
 * The lifecycle value of a breaker (Go's `State`, an `int` with three named
 * values given by `iota`) and its rendering as text.
 */
module BreakerState {

  /** Go's `State` is a defined `int`; any integer is a `State`, three of them are named. */
  newtype State = int

  const StateClosed: State := 0
  const StateHalfOpen: State := 1
  const StateOpen: State := 2

  predicate IsKnown(s: State) {
    s == StateClosed || s == StateHalfOpen || s == StateOpen
  }

  /** The fixed text in front of the number of a state that has no name. */
  const UnknownPrefix: string := "unknown state: "

  predicate IsDigit(ch: char) {
    '0' <= ch <= '9'
  }

  function DigitChar(d: nat): (ch: char)
    requires d < 10
    ensures IsDigit(ch)
    ensures ch as int - '0' as int == d
  {
    ('0' as int + d) as char
  }

  /** The decimal digits of `n`, most significant first, as the `%d` verb writes them. */
  function NatDecimal(n: nat): (r: string)
    ensures |r| >= 1
    ensures |r| == 1 <==> n < 10
    ensures forall i :: 0 <= i < |r| ==> IsDigit(r[i])
    ensures r[0] == '0' ==> n == 0  // no leading zeros
    decreases n
  {
    if n < 10 then [DigitChar(n)] else NatDecimal(n / 10) + [DigitChar(n % 10)]
  }

  /** The number a string of decimal digits stands for, most significant digit first. */
  function DigitsValue(s: string): (v: nat)
    requires forall i :: 0 <= i < |s| ==> IsDigit(s[i])
    decreases |s|
  {
    if s == [] then 0
    else
      assert IsDigit(s[|s| - 1]);
      10 * DigitsValue(s[..|s| - 1]) + (s[|s| - 1] as int - '0' as int)
  }

  /** The digits `NatDecimal` writes stand for the number it was given. */
  lemma {:induction false} NatDecimalValue(n: nat)
    ensures DigitsValue(NatDecimal(n)) == n
    decreases n
  {
    var r := NatDecimal(n);
    if n >= 10 {
      assert r[..|r| - 1] == NatDecimal(n / 10);
      NatDecimalValue(n / 10);
    }
  }

  /** `%d` of a signed integer: a minus sign for negative values, then the digits of the magnitude. */
  function Decimal(i: int): (r: string)
    ensures |r| >= 1
    ensures r[0] == '-' <==> i < 0
    ensures i < 0 ==> r[1..] == NatDecimal(-i) && DigitsValue(r[1..]) == -i
    ensures i >= 0 ==> r == NatDecimal(i) && DigitsValue(r) == i
  {
    NatDecimalValue(if i < 0 then -i else i);
    if i < 0 then "-" + NatDecimal(-i) else NatDecimal(i)
  }

  /** `State.String`: the three named states have their names, any other value a message. */
  function String(s: State): (r: string)
    ensures r == "closed" <==> s == StateClosed
    ensures r == "half-open" <==> s == StateHalfOpen
    ensures r == "open" <==> s == StateOpen
    ensures !IsKnown(s) ==> |r| > |UnknownPrefix| && r[..|UnknownPrefix|] == UnknownPrefix
  {
    if s == StateClosed then "closed"
    else if s == StateHalfOpen then "half-open"
    else if s == StateOpen then "open"
    else UnknownPrefix + Decimal(s as int)
  }

  lemma NatDecimalInjective(a: nat, b: nat)
    requires NatDecimal(a) == NatDecimal(b)
    ensures a == b
  {
    NatDecimalValue(a);
    NatDecimalValue(b);
  }

  lemma DecimalInjective(i: int, j: int)
    requires Decimal(i) == Decimal(j)
    ensures i == j
  {
  }

  /** Distinct states are rendered as distinct texts, the unnamed ones included. */
  lemma StringInjective(s: State, t: State)
    requires String(s) == String(t)
    ensures s == t
  {
  }
}
