/** Decimal rendering and parsing of unsigned integers. */
module Decimal {
  import opened Wrappers

  const DIGITS := "0123456789"

  predicate IsDigit(c: char) {
    '0' <= c <= '9'
  }

  function Digit(d: nat): (c: char)
    requires d < 10
    ensures IsDigit(c)
  {
    DIGITS[d]
  }

  function DigitValue(c: char): (d: nat)
    requires IsDigit(c)
    ensures d < 10
  {
    (c - '0') as nat
  }

  function Render(n: nat): (s: string)
    ensures s != [] && forall i :: 0 <= i < |s| ==> IsDigit(s[i])
  {
    if n < 10 then [Digit(n)] else Render(n / 10) + [Digit(n % 10)]
  }

  /** The value of a string of digits; None when another character occurs or nothing does. */
  function Value(s: string): Option<nat> {
    if s == [] || !IsDigit(s[|s| - 1]) then None
    else if |s| == 1 then Some(DigitValue(s[0]))
    else match Value(s[..|s| - 1])
      case None => None
      case Some(v) => Some(10 * v + DigitValue(s[|s| - 1]))
  }

  /** An unsigned integer below a bound; one leading plus sign is accepted. */
  function Parse(s: string, bound: nat): Option<nat> {
    var digits := if |s| > 1 && s[0] == '+' then s[1..] else s;
    match Value(digits)
    case None => None
    case Some(v) => if v < bound then Some(v) else None
  }

  lemma {:induction false} ValueOfRender(n: nat)
    ensures Value(Render(n)) == Some(n)
  {
    if n >= 10 {
      ValueOfRender(n / 10);
      var s := Render(n / 10) + [Digit(n % 10)];
      assert s[..|s| - 1] == Render(n / 10);
      assert s[|s| - 1] == Digit(n % 10);
    }
    assert forall d: nat :: d < 10 ==> DigitValue(Digit(d)) == d;
  }

  /** No number is written with a leading zero but zero itself. */
  lemma {:induction false} NoLeadingZero(n: nat)
    ensures Render(n)[0] == '0' <==> n == 0
    ensures n == 0 ==> Render(n) == "0"
  {
    if n >= 10 {
      NoLeadingZero(n / 10);
    }
  }

  lemma RenderInjective(m: nat, n: nat)
    requires Render(m) == Render(n)
    ensures m == n
  {
    ValueOfRender(m);
    ValueOfRender(n);
  }

  lemma ParseOfRender(n: nat, bound: nat)
    ensures Parse(Render(n), bound) == if n < bound then Some(n) else None
  {
    ValueOfRender(n);
  }

  /** One leading plus sign makes no difference, and a sign alone is no number. */
  lemma ParseOfPlus(n: nat, bound: nat)
    ensures Parse("+" + Render(n), bound) == Parse(Render(n), bound) && Parse("+", bound) == None
            && Parse("", bound) == None
  {
    assert ("+" + Render(n))[1..] == Render(n) && Render(n)[0] != '+';
  }

  /** Equal numbered names come from equal numbers. */
  lemma NumberedNames(stem: string, m: nat, n: nat)
    requires stem + Render(m) == stem + Render(n)
    ensures m == n
  {
    assert (stem + Render(m))[|stem|..] == Render(m);
    assert (stem + Render(n))[|stem|..] == Render(n);
    RenderInjective(m, n);
  }
}
