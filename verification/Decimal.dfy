/** Decimal text of integers, as `strconv` prints and parses them. */
module Decimal {
  import opened Wrappers

  predicate IsDigit(c: char) {
    '0' <= c <= '9'
  }

  function Digit(n: nat): char
    requires n < 10
  {
    ('0' as int + n) as char
  }

  function Digits(n: nat): (s: string)
    ensures s != [] && forall i :: 0 <= i < |s| ==> IsDigit(s[i])
  {
    if n < 10 then [Digit(n)] else Digits(n / 10) + [Digit(n % 10)]
  }

  function Format(n: int): string {
    if n < 0 then "-" + Digits(-n) else Digits(n)
  }

  function DigitValue(c: char): nat
    requires IsDigit(c)
  {
    c as int - '0' as int
  }

  function Value(s: string): nat
    requires forall i :: 0 <= i < |s| ==> IsDigit(s[i])
  {
    if s == [] then 0 else 10 * Value(s[..|s| - 1]) + DigitValue(s[|s| - 1])
  }

  function ParseDigits(s: string): Option<nat> {
    if s != [] && forall i :: 0 <= i < |s| ==> IsDigit(s[i]) then Some(Value(s)) else None
  }

  /** An optional sign and at least one digit. */
  function Parse(s: string): Option<int> {
    if s == [] then None
    else if s[0] == '-' then
      var d := ParseDigits(s[1..]);
      if d.None? then None else Some(-(d.value as int))
    else
      var d := ParseDigits(if s[0] == '+' then s[1..] else s);
      if d.None? then None else Some(d.value)
  }

  lemma {:induction false} ValueOfDigits(n: nat)
    ensures Value(Digits(n)) == n
  {
    if n >= 10 {
      var s := Digits(n);
      ValueOfDigits(n / 10);
      assert s[..|s| - 1] == Digits(n / 10);
    } else {
      var s := Digits(n);
      assert s[..0] == [];
    }
  }

  lemma RoundTrip(n: int)
    ensures Parse(Format(n)) == Some(n)
  {
    var d := if n < 0 then -n else n;
    ValueOfDigits(d);
    assert ("-" + Digits(d))[1..] == Digits(d);
    assert IsDigit(Digits(d)[0]);
  }
}
