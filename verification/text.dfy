/** Decimal rendering of counts and ids, as Python's string formatting of an `int` writes them. */
module Text {

  const Digits: string := "0123456789"

  /** The decimal digits of `n`, most significant first. */
  function Decimal(n: nat): (s: string)
    ensures |s| >= 1
    ensures forall i :: 0 <= i < |s| ==> '0' <= s[i] <= '9'
    ensures s[0] == '0' ==> n == 0
  {
    if n < 10 then [Digits[n]] else Decimal(n / 10) + [Digits[n % 10]]
  }

  /** The number a string of decimal digits denotes. */
  function DigitsValue(s: string): nat
    requires forall i :: 0 <= i < |s| ==> '0' <= s[i] <= '9'
  {
    if s == [] then 0 else 10 * DigitsValue(s[..|s| - 1]) + (s[|s| - 1] as int - '0' as int)
  }

  /** Reading the rendered digits back gives the number. */
  lemma {:induction false} DecimalRoundTrip(n: nat)
    ensures DigitsValue(Decimal(n)) == n
  {
    if n >= 10 {
      var s := Decimal(n / 10);
      var r := s + [Digits[n % 10]];
      DecimalRoundTrip(n / 10);
      assert Decimal(n) == r;
      assert r[..|s|] == s && r[|s|] == Digits[n % 10];
      assert Digits[n % 10] as int - '0' as int == n % 10;
      assert DigitsValue(r) == 10 * DigitsValue(s) + n % 10;
      assert n == 10 * (n / 10) + n % 10;
    }
  }
}
