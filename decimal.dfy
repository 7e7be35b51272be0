/** The decimal text of an integer, as fmt.Sprint writes it, and its reading back. */
module Decimal {

  function DigitChar(d: nat): (c: char)
    requires d < 10
    ensures '0' <= c <= '9' && c as int - '0' as int == d
  {
    ('0' as int + d) as char
  }

  predicate AllDigits(s: string) {
    forall i :: 0 <= i < |s| ==> '0' <= s[i] <= '9'
  }

  /** An optional minus sign followed by at least one digit. */
  predicate IsDecimal(s: string) {
    if |s| > 0 && s[0] == '-' then |s| > 1 && AllDigits(s[1..]) else |s| > 0 && AllDigits(s)
  }

  /** The digits of n, most significant first. */
  function NatString(n: nat): (s: string)
    ensures |s| > 0 && AllDigits(s)
    ensures n > 0 ==> s[0] != '0'
    decreases n
  {
    if n < 10 then [DigitChar(n)] else NatString(n / 10) + [DigitChar(n % 10)]
  }

  function ParseNat(s: string): nat
    requires AllDigits(s)
    decreases |s|
  {
    if s == [] then 0 else 10 * ParseNat(s[..|s| - 1]) + (s[|s| - 1] as int - '0' as int)
  }

  function ParseDecimal(s: string): int
    requires IsDecimal(s)
  {
    if s[0] == '-' then -(ParseNat(s[1..]) as int) else ParseNat(s)
  }

  lemma {:induction false} ParseNatString(n: nat)
    ensures ParseNat(NatString(n)) == n
    decreases n
  {
    if n >= 10 {
      var s := NatString(n);
      assert s[..|s| - 1] == NatString(n / 10);
      ParseNatString(n / 10);
    }
  }

  /** fmt.Sprint of a Go integer: the text reads back as the same integer, so
      distinct integers give distinct texts. */
  function DecimalString(x: int): (s: string)
    ensures IsDecimal(s) && ParseDecimal(s) == x
    // the one canonical spelling: no leading zero, and no "-0"
    ensures s[0] == '0' ==> s == "0"
    ensures s[0] == '-' ==> s[1] != '0'
  {
    ParseNatString(if x < 0 then -x else x);
    if x < 0 then
      var digits := NatString(-x);
      assert ("-" + digits)[1..] == digits;
      "-" + digits
    else
      NatString(x)
  }
}
