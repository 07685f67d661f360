/** Integers as text. */
module Numerals {

  /** The value of a string of decimal digits. */
  function Reads(digits: string): nat
    requires forall i | 0 <= i < |digits| :: '0' <= digits[i] <= '9'
  {
    if digits == "" then 0
    else Reads(digits[..|digits| - 1]) * 10 + (digits[|digits| - 1] as int - '0' as int)
  }

  function Digits(n: nat): (s: string)
    ensures s != "" && (forall i | 0 <= i < |s| :: '0' <= s[i] <= '9') && Reads(s) == n
  {
    var last := ['0' + (n % 10) as char];
    if n < 10 then last else
      var s := Digits(n / 10) + last;
      assert s[..|s| - 1] == Digits(n / 10);
      s
  }

  /** What `str` makes of an integer. */
  function Decimal(n: int): string {
    if n < 0 then "-" + Digits(-n) else Digits(n)
  }
}
