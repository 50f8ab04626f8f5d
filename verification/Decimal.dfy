/** Decimal numbers as text. */
module Decimal {

  function DigitChar(d: nat): (c: char)
    requires d < 10
    ensures '0' <= c <= '9' && c as int - '0' as int == d
  {
    ('0' as int + d) as char
  }

  /** The decimal digits of n, without leading zeros. */
  function Dec(n: nat): (s: string)
    ensures s != ""
  {
    if n < 10 then [DigitChar(n)] else Dec(n / 10) + [DigitChar(n % 10)]
  }

  ghost predicate Digits(s: string) {
    forall i :: 0 <= i < |s| ==> '0' <= s[i] <= '9'
  }

  /** The value of a string of digits. */
  function Value(s: string): (n: int) {
    if s == "" then 0 else Value(s[..|s| - 1]) * 10 + (s[|s| - 1] as int - '0' as int)
  }

  lemma {:induction false} ValueOfDec(n: nat)
    ensures Digits(Dec(n)) && Value(Dec(n)) == n
  {
    var s := Dec(n);
    if n < 10 {
      assert s[..0] == "";
    } else {
      ValueOfDec(n / 10);
      assert s[..|s| - 1] == Dec(n / 10);
    }
  }

  lemma {:induction false} ValueIsNat(s: string)
    requires Digits(s)
    ensures Value(s) >= 0
  {
    if s != "" {
      ValueIsNat(s[..|s| - 1]);
    }
  }

  /** More digits never make a smaller value. */
  lemma {:induction false} ValueGrows(s: string, k: nat)
    requires Digits(s) && k <= |s|
    ensures 0 <= Value(s[..k]) <= Value(s)
  {
    if k == |s| {
      assert s[..k] == s;
      ValueIsNat(s);
    } else {
      var front := s[..|s| - 1];
      ValueGrows(front, k);
      assert front[..k] == s[..k];
    }
  }
}
