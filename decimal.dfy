/**
 * Decimal digit strings: `str::parse` on a run of ASCII digits and
 * `to_string` on a natural number, shared by the puzzle modules.
 */
module Decimal {
  import opened Arith

  function Pow10(k: nat): (r: nat)
    ensures r >= 1
  {
    if k == 0 then 1 else 10 * Pow10(k - 1)
  }

  predicate IsDigits(s: string)
  {
    forall i :: 0 <= i < |s| ==> '0' <= s[i] <= '9'
  }

  function DigitChar(d: nat): (c: char)
    requires d < 10
    ensures '0' <= c <= '9'
  {
    (d + '0' as int) as char
  }

  /** `str::parse::<u64>` on a string of digits (leading zeros are allowed, as in Rust). */
  function Parse(s: string): (r: nat)
    requires IsDigits(s)
    ensures r < Pow10(|s|)
  {
    if s == [] then 0
    else
      var init := s[..|s| - 1];
      var d := s[|s| - 1] as int - '0' as int;
      assert IsDigits(init);
      assert Parse(init) <= Pow10(|init|) - 1;
      Parse(init) * 10 + d
  }

  /** `u64::to_string`: decimal digits, most significant first, no leading zero. */
  function ToDecimal(n: nat): (r: string)
    ensures IsDigits(r) && |r| >= 1
    ensures |r| > 1 ==> r[0] != '0'
    ensures Parse(r) == n
  {
    if n < 10 then [DigitChar(n)]
    else
      var r := ToDecimal(n / 10) + [DigitChar(n % 10)];
      assert r[..|r| - 1] == ToDecimal(n / 10);
      r
  }

  /** The digit string of n has exactly k digits when 10^(k-1) <= n < 10^k. */
  lemma {:induction false} DigitCount(n: nat)
    requires n >= 1
    ensures Pow10(|ToDecimal(n)| - 1) <= n < Pow10(|ToDecimal(n)|)
  {
    if n >= 10 {
      DigitCount(n / 10);
    }
  }

  lemma {:induction false} ParseConcat(a: string, b: string)
    requires IsDigits(a) && IsDigits(b)
    ensures IsDigits(a + b)
    ensures Parse(a + b) == Parse(a) * Pow10(|b|) + Parse(b)
  {
    assert IsDigits(a + b);
    if b != [] {
      var b' := b[..|b| - 1];
      assert (a + b)[..|a + b| - 1] == a + b';
      ParseConcat(a, b');
      var d := b[|b| - 1] as int - '0' as int;
      var pa, pb, p := Parse(a), Parse(b'), Pow10(|b'|);
      assert Parse(a + b) == (pa * p + pb) * 10 + d;
      assert Parse(b) == pb * 10 + d;
      assert Pow10(|b|) == 10 * p;
      assert (pa * p + pb) * 10 == pa * (10 * p) + pb * 10 by {
        MulDistributes(pa * p, pb, 10);
        MulAssociates(pa, p, 10);
      }
    } else {
      assert a + b == a;
    }
  }
}
