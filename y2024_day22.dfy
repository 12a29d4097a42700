/**
 * 2024 day 22: the monkeys' pseudo-random secret numbers.
 * Each step mixes (xor) a multiple or quotient of the secret into it and
 * prunes (keeps the remainder modulo 16777216 = 2^24).
 */
module Y2024Day22 {

  /**
   * Secrets are the source's non-negative `i64` values, held as 64-bit
   * vectors so that xor is native; below 2^57 neither `* 64` nor `* 2048`
   * after pruning can overflow, so the vector arithmetic is the integer one.
   */
  const Modulus: bv64 := 16777216

  /** `secret * 64` stays inside an `i64` exactly when the secret is below 2^57. */
  const Limit: bv64 := 0x200_0000_0000_0000

  /**
   * Pruning, `% 16777216`: on a non-negative value the remainder by 2^24 is
   * its low 24 bits.
   */
  function Prune(s: bv64): (r: bv64)
    ensures r < Modulus
  {
    s & (Modulus - 1)
  }

  /**
   * `next_secret`: three mix-and-prune rounds. Multiplying and dividing by
   * the powers of two 64, 32 and 2048 are shifts by 6, 5 and 11 bits.
   */
  function NextSecret(i: bv64): (r: bv64)
    requires i < Limit
    ensures r < Modulus
  {
    var s1 := Prune((i << 6) ^ i);
    var s2 := Prune((s1 >> 5) ^ s1);
    Prune((s2 << 11) ^ s2)
  }

  lemma MulBy64(x: bv64)
    requires x < Limit
    ensures x << 6 == x * 64 && x * 64 < 0x8000_0000_0000_0000 && (x * 64) / 64 == x
  {
  }

  lemma MulBy2048(x: bv64)
    requires x < Modulus
    ensures x << 11 == x * 2048 && (x * 2048) / 2048 == x
  {
  }

  lemma DivBy32(x: bv64)
    ensures x >> 5 == x / 32
  {
  }

  lemma PruneIsRemainder(x: bv64)
    ensures Prune(x) == x % 0x100_0000
  {
    assert Modulus - 1 == 0xFF_FFFF;
  }

  /**
   * The shifts of `NextSecret` are the source's arithmetic: below the limit
   * `<< 6` multiplies by 64 without leaving a non-negative `i64` (nor
   * wrapping), `>> 5` divides by 32, `<< 11` multiplies a pruned value by 2048
   * without wrapping, and pruning is the remainder by 16777216.
   */
  lemma ShiftIsArithmetic(x: bv64)
    requires x < Limit
    ensures x << 6 == x * 64 && x * 64 < 0x8000_0000_0000_0000 && (x * 64) / 64 == x
    ensures x >> 5 == x / 32
    ensures x < Modulus ==> x << 11 == x * 2048 && (x * 2048) / 2048 == x
    ensures Prune(x) == x % 0x100_0000
  {
    MulBy64(x);
    DivBy32(x);
    if x < Modulus {
      MulBy2048(x);
    }
    PruneIsRemainder(x);
  }

  /** The first round of `next_secret` as the source writes it: `* 64`, xor, `% 16777216`. */
  lemma FirstRound(i: bv64)
    requires i < Limit
    ensures Prune((i << 6) ^ i) == ((i * 64) ^ i) % 0x100_0000
  {
    MulBy64(i);
    PruneIsRemainder((i << 6) ^ i);
  }

  /** The second round: `/ 32`, xor, `% 16777216`. */
  lemma SecondRound(s: bv64)
    ensures Prune((s >> 5) ^ s) == ((s / 32) ^ s) % 0x100_0000
  {
    DivBy32(s);
    PruneIsRemainder((s >> 5) ^ s);
  }

  /** The third round, on a pruned value: `* 2048`, xor, `% 16777216`. */
  lemma ThirdRound(s: bv64)
    requires s < Modulus
    ensures Prune((s << 11) ^ s) == ((s * 2048) ^ s) % 0x100_0000
  {
    MulBy2048(s);
    PruneIsRemainder((s << 11) ^ s);
  }

  /** `nth_secret`: `count` applications of `next_secret`; a negative count never returns, so counts are `nat`. */
  function NthSecret(i: bv64, count: nat): (r: bv64)
    requires i < Limit
    ensures count > 0 ==> r < Modulus
    ensures count == 0 ==> r == i
    decreases count
  {
    if count == 0 then i else NthSecret(NextSecret(i), count - 1)
  }

  /** Generating m secrets and then n more is generating m + n secrets. */
  lemma {:induction false} NthSecretAdditive(i: bv64, m: nat, n: nat)
    requires i < Limit
    ensures NthSecret(i, m) < Limit
    ensures NthSecret(i, m + n) == NthSecret(NthSecret(i, m), n)
    decreases m
  {
    if m > 0 {
      NthSecretAdditive(NextSecret(i), m - 1, n);
    }
  }

  /** The successive secrets of `test_123`. */
  lemma Secrets123()
    ensures NextSecret(123) == 15887950
    ensures NextSecret(15887950) == 16495136
  {
  }

  lemma TenthSecret123()
    ensures NthSecret(123, 10) == 5908254
  {
    assert NthSecret(123, 1) == 15887950;
    assert NthSecret(123, 2) == 16495136;
    assert NthSecret(123, 3) == 527345;
    assert NthSecret(123, 4) == 704524;
    assert NthSecret(123, 5) == 1553684;
    assert NthSecret(123, 6) == 12683156;
    assert NthSecret(123, 7) == 11100544;
    assert NthSecret(123, 8) == 12249484;
    assert NthSecret(123, 9) == 7753432;
  }
}
