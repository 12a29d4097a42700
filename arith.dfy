/**
 * Facts about integer multiplication and division that the solver does not
 * find on its own, shared by the puzzle modules.
 */
module Arith {

  lemma MulDistributes(x: int, y: int, z: int)
    ensures (x + y) * z == x * z + y * z
    ensures (x - y) * z == x * z - y * z
  {
  }

  lemma MulAdd(a: int, x: int, y: int)
    ensures a * (x + y) == a * x + a * y
  {
  }

  lemma MulSub(a: int, x: int, y: int)
    ensures a * (x - y) == a * x - a * y
  {
  }

  lemma MulAssociates(x: int, y: int, z: int)
    ensures x * y * z == x * (z * y)
  {
  }

  lemma MulSwap(a: int, x: int, y: int)
    ensures a * (x * y) == x * (a * y)
  {
  }

  lemma MulAtLeast(k: int, d: nat)
    requires k >= 1
    ensures k * d >= d
  {
    assert k * d == (k - 1) * d + d;
  }

  lemma MulMonotone(x: nat, x': nat, y: nat, y': nat)
    requires x >= x' && y >= y'
    ensures x * y >= x' * y'
  {
    assert x * y >= x' * y by {
      assert x * y - x' * y == (x - x') * y;
    }
    assert x' * y >= x' * y' by {
      assert x' * y - x' * y' == x' * (y - y');
    }
  }

  /** Quotient and remainder are the only pair that rebuilds n below d. */
  lemma DivModUnique(n: nat, d: nat, q: nat, r: nat)
    requires d > 0 && r < d && n == q * d + r
    ensures q == n / d && r == n % d
  {
    var q', r' := n / d, n % d;
    if q < q' {
      assert (q' - q) * d == r - r' by { MulDistributes(q', q, d); }
      MulAtLeast(q' - q, d);
    } else if q > q' {
      assert (q - q') * d == r' - r by { MulDistributes(q, q', d); }
      MulAtLeast(q - q', d);
    }
  }

  /** The same for any integer: Euclidean division leaves a remainder in [0, d). */
  lemma DivModUniqueInt(n: int, d: nat, q: int, r: int)
    requires d > 0 && 0 <= r < d && n == q * d + r
    ensures q == n / d && r == n % d
  {
    var q', r' := n / d, n % d;
    if q < q' {
      assert (q' - q) * d == r - r' by { MulDistributes(q', q, d); }
      MulAtLeast(q' - q, d);
    } else if q > q' {
      assert (q - q') * d == r' - r by { MulDistributes(q, q', d); }
      MulAtLeast(q - q', d);
    }
  }

  lemma MulDivCancel(k: nat, b: nat)
    requires b > 0
    ensures (k * b) / b == k && (k * b) % b == 0
  {
    DivModUnique(k * b, b, k, 0);
  }
}
