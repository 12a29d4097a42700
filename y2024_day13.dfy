/**
 * 2024 day 13 (part 2): claw machines. Button A moves the claw by
 * `buttonA`, button B by `buttonB`; `solve` finds the presses i (of A) and
 * j (of B) that land on the prize by Cramer's rule and returns their cost.
 * The Rust code divides `i128`s, which truncates toward zero.
 */
module Y2024Day13 {
  import opened Arith
  import opened Wrappers

  datatype Machine = Machine(
    buttonA: (int, int),
    buttonB: (int, int),
    costA: int,
    costB: int,
    prize: (int, int))

  function Abs(x: int): nat
  {
    if x < 0 then -x else x
  }

  /** Rust's `/` on integers: the quotient of the magnitudes, negated when the signs differ. */
  function TDiv(a: int, b: int): int
    requires b != 0
  {
    if (a >= 0) == (b > 0) then Abs(a) / Abs(b) else -(Abs(a) / Abs(b))
  }

  /** Rust's `%`: what is left after `TDiv`; it has the sign of the dividend. */
  function TMod(a: int, b: int): int
    requires b != 0
  {
    a - TDiv(a, b) * b
  }

  /** The remainder vanishes exactly when b divides a, and then the quotient is exact. */
  lemma TDivExact(a: int, b: int)
    requires b != 0
    ensures TMod(a, b) == 0 <==> Abs(a) % Abs(b) == 0
    ensures TMod(a, b) == 0 ==> TDiv(a, b) * b == a
  {
    var q, r := Abs(a) / Abs(b), Abs(a) % Abs(b);
    assert Abs(a) == q * Abs(b) + r;
    var t := TDiv(a, b);
    // |t * b| == q * |b| and t * b has the sign of a (or is 0)
    if a >= 0 && b > 0 {
      assert t * b == q * Abs(b);
    } else if a >= 0 {
      assert t * b == (-q) * b == q * Abs(b);
    } else if b > 0 {
      assert t * b == (-q) * b == -(q * Abs(b));
    } else {
      assert t * b == q * b == -(q * Abs(b));
    }
    assert TMod(a, b) == r || TMod(a, b) == -r;
  }

  /** A multiple of b divides exactly, with the multiplier as quotient. */
  lemma TDivOfMultiple(k: int, b: int)
    requires b != 0
    ensures TMod(k * b, b) == 0 && TDiv(k * b, b) == k
  {
    var a := k * b;
    assert Abs(a) == Abs(k) * Abs(b) by {
      if k < 0 && b < 0 { assert a == (-k) * (-b); }
      else if k < 0 { assert -a == (-k) * b; }
      else if b < 0 { assert -a == k * (-b); }
    }
    MulDivCancel(Abs(k), Abs(b));
    TDivExact(a, b);
    assert TDiv(a, b) == k by {
      if k == 0 { assert a == 0; }
      else if (k > 0) == (b > 0) { assert a > 0 || a == 0; }
    }
  }

  /** The prize moved by `offset` along both axes. */
  function Target(m: Machine, offset: int): (int, int)
  {
    (m.prize.0 + offset, m.prize.1 + offset)
  }

  function Num(m: Machine, offset: int): int
  {
    var prize := Target(m, offset);
    m.buttonA.0 * prize.1 - m.buttonA.1 * prize.0
  }

  function Den(m: Machine): int
  {
    m.buttonA.0 * m.buttonB.1 - m.buttonA.1 * m.buttonB.0
  }

  /** i presses of A and j presses of B reach the (offset) prize. */
  predicate Hits(m: Machine, offset: int, i: int, j: int)
  {
    var prize := Target(m, offset);
    i * m.buttonA.0 + j * m.buttonB.0 == prize.0 && i * m.buttonA.1 + j * m.buttonB.1 == prize.1
  }

  /**
   * `solve` as written: reject when `num % den != 0`, else j = num / den and
   * i = (prize.x - bx * j) / ax with nothing checking that this division is
   * exact. A zero `den` or `ax` makes Rust panic, so both are required.
   */
  function SolveAsWritten(m: Machine, offset: int): (r: Option<int>)
    requires Den(m) != 0 && m.buttonA.0 != 0
    ensures r.None? <==> Abs(Num(m, offset)) % Abs(Den(m)) != 0
  {
    TDivExact(Num(m, offset), Den(m));
    var prize := Target(m, offset);
    var num, den := Num(m, offset), Den(m);
    if TMod(num, den) != 0 then None
    else
      var j := TDiv(num, den);
      var i := TDiv(prize.0 - m.buttonB.0 * j, m.buttonA.0);
      Some(m.costB * j + m.costA * i)
  }

  /**
   * The evidently intended `solve`: both divisions must be exact, so that a
   * result is returned exactly when whole numbers of presses reach the prize
   * (see `SolveSound` and `SolveComplete`).
   */
  function Solve(m: Machine, offset: int): (r: Option<int>)
    requires Den(m) != 0 && m.buttonA.0 != 0
    ensures r.Some? ==> Abs(Num(m, offset)) % Abs(Den(m)) == 0
  {
    TDivExact(Num(m, offset), Den(m));
    var prize := Target(m, offset);
    var num, den := Num(m, offset), Den(m);
    if TMod(num, den) != 0 then None
    else
      var j := TDiv(num, den);
      var rest := prize.0 - m.buttonB.0 * j;
      if TMod(rest, m.buttonA.0) != 0 then None
      else
        var i := TDiv(rest, m.buttonA.0);
        Some(m.costB * j + m.costA * i)
  }

  /** Cramer's rule: presses that hit the prize satisfy j * den == num. */
  lemma CramerJ(m: Machine, offset: int, i: int, j: int)
    requires Hits(m, offset, i, j)
    ensures j * Den(m) == Num(m, offset)
  {
    var (aX, aY) := m.buttonA;
    var (bX, bY) := m.buttonB;
    var (pX, pY) := Target(m, offset);
    assert pY == i * aY + j * bY && pX == i * aX + j * bX;
    assert aX * pY == i * (aX * aY) + j * (aX * bY) by {
      MulAdd(aX, i * aY, j * bY);
      MulSwap(aX, i, aY);
      MulSwap(aX, j, bY);
    }
    assert aY * pX == i * (aX * aY) + j * (aY * bX) by {
      MulAdd(aY, i * aX, j * bX);
      MulSwap(aY, i, aX);
      MulSwap(aY, j, bX);
    }
    assert Num(m, offset) == j * (aX * bY) - j * (aY * bX);
    MulSub(j, aX * bY, aY * bX);
  }

  /** Whole presses that hit the prize are found by the intended `solve`, at their cost. */
  lemma SolveComplete(m: Machine, offset: int, i: int, j: int)
    requires Den(m) != 0 && m.buttonA.0 != 0 && Hits(m, offset, i, j)
    ensures Solve(m, offset) == Some(m.costA * i + m.costB * j)
  {
    CramerJ(m, offset, i, j);
    TDivOfMultiple(j, Den(m));
    var rest := Target(m, offset).0 - m.buttonB.0 * j;
    assert rest == i * m.buttonA.0;
    TDivOfMultiple(i, m.buttonA.0);
  }

  /** Whatever the intended `solve` returns is the cost of whole presses that hit the prize. */
  lemma SolveSound(m: Machine, offset: int)
    requires Den(m) != 0 && m.buttonA.0 != 0 && Solve(m, offset).Some?
    ensures exists i, j :: Hits(m, offset, i, j) && Solve(m, offset).value == m.costA * i + m.costB * j
  {
    var num, den := Num(m, offset), Den(m);
    TDivExact(num, den);
    var j := TDiv(num, den);
    var rest := Target(m, offset).0 - m.buttonB.0 * j;
    TDivExact(rest, m.buttonA.0);
    var i := TDiv(rest, m.buttonA.0);
    HitFound(m, offset, i, j);
  }

  lemma HitFound(m: Machine, offset: int, i: int, j: int)
    requires Den(m) != 0 && m.buttonA.0 != 0 && j * Den(m) == Num(m, offset)
    requires i * m.buttonA.0 == Target(m, offset).0 - m.buttonB.0 * j
    ensures Hits(m, offset, i, j)
  {
    var (aX, aY) := m.buttonA;
    var (bX, bY) := m.buttonB;
    var (pX, pY) := Target(m, offset);
    var y := i * aY + j * bY;
    assert aX * y == aX * pY by {
      MulAdd(aX, i * aY, j * bY);
      MulSwap(aX, i, aY);
      MulSwap(aX, j, bY);
      assert aX * y == aY * (i * aX) + j * (aX * bY);
      assert aY * (i * aX) == aY * pX - aY * (bX * j) by { MulSub(aY, pX, bX * j); }
      MulSwap(aY, bX, j);
      MulSub(j, aX * bY, aY * bX);
      assert aX * y == aY * pX + j * Den(m);
    }
    CancelFactor(aX, y, pY);
  }

  lemma CancelFactor(a: int, x: int, y: int)
    requires a != 0 && a * x == a * y
    ensures x == y
  {
    MulSub(a, x, y);
    assert a * (x - y) == 0;
  }

  /** On every machine whole presses can win, the two versions agree. */
  lemma AgreeWhenReachable(m: Machine, offset: int, i: int, j: int)
    requires Den(m) != 0 && m.buttonA.0 != 0 && Hits(m, offset, i, j)
    ensures SolveAsWritten(m, offset) == Solve(m, offset)
  {
    SolveComplete(m, offset, i, j);
    CramerJ(m, offset, i, j);
    TDivOfMultiple(j, Den(m));
    TDivOfMultiple(i, m.buttonA.0);
  }

  /**
   * The as-written `solve` returns a cost for a machine no whole number of
   * presses can win: A = (2, 0), B = (1, 1), prize (4, 1) gives j = 1 and
   * i = 3 / 2, truncated to 1, although (1, 1) presses land on (3, 1).
   */
  lemma InexactPressesAccepted(m: Machine)
    requires m == Machine((2, 0), (1, 1), 3, 1, (4, 1))
    ensures SolveAsWritten(m, 0) == Some(4)
  {
    InexactMachineNumbers(m);
    SmallQuotients();
  }

  /** The intended `solve` rejects that machine. */
  lemma InexactPressesRejected(m: Machine)
    requires m == Machine((2, 0), (1, 1), 3, 1, (4, 1))
    ensures Solve(m, 0) == None
  {
    InexactMachineNumbers(m);
    SmallQuotients();
  }

  lemma InexactMachineNumbers(m: Machine)
    requires m == Machine((2, 0), (1, 1), 3, 1, (4, 1))
    ensures Num(m, 0) == 2 && Den(m) == 2 && Target(m, 0) == (4, 1)
  {
  }

  lemma SmallQuotients()
    ensures TDiv(2, 2) == 1 && TMod(2, 2) == 0
    ensures TDiv(3, 2) == 1 && TMod(3, 2) == 1
  {
    DivModUnique(3, 2, 1, 1);
  }

  /** ... and indeed no whole number of presses wins that machine. */
  lemma InexactMachineUnwinnable(m: Machine)
    requires m == Machine((2, 0), (1, 1), 3, 1, (4, 1))
    ensures forall i, j :: !Hits(m, 0, i, j)
  {
    forall i, j ensures !Hits(m, 0, i, j) {
      NoWholePresses(i, j);
    }
  }

  lemma NoWholePresses(i: int, j: int)
    ensures i * 2 + j * 1 != 4 || i * 0 + j * 1 != 1
  {
    if j == 1 {
      assert i <= 1 ==> i * 2 <= 2;
      assert i >= 2 ==> i * 2 >= 4;
    }
  }

  /** The machines of `test_solve`. */
  lemma SampleMachine0()
    ensures Solve(Machine((94, 34), (22, 67), 3, 1, (8400, 5400)), 0) == Some(280)
  {
    SolveComplete(Machine((94, 34), (22, 67), 3, 1, (8400, 5400)), 0, 80, 40);
  }

  lemma SampleMachine2()
    ensures Solve(Machine((17, 86), (84, 37), 3, 1, (7870, 6450)), 0) == Some(200)
  {
    SolveComplete(Machine((17, 86), (84, 37), 3, 1, (7870, 6450)), 0, 38, 86);
  }

  lemma SampleMachine1()
    ensures Solve(Machine((26, 66), (67, 21), 3, 1, (12748, 12176)), 0) == None
    ensures Solve(Machine((26, 66), (67, 21), 3, 1, (12748, 12176)), 10000000000000) == Some(459236326669)
  {
    var m := Machine((26, 66), (67, 21), 3, 1, (12748, 12176));
    assert Num(m, 0) == 26 * 12176 - 66 * 12748 && Den(m) == 26 * 21 - 66 * 67;
    assert TMod(-524792, -3876) != 0;
    SolveComplete(m, 10000000000000, 118679050709, 103199174542);
  }

  lemma SampleMachine3()
    ensures Solve(Machine((69, 23), (27, 71), 3, 1, (18641, 10279)), 0) == None
  {
    var m := Machine((69, 23), (27, 71), 3, 1, (18641, 10279));
    assert Num(m, 0) == 69 * 10279 - 23 * 18641 && Den(m) == 69 * 71 - 23 * 27;
    assert TMod(280508, 4278) != 0;
  }
}
