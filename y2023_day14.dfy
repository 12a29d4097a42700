/**
 * 2023 day 14: round rocks roll along a row of the plate until they meet a
 * square rock, another round rock or the start of the row.  The plate is
 * stored column by column, so tilting every row of it tilts the platform
 * north; the load of a row weighs each round rock by its distance from the
 * far end.
 */
module Y2023Day14 {
  import Y2023Lib
  import Arith

  datatype Rock = Round | Square | Empty

  function Empties(n: nat): (r: seq<Rock>)
    ensures |r| == n && forall k | 0 <= k < n :: r[k] == Empty
  {
    seq(n, _ => Empty)
  }

  /**
   * Reference reading of a tilt, scanning left to right: `done` is the part
   * already settled and `gap` counts the empty cells a round rock met now
   * would roll over; a square rock closes the gap behind it.
   */
  function TiltFrom(done: seq<Rock>, gap: nat, rest: seq<Rock>): seq<Rock>
    decreases |rest|
  {
    if rest == [] then done + Empties(gap)
    else match rest[0]
      case Empty => TiltFrom(done, gap + 1, rest[1..])
      case Round => TiltFrom(done + [Round], gap, rest[1..])
      case Square => TiltFrom(done + Empties(gap) + [Square], 0, rest[1..])
  }

  /** The row after every round rock has rolled towards index 0. */
  function Tilted(row: seq<Rock>): (r: seq<Rock>)
    ensures |r| == |row|
  {
    TiltFromShape([], 0, row);
    TiltFrom([], 0, row)
  }

  /** No round rock sits just after an empty cell: nothing can roll any more. */
  predicate Settled(s: seq<Rock>)
  {
    forall i | 0 < i < |s| :: !(s[i - 1] == Empty && s[i] == Round)
  }

  function Rounds(s: seq<Rock>): nat
  {
    if s == [] then 0 else (if s[0] == Round then 1 else 0) + Rounds(s[1..])
  }

  /** Same length, and square rocks at the same indices. */
  predicate SameSquares(a: seq<Rock>, b: seq<Rock>)
  {
    |a| == |b| && forall i | 0 <= i < |a| :: (a[i] == Square) <==> (b[i] == Square)
  }

  // ------------------------------------------------------------ tilt laws

  lemma {:induction false} TiltFromShape(done: seq<Rock>, gap: nat, rest: seq<Rock>)
    ensures |TiltFrom(done, gap, rest)| == |done| + gap + |rest|
    ensures TiltFrom(done, gap, rest)[..|done|] == done
    decreases |rest|
  {
    if rest != [] {
      var tail := rest[1..];
      match rest[0]
      case Empty =>
        TiltFromShape(done, gap + 1, tail);
      case Round =>
        TiltFromShape(done + [Round], gap, tail);
        var r := TiltFrom(done + [Round], gap, tail);
        assert r[..|done|] == r[..|done| + 1][..|done|];
      case Square =>
        var done' := done + Empties(gap) + [Square];
        TiltFromShape(done', 0, tail);
        var r := TiltFrom(done', 0, tail);
        assert r[..|done|] == r[..|done'|][..|done|];
    }
  }

  lemma {:induction false} TiltFromCounts(done: seq<Rock>, gap: nat, rest: seq<Rock>)
    ensures multiset(TiltFrom(done, gap, rest)) == multiset(done) + multiset(Empties(gap)) + multiset(rest)
    decreases |rest|
  {
    if rest != [] {
      var x, tail := rest[0], rest[1..];
      assert rest == [x] + tail;
      var m := multiset(tail);
      assert multiset(rest) == multiset{x} + m;
      if x == Empty {
        TiltFromCounts(done, gap + 1, tail);
        assert Empties(gap + 1) == Empties(gap) + [Empty];
        assert multiset(Empties(gap + 1)) == multiset(Empties(gap)) + multiset{Empty};
      } else if x == Round {
        TiltFromCounts(done + [Round], gap, tail);
        assert multiset(done + [Round]) == multiset(done) + multiset{Round};
      } else {
        var done' := done + Empties(gap) + [Square];
        TiltFromCounts(done', 0, tail);
        assert multiset(done') == multiset(done) + multiset(Empties(gap)) + multiset{Square};
        assert multiset(Empties(0)) == multiset{};
      }
    }
  }

  /** tilt keeps the length of the row and the number of rocks of each kind. */
  lemma TiltedCounts(row: seq<Rock>)
    ensures |Tilted(row)| == |row|
    ensures multiset(Tilted(row)) == multiset(row)
  {
    TiltFromCounts([], 0, row);
  }

  /** A round rock rolling over empty cells passes no square rock. */
  lemma RollKeepsSquares(done: seq<Rock>, g: nat, rest: seq<Rock>)
    ensures SameSquares(done + [Round] + Empties(g) + rest, done + Empties(g) + [Round] + rest)
  {
    var a, b := done + [Round] + Empties(g) + rest, done + Empties(g) + [Round] + rest;
    forall i | 0 <= i < |a| ensures (a[i] == Square) <==> (b[i] == Square) {
      if i < |done| {
        assert a[i] == done[i] == b[i];
      } else if i <= |done| + g {
        assert a[i] != Square && b[i] != Square;
      } else {
        assert a[i] == rest[i - |done| - g - 1] == b[i];
      }
    }
  }

  lemma {:induction false} TiltFromSquares(done: seq<Rock>, gap: nat, rest: seq<Rock>)
    ensures SameSquares(TiltFrom(done, gap, rest), done + Empties(gap) + rest)
    decreases |rest|
  {
    var whole := done + Empties(gap) + rest;
    if rest == [] {
      assert whole == done + Empties(gap);
    } else {
      var x, tail := rest[0], rest[1..];
      TiltFromNext(done, gap, rest);
      if x == Empty {
        TiltFromSquares(done, gap + 1, tail);
        assert done + Empties(gap + 1) + tail == whole;
      } else if x == Round {
        TiltFromSquares(done + [Round], gap, tail);
        RollKeepsSquares(done, gap, tail);
        assert done + Empties(gap) + [Round] + tail == whole;
      } else {
        TiltFromSquares(done + Empties(gap) + [Square], 0, tail);
        assert done + Empties(gap) + [Square] + Empties(0) + tail == whole;
      }
    }
  }

  /** tilt leaves every square rock where it was, and puts none anywhere else. */
  lemma SquaresStay(row: seq<Rock>)
    ensures SameSquares(Tilted(row), row)
  {
    TiltFromSquares([], 0, row);
    assert [] + Empties(0) + row == row;
  }

  lemma {:induction false} TiltFromSettled(done: seq<Rock>, gap: nat, rest: seq<Rock>)
    requires Settled(done) && (done == [] || done[|done| - 1] != Empty)
    ensures Settled(TiltFrom(done, gap, rest))
    decreases |rest|
  {
    if rest == [] {
      var r := done + Empties(gap);
      forall i | 0 < i < |r| ensures !(r[i - 1] == Empty && r[i] == Round) {
        if i < |done| {
          assert r[i - 1] == done[i - 1] && r[i] == done[i];
        } else {
          assert r[i] == Empties(gap)[i - |done|];
        }
      }
    } else {
      match rest[0]
      case Empty =>
        TiltFromSettled(done, gap + 1, rest[1..]);
      case Round =>
        var done' := done + [Round];
        forall i | 0 < i < |done'| ensures !(done'[i - 1] == Empty && done'[i] == Round) {
          if i < |done| {
            assert done'[i - 1] == done[i - 1] && done'[i] == done[i];
          }
        }
        TiltFromSettled(done', gap, rest[1..]);
      case Square =>
        var done' := done + Empties(gap) + [Square];
        forall i | 0 < i < |done'| ensures !(done'[i - 1] == Empty && done'[i] == Round) {
          if i < |done| {
            assert done'[i - 1] == done[i - 1] && done'[i] == done[i];
          } else if i < |done| + gap {
            assert done'[i] == Empties(gap)[i - |done|];
          }
        }
        TiltFromSettled(done', 0, rest[1..]);
    }
  }

  /** After tilt no round rock can roll further. */
  lemma TiltedSettled(row: seq<Rock>)
    ensures Settled(Tilted(row))
  {
    TiltFromSettled([], 0, row);
  }

  lemma {:induction false} SettledFixed(done: seq<Rock>, gap: nat, rest: seq<Rock>)
    requires Settled(rest) && (gap > 0 && rest != [] ==> rest[0] != Round)
    ensures TiltFrom(done, gap, rest) == done + Empties(gap) + rest
    decreases |rest|
  {
    if rest == [] {
    } else {
      var tail := rest[1..];
      assert rest == [rest[0]] + tail;
      assert Settled(tail) by {
        forall i | 0 < i < |tail| ensures !(tail[i - 1] == Empty && tail[i] == Round) {
          assert tail[i - 1] == rest[i] && tail[i] == rest[i + 1];
        }
      }
      match rest[0]
      case Empty =>
        assert tail != [] ==> tail[0] == rest[1] && rest[1] != Round;
        SettledFixed(done, gap + 1, tail);
        assert done + Empties(gap + 1) + tail == done + Empties(gap) + rest;
      case Round =>
        SettledFixed(done + [Round], 0, tail);
        assert done + [Round] + Empties(0) + tail == done + Empties(gap) + rest;
      case Square =>
        SettledFixed(done + Empties(gap) + [Square], 0, tail);
        assert done + Empties(gap) + [Square] + Empties(0) + tail == done + Empties(gap) + rest;
    }
  }

  /** A settled row is left as it is, so tilting twice is tilting once. */
  lemma TiltIdempotent(row: seq<Rock>)
    ensures Settled(row) ==> Tilted(row) == row
    ensures Tilted(Tilted(row)) == Tilted(row)
  {
    if Settled(row) {
      SettledFixed([], 0, row);
      assert [] + Empties(0) + row == row;
    }
    TiltedSettled(row);
    SettledFixed([], 0, Tilted(row));
    assert [] + Empties(0) + Tilted(row) == Tilted(row);
  }

  /** The three ways a tilt reads its next cell. */
  lemma TiltFromNext(done: seq<Rock>, gap: nat, rest: seq<Rock>)
    requires rest != []
    ensures rest[0] == Empty ==> TiltFrom(done, gap, rest) == TiltFrom(done, gap + 1, rest[1..])
    ensures rest[0] == Round ==> TiltFrom(done, gap, rest) == TiltFrom(done + [Round], gap, rest[1..])
    ensures rest[0] == Square ==> TiltFrom(done, gap, rest) == TiltFrom(done + Empties(gap) + [Square], 0, rest[1..])
  {
  }

  /** One empty cell read is one more cell in the gap. */
  lemma {:induction false} TiltFromGap(done: seq<Rock>, gap: nat, k: nat, rest: seq<Rock>)
    ensures TiltFrom(done, gap, Empties(k) + rest) == TiltFrom(done, gap + k, rest)
    decreases k
  {
    if k > 0 {
      var s := Empties(k) + rest;
      assert s[0] == Empty && s[1..] == Empties(k - 1) + rest;
      TiltFromGap(done, gap + 1, k - 1, rest);
    } else {
      assert Empties(0) + rest == rest;
    }
  }

  // ----------------------------------------------------------------- load

  /**
   * `load`: the fold over the reversed row adds i + 1 for a round rock i
   * cells from the end, that is |row| - j for the rock at index j.
   */
  function Load(row: seq<Rock>): nat
  {
    if row == [] then 0 else (if row[0] == Round then |row| else 0) + Load(row[1..])
  }

  lemma {:induction false} LoadConcat(a: seq<Rock>, b: seq<Rock>)
    ensures Load(a + b) == Load(a) + Rounds(a) * |b| + Load(b)
    decreases |a|
  {
    if a == [] {
      assert a + b == b;
    } else {
      var ab := a + b;
      assert ab[0] == a[0] && ab[1..] == a[1..] + b;
      LoadConcat(a[1..], b);
      if a[0] == Round {
        Arith.MulDistributes(1, Rounds(a[1..]), |b|);
      }
    }
  }

  lemma {:induction false} EmptiesWeightless(n: nat)
    ensures Load(Empties(n)) == 0 && Rounds(Empties(n)) == 0
    decreases n
  {
    if n > 0 {
      assert Empties(n) == [Empty] + Empties(n - 1);
      assert Empties(n)[1..] == Empties(n - 1);
      EmptiesWeightless(n - 1);
    }
  }

  /** Rolling a round rock over g empty cells raises the load by g. */
  lemma RollGain(done: seq<Rock>, g: nat, rest: seq<Rock>)
    ensures Load(done + [Round] + Empties(g) + rest) == Load(done + Empties(g) + [Round] + rest) + g
  {
    var x, y := [Round] + Empties(g) + rest, Empties(g) + [Round] + rest;
    assert done + [Round] + Empties(g) + rest == done + x;
    assert done + Empties(g) + [Round] + rest == done + y;
    LoadConcat(done, x);
    LoadConcat(done, y);
    RollGainAlone(g, rest);
  }

  lemma RollGainAlone(g: nat, rest: seq<Rock>)
    ensures Load([Round] + Empties(g) + rest) == Load(Empties(g) + [Round] + rest) + g
  {
    var x, y := [Round] + Empties(g) + rest, Empties(g) + ([Round] + rest);
    assert x[1..] == Empties(g) + rest;
    assert Empties(g) + [Round] + rest == y;
    EmptiesWeightless(g);
    LoadConcat(Empties(g), rest);
    LoadConcat(Empties(g), [Round] + rest);
    assert ([Round] + rest)[1..] == rest;
  }

  lemma {:induction false} TiltFromLoad(done: seq<Rock>, gap: nat, rest: seq<Rock>)
    ensures Load(TiltFrom(done, gap, rest)) >= Load(done + Empties(gap) + rest)
    decreases |rest|
  {
    if rest == [] {
      assert done + Empties(gap) + rest == done + Empties(gap);
    } else {
      var tail := rest[1..];
      assert rest == [rest[0]] + tail;
      match rest[0]
      case Empty =>
        TiltFromLoad(done, gap + 1, tail);
        assert done + Empties(gap + 1) + tail == done + Empties(gap) + rest;
      case Round =>
        TiltFromLoad(done + [Round], gap, tail);
        RollGain(done, gap, tail);
        assert done + Empties(gap) + [Round] + tail == done + Empties(gap) + rest;
      case Square =>
        TiltFromLoad(done + Empties(gap) + [Square], 0, tail);
        assert done + Empties(gap) + [Square] + Empties(0) + tail == done + Empties(gap) + rest;
    }
  }

  /** Tilting towards the start of the row never lowers its load. */
  lemma TiltRaisesLoad(row: seq<Rock>)
    ensures Load(Tilted(row)) >= Load(row)
  {
    TiltFromLoad([], 0, row);
    assert [] + Empties(0) + row == row;
  }

  /** test_tilt */
  lemma TiltExample(row: seq<Rock>)
    requires row == [Empty, Empty, Round, Square, Round, Empty, Round]
    ensures Tilted(row) == [Round, Empty, Empty, Square, Round, Round, Empty]
  {
    var none: seq<Rock> := [];
    var r6 := [Round] + none;
    var r5 := [Empty] + r6;
    var r4 := [Round] + r5;
    var r3 := [Square] + r4;
    var r2 := [Round] + r3;
    var r1 := [Empty] + r2;
    assert row == [Empty] + r1;
    TiltFromCons(none, 0, Empty, r1);
    TiltFromCons(none, 1, Empty, r2);
    TiltFromCons(none, 2, Round, r3);
    var d1 := none + [Round];
    TiltFromCons(d1, 2, Square, r4);
    var d2 := d1 + Empties(2) + [Square];
    TiltFromCons(d2, 0, Round, r5);
    var d3 := d2 + [Round];
    TiltFromCons(d3, 0, Empty, r6);
    TiltFromCons(d3, 1, Round, none);
    assert d3 + [Round] + Empties(1) == [Round, Empty, Empty, Square, Round, Round, Empty];
  }

  /** TiltFromNext, for a row given by its first cell and the rest. */
  lemma TiltFromCons(done: seq<Rock>, gap: nat, x: Rock, rest: seq<Rock>)
    ensures x == Empty ==> TiltFrom(done, gap, [x] + rest) == TiltFrom(done, gap + 1, rest)
    ensures x == Round ==> TiltFrom(done, gap, [x] + rest) == TiltFrom(done + [Round], gap, rest)
    ensures x == Square ==> TiltFrom(done, gap, [x] + rest) == TiltFrom(done + Empties(gap) + [Square], 0, rest)
  {
    var s := [x] + rest;
    assert s[0] == x && s[1..] == rest;
    TiltFromNext(done, gap, s);
  }

  // ------------------------------------------------------- tilt in place

  /**
   * `tilt`: find the next empty cell, skip the run of empty cells after it,
   * and either swap the round rock found there into the first empty cell
   * or step over the square rock; stop at the end of the row.
   */
  method TiltRow(row: array<Rock>)
    modifies row
    ensures row[..] == Tilted(old(row[..]))
  {
    ghost var target := Tilted(row[..]);
    var current := 0;
    var end := row.Length;
    var empty;
    while true
      invariant 0 <= current <= end
      invariant target == Scan(row[..], current)
      decreases end - current
    {
      empty := SkipRocks(row, current);
      current := SkipEmpties(row, empty);
      if current == end {
        EndStep(row[..], empty);
        return;
      }
      if row[current] == Round {
        ghost var before := row[..];
        RollStep(before, empty, current);
        row[empty] := Round;
        row[current] := Empty;
        assert row[..] == before[empty := Round][current := Empty];
        current := empty + 1;
      }
      if row[current] == Square {
        SquareStep(row[..], empty, current);
        current := current + 1;
      }
    }
  }

  /** The scan of a row whose first `current` cells are already settled. */
  ghost function Scan(row: seq<Rock>, current: nat): seq<Rock>
    requires current <= |row|
  {
    TiltFrom(row[..current], 0, row[current..])
  }

  /** The first loop of `tilt`: move past round and square rocks. */
  method SkipRocks(row: array<Rock>, start: nat) returns (current: nat)
    requires start <= row.Length
    ensures start <= current <= row.Length
    ensures current < row.Length ==> row[current] == Empty
    ensures Scan(row[..], start) == Scan(row[..], current)
  {
    current := start;
    while current < row.Length && row[current] != Empty
      invariant start <= current <= row.Length
      invariant Scan(row[..], start) == Scan(row[..], current)
    {
      SkipStep(row[..], current);
      current := current + 1;
    }
  }

  /** The second loop of `tilt`: move past the run of empty cells that starts at `empty`. */
  method SkipEmpties(row: array<Rock>, empty: nat) returns (current: nat)
    requires empty <= row.Length && (empty < row.Length ==> row[empty] == Empty)
    ensures empty <= current <= row.Length && (current < row.Length ==> empty < current && row[current] != Empty)
    ensures forall k | empty <= k < current :: row[k] == Empty
  {
    current := empty;
    while current < row.Length && row[current] == Empty
      invariant empty <= current <= row.Length
      invariant forall k | empty <= k < current :: row[k] == Empty
    {
      current := current + 1;
    }
  }

  /** Stepping over a rock with no gap pending keeps the outcome of the scan. */
  lemma SkipStep(row: seq<Rock>, current: nat)
    requires current < |row| && row[current] != Empty
    ensures Scan(row, current) == Scan(row, current + 1)
  {
    assert row[current..][0] == row[current] && row[current..][1..] == row[current + 1..];
    TiltFromNext(row[..current], 0, row[current..]);
    assert row[..current] + [row[current]] == row[..current + 1];
    assert row[..current] + Empties(0) + [row[current]] == row[..current + 1];
  }

  /** A run of empty cells read from a settled prefix becomes the gap. */
  lemma GapRun(row: seq<Rock>, empty: nat, current: nat)
    requires empty <= current <= |row|
    requires forall k | empty <= k < current :: row[k] == Empty
    ensures Scan(row, empty) == TiltFrom(row[..empty], current - empty, row[current..])
  {
    assert row[empty..] == Empties(current - empty) + row[current..];
    TiltFromGap(row[..empty], 0, current - empty, row[current..]);
  }

  /** A row that ends in a run of empty cells is what the scan gives back. */
  lemma EndStep(row: seq<Rock>, empty: nat)
    requires empty <= |row| && forall k | empty <= k < |row| :: row[k] == Empty
    ensures Scan(row, empty) == row
  {
    GapRun(row, empty, |row|);
    assert row[|row|..] == [];
    assert row == row[..empty] + Empties(|row| - empty);
  }

  /** The swap `tilt` makes keeps the outcome of the scan. */
  lemma RollStep(row: seq<Rock>, empty: nat, current: nat)
    requires empty < current < |row| && row[current] == Round
    requires forall k | empty <= k < current :: row[k] == Empty
    ensures var after := row[empty := Round][current := Empty];
      Scan(row, empty) == Scan(after, empty + 1) && after[empty + 1] == Empty
  {
    GapRun(row, empty, current);
    var after := row[empty := Round][current := Empty];
    assert row[current..][0] == Round && row[current..][1..] == row[current + 1..];
    TiltFromNext(row[..empty], current - empty, row[current..]);
    assert after[..empty + 1] == row[..empty] + [Round];
    assert after[empty + 1..] == Empties(current - empty) + row[current + 1..];
    TiltFromGap(after[..empty + 1], 0, current - empty, row[current + 1..]);
  }

  /** Stepping over a square rock closes the gap before it. */
  lemma SquareStep(row: seq<Rock>, empty: nat, current: nat)
    requires empty <= current < |row| && row[current] == Square
    requires forall k | empty <= k < current :: row[k] == Empty
    ensures Scan(row, empty) == Scan(row, current + 1)
  {
    GapRun(row, empty, current);
    assert row[current..][0] == Square && row[current..][1..] == row[current + 1..];
    TiltFromNext(row[..empty], current - empty, row[current..]);
    assert row[..empty] + Empties(current - empty) + [Square] == row[..current + 1];
  }

  /** test_tilt, on the array. */
  method TiltRowExample() returns (result: seq<Rock>)
    ensures result == [Round, Empty, Empty, Square, Round, Round, Empty]
  {
    var row := new Rock[7];
    row[0], row[1], row[2], row[3], row[4], row[5], row[6] := Empty, Empty, Round, Square, Round, Empty, Round;
    TiltExample(row[..]);
    TiltRow(row);
    result := row[..];
  }

  // --------------------------------------------------------------- plates

  /** A plate is rectangular with at least one cell (the parser reads one or more non-empty lines). */
  predicate IsPlate(p: seq<seq<Rock>>)
  {
    Y2023Lib.Rectangular(p) && |p[0]| > 0
  }

  function Reversed(s: seq<Rock>): (r: seq<Rock>)
    ensures |r| == |s| && forall k | 0 <= k < |s| :: r[k] == s[|s| - 1 - k]
  {
    seq(|s|, k requires 0 <= k < |s| => s[|s| - 1 - k])
  }

  /** Tilt every row towards its start (`towardStart`) or towards its end. */
  function TiltOne(row: seq<Rock>, towardStart: bool): (r: seq<Rock>)
    ensures |r| == |row|
  {
    if towardStart then Tilted(row) else Reversed(Tilted(Reversed(row)))
  }

  function TiltAll(p: seq<seq<Rock>>, towardStart: bool): (r: seq<seq<Rock>>)
    ensures |r| == |p| && forall i | 0 <= i < |p| :: |r[i]| == |p[i]|
  {
    seq(|p|, i requires 0 <= i < |p| => TiltOne(p[i], towardStart))
  }

  /** One quarter of a cycle: tilt every row, then transpose. */
  function Quarter(p: seq<seq<Rock>>, towardStart: bool): (r: seq<seq<Rock>>)
    requires IsPlate(p)
    ensures IsPlate(r) && |r| == |p[0]| && |r[0]| == |p|
  {
    Y2023Lib.Transpose(TiltAll(p, towardStart))
  }

  /** Quarters applied in order, one per entry of `dirs`. */
  function Quarters(p: seq<seq<Rock>>, dirs: seq<bool>): (r: seq<seq<Rock>>)
    requires IsPlate(p)
    ensures IsPlate(r)
    decreases |dirs|
  {
    if dirs == [] then p else Quarter(Quarters(p, dirs[..|dirs| - 1]), dirs[|dirs| - 1])
  }

  /** `cycle` as written: each of its four passes tilts towards the start of the rows. */
  const AsWrittenPasses: seq<bool> := [true, true, true, true]

  /** A spin cycle: north, west, then south and east, which tilt towards the ends of the rows. */
  const SpinPasses: seq<bool> := [true, true, false, false]

  /** Tilt each row of the plate with `tilt`, on a buffer of its own. */
  method TiltRows(p: seq<seq<Rock>>, towardStart: bool) returns (tilted: seq<seq<Rock>>)
    ensures tilted == TiltAll(p, towardStart)
  {
    ghost var all := TiltAll(p, towardStart);
    tilted := [];
    for i := 0 to |p|
      invariant tilted == all[..i]
    {
      var row := TiltCopy(p[i], towardStart);
      assert all[..i + 1] == all[..i] + [row];
      tilted := tilted + [row];
    }
    assert all[..|p|] == all;
  }

  /** One row of `TiltRows`: copied into a buffer, reversed when tilting towards the end, and tilted in place. */
  method TiltCopy(row: seq<Rock>, towardStart: bool) returns (r: seq<Rock>)
    ensures r == TiltOne(row, towardStart)
  {
    var oriented := if towardStart then row else Reversed(row);
    var a := new Rock[|oriented|](k requires 0 <= k < |oriented| => oriented[k]);
    assert a[..] == oriented;
    TiltRow(a);
    r := if towardStart then a[..] else Reversed(a[..]);
  }

  /** `cycle`: four passes of tilting every row and transposing the plate. */
  method Cycle(plate: seq<seq<Rock>>) returns (r: seq<seq<Rock>>)
    requires IsPlate(plate)
    ensures IsPlate(r) && r == Quarters(plate, AsWrittenPasses)
  {
    r := plate;
    for i := 0 to 4
      invariant IsPlate(r) && r == Quarters(plate, AsWrittenPasses[..i])
    {
      var tilted := TiltRows(r, true);
      r := Y2023Lib.Transpose(tilted);
      assert AsWrittenPasses[..i + 1] == AsWrittenPasses[..i] + [true];
      QuartersSnoc(plate, AsWrittenPasses[..i], true);
    }
    assert AsWrittenPasses[..4] == AsWrittenPasses;
  }

  /** A spin cycle as the puzzle describes it: the same passes, the last two towards the ends. */
  method SpinCycle(plate: seq<seq<Rock>>) returns (r: seq<seq<Rock>>)
    requires IsPlate(plate)
    ensures IsPlate(r) && r == Quarters(plate, SpinPasses)
  {
    r := plate;
    for i := 0 to 4
      invariant IsPlate(r) && r == Quarters(plate, SpinPasses[..i])
    {
      var tilted := TiltRows(r, i < 2);
      r := Y2023Lib.Transpose(tilted);
      assert SpinPasses[..i + 1] == SpinPasses[..i] + [i < 2];
      QuartersSnoc(plate, SpinPasses[..i], i < 2);
    }
    assert SpinPasses[..4] == SpinPasses;
  }

  /**
   * The last pass of a spin cycle tilts east: read line by line (the
   * transpose of the plate), no round rock can roll towards the end of its line.
   */
  lemma SpinEndsEast(plate: seq<seq<Rock>>)
    requires IsPlate(plate)
    ensures var lines := Y2023Lib.Transpose(Quarters(plate, SpinPasses));
      forall j | 0 <= j < |lines| :: Settled(Reversed(lines[j]))
  {
    var before := Quarters(plate, SpinPasses[..3]);
    assert SpinPasses[..4][..3] == SpinPasses[..3];
    assert SpinPasses[..4] == SpinPasses;
    var tilted := TiltAll(before, false);
    assert Y2023Lib.Rectangular(tilted) && |tilted[0]| > 0;
    Y2023Lib.TransposeTwice(tilted);
    forall j | 0 <= j < |tilted| ensures Settled(Reversed(tilted[j])) {
      var t := Tilted(Reversed(before[j]));
      TiltedSettled(Reversed(before[j]));
      assert Reversed(Reversed(t)) == t;
    }
  }

  /**
   * Written `cycle` never tilts south: a single column with its round rock
   * at the bottom ends with the rock at the top, where a spin cycle leaves it
   * at the bottom.
   */
  lemma CycleNeverSouth(p: seq<seq<Rock>>)
    requires p == [[Empty, Round]]
    ensures Quarters(p, AsWrittenPasses) == [[Round, Empty]]
    ensures Quarters(p, SpinPasses) == [[Empty, Round]]
  {
    var north, line := [[Round, Empty]], [[Round], [Empty]];
    QuarterNorth(p);
    QuarterLines(line);
    QuarterNorth(north);
    QuarterSouth(north, [[Empty], [Round]]);
    var none: seq<bool> := [];
    QuartersSnoc(p, none, true);
    assert none + [true] == [true];
    QuartersSnoc(p, [true], true);
    CycleEnds(p, [true, true], north);
  }

  /** The last two passes, from the plate after north and west. */
  lemma CycleEnds(p: seq<seq<Rock>>, firstTwo: seq<bool>, north: seq<seq<Rock>>)
    requires IsPlate(p) && firstTwo == [true, true] && north == [[Round, Empty]]
    requires Quarters(p, firstTwo) == north
    requires Quarter(north, true) == [[Round], [Empty]] && Quarter([[Round], [Empty]], true) == north
    requires Quarter(north, false) == [[Empty], [Round]] && Quarter([[Empty], [Round]], false) == [[Empty, Round]]
    ensures Quarters(p, AsWrittenPasses) == [[Round, Empty]]
    ensures Quarters(p, SpinPasses) == [[Empty, Round]]
  {
    QuartersSnoc(p, firstTwo, true);
    QuartersSnoc(p, firstTwo + [true], true);
    QuartersSnoc(p, firstTwo, false);
    QuartersSnoc(p, firstTwo + [false], false);
    assert firstTwo + [true] + [true] == AsWrittenPasses;
    assert firstTwo + [false] + [false] == SpinPasses;
  }

  lemma QuartersSnoc(p: seq<seq<Rock>>, dirs: seq<bool>, d: bool)
    requires IsPlate(p)
    ensures Quarters(p, dirs + [d]) == Quarter(Quarters(p, dirs), d)
  {
    assert (dirs + [d])[..|dirs|] == dirs;
  }

  lemma TiltedSmall(a: seq<Rock>, b: seq<Rock>, c: seq<Rock>, d: seq<Rock>)
    requires a == [Empty, Round] && b == [Round, Empty] && c == [Round] && d == [Empty]
    ensures Tilted(a) == b && Tilted(b) == b && Tilted(c) == c && Tilted(d) == d
  {
    var none: seq<Rock> := [];
    assert a[1..] == c && b[1..] == d && c[1..] == [] && d[1..] == [];
    assert none + [Round] == c;
    TiltFromNext(none, 0, a);
    TiltFromNext(none, 1, c);
    TiltFromNext(none, 0, b);
    TiltFromNext(c, 0, d);
    TiltFromNext(none, 0, c);
    TiltFromNext(none, 0, d);
  }

  lemma TransposePair(x: Rock, y: Rock)
    ensures Y2023Lib.Transpose([[x, y]]) == [[x], [y]]
    ensures Y2023Lib.Transpose([[x], [y]]) == [[x, y]]
  {
    var r := Y2023Lib.Transpose([[x, y]]);
    assert r[0] == [x] && r[1] == [y];
    var t := Y2023Lib.Transpose([[x], [y]]);
    assert t[0] == [x, y];
  }

  lemma QuarterNorth(p: seq<seq<Rock>>)
    requires p == [[Empty, Round]] || p == [[Round, Empty]]
    ensures Quarter(p, true) == [[Round], [Empty]]
  {
    TiltedSmall([Empty, Round], [Round, Empty], [Round], [Empty]);
    assert TiltAll(p, true) == [[Round, Empty]];
    TransposePair(Round, Empty);
  }

  lemma QuarterLines(line: seq<seq<Rock>>)
    requires line == [[Round], [Empty]]
    ensures Quarter(line, true) == [[Round, Empty]]
  {
    TiltedSmall([Empty, Round], [Round, Empty], [Round], [Empty]);
    assert TiltAll(line, true) == line;
    TransposePair(Round, Empty);
  }

  lemma QuarterSouth(north: seq<seq<Rock>>, line: seq<seq<Rock>>)
    requires north == [[Round, Empty]] && line == [[Empty], [Round]]
    ensures Quarter(north, false) == line
    ensures Quarter(line, false) == [[Empty, Round]]
  {
    TiltedSmall([Empty, Round], [Round, Empty], [Round], [Empty]);
    assert Reversed([Round, Empty]) == [Empty, Round] && Reversed([Empty, Round]) == [Round, Empty];
    assert Reversed([Round]) == [Round] && Reversed([Empty]) == [Empty];
    assert TiltAll(north, false) == [[Empty, Round]];
    assert TiltAll(line, false) == line;
    TransposePair(Empty, Round);
  }

  // ---------------------------------------------------------------- parts

  function TotalLoad(p: seq<seq<Rock>>): nat
  {
    if p == [] then 0 else Load(p[0]) + TotalLoad(p[1..])
  }

  /** `part1`: the load on the north beams after one tilt north. */
  function Part1(plate: seq<seq<Rock>>): nat
  {
    TotalLoad(TiltAll(plate, true))
  }

  /** Tilting the whole plate north never lowers its load. */
  lemma {:induction false} Part1AtLeast(plate: seq<seq<Rock>>)
    ensures Part1(plate) >= TotalLoad(plate)
    decreases |plate|
  {
    if plate != [] {
      var t := TiltAll(plate, true);
      assert t[1..] == TiltAll(plate[1..], true);
      TiltRaisesLoad(plate[0]);
      Part1AtLeast(plate[1..]);
    }
  }

  /** `count` calls of `cycle` as written. */
  function CyclesAsWritten(plate: seq<seq<Rock>>, n: nat): (r: seq<seq<Rock>>)
    requires IsPlate(plate)
    ensures IsPlate(r)
  {
    if n == 0 then plate else Quarters(CyclesAsWritten(plate, n - 1), AsWrittenPasses)
  }

  /** `part2` as written: the north load after `count` calls of `cycle`. */
  method Part2(plate: seq<seq<Rock>>, count: nat) returns (load: nat)
    requires IsPlate(plate)
    ensures load == TotalLoad(CyclesAsWritten(plate, count))
  {
    var p := plate;
    for i := 0 to count
      invariant IsPlate(p) && p == CyclesAsWritten(plate, i)
    {
      p := Cycle(p);
    }
    load := TotalLoad(p);
  }

  /** `count` spin cycles, north, west, south and east. */
  function Spins(plate: seq<seq<Rock>>, n: nat): (r: seq<seq<Rock>>)
    requires IsPlate(plate)
    ensures IsPlate(r)
  {
    if n == 0 then plate else Quarters(Spins(plate, n - 1), SpinPasses)
  }

  /** `part2` as the puzzle intends it: the north load after `count` spin cycles. */
  method SpinPart2(plate: seq<seq<Rock>>, count: nat) returns (load: nat)
    requires IsPlate(plate)
    ensures load == TotalLoad(Spins(plate, count))
  {
    var p := plate;
    for i := 0 to count
      invariant IsPlate(p) && p == Spins(plate, i)
    {
      p := SpinCycle(p);
    }
    load := TotalLoad(p);
  }

  /**
   * The two answers part ways on the column `.O` after one cycle: as written
   * the rock ends at the top, with load 2; after a spin cycle it is back at
   * the bottom, with load 1.
   */
  lemma Part2Differs()
    ensures TotalLoad(CyclesAsWritten([[Empty, Round]], 1)) == 2
    ensures TotalLoad(Spins([[Empty, Round]], 1)) == 1
  {
    CycleNeverSouth([[Empty, Round]]);
    assert CyclesAsWritten([[Empty, Round]], 1) == [[Round, Empty]];
    assert Spins([[Empty, Round]], 1) == [[Empty, Round]];
    assert TotalLoad([[Round, Empty]]) == Load([Round, Empty]);
    assert TotalLoad([[Empty, Round]]) == Load([Empty, Round]);
  }
}
