/**
 * The 2024 grid utilities: integer coordinates, four- and eight-way compass
 * directions, a persistent path that shares its tail, and a sparse grid whose
 * bounding box grows in all four directions as cells are inserted.
 */
module Y2024Grid {
  import opened Arith
  import opened Wrappers

  // ---------------------------------------------------------------- paths

  /** A path: its newest item, then (maybe) the path it was extended from. */
  datatype Path<T> = Path(head: T, tail: Option<Path<T>>)

  function NewPath<T>(item: T): (p: Path<T>)
    ensures ToSeq(p) == [item] && Len(p) == 1
  {
    Path(item, None)
  }

  /** `len`: the number of items, which is never zero (so `is_empty` is always false). */
  function Len<T>(p: Path<T>): (n: nat)
    ensures n >= 1
  {
    match p.tail
    case None => 1
    case Some(rest) => 1 + Len(rest)
  }

  /** `to_vec`: the items, newest first. */
  function ToSeq<T>(p: Path<T>): (s: seq<T>)
    ensures |s| >= 1 && s[0] == p.head
  {
    match p.tail
    case None => [p.head]
    case Some(rest) => [p.head] + ToSeq(rest)
  }

  /** `&path + item`: a new path whose tail is the old one; the old path is a value and stays as it was. */
  function Extend<T>(p: Path<T>, item: T): (r: Path<T>)
    ensures r.head == item && Len(r) == Len(p) + 1
    ensures ToSeq(r) == [item] + ToSeq(p)
  {
    Path(item, Some(p))
  }

  /** The length is the number of listed items. */
  lemma {:induction false} LenIsLength<T>(p: Path<T>)
    ensures Len(p) == |ToSeq(p)|
  {
    match p.tail
    case None =>
    case Some(rest) => LenIsLength(rest);
  }

  /** The items of a path are the items pushed onto it, newest first, after its oldest item. */
  lemma {:induction false} OldestLast<T>(p: Path<T>)
    ensures ToSeq(p)[|ToSeq(p)| - 1] == Oldest(p)
  {
    match p.tail
    case None =>
    case Some(rest) => OldestLast(rest);
  }

  function Oldest<T>(p: Path<T>): T
  {
    match p.tail
    case None => p.head
    case Some(rest) => Oldest(rest)
  }

  /** `test_path`: 2 then 3 lists [3, 2]; adding 8 gives length 3 and leaves the first path at 2. */
  lemma PathExample()
    ensures var p := Extend(NewPath(2), 3);
      ToSeq(p) == [3, 2] && Len(p) == 2 && Len(Extend(p, 8)) == 3 && ToSeq(Extend(p, 8)) == [8, 3, 2]
  {
  }

  // ---------------------------------------------------------- coordinates

  /** A coordinate; y grows downwards, so north is (0, -1). */
  datatype Xy = Xy(x: int, y: int)

  function Plus(a: Xy, b: Xy): Xy
  {
    Xy(a.x + b.x, a.y + b.y)
  }

  function Minus(a: Xy, b: Xy): (r: Xy)
  {
    Xy(a.x - b.x, a.y - b.y)
  }

  lemma PlusCommutes(a: Xy, b: Xy)
    ensures Plus(a, b) == Plus(b, a)
    ensures Plus(Minus(a, b), b) == a && Minus(Plus(a, b), b) == a
  {
  }

  // ----------------------------------------------------------- directions

  datatype Direction4 = N | E | S | W

  function All4(): (r: seq<Direction4>)
    ensures |r| == 4 && forall d :: d in r
  {
    var r := [Direction4.N, Direction4.E, Direction4.S, Direction4.W];
    assert forall d :: d in r by {
      forall d: Direction4
        ensures d in r
      {
        assert d == r[0] || d == r[1] || d == r[2] || d == r[3];
      }
    }
    r
  }

  function Clockwise4(d: Direction4): Direction4
  {
    match d
    case N => Direction4.E
    case E => Direction4.S
    case S => Direction4.W
    case W => Direction4.N
  }

  function Anticlockwise4(d: Direction4): Direction4
  {
    match d
    case N => Direction4.W
    case E => Direction4.N
    case S => Direction4.E
    case W => Direction4.S
  }

  function Delta4(d: Direction4): (r: Xy)
    ensures Abs(r.x) + Abs(r.y) == 1
  {
    match d
    case N => Xy(0, -1)
    case E => Xy(1, 0)
    case S => Xy(0, 1)
    case W => Xy(-1, 0)
  }

  function Abs(n: int): nat
  {
    if n < 0 then -n else n
  }

  /** `xy + d` and `xy - d` for a four-way direction. */
  function Step4(xy: Xy, d: Direction4): Xy
  {
    Plus(xy, Delta4(d))
  }

  function Back4(xy: Xy, d: Direction4): Xy
  {
    Minus(xy, Delta4(d))
  }

  /** Stepping back undoes a step and the other way round; a step moves to a four-neighbour. */
  lemma StepBack4(xy: Xy, d: Direction4)
    ensures Back4(Step4(xy, d), d) == xy && Step4(Back4(xy, d), d) == xy
    ensures Abs(Step4(xy, d).x - xy.x) + Abs(Step4(xy, d).y - xy.y) == 1
  {
  }

  /**
   * Turning is closed and invertible: anticlockwise undoes clockwise (both
   * ways round), four turns are the identity, and a clockwise turn rotates the
   * step by a quarter turn, (dx, dy) becoming (-dy, dx).
   */
  lemma Turns4(d: Direction4)
    ensures Anticlockwise4(Clockwise4(d)) == d && Clockwise4(Anticlockwise4(d)) == d
    ensures Clockwise4(Clockwise4(Clockwise4(Clockwise4(d)))) == d
    ensures Delta4(Clockwise4(d)) == Xy(-Delta4(d).y, Delta4(d).x)
    ensures Clockwise4(Clockwise4(d)) != d && Delta4(Clockwise4(Clockwise4(d))) == Minus(Xy(0, 0), Delta4(d))
  {
  }

  datatype Direction8 = N | NE | E | SE | S | SW | W | NW

  function All8(): (r: seq<Direction8>)
    ensures |r| == 8 && forall d :: d in r
  {
    var r := [Direction8.N, NE, Direction8.E, SE, Direction8.S, SW, Direction8.W, NW];
    assert forall d :: d in r by {
      forall d: Direction8
        ensures d in r
      {
        assert d == r[0] || d == r[1] || d == r[2] || d == r[3] || d == r[4] || d == r[5] || d == r[6] || d == r[7];
      }
    }
    r
  }

  function Cardinal(): seq<Direction8>
  {
    [Direction8.N, Direction8.E, Direction8.S, Direction8.W]
  }

  function Diagonal(): seq<Direction8>
  {
    [NE, SE, SW, NW]
  }

  function Clockwise8(d: Direction8): Direction8
  {
    match d
    case N => NE
    case NE => Direction8.E
    case E => SE
    case SE => Direction8.S
    case S => SW
    case SW => Direction8.W
    case W => NW
    case NW => Direction8.N
  }

  function Anticlockwise8(d: Direction8): Direction8
  {
    match d
    case N => NW
    case NE => Direction8.N
    case E => NE
    case SE => Direction8.E
    case S => SE
    case SW => Direction8.S
    case W => SW
    case NW => Direction8.W
  }

  function Delta8(d: Direction8): (r: Xy)
    ensures r != Xy(0, 0) && Abs(r.x) <= 1 && Abs(r.y) <= 1
  {
    match d
    case N => Xy(0, -1)
    case NE => Xy(1, -1)
    case E => Xy(1, 0)
    case SE => Xy(1, 1)
    case S => Xy(0, 1)
    case SW => Xy(-1, 1)
    case W => Xy(-1, 0)
    case NW => Xy(-1, -1)
  }

  function Step8(xy: Xy, d: Direction8): Xy
  {
    Plus(xy, Delta8(d))
  }

  function Back8(xy: Xy, d: Direction8): Xy
  {
    Minus(xy, Delta8(d))
  }

  /** Stepping back undoes a step and the other way round; a step moves to one of the eight neighbours. */
  lemma StepBack8(xy: Xy, d: Direction8)
    ensures Back8(Step8(xy, d), d) == xy && Step8(Back8(xy, d), d) == xy
    ensures Step8(xy, d) != xy && Abs(Step8(xy, d).x - xy.x) <= 1 && Abs(Step8(xy, d).y - xy.y) <= 1
  {
  }

  /** Eight-way turning: anticlockwise undoes clockwise. */
  lemma Turns8(d: Direction8)
    ensures Anticlockwise8(Clockwise8(d)) == d && Clockwise8(Anticlockwise8(d)) == d
  {
  }

  /** Eight clockwise turns are the identity. */
  lemma EightTurns(d: Direction8)
    ensures Clockwise8(Clockwise8(Clockwise8(Clockwise8(Clockwise8(Clockwise8(Clockwise8(Clockwise8(d)))))))) == d
  {
    var d2 := Clockwise8(Clockwise8(d));
    var d4 := Clockwise8(Clockwise8(d2));
    var d6 := Clockwise8(Clockwise8(d4));
    assert Clockwise8(Clockwise8(d6)) == d;
  }

  /** A diagonal's step is the sum of the steps of the two cardinal directions beside it. */
  lemma DiagonalSum(d: Direction8)
    requires d in Cardinal()
    ensures Delta8(Clockwise8(d)) == Plus(Delta8(d), Delta8(Clockwise8(Clockwise8(d))))
  {
    assert d == Direction8.N || d == Direction8.E || d == Direction8.S || d == Direction8.W;
  }

  /** `test_directions`: turning every cardinal direction clockwise lists the diagonals, in order. */
  lemma CardinalTurnsDiagonal()
    ensures seq(4, i requires 0 <= i < 4 => Clockwise8(Cardinal()[i])) == Diagonal()
    ensures forall i :: 0 <= i < 4 ==> Delta8(Cardinal()[i]) == Delta4(All4()[i])
  {
  }

  /** `test_create_xy` and the sums and differences of `test_modify_xy`. */
  lemma XyExamples()
    ensures Xy(0, 1).x == 0 && Xy(0, 1).y == 1
    ensures Plus(Xy(0, 1), Xy(4, 9)) == Xy(4, 10) && Plus(Xy(4, 9), Xy(0, 1)) == Xy(4, 10)
    ensures Minus(Xy(0, 1), Xy(4, 9)) == Xy(-4, -8) && Minus(Xy(4, 9), Xy(0, 1)) == Xy(4, 8)
  {
  }

  /** `test_directions`. */
  lemma DirectionExamples()
    ensures Clockwise4(Direction4.N) == Direction4.E && Anticlockwise8(SE) == Direction8.E
    ensures |All4()| == 4 && |All8()| == 8 && |Cardinal()| == 4 && |Diagonal()| == 4
    ensures Diagonal() == seq(4, i requires 0 <= i < 4 => Clockwise8(Cardinal()[i]))
  {
  }

  lemma StepExamples(p: Xy)
    requires p == Xy(4, 9)
    ensures Step4(p, Direction4.N) == Xy(4, 8) && Back8(p, SE) == Xy(3, 8)
  {
    var d := Delta8(SE);
    assert d.x == 1 && d.y == 1;
    assert Back8(p, SE) == Xy(p.x - d.x, p.y - d.y);
  }

  // ----------------------------------------------------------------- grid

  function Min(a: int, b: int): int
  {
    if a <= b then a else b
  }

  function Max(a: int, b: int): int
  {
    if a >= b then a else b
  }

  function Nones<T>(n: nat): (r: seq<Option<T>>)
    ensures |r| == n && forall i :: 0 <= i < n ==> r[i].None?
  {
    seq(n, _ => None)
  }

  /**
   * A sparse grid. `elements` holds one row per y from `start.y` to `end.y`,
   * and each row one cell per x from `start.x` to `end.x`.
   */
  class Grid<T> {
    var elements: seq<seq<Option<T>>>
    var start: Xy
    var end: Xy

    ghost predicate Valid()
      reads this
    {
      start.x <= end.x && start.y <= end.y &&
      |elements| == end.y - start.y + 1 &&
      forall i :: 0 <= i < |elements| ==> |elements[i]| == end.x - start.x + 1
    }

    /** `Grid::empty`: the single empty cell at the origin. */
    constructor Empty()
      ensures Valid() && start == Xy(0, 0) && end == Xy(0, 0)
      ensures forall q :: Get(q) == None
    {
      elements := [[None]];
      start := Xy(0, 0);
      end := Xy(0, 0);
    }

    function Width(): (w: int)
      reads this
      requires Valid()
      ensures w >= 1
    {
      end.x - start.x + 1
    }

    function Height(): (h: int)
      reads this
      requires Valid()
      ensures h >= 1
    {
      end.y - start.y + 1
    }

    /** `in_bounds` and `contains`: the bounding-box test. */
    predicate InBounds(xy: Xy)
      reads this
    {
      start.x <= xy.x <= end.x && start.y <= xy.y <= end.y
    }

    /** `get`: the cell's value, and None outside the bounds (never a panic). */
    function Get(xy: Xy): (r: Option<T>)
      reads this
      requires Valid()
      ensures !InBounds(xy) ==> r.None?
    {
      if !InBounds(xy) then None else elements[xy.y - start.y][xy.x - start.x]
    }

    /** `is_empty`: a single cell, and that cell empty. */
    predicate IsEmpty()
      reads this
      requires Valid()
    {
      Height() == 1 && Width() == 1 && elements[0][0].None?
    }

    /** `keys`: every coordinate in the bounds, column by column. */
    function Keys(): (r: seq<Xy>)
      reads this
      requires Valid()
      ensures |r| == Width() * Height()
      ensures forall k :: 0 <= k < |r| ==> InBounds(r[k])
      ensures forall q :: InBounds(q) ==> q in r
      ensures forall i, j :: 0 <= i < j < |r| ==> r[i] != r[j]
    {
      var w, h, sx, sy := Width(), Height(), start.x, start.y;
      var r := seq(w * h, k requires 0 <= k < w * h => Xy(sx + k / h, sy + k % h));
      forall k | 0 <= k < w * h
        ensures InBounds(r[k])
      {
        QuotientBelow(k, w, h);
      }
      forall q | InBounds(q)
        ensures q in r
      {
        var i, j := q.x - start.x, q.y - start.y;
        IndexOf(i, j, w, h);
        assert r[i * h + j] == q;
      }
      forall i, j | 0 <= i < j < w * h
        ensures r[i] != r[j]
      {
        QuotientRemainder(i, h);
        QuotientRemainder(j, h);
      }
      r
    }

    /** `all`: every coordinate in the bounds with its value. */
    function All(): (r: seq<(Xy, Option<T>)>)
      reads this
      requires Valid()
      ensures |r| == Width() * Height()
      ensures forall k :: 0 <= k < |r| ==> r[k].1 == Get(r[k].0) && InBounds(r[k].0)
      ensures forall i, j :: 0 <= i < j < |r| ==> r[i].0 != r[j].0
      ensures forall q :: InBounds(q) ==> exists k :: 0 <= k < |r| && r[k].0 == q
    {
      var keys := Keys();
      var r := seq(|keys|, k requires 0 <= k < |keys| && Valid() reads this => (keys[k], Get(keys[k])));
      forall q | InBounds(q)
        ensures exists k :: 0 <= k < |r| && r[k].0 == q
      {
        var k :| 0 <= k < |keys| && keys[k] == q;
        assert r[k].0 == q;
      }
      r
    }

    /** A grid with exactly two filled cells lists two filled cells in `all`. */
    lemma FilledTwo(a: Xy, b: Xy)
      requires Valid() && a != b && InBounds(a) && InBounds(b)
      requires forall q :: Get(q).Some? <==> q == a || q == b
      ensures Filled(All()) == 2
    {
      var cells := All();
      var filled := {a, b};
      forall k | 0 <= k < |cells|
        ensures cells[k].1.Some? <==> cells[k].0 in filled
      {
        assert cells[k].1 == Get(cells[k].0);
      }
      forall q | q in filled
        ensures exists k :: 0 <= k < |cells| && cells[k].0 == q
      {
        assert InBounds(q);
      }
      FilledKeys(cells, filled);
      assert |filled| == 2;
    }

    /**
     * `extend_x`: pad every row on the right, or on the left, until column x
     * is inside the bounds. No value moves from its coordinate.
     */
    method ExtendX(x: int)
      requires Valid()
      modifies this
      ensures Valid()
      ensures start == Xy(Min(old(start.x), x), old(start.y)) && end == Xy(Max(old(end.x), x), old(end.y))
      ensures forall q :: Get(q) == old(Get(q))
    {
      if x > end.x {
        GrowEast(x);
      }
      if x < start.x {
        GrowWest(x);
      }
    }

    /** The columns `extend_x` adds on the east side, up to column x. */
    method GrowEast(x: int)
      requires Valid() && x > end.x
      modifies this
      ensures Valid()
      ensures start == old(start) && end == Xy(x, old(end.y))
      ensures forall q :: Get(q) == old(Get(q))
    {
      var n := x - start.x + 1;
      ghost var before, corners := elements, (start, end);
      var i := 0;
      while i < |elements|
        invariant (start, end) == corners
        invariant 0 <= i <= |elements| == |before|
        invariant forall k :: 0 <= k < i ==> elements[k] == before[k] + Nones(n - |before[k]|)
        invariant forall k :: i <= k < |elements| ==> elements[k] == before[k]
        invariant forall k :: 0 <= k < |elements| ==> |elements[k]| == if k < i then n else end.x - start.x + 1
      {
        elements := elements[i := elements[i] + Nones(n - |elements[i]|)];
        i := i + 1;
      }
      end := Xy(x, end.y);
      forall q | InBounds(q)
        ensures Get(q) == old(Get(q))
      {
        var row := before[q.y - start.y];
        assert elements[q.y - start.y] == row + Nones(n - |row|);
        if q.x > old(end.x) {
          assert elements[q.y - start.y][q.x - start.x] == Nones(n - |row|)[q.x - start.x - |row|];
        }
      }
    }

    /** The columns `extend_x` adds on the west side, down to column x. */
    method GrowWest(x: int)
      requires Valid() && x < start.x
      modifies this
      ensures Valid()
      ensures start == Xy(x, old(start.y)) && end == old(end)
      ensures forall q :: Get(q) == old(Get(q))
    {
      var n := start.x - x;
      ghost var before, corners := elements, (start, end);
      var i := 0;
      while i < |elements|
        invariant (start, end) == corners
        invariant 0 <= i <= |elements| == |before|
        invariant forall k :: 0 <= k < i ==> elements[k] == Nones(n) + before[k]
        invariant forall k :: i <= k < |elements| ==> elements[k] == before[k]
        invariant forall k :: 0 <= k < |elements| ==> |elements[k]| == if k < i then n + end.x - start.x + 1 else end.x - start.x + 1
      {
        elements := elements[i := Nones(n) + elements[i]];
        i := i + 1;
      }
      start := Xy(x, start.y);
      forall q | InBounds(q)
        ensures Get(q) == old(Get(q))
      {
        var row := before[q.y - start.y];
        assert elements[q.y - start.y] == Nones(n) + row;
        if q.x >= old(start.x) {
          assert elements[q.y - start.y][q.x - start.x] == row[q.x - old(start.x)];
        }
      }
    }

    /**
     * `extend_y`: add empty rows below, or above, until row y is inside the
     * bounds. No value moves from its coordinate.
     */
    method ExtendY(y: int)
      requires Valid()
      modifies this
      ensures Valid()
      ensures start == Xy(old(start.x), Min(old(start.y), y)) && end == Xy(old(end.x), Max(old(end.y), y))
      ensures forall q :: Get(q) == old(Get(q))
    {
      if y > end.y {
        ghost var before, corners := elements, (start, end);
        var w := end.x - start.x + 1;
        var i := 0;
        while i < y - end.y
          invariant (start, end) == corners
          invariant 0 <= i <= y - end.y
          invariant elements == before + seq(i, _ => Nones(w))
          invariant |elements| == |before| + i
          invariant forall k :: 0 <= k < |elements| ==> |elements[k]| == w
        {
          elements := elements + [Nones(w)];
          i := i + 1;
        }
        end := Xy(end.x, y);
        forall q | InBounds(q)
          ensures Get(q) == old(Get(q))
        {
          if q.y <= old(end.y) {
            assert elements[q.y - start.y] == before[q.y - start.y];
          } else {
            assert elements[q.y - start.y] == Nones(w);
          }
        }
      }
      if y < start.y {
        ghost var before := elements;
        var w := end.x - start.x + 1;
        var newRows: seq<seq<Option<T>>> := [];
        var i := 0;
        while i < start.y - y
          invariant 0 <= i <= start.y - y
          invariant newRows == seq(i, _ => Nones(w))
          invariant |newRows| == i && forall k :: 0 <= k < i ==> newRows[k] == Nones(w)
        {
          newRows := newRows + [Nones(w)];
          i := i + 1;
        }
        elements := newRows + elements;
        start := Xy(start.x, y);
        forall q | InBounds(q)
          ensures Get(q) == old(Get(q))
        {
          if q.y >= old(start.y) {
            assert elements[q.y - start.y] == before[q.y - old(start.y)];
          } else {
            assert elements[q.y - start.y] == Nones(w);
          }
        }
      }
    }

    /**
     * `insert`: grow the bounds to cover xy, then store the value there. Every
     * other coordinate keeps its value, even when the grid grew left or up.
     */
    method Insert(xy: Xy, element: T)
      requires Valid()
      modifies this
      ensures Valid()
      ensures start == Xy(Min(old(start.x), xy.x), Min(old(start.y), xy.y))
      ensures end == Xy(Max(old(end.x), xy.x), Max(old(end.y), xy.y))
      ensures forall q :: Get(q) == if q == xy then Some(element) else old(Get(q))
    {
      if !(start.y <= xy.y <= end.y) {
        ExtendY(xy.y);
      }
      if !(start.x <= xy.x <= end.x) {
        ExtendX(xy.x);
      }
      var ix, iy := xy.x - start.x, xy.y - start.y;
      elements := elements[iy := elements[iy][ix := Some(element)]];
    }

    /** `remove`: take the value out, leaving the cell empty and the bounds as they were. */
    method Remove(xy: Xy) returns (r: Option<T>)
      requires Valid()
      modifies this
      ensures Valid() && start == old(start) && end == old(end)
      ensures r == old(Get(xy))
      ensures forall q :: Get(q) == if q == xy then None else old(Get(q))
    {
      if !InBounds(xy) {
        return None;
      }
      var ix, iy := xy.x - start.x, xy.y - start.y;
      r := elements[iy][ix];
      elements := elements[iy := elements[iy][ix := None]];
    }
  }

  lemma QuotientBelow(k: int, w: int, h: int)
    requires w >= 1 && h >= 1 && 0 <= k < w * h
    ensures 0 <= k / h < w && 0 <= k % h < h
  {
    if k / h >= w {
      MulMonotone(k / h, w, h, h);
      assert false;
    }
  }

  lemma IndexOf(i: int, j: int, w: int, h: int)
    requires 0 <= i < w && 0 <= j < h
    ensures 0 <= i * h + j < w * h
    ensures (i * h + j) / h == i && (i * h + j) % h == j
  {
    MulMonotone(w, i + 1, h, h);
    MulDistributes(i, 1, h);
    DivModUnique(i * h + j, h, i, j);
  }

  /** A position is its quotient and remainder by h. */
  lemma QuotientRemainder(k: int, h: int)
    requires h >= 1
    ensures k == k / h * h + k % h
  {
  }

  /** `filter(|(_k, v)| v.is_some()).count()`: how many of the cells hold a value. */
  function Filled<T>(cells: seq<(Xy, Option<T>)>): (n: nat)
    ensures n <= |cells|
  {
    if cells == [] then 0 else Filled(cells[..|cells| - 1]) + if cells[|cells| - 1].1.Some? then 1 else 0
  }

  /** The filled cells of a listing without repeated keys are counted once per key. */
  lemma {:induction false} FilledKeys<T>(cells: seq<(Xy, Option<T>)>, filled: set<Xy>)
    requires forall i, j :: 0 <= i < j < |cells| ==> cells[i].0 != cells[j].0
    requires forall k :: 0 <= k < |cells| ==> (cells[k].1.Some? <==> cells[k].0 in filled)
    requires forall q :: q in filled ==> exists k :: 0 <= k < |cells| && cells[k].0 == q
    ensures Filled(cells) == |filled|
    decreases |cells|
  {
    if cells != [] {
      var n := |cells| - 1;
      var last := cells[n].0;
      var rest := if cells[n].1.Some? then filled - {last} else filled;
      forall q | q in rest
        ensures exists k :: 0 <= k < n && cells[..n][k].0 == q
      {
        var k :| 0 <= k < |cells| && cells[k].0 == q;
        assert k != n;
        assert cells[..n][k] == cells[k];
      }
      FilledKeys(cells[..n], rest);
    }
  }

  /**
   * `test_grid`: the bounds after inserting at (3, 4) and at (-3, -3), what
   * `get` then sees, which coordinates the final grid contains, and its 56
   * keys and cells, two of them filled.
   */
  method GridExample() returns (sizes: seq<int>, found: seq<Option<string>>, contained: seq<bool>)
    ensures sizes == [1, 1, 5, 4, 8, 7, 56, 56, 2]
    ensures found == [Some("One"), None, None, None, None, Some("Two")]
    ensures contained == [true, true, true, false, false, true, false, false]
  {
    var grid: Grid<string> := new Grid.Empty();
    var h0, w0 := grid.Height(), grid.Width();
    assert h0 == 1 && w0 == 1;
    grid.Insert(Xy(3, 4), "One");
    assert grid.start == Xy(0, 0) && grid.end == Xy(3, 4);
    var h1, w1 := grid.Height(), grid.Width();
    assert h1 == 5 && w1 == 4;
    assert forall q :: grid.Get(q) == if q == Xy(3, 4) then Some("One") else None;
    var one, origin, left, beyond, corner := grid.Get(Xy(3, 4)), grid.Get(Xy(0, 0)), grid.Get(Xy(2, 4)), grid.Get(Xy(4, 5)), grid.Get(Xy(-3, -3));
    assert one == Some("One") && origin == left == beyond == corner == None;
    grid.Insert(Xy(-3, -3), "Two");
    var two := grid.Get(Xy(-3, -3));
    assert two == Some("Two");
    found := [one, origin, left, beyond, corner, two];
    assert grid.start == Xy(-3, -3) && grid.end == Xy(3, 4);
    var h2, w2 := grid.Height(), grid.Width();
    assert h2 == 8 && w2 == 7;
    contained := [grid.InBounds(Xy(0, 0)), grid.InBounds(Xy(2, 2)), grid.InBounds(Xy(-3, -3)),
      grid.InBounds(Xy(-3, -4)), grid.InBounds(Xy(-4, -3)),
      grid.InBounds(Xy(3, 4)), grid.InBounds(Xy(4, 4)), grid.InBounds(Xy(-3, 5))];
    assert forall q :: grid.Get(q).Some? <==> q == Xy(3, 4) || q == Xy(-3, -3);
    grid.FilledTwo(Xy(3, 4), Xy(-3, -3));
    var keys, cells := grid.Keys(), grid.All();
    var filled := Filled(cells);
    assert |keys| == 56 && |cells| == 56 && filled == 2;
    sizes := [h0, w0, h1, w1, h2, w2, |keys|, |cells|, filled];
  }

}
