/**
 * 2024 day 15: a robot pushes boxes around a walled warehouse.
 *
 * The warehouse grid is the sparse grid of the utilities, seen here as a
 * value: the cells that hold an item, and the bounding box that `insert`
 * grows. `Represents` ties a `Floor` to the `Y2024Grid.Grid` it stands for,
 * and `InsertInPlace` shows the grid's own `Insert` keeping that tie.
 * `can_move` and `do_move` are the pure `Movable` and `Pushed`, where `None`
 * is a panic ("Out of bounds", "Robot invasion"); the `Warehouse` class does
 * the moves in place.
 */
module Y2024Day15 {
  import opened Wrappers
  import opened Y2024Grid

  datatype Item = Wall | Box | BoxLeft | BoxRight | Robot | Empty

  /** The warehouse grid: the cells set so far and the bounds `insert` keeps. */
  datatype Floor = Floor(cells: map<Xy, Item>, start: Xy, end: Xy)

  predicate InBounds(f: Floor, q: Xy)
  {
    f.start.x <= q.x <= f.end.x && f.start.y <= q.y <= f.end.y
  }

  /** `grid.get`: None outside the bounds and for a cell never set. */
  function Get(f: Floor, q: Xy): (r: Option<Item>)
    ensures r.Some? ==> InBounds(f, q)
  {
    if InBounds(f, q) && q in f.cells then Some(f.cells[q]) else None
  }

  /** Every cell set lies inside the bounds, as in the grid's rows. */
  predicate Valid(f: Floor)
  {
    forall q :: q in f.cells ==> InBounds(f, q)
  }

  /** `grid.insert`: set one cell, growing the bounds to take it in. */
  function Insert(f: Floor, q: Xy, v: Item): (r: Floor)
    ensures Valid(f) ==> Valid(r)
    ensures Valid(f) ==> forall p :: Get(r, p) == if p == q then Some(v) else Get(f, p)
    ensures InBounds(f, q) ==> r.start == f.start && r.end == f.end
    ensures forall p :: InBounds(f, p) ==> InBounds(r, p)
  {
    Floor(f.cells[q := v], Xy(Min(f.start.x, q.x), Min(f.start.y, q.y)),
          Xy(Max(f.end.x, q.x), Max(f.end.y, q.y)))
  }

  /**
   * `Floor` is the value a `Y2024Grid.Grid` holds: the same bounds, and the
   * same answer from `Get` at every coordinate. The recursive `can_move` and
   * `do_move` need the grid as a value, so they work on `Floor`.
   */
  ghost predicate Represents(g: Grid<Item>, f: Floor)
    reads g
  {
    g.Valid() && g.start == f.start && g.end == f.end && forall q :: g.Get(q) == Get(f, q)
  }

  /** The grid's `insert`, done in place, keeps the grid the `Insert` of its floor. */
  method InsertInPlace(g: Grid<Item>, f: Floor, q: Xy, v: Item) returns (r: Floor)
    requires Valid(f) && Represents(g, f)
    modifies g
    ensures r == Insert(f, q, v) && Represents(g, r)
  {
    g.Insert(q, v);
    r := Insert(f, q, v);
  }

  predicate UpDown(d: Direction4)
  {
    d == Direction4.N || d == Direction4.S
  }

  // ------------------------------------------------------------ measures

  /** How many steps in direction `d` stay inside the bounds. */
  function Distance(f: Floor, xy: Xy, d: Direction4): int
  {
    match d
    case N => xy.y - f.start.y
    case S => f.end.y - xy.y
    case E => f.end.x - xy.x
    case W => xy.x - f.start.x
  }

  function Reach(f: Floor, xy: Xy, d: Direction4): nat
  {
    if InBounds(f, xy) then Distance(f, xy, d) + 1 else 0
  }

  function Westward(f: Floor, xy: Xy): nat
  {
    if InBounds(f, xy) then xy.x - f.start.x + 1 else 0
  }

  // ------------------------------------------------------------ can_move

  /** Rust's `a && b` on two results that may panic: `b` only runs when `a` is true. */
  function Both(a: Option<bool>, b: Option<bool>): Option<bool>
  {
    match a
    case None => None
    case Some(ok) => if ok then b else Some(false)
  }

  /** `can_move`: whether the item at `xy` (and what it pushes) can go one step `d`. */
  function Movable(f: Floor, xy: Xy, d: Direction4): Option<bool>
    decreases Reach(f, xy, d)
  {
    match Get(f, xy)
    case None => None
    case Some(item) =>
      var p := Step4(xy, d);
      match item
      case Robot => None
      case Wall => Some(false)
      case Empty => Some(true)
      case Box => Movable(f, p, d)
      case BoxLeft =>
        if UpDown(d) then Both(Movable(f, p, d), Movable(f, Step4(p, Direction4.E), d))
        else Movable(f, p, d)
      case BoxRight =>
        if UpDown(d) then Both(Movable(f, p, d), Movable(f, Step4(Step4(xy, Direction4.W), d), d))
        else Movable(f, p, d)
  }

  // ------------------------------------------------------------- do_move

  /** Move `item` from `xy` to the next cell, after the push `g` made room there. */
  function Slide(g: Option<Floor>, xy: Xy, d: Direction4, item: Item): (r: Option<Floor>)
    ensures r.Some? <==> g.Some?
    ensures g.Some? && InBounds(g.value, xy) && InBounds(g.value, Step4(xy, d))
            ==> r.value.start == g.value.start && r.value.end == g.value.end
    ensures g.Some? && Valid(g.value) ==> Valid(r.value)
  {
    match g
    case None => None
    case Some(g) => Some(Insert(Insert(g, Step4(xy, d), item), xy, Empty))
  }

  /**
   * The four inserts that move a wide box, whose left half is at `xy`, one
   * row: each half into the cell beyond it, then its old cell emptied.
   */
  function Lift(g: Floor, xy: Xy, d: Direction4): (r: Floor)
    requires UpDown(d)
    ensures InBounds(g, xy) && InBounds(g, Step4(xy, d))
            && InBounds(g, Step4(Step4(xy, d), Direction4.E))
            ==> r.start == g.start && r.end.y == g.end.y && r.end.x >= g.end.x
    ensures Valid(g) ==> Valid(r)
  {
    var p := Step4(xy, d);
    var pe := Step4(p, Direction4.E);
    Insert(Insert(Insert(Insert(g, p, BoxLeft), xy, Empty), pe, BoxRight),
           Step4(xy, Direction4.E), Empty)
  }

  /** `do_move`: the grid after pushing the item at `xy` one step `d`. */
  function Pushed(f: Floor, xy: Xy, d: Direction4): (r: Option<Floor>)
    ensures r.Some? ==> Get(f, xy).Some? && Get(f, xy) != Some(Robot)
    ensures r.Some? ==> r.value.start == f.start && r.value.end.y == f.end.y
                        && r.value.end.x >= f.end.x
    decreases Reach(f, xy, d), Westward(f, xy)
  {
    match Get(f, xy)
    case None => None
    case Some(item) =>
      var p := Step4(xy, d);
      match item
      case Robot => None
      case Wall => Some(f)
      case Empty => Some(f)
      case Box => Slide(Pushed(f, p, d), xy, d, Box)
      case BoxLeft =>
        if UpDown(d) then
          var pe := Step4(p, Direction4.E);
          match Pushed(f, p, d)
          case None => None
          case Some(g1) =>
            match Pushed(g1, pe, d)
            case None => None
            case Some(g2) => Some(Lift(g2, xy, d))
        else Slide(Pushed(f, p, d), xy, d, BoxLeft)
      case BoxRight =>
        if UpDown(d) then Pushed(f, Step4(xy, Direction4.W), d)
        else Slide(Pushed(f, p, d), xy, d, BoxRight)
  }

  // -------------------------------------------------------- step_up_down

  /**
   * `step_up_down`: the grid and robot location after one instruction. A
   * vertical push on the right half of a wide box pushes from its left half.
   */
  function Walk(f: Floor, robot: Xy, d: Direction4): Option<(Floor, Xy)>
  {
    var t := Step4(robot, d);
    match Movable(f, t, d)
    case None => None
    case Some(ok) =>
      if !ok then Some((f, robot))
      else
        var from := if UpDown(d) && Get(f, t) == Some(BoxRight) then Step4(t, Direction4.W) else t;
        match Pushed(f, from, d)
        case None => None
        case Some(g) => Some((Insert(g, robot, Empty), t))
  }

  /** The whole run of `process`: one `Walk` per instruction, in order. */
  function Replay(f: Floor, robot: Xy, ds: seq<Direction4>): Option<(Floor, Xy)>
    decreases |ds|
  {
    if |ds| == 0 then Some((f, robot))
    else
      match Walk(f, robot, ds[0])
      case None => None
      case Some(next) => Replay(next.0, next.1, ds[1..])
  }

  // --------------------------------------------------------------- score

  predicate Scored(v: Option<Item>)
  {
    v == Some(Box) || v == Some(BoxLeft)
  }

  /** The GPS coordinate of a box. */
  function Gps(q: Xy): int
  {
    q.x + 100 * q.y
  }

  function CellScore(f: Floor, q: Xy): int
  {
    if Scored(Get(f, q)) then Gps(q) else 0
  }

  function RowScore(f: Floor, y: int, x: int): int
    decreases f.end.x + 1 - x
  {
    if x > f.end.x then 0 else CellScore(f, Xy(x, y)) + RowScore(f, y, x + 1)
  }

  function RowsScore(f: Floor, y: int): int
    decreases f.end.y + 1 - y
  {
    if y > f.end.y then 0 else RowScore(f, y, f.start.x) + RowsScore(f, y + 1)
  }

  /** `score`: the GPS sum over every Box and BoxLeft cell in the bounds. */
  function Score(f: Floor): int
  {
    RowsScore(f, f.start.y)
  }

  // ---------------------------------------------------- chains of boxes

  /** `xy` moved `k` steps in direction `d`. */
  function Steps(xy: Xy, d: Direction4, k: nat): Xy
    decreases k
  {
    if k == 0 then xy else Steps(Step4(xy, d), d, k - 1)
  }

  /** Progress along direction `d`. */
  function Along(q: Xy, d: Direction4): int
  {
    match d
    case N => -q.y
    case S => q.y
    case E => q.x
    case W => -q.x
  }

  lemma {:induction false} StepsAlong(xy: Xy, d: Direction4, k: nat)
    ensures Along(Steps(xy, d, k), d) == Along(xy, d) + k
    ensures UpDown(d) ==> Steps(xy, d, k).x == xy.x
    ensures !UpDown(d) ==> Steps(xy, d, k).y == xy.y
    decreases k
  {
    if k > 0 {
      StepsAlong(Step4(xy, d), d, k - 1);
    }
  }

  /** `k` standard boxes in a row from `xy` in direction `d`. */
  predicate BoxChain(f: Floor, xy: Xy, d: Direction4, k: nat)
  {
    forall i :: 0 <= i < k ==> Get(f, Steps(xy, d, i)) == Some(Box)
  }

  /** The chain from the cell after `xy` is the rest of the chain from `xy`. */
  lemma ChainTail(f: Floor, xy: Xy, d: Direction4, k: nat)
    requires k >= 1 && BoxChain(f, xy, d, k)
    ensures Get(f, xy) == Some(Box) && BoxChain(f, Step4(xy, d), d, k - 1)
    ensures Steps(Step4(xy, d), d, k - 1) == Steps(xy, d, k)
  {
    assert Steps(xy, d, 0) == xy;
    forall i | 0 <= i < k - 1
      ensures Get(f, Steps(Step4(xy, d), d, i)) == Some(Box)
    {
      assert Steps(xy, d, i + 1) == Steps(Step4(xy, d), d, i);
    }
  }

  /**
   * `can_move` along a chain of standard boxes is decided by the cell after
   * the chain: true at an Empty cell, false at a Wall, a panic out of bounds.
   */
  lemma {:induction false} MovableChain(f: Floor, xy: Xy, d: Direction4, k: nat)
    requires BoxChain(f, xy, d, k)
    ensures Get(f, Steps(xy, d, k)) == Some(Empty) ==> Movable(f, xy, d) == Some(true)
    ensures Get(f, Steps(xy, d, k)) == Some(Wall) ==> Movable(f, xy, d) == Some(false)
    ensures Get(f, Steps(xy, d, k)) == None ==> Movable(f, xy, d) == None
    decreases k
  {
    if k > 0 {
      ChainTail(f, xy, d, k);
      MovableChain(f, Step4(xy, d), d, k - 1);
    }
  }

  lemma InsertOver(f: Floor, q: Xy, a: Item, b: Item)
    ensures Insert(Insert(f, q, a), q, b) == Insert(f, q, b)
  {
  }

  lemma InsertSame(f: Floor, q: Xy, v: Item)
    requires Get(f, q) == Some(v)
    ensures Insert(f, q, v) == f
  {
    assert f.cells[q := v] == f.cells;
  }

  /**
   * `do_move` on a chain of `k` standard boxes followed by an Empty cell: the
   * Empty cell now holds a box and the first cell of the chain is Empty,
   * which is the whole chain shifted one cell.
   */
  lemma {:induction false} PushChain(f: Floor, xy: Xy, d: Direction4, k: nat)
    requires k >= 1 && BoxChain(f, xy, d, k) && Get(f, Steps(xy, d, k)) == Some(Empty)
    ensures Pushed(f, xy, d) == Some(Insert(Insert(f, Steps(xy, d, k), Box), xy, Empty))
    decreases k
  {
    ChainTail(f, xy, d, k);
    var p := Step4(xy, d);
    if k == 1 {
      assert Steps(p, d, 0) == p;
    } else {
      PushChain(f, p, d, k - 1);
      var h := Insert(f, Steps(xy, d, k), Box);
      InsertOver(h, p, Empty, Box);
      assert Get(h, p) == Some(Box) by {
        ChainTail(f, p, d, k - 1);
      }
      InsertSame(h, p, Box);
    }
  }

  /** A chain of standard boxes shifted: the rest of the grid is unchanged. */
  lemma PushChainCells(f: Floor, xy: Xy, d: Direction4, k: nat)
    requires Valid(f)
    requires k >= 1 && BoxChain(f, xy, d, k) && Get(f, Steps(xy, d, k)) == Some(Empty)
    ensures Pushed(f, xy, d).Some?
    ensures var g := Pushed(f, xy, d).value;
      Get(g, xy) == Some(Empty) &&
      (forall i :: 1 <= i <= k ==> Get(g, Steps(xy, d, i)) == Some(Box)) &&
      (forall q :: Along(q, d) < Along(xy, d) || Along(q, d) > Along(xy, d) + k
                   ==> Get(g, q) == Get(f, q))
  {
    PushChain(f, xy, d, k);
    StepsAlong(xy, d, k);
    var g := Pushed(f, xy, d).value;
    forall i | 1 <= i <= k
      ensures Get(g, Steps(xy, d, i)) == Some(Box)
    {
      StepsAlong(xy, d, i);
      if i < k {
        assert Get(f, Steps(xy, d, i)) == Some(Box);
      }
    }
  }

  // ------------------------------------------------------------ wide boxes

  /**
   * A wide box with room above (or below) both halves moves one row: its
   * two cells are Empty, the two cells it moved to hold its halves, and
   * nothing else changes. Pushing its right half does the same.
   */
  lemma WideLift(f: Floor, xy: Xy, d: Direction4)
    requires Valid(f) && UpDown(d)
    requires Get(f, xy) == Some(BoxLeft) && Get(f, Step4(xy, Direction4.E)) == Some(BoxRight)
    requires Get(f, Step4(xy, d)) == Some(Empty)
    requires Get(f, Step4(Step4(xy, d), Direction4.E)) == Some(Empty)
    ensures Movable(f, xy, d) == Some(true)
    ensures Pushed(f, Step4(xy, Direction4.E), d) == Pushed(f, xy, d)
    ensures Pushed(f, xy, d).Some?
    ensures var g := Pushed(f, xy, d).value;
      var moved := {xy, Step4(xy, Direction4.E), Step4(xy, d), Step4(Step4(xy, d), Direction4.E)};
      Get(g, Step4(xy, d)) == Some(BoxLeft) &&
      Get(g, Step4(Step4(xy, d), Direction4.E)) == Some(BoxRight) &&
      Get(g, xy) == Some(Empty) && Get(g, Step4(xy, Direction4.E)) == Some(Empty) &&
      forall q :: q !in moved ==> Get(g, q) == Get(f, q)
  {
    var xe := Step4(xy, Direction4.E);
    assert Step4(xe, Direction4.W) == xy;
    assert Step4(Step4(xe, Direction4.W), d) == Step4(xy, d);
  }

  // ---------------------------------------------------------------- score

  /** Changing one cell changes each row sum by that cell's change alone. */
  lemma {:induction false} RowScoreChange(f: Floor, g: Floor, q: Xy, y: int, x: int)
    requires g.start == f.start && g.end == f.end
    requires forall p :: p != q ==> Get(g, p) == Get(f, p)
    ensures RowScore(g, y, x) == RowScore(f, y, x)
      + (if y == q.y && x <= q.x <= f.end.x then CellScore(g, q) - CellScore(f, q) else 0)
    decreases f.end.x + 1 - x
  {
    if x <= f.end.x {
      RowScoreChange(f, g, q, y, x + 1);
    }
  }

  lemma {:induction false} RowsScoreChange(f: Floor, g: Floor, q: Xy, y: int)
    requires g.start == f.start && g.end == f.end
    requires forall p :: p != q ==> Get(g, p) == Get(f, p)
    ensures RowsScore(g, y) == RowsScore(f, y)
      + (if y <= q.y <= f.end.y && f.start.x <= q.x <= f.end.x
         then CellScore(g, q) - CellScore(f, q) else 0)
    decreases f.end.y + 1 - y
  {
    if y <= f.end.y {
      RowScoreChange(f, g, q, y, f.start.x);
      RowsScoreChange(f, g, q, y + 1);
    }
  }

  /**
   * `score` is the GPS sum over Box and BoxLeft cells: setting one cell in
   * the bounds takes that cell's old GPS term out and puts its new one in.
   */
  lemma ScoreInsert(f: Floor, q: Xy, v: Item)
    requires Valid(f) && InBounds(f, q)
    ensures Score(Insert(f, q, v))
            == Score(f) - CellScore(f, q) + (if v == Box || v == BoxLeft then Gps(q) else 0)
  {
    RowsScoreChange(f, Insert(f, q, v), q, f.start.y);
  }

  lemma {:induction false} RowScoreNone(f: Floor, y: int, x: int)
    requires forall q :: !Scored(Get(f, q))
    ensures RowScore(f, y, x) == 0
    decreases f.end.x + 1 - x
  {
    if x <= f.end.x {
      RowScoreNone(f, y, x + 1);
    }
  }

  lemma {:induction false} RowsScoreNone(f: Floor, y: int)
    requires forall q :: !Scored(Get(f, q))
    ensures RowsScore(f, y) == 0
    decreases f.end.y + 1 - y
  {
    if y <= f.end.y {
      RowScoreNone(f, y, f.start.x);
      RowsScoreNone(f, y + 1);
    }
  }

  /** A grid without Box or BoxLeft cells scores 0. */
  lemma ScoreNone(f: Floor)
    requires forall q :: !Scored(Get(f, q))
    ensures Score(f) == 0
  {
    RowsScoreNone(f, f.start.y);
  }

  /**
   * Shifting a chain of standard boxes (the grid `PushChain` gives) moves one
   * GPS term from the chain's first cell to the cell after its end.
   */
  lemma PushChainScore(f: Floor, xy: Xy, d: Direction4, k: nat)
    requires Valid(f)
    requires k >= 1 && BoxChain(f, xy, d, k) && Get(f, Steps(xy, d, k)) == Some(Empty)
    ensures Score(Insert(Insert(f, Steps(xy, d, k), Box), xy, Empty))
            == Score(f) + Gps(Steps(xy, d, k)) - Gps(xy)
  {
    StepsAlong(xy, d, k);
    var q := Steps(xy, d, k);
    ChainTail(f, xy, d, k);
    ScoreInsert(f, q, Box);
    ScoreInsert(Insert(f, q, Box), xy, Empty);
  }

  // ------------------------------------------------------------ walking

  /**
   * The robot moves exactly one cell when `can_move` holds for the cell in
   * front of it, and otherwise neither it nor the grid changes.
   */
  lemma WalkMoves(f: Floor, robot: Xy, d: Direction4)
    requires Walk(f, robot, d).Some?
    ensures var next := Walk(f, robot, d).value;
      (next.1 == Step4(robot, d) <==> Movable(f, Step4(robot, d), d) == Some(true)) &&
      (next.1 == robot <==> Movable(f, Step4(robot, d), d) == Some(false)) &&
      (Movable(f, Step4(robot, d), d) == Some(false) ==> next.0 == f)
  {
    StepsAlong(robot, d, 1);
    assert Steps(robot, d, 1) == Step4(robot, d);
  }

  /**
   * The robot, on its Empty cell, facing `k` standard boxes and then an
   * Empty cell: it moves one cell, and the grid is the chain shifted.
   */
  lemma WalkPushes(f: Floor, robot: Xy, d: Direction4, k: nat)
    requires Valid(f) && Get(f, robot) == Some(Empty)
    requires k >= 1 && BoxChain(f, Step4(robot, d), d, k)
    requires Get(f, Steps(Step4(robot, d), d, k)) == Some(Empty)
    ensures Walk(f, robot, d)
            == Some((Insert(Insert(f, Steps(Step4(robot, d), d, k), Box), Step4(robot, d), Empty),
                     Step4(robot, d)))
  {
    var t := Step4(robot, d);
    MovableChain(f, t, d, k);
    PushChain(f, t, d, k);
    BehindChain(f, robot, d, k);
    InsertSame(Pushed(f, t, d).value, robot, Empty);
  }

  /** Shifting the chain in front of the robot leaves the robot's own cell alone. */
  lemma BehindChain(f: Floor, robot: Xy, d: Direction4, k: nat)
    requires Valid(f) && Get(f, robot) == Some(Empty)
    ensures var t := Step4(robot, d);
      Get(Insert(Insert(f, Steps(t, d, k), Box), t, Empty), robot) == Some(Empty)
  {
    var t := Step4(robot, d);
    StepsAlong(robot, d, k + 1);
    assert Steps(robot, d, k + 1) == Steps(t, d, k);
    StepsAlong(robot, d, 1);
    assert Steps(robot, d, 1) == t;
  }

  /** Facing `k` standard boxes and then a Wall, the robot stays and nothing changes. */
  lemma WalkBlocked(f: Floor, robot: Xy, d: Direction4, k: nat)
    requires BoxChain(f, Step4(robot, d), d, k)
    requires Get(f, Steps(Step4(robot, d), d, k)) == Some(Wall)
    ensures Walk(f, robot, d) == Some((f, robot))
  {
    MovableChain(f, Step4(robot, d), d, k);
  }

  // ---------------------------------------------------------------- sample

  /** Two standard boxes side by side form a chain of two going east. */
  lemma EastPair(f: Floor, x: int, y: int)
    requires Get(f, Xy(x, y)) == Some(Box) && Get(f, Xy(x + 1, y)) == Some(Box)
    ensures Steps(Xy(x, y), Direction4.E, 2) == Xy(x + 2, y)
    ensures BoxChain(f, Xy(x, y), Direction4.E, 2)
  {
    var e := Direction4.E;
    assert Steps(Xy(x, y), e, 0) == Xy(x, y);
    assert Steps(Xy(x, y), e, 1) == Steps(Xy(x + 1, y), e, 0) == Xy(x + 1, y);
    assert Steps(Xy(x, y), e, 2) == Steps(Xy(x + 1, y), e, 1) == Steps(Xy(x + 2, y), e, 0);
  }

  /**
   * Row 1 of the first sample, "#..O.O.#", as a grid of its own: the robot's
   * cell (2, 1) is Empty as the parser leaves it, and the two boxes score 208.
   */
  lemma SampleRowLayout()
    ensures var f := Floor(map[Xy(0, 1) := Wall, Xy(1, 1) := Empty, Xy(2, 1) := Empty,
                               Xy(3, 1) := Box, Xy(4, 1) := Empty, Xy(5, 1) := Box,
                               Xy(6, 1) := Empty, Xy(7, 1) := Wall],
                           Xy(0, 1), Xy(7, 1));
      Valid(f) && Get(f, Xy(2, 1)) == Some(Empty) &&
      Get(f, Xy(3, 1)) == Some(Box) && Get(f, Xy(4, 1)) == Some(Empty) &&
      Get(f, Xy(5, 1)) == Some(Box) && Get(f, Xy(6, 1)) == Some(Empty) &&
      Get(f, Xy(7, 1)) == Some(Wall) && Score(f) == 208
  {
  }

  /** Pushing one box east: the robot at (x, y), a box, then an Empty cell. */
  lemma EastPushOne(f: Floor, x: int, y: int)
    requires Valid(f) && Get(f, Xy(x, y)) == Some(Empty)
    requires Get(f, Xy(x + 1, y)) == Some(Box) && Get(f, Xy(x + 2, y)) == Some(Empty)
    ensures Walk(f, Xy(x, y), Direction4.E)
            == Some((Insert(Insert(f, Xy(x + 2, y), Box), Xy(x + 1, y), Empty), Xy(x + 1, y)))
    ensures Score(Insert(Insert(f, Xy(x + 2, y), Box), Xy(x + 1, y), Empty)) == Score(f) + 1
  {
    var e := Direction4.E;
    assert Steps(Xy(x + 1, y), e, 1) == Xy(x + 2, y) && BoxChain(f, Xy(x + 1, y), e, 1) by {
      assert Steps(Xy(x + 1, y), e, 0) == Xy(x + 1, y);
    }
    WalkPushes(f, Xy(x, y), e, 1);
    PushChainScore(f, Xy(x + 1, y), e, 1);
  }

  /** Pushing two boxes east: the robot at (x, y), two boxes, then an Empty cell. */
  lemma EastPushTwo(f: Floor, x: int, y: int)
    requires Valid(f) && Get(f, Xy(x, y)) == Some(Empty)
    requires Get(f, Xy(x + 1, y)) == Some(Box) && Get(f, Xy(x + 2, y)) == Some(Box)
    requires Get(f, Xy(x + 3, y)) == Some(Empty)
    ensures Walk(f, Xy(x, y), Direction4.E)
            == Some((Insert(Insert(f, Xy(x + 3, y), Box), Xy(x + 1, y), Empty), Xy(x + 1, y)))
    ensures Score(Insert(Insert(f, Xy(x + 3, y), Box), Xy(x + 1, y), Empty)) == Score(f) + 2
  {
    EastPair(f, x + 1, y);
    WalkPushes(f, Xy(x, y), Direction4.E, 2);
    PushChainScore(f, Xy(x + 1, y), Direction4.E, 2);
  }

  /** Two boxes east of the robot against a Wall: nothing moves. */
  lemma EastBlockedTwo(f: Floor, x: int, y: int)
    requires Get(f, Xy(x + 1, y)) == Some(Box) && Get(f, Xy(x + 2, y)) == Some(Box)
    requires Get(f, Xy(x + 3, y)) == Some(Wall)
    ensures Walk(f, Xy(x, y), Direction4.E) == Some((f, Xy(x, y)))
  {
    EastPair(f, x + 1, y);
    WalkBlocked(f, Xy(x, y), Direction4.E, 2);
  }

  /**
   * Three `>` instructions along a row laid out as row 1 of the first sample
   * ("#..O.O.#", see `SampleRowLayout`), as in the step-by-step test: the
   * robot pushes one box to reach (3, 1), then two boxes to reach (4, 1),
   * then stays at the wall; each push adds the chain's shift to the score.
   */
  lemma SampleRowWalk(f: Floor)
    requires Valid(f) && Get(f, Xy(2, 1)) == Some(Empty)
    requires Get(f, Xy(3, 1)) == Some(Box) && Get(f, Xy(4, 1)) == Some(Empty)
    requires Get(f, Xy(5, 1)) == Some(Box) && Get(f, Xy(6, 1)) == Some(Empty)
    requires Get(f, Xy(7, 1)) == Some(Wall)
    ensures var r := Replay(f, Xy(2, 1), [Direction4.E, Direction4.E, Direction4.E]);
      r.Some? && r.value.1 == Xy(4, 1) && Score(r.value.0) == Score(f) + 3
  {
    var e := Direction4.E;
    EastPushOne(f, 2, 1);
    var f1 := Insert(Insert(f, Xy(4, 1), Box), Xy(3, 1), Empty);
    EastPushTwo(f1, 3, 1);
    var f2 := Insert(Insert(f1, Xy(6, 1), Box), Xy(4, 1), Empty);
    EastBlockedTwo(f2, 4, 1);
    assert [e, e, e][1..] == [e, e] && [e, e][1..] == [e] && [e][1..] == [];
    assert Replay(f2, Xy(4, 1), [e]) == Some((f2, Xy(4, 1)));
    assert Replay(f1, Xy(3, 1), [e, e]) == Some((f2, Xy(4, 1)));
  }

  // ------------------------------------------------------------ the robot

  class Warehouse {
    var grid: Floor
    var robotLocation: Xy
    var instructions: seq<Direction4>
    var instructionIndex: nat

    constructor (grid: Floor, robot: Xy, instructions: seq<Direction4>)
      ensures this.grid == grid && robotLocation == robot
      ensures this.instructions == instructions && instructionIndex == 0
    {
      this.grid := grid;
      robotLocation := robot;
      this.instructions := instructions;
      instructionIndex := 0;
    }

    /** `done`: every instruction has been used. */
    predicate Done()
      reads this
    {
      instructionIndex >= |instructions|
    }

    /** `step`: take the next instruction and carry it out. */
    method Step()
      requires !Done()
      requires Walk(grid, robotLocation, instructions[instructionIndex]).Some?
      modifies this
      ensures instructions == old(instructions)
      ensures instructionIndex == old(instructionIndex) + 1
      ensures (grid, robotLocation)
              == old(Walk(grid, robotLocation, instructions[instructionIndex])).value
    {
      var instruction := instructions[instructionIndex];
      instructionIndex := instructionIndex + 1;
      StepUpDown(instruction);
    }

    /** `step_up_down`: move the robot one cell if `can_move` allows it. */
    method StepUpDown(d: Direction4)
      requires Walk(grid, robotLocation, d).Some?
      modifies this
      ensures instructions == old(instructions) && instructionIndex == old(instructionIndex)
      ensures (grid, robotLocation) == old(Walk(grid, robotLocation, d)).value
    {
      var target := Step4(robotLocation, d);
      if Movable(grid, target, d) != Some(true) {
        return;
      }
      if UpDown(d) && Get(grid, target) == Some(BoxRight) {
        DoMove(Step4(target, Direction4.W), d);
      } else {
        DoMove(target, d);
      }
      grid := Insert(grid, robotLocation, Empty);
      robotLocation := target;
    }

    /** `do_move`: push the item at `xy` one step `d`, pushing what is in its way first. */
    method DoMove(xy: Xy, d: Direction4)
      requires Pushed(grid, xy, d).Some?
      modifies this
      ensures grid == old(Pushed(grid, xy, d)).value
      ensures robotLocation == old(robotLocation)
      ensures instructions == old(instructions) && instructionIndex == old(instructionIndex)
      decreases Reach(grid, xy, d), Westward(grid, xy)
    {
      var item := Get(grid, xy).value;
      var p := Step4(xy, d);
      if item == BoxLeft && UpDown(d) {
        var pe := Step4(p, Direction4.E);
        DoMove(p, d);
        DoMove(pe, d);
        grid := Insert(grid, p, BoxLeft);
        grid := Insert(grid, xy, Empty);
        grid := Insert(grid, pe, BoxRight);
        grid := Insert(grid, Step4(xy, Direction4.E), Empty);
      } else if item == BoxRight && UpDown(d) {
        DoMove(Step4(xy, Direction4.W), d);
      } else if item == Box || item == BoxLeft || item == BoxRight {
        DoMove(p, d);
        grid := Insert(grid, p, item);
        grid := Insert(grid, xy, Empty);
      }
    }

    /** The loop of `process`: step until done. */
    method Run()
      requires instructionIndex <= |instructions|
      requires Replay(grid, robotLocation, instructions[instructionIndex..]).Some?
      modifies this
      ensures Done() && instructions == old(instructions)
      ensures (grid, robotLocation)
              == old(Replay(grid, robotLocation, instructions[instructionIndex..])).value
    {
      ghost var final := Replay(grid, robotLocation, instructions[instructionIndex..]).value;
      while !Done()
        invariant instructions == old(instructions)
        invariant instructionIndex <= |instructions|
        invariant Replay(grid, robotLocation, instructions[instructionIndex..]) == Some(final)
        decreases |instructions| - instructionIndex
      {
        assert instructions[instructionIndex..][1..] == instructions[instructionIndex + 1..];
        Step();
      }
    }
  }
}
