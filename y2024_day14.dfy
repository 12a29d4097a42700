/**
 * 2024 day 14: robots moving in straight lines across a zone whose edges wrap
 * around.  The zone counts the robots in each quadrant (those on the middle
 * row or column belong to none) and multiplies the four counts into a safety
 * factor.
 *
 * Coordinates are unbounded integers here; the Rust code keeps them in `i32`.
 */
module Y2024Day14 {
  import opened Y2024Grid
  import opened Arith

  /** A robot: where it is and how far it moves each second. */
  datatype Robot = Robot(pos: Xy, vel: Xy)

  /** The robot is inside a `width` x `height` zone and moves less than a zone width (height) per step. */
  predicate RobotInZone(r: Robot, width: int, height: int)
  {
    0 <= r.pos.x < width && 0 <= r.pos.y < height &&
    -width < r.vel.x < width && -height < r.vel.y < height
  }

  predicate AllInZone(robots: seq<Robot>, width: int, height: int)
  {
    forall k | 0 <= k < |robots| :: RobotInZone(robots[k], width, height)
  }

  /**
   * One axis of `step_robot`: add the velocity, then add the size if the
   * result is negative, then subtract it if the result is at least the size.
   * Inside the zone this is addition modulo the size.
   */
  function WrapAxis(p: int, v: int, size: int): (r: int)
    ensures 0 <= p < size && -size < v < size ==> 0 <= r < size && r == (p + v) % size
  {
    var moved := p + v;
    var raised := if moved < 0 then moved + size else moved;
    if raised >= size then raised - size else raised
  }

  /** `step_robot` on one robot: both axes wrap, the velocity is kept. */
  function Moved(r: Robot, width: int, height: int): (m: Robot)
    ensures m.vel == r.vel
    ensures RobotInZone(r, width, height) ==> RobotInZone(m, width, height)
  {
    Robot(Xy(WrapAxis(r.pos.x, r.vel.x, width), WrapAxis(r.pos.y, r.vel.y, height)), r.vel)
  }

  /** Every robot moved once, in place. */
  function MovedAll(robots: seq<Robot>, width: int, height: int): (rs: seq<Robot>)
    ensures |rs| == |robots|
    ensures AllInZone(robots, width, height) ==> AllInZone(rs, width, height)
  {
    seq(|robots|, k requires 0 <= k < |robots| => Moved(robots[k], width, height))
  }

  /** The robots after `n` calls of `step`. */
  function Steps(robots: seq<Robot>, width: int, height: int, n: nat): seq<Robot>
    decreases n
  {
    if n == 0 then robots else Steps(MovedAll(robots, width, height), width, height, n - 1)
  }

  lemma ModAddMultiple(a: int, k: int, size: int)
    requires size > 0
    ensures (a + k * size) % size == a % size
  {
    var q, r := a / size, a % size;
    assert a + k * size == (q + k) * size + r by { MulDistributes(q, k, size); }
    DivModUniqueInt(a + k * size, size, q + k, r);
  }

  lemma ModOfMod(a: int, b: int, size: int)
    requires size > 0
    ensures (a % size + b) % size == (a + b) % size
  {
    ModAddMultiple(a % size + b, a / size, size);
    assert a % size + b + (a / size) * size == a + b;
  }

  /** Where a robot starting from `r` stands after `n` seconds, modulo the zone. */
  function After(r: Robot, width: int, height: int, n: nat): Robot
    requires width > 0 && height > 0
  {
    Robot(Xy((r.pos.x + n * r.vel.x) % width, (r.pos.y + n * r.vel.y) % height), r.vel)
  }

  /** One step, then `n - 1` seconds, is `n` seconds. */
  lemma AfterMoved(r: Robot, width: int, height: int, n: nat)
    requires RobotInZone(r, width, height) && n >= 1
    ensures After(Moved(r, width, height), width, height, n - 1) == After(r, width, height, n)
  {
    ModOfMod(r.pos.x + r.vel.x, (n - 1) * r.vel.x, width);
    ModOfMod(r.pos.y + r.vel.y, (n - 1) * r.vel.y, height);
    assert r.pos.x + r.vel.x + (n - 1) * r.vel.x == r.pos.x + n * r.vel.x;
    assert r.pos.y + r.vel.y + (n - 1) * r.vel.y == r.pos.y + n * r.vel.y;
  }

  /** After `n` steps a robot inside the zone stands at its start plus `n` times its velocity, modulo the zone. */
  lemma {:induction false} StepsClosedForm(robots: seq<Robot>, width: int, height: int, n: nat)
    requires width > 0 && height > 0 && AllInZone(robots, width, height)
    ensures |Steps(robots, width, height, n)| == |robots|
    ensures forall k | 0 <= k < |robots| :: Steps(robots, width, height, n)[k] == After(robots[k], width, height, n)
    decreases n
  {
    if n > 0 {
      var moved := MovedAll(robots, width, height);
      StepsClosedForm(moved, width, height, n - 1);
      forall k | 0 <= k < |robots|
        ensures Steps(robots, width, height, n)[k] == After(robots[k], width, height, n)
      {
        AfterMoved(robots[k], width, height, n);
      }
    }
  }

  // ------------------------------------------------------------ quadrants

  /** `i32` division, which truncates toward zero. */
  function Half(n: int): (h: int)
    ensures n >= 0 ==> h == n / 2
    ensures -1 <= n - 2 * h <= 1 && (n - 2 * h) * n >= 0
  {
    if n >= 0 then n / 2 else -((-n) / 2)
  }

  /** The quadrant west (or east) of column `limX` and north (or south) of row `limY`, the middle lines excluded. */
  predicate InQuadrant(pos: Xy, west: bool, north: bool, limX: int, limY: int)
  {
    (if west then pos.x < limX else pos.x > limX) && (if north then pos.y < limY else pos.y > limY)
  }

  function CountIn(robots: seq<Robot>, west: bool, north: bool, limX: int, limY: int): (n: nat)
    ensures n <= |robots|
  {
    if robots == [] then 0
    else
      (if InQuadrant(robots[0].pos, west, north, limX, limY) then 1 else 0)
        + CountIn(robots[1..], west, north, limX, limY)
  }

  /** The robots on the middle column or the middle row. */
  function CountMiddle(robots: seq<Robot>, limX: int, limY: int): (n: nat)
    ensures n <= |robots|
  {
    if robots == [] then 0
    else
      (if robots[0].pos.x == limX || robots[0].pos.y == limY then 1 else 0)
        + CountMiddle(robots[1..], limX, limY)
  }

  /** `count`: the robots in the north-west, north-east, south-west and south-east quadrants. */
  function Quadrants(robots: seq<Robot>, width: int, height: int): seq<nat>
  {
    var limX, limY := Half(width - 1), Half(height - 1);
    [CountIn(robots, true, true, limX, limY), CountIn(robots, false, true, limX, limY),
     CountIn(robots, true, false, limX, limY), CountIn(robots, false, false, limX, limY)]
  }

  /** Each robot is in exactly one quadrant or on a middle line: the four counts and the middle make up every robot. */
  lemma {:induction false} QuadrantsPartition(robots: seq<Robot>, width: int, height: int)
    ensures var q := Quadrants(robots, width, height);
      q[0] + q[1] + q[2] + q[3] + CountMiddle(robots, Half(width - 1), Half(height - 1)) == |robots|
  {
    var limX, limY := Half(width - 1), Half(height - 1);
    if robots != [] {
      QuadrantsPartition(robots[1..], width, height);
    }
  }

  /** `safety`: the product of the four quadrant counts. */
  function Safety(robots: seq<Robot>, width: int, height: int): (s: nat)
    ensures var q := Quadrants(robots, width, height);
      s == 0 <==> q[0] == 0 || q[1] == 0 || q[2] == 0 || q[3] == 0
  {
    var q := Quadrants(robots, width, height);
    ProductZero(q[0], q[1], q[2], q[3]);
    q[0] * q[1] * q[2] * q[3]
  }

  lemma ProductZero(a: nat, b: nat, c: nat, d: nat)
    ensures a * b * c * d == 0 <==> a == 0 || b == 0 || c == 0 || d == 0
  {
    if a > 0 && b > 0 && c > 0 && d > 0 {
      assert a * b > 0;
      assert a * b * c > 0;
    }
  }

  // ----------------------------------------------------------------- zone

  class Zone {
    const width: int
    const height: int
    var count: int
    var robots: seq<Robot>

    /** `Zone::new`: no step taken yet. */
    constructor (width: int, height: int, robots: seq<Robot>)
      ensures this.width == width && this.height == height && this.robots == robots && count == 0
    {
      this.width, this.height := width, height;
      this.robots := robots;
      count := 0;
    }

    /** `count` on the zone's current robots. */
    function Count(): seq<nat>
      reads this
    {
      Quadrants(robots, width, height)
    }

    /** `step_robot`: move the robot at `index`, axis by axis; no other robot changes. */
    method StepRobot(index: nat)
      requires index < |robots|
      modifies this
      ensures robots == old(robots)[index := Moved(old(robots)[index], width, height)]
      ensures count == old(count)
    {
      var robot := robots[index];
      var x := robot.pos.x + robot.vel.x;
      if x < 0 {
        x := x + width;
      }
      if x >= width {
        x := x - width;
      }
      var y := robot.pos.y + robot.vel.y;
      if y < 0 {
        y := y + height;
      }
      if y >= height {
        y := y - height;
      }
      robots := robots[index := Robot(Xy(x, y), robot.vel)];
    }

    /** `step`: count one more second and move every robot once. */
    method Step()
      modifies this
      ensures count == old(count) + 1
      ensures robots == MovedAll(old(robots), width, height)
    {
      count := count + 1;
      ghost var start := robots;
      for i := 0 to |robots|
        invariant |robots| == |start| && count == old(count) + 1
        invariant forall k | 0 <= k < i :: robots[k] == Moved(start[k], width, height)
        invariant forall k | i <= k < |robots| :: robots[k] == start[k]
      {
        StepRobot(i);
      }
    }
  }

  // ----------------------------------------------------------------- tests

  /** The twelve robots of the sample, in an 11 x 7 zone. */
  function SampleRobots(): seq<Robot>
  {
    [Robot(Xy(0, 4), Xy(3, -3)), Robot(Xy(6, 3), Xy(-1, -3)), Robot(Xy(10, 3), Xy(-1, 2)),
     Robot(Xy(2, 0), Xy(2, -1)), Robot(Xy(0, 0), Xy(1, 3)), Robot(Xy(3, 0), Xy(-2, -2)),
     Robot(Xy(7, 6), Xy(-1, -3)), Robot(Xy(3, 0), Xy(-1, -2)), Robot(Xy(9, 3), Xy(2, 3)),
     Robot(Xy(7, 3), Xy(-1, 2)), Robot(Xy(2, 4), Xy(2, -3)), Robot(Xy(9, 5), Xy(-3, -3))]
  }

  /** The robot at 2,4 with velocity 2,-3 passes 4,1, then 6,5, then 8,2, then 10,6. */
  lemma SampleStepRobot(r: Robot)
    requires r == SampleRobots()[10]
    ensures Moved(r, 11, 7).pos == Xy(4, 1)
    ensures Moved(Moved(r, 11, 7), 11, 7).pos == Xy(6, 5)
    ensures Moved(Moved(Moved(r, 11, 7), 11, 7), 11, 7).pos == Xy(8, 2)
    ensures Moved(Moved(Moved(Moved(r, 11, 7), 11, 7), 11, 7), 11, 7).pos == Xy(10, 6)
  {
  }

  /** The sample robots after 100 seconds. */
  lemma SampleAfter100()
    ensures Steps(SampleRobots(), 11, 7, 100) == [
      Robot(Xy(3, 5), Xy(3, -3)), Robot(Xy(5, 4), Xy(-1, -3)), Robot(Xy(9, 0), Xy(-1, 2)),
      Robot(Xy(4, 5), Xy(2, -1)), Robot(Xy(1, 6), Xy(1, 3)), Robot(Xy(1, 3), Xy(-2, -2)),
      Robot(Xy(6, 0), Xy(-1, -3)), Robot(Xy(2, 3), Xy(-1, -2)), Robot(Xy(0, 2), Xy(2, 3)),
      Robot(Xy(6, 0), Xy(-1, 2)), Robot(Xy(4, 5), Xy(2, -3)), Robot(Xy(6, 6), Xy(-3, -3))]
  {
    StepsClosedForm(SampleRobots(), 11, 7, 100);
  }

  /** After 100 steps the quadrants hold 1, 3, 4 and 1 robots, so the sample's safety factor is 12. */
  lemma SampleSafety()
    ensures Quadrants(Steps(SampleRobots(), 11, 7, 100), 11, 7) == [1, 3, 4, 1]
    ensures Safety(Steps(SampleRobots(), 11, 7, 100), 11, 7) == 12
  {
    SampleAfter100();
  }
}
