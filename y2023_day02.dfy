/**
 * 2023 day 2: bags of red, green and blue cubes.
 * `Cubes` is a plain record; `+` sums componentwise, `combine` takes the
 * componentwise maximum, `contains` is componentwise `>=`, and `power` is
 * the product of the three counts.
 */
module Y2023Day02 {
  import opened Arith

  datatype Cubes = Cubes(red: nat, green: nat, blue: nat)

  /** `Cubes::default()`: no cubes of any colour. */
  const Empty: Cubes := Cubes(0, 0, 0)

  function Red(count: nat): Cubes { Cubes(count, 0, 0) }
  function Green(count: nat): Cubes { Cubes(0, count, 0) }
  function Blue(count: nat): Cubes { Cubes(0, 0, count) }

  /** `self >= other` in every colour. */
  predicate Contains(self: Cubes, other: Cubes)
  {
    self.red >= other.red && self.green >= other.green && self.blue >= other.blue
  }

  /** `Add for Cubes`: the cubes of two handfuls put together. */
  function Add(a: Cubes, b: Cubes): Cubes
  {
    Cubes(a.red + b.red, a.green + b.green, a.blue + b.blue)
  }

  /** The smallest bag able to show both handfuls: the least upper bound for `Contains`. */
  function Combine(a: Cubes, b: Cubes): (r: Cubes)
    ensures Contains(r, a) && Contains(r, b)
    ensures forall c :: Contains(c, a) && Contains(c, b) ==> Contains(c, r)
  {
    Cubes(if a.red >= b.red then a.red else b.red,
          if a.green >= b.green then a.green else b.green,
          if a.blue >= b.blue then a.blue else b.blue)
  }

  function Power(c: Cubes): (r: nat)
    ensures r == 0 <==> c.red == 0 || c.green == 0 || c.blue == 0
  {
    c.red * c.green * c.blue
  }

  /** `+` is a commutative monoid with the empty bag as unit, and the sum contains both parts. */
  lemma AddLaws(a: Cubes, b: Cubes, c: Cubes)
    ensures Add(a, b) == Add(b, a)
    ensures Add(Add(a, b), c) == Add(a, Add(b, c))
    ensures Add(a, Empty) == a
    ensures Contains(Add(a, b), a) && Contains(Add(a, b), b)
  {
  }

  lemma CombineCommutativeIdempotent(a: Cubes, b: Cubes)
    ensures Combine(a, b) == Combine(b, a)
    ensures Combine(a, a) == a
    ensures Combine(a, Empty) == a
  {
  }

  lemma ContainsPartialOrder(a: Cubes, b: Cubes, c: Cubes)
    ensures Contains(a, a)
    ensures Contains(a, b) && Contains(b, a) ==> a == b
    ensures Contains(a, b) && Contains(b, c) ==> Contains(a, c)
  {
  }

  /** A larger bag never has a smaller power. */
  lemma PowerMonotone(a: Cubes, b: Cubes)
    requires Contains(a, b)
    ensures Power(a) >= Power(b)
  {
    MulMonotone(a.red, b.red, a.green, b.green);
    MulMonotone(a.red * a.green, b.red * b.green, a.blue, b.blue);
  }

  /** `part2`'s fold of `combine` over the sets shown in one game. */
  function Minimum(game: seq<Cubes>): (r: Cubes)
  {
    if game == [] then Empty else Combine(Minimum(game[..|game| - 1]), game[|game| - 1])
  }

  /**
   * The folded bag is the smallest one that contains every set of the game,
   * so `part1`'s test "every set fits in the bag" is `Contains(bag, Minimum(game))`.
   */
  lemma {:induction false} MinimumIsLeast(game: seq<Cubes>, bag: Cubes)
    ensures (forall i :: 0 <= i < |game| ==> Contains(bag, game[i])) <==> Contains(bag, Minimum(game))
  {
    if game != [] {
      var init := game[..|game| - 1];
      MinimumIsLeast(init, bag);
      assert forall i :: 0 <= i < |init| ==> init[i] == game[i];
      var m := Minimum(init);
      assert Contains(Minimum(game), m);
      if Contains(bag, Minimum(game)) {
        ContainsPartialOrder(bag, Minimum(game), m);
        forall i | 0 <= i < |game| ensures Contains(bag, game[i]) {
          if i < |init| {
            ContainsPartialOrder(bag, m, game[i]);
          } else {
            ContainsPartialOrder(bag, Minimum(game), game[i]);
          }
        }
      }
    }
  }

  /** The examples of `test_contains`. */
  lemma ContainsExamples()
    ensures Contains(Green(3), Empty)
    ensures !Contains(Empty, Blue(1))
  {
  }
}
