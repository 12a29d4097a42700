/**
 * 2024 day 11: one blink of a stone. A 0 becomes a 1; a number whose decimal
 * form has an even number of digits splits into the numbers written by its
 * left and right halves; anything else is multiplied by 2024.
 */
module Y2024Day11 {
  import opened Arith
  import opened Decimal

  /** `step`: the stones one stone becomes after a blink. */
  function Step(stone: nat): (r: seq<nat>)
    ensures 1 <= |r| <= 2
  {
    if stone == 0 then [1]
    else
      var digits := ToDecimal(stone);
      var length := |digits|;
      if length % 2 == 0 then [Parse(digits[..length / 2]), Parse(digits[length / 2..])]
      else [stone * 2024]
  }

  /**
   * A split stone is cut arithmetically: with h half the digit count, the
   * left stone is stone / 10^h and the right one stone % 10^h.
   */
  lemma SplitHalves(stone: nat)
    requires stone != 0 && |ToDecimal(stone)| % 2 == 0
    ensures var h := |ToDecimal(stone)| / 2;
      Step(stone) == [stone / Pow10(h), stone % Pow10(h)]
  {
    var digits := ToDecimal(stone);
    var h := |digits| / 2;
    var left, right := digits[..h], digits[h..];
    assert digits == left + right;
    assert IsDigits(left) && IsDigits(right);
    ParseConcat(left, right);
    assert |right| == h;
    DivModUnique(stone, Pow10(h), Parse(left), Parse(right));
  }

  /** A stone with an odd number of digits is multiplied by 2024. */
  lemma OddMultiplies(stone: nat)
    requires stone != 0 && |ToDecimal(stone)| % 2 == 1
    ensures Step(stone) == [stone * 2024]
  {
  }

  /** The examples of `test_step`. */
  lemma StepExamples()
    ensures Step(125) == [253000]
    ensures Step(17) == [1, 7]
    ensures Step(0) == [1]
  {
    assert ToDecimal(125) == "125";
    assert ToDecimal(17) == "17";
    assert Parse("1") == 1 && Parse("7") == 7;
  }
}
