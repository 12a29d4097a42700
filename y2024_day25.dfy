/**
 * 2024 day 25: locks and keys, each described by five pin heights.
 * A lock fits a key when no column overlaps: the heights sum to at most 5.
 */
module Y2024Day25 {

  /** `[i32; 5]` pin heights. */
  type Pins = s: seq<int> | |s| == 5 witness [0, 0, 0, 0, 0]

  datatype Item = Key(pins: Pins) | Lock(pins: Pins)

  /** The fit condition stated over all five columns. */
  predicate Fits(lock: Pins, key: Pins)
  {
    forall i :: 0 <= i < 5 ==> key[i] + lock[i] <= 5
  }

  /** `may_fit`: only a lock can fit, and only a key; the column loop returns at the first overlap. */
  method MayFit(self: Item, item: Item) returns (r: bool)
    ensures r <==> self.Lock? && item.Key? && Fits(self.pins, item.pins)
  {
    if self.Lock? && item.Key? {
      var l, k := self.pins, item.pins;
      var i := 0;
      while i < 5
        invariant 0 <= i <= 5
        invariant forall j :: 0 <= j < i ==> k[j] + l[j] <= 5
      {
        if k[i] + l[i] > 5 {
          return false;
        }
        i := i + 1;
      }
      return true;
    }
    return false;
  }

  /** The number of '#' among the first `rows` rows of one column. */
  function ColumnCount(lines: seq<seq<char>>, column: nat, rows: nat): (n: nat)
    requires rows <= |lines| && forall j :: 0 <= j < |lines| ==> column < |lines[j]|
    ensures n <= rows
  {
    if rows == 0 then 0
    else ColumnCount(lines, column, rows - 1) + (if lines[rows - 1][column] == '#' then 1 else 0)
  }

  /** `body`: five rows of five '.'/'#' cells, counted column by column in a 5-element buffer. */
  method Body(lines: seq<seq<char>>) returns (pins: Pins)
    requires |lines| == 5 && forall j :: 0 <= j < 5 ==> |lines[j]| == 5
    ensures forall i :: 0 <= i < 5 ==> pins[i] == ColumnCount(lines, i, 5)
    ensures forall i :: 0 <= i < 5 ==> 0 <= pins[i] <= 5
  {
    var result := new int[5](_ => 0);
    for i := 0 to 5
      invariant forall c :: 0 <= c < i ==> result[c] == ColumnCount(lines, c, 5)
      invariant forall c :: i <= c < 5 ==> result[c] == 0
    {
      for j := 0 to 5
        invariant result[i] == ColumnCount(lines, i, j)
        invariant forall c :: 0 <= c < i ==> result[c] == ColumnCount(lines, c, 5)
        invariant forall c :: i < c < 5 ==> result[c] == 0
      {
        if lines[j][i] == '#' {
          result[i] := result[i] + 1;
        }
      }
    }
    pins := result[..];
  }

  /** The first lock of `test_parse`. */
  lemma SampleLock()
    ensures forall i :: 0 <= i < 5 ==> ColumnCount([".####", ".####", ".####", ".#.#.", ".#..."], i, 5) == [0, 5, 3, 4, 3][i]
  {
    assert ColumnCount([".####", ".####", ".####", ".#.#.", ".#..."], 0, 5) == 0;
    assert ColumnCount([".####", ".####", ".####", ".#.#.", ".#..."], 1, 5) == 5;
    assert ColumnCount([".####", ".####", ".####", ".#.#.", ".#..."], 2, 5) == 3;
    assert ColumnCount([".####", ".####", ".####", ".#.#.", ".#..."], 3, 5) == 4;
    assert ColumnCount([".####", ".####", ".####", ".#.#.", ".#..."], 4, 5) == 3;
  }

  /** The first key of `test_parse`. */
  lemma SampleKey()
    ensures forall i :: 0 <= i < 5 ==> ColumnCount(["#....", "#....", "#...#", "#.#.#", "#.###"], i, 5) == [5, 0, 2, 1, 3][i]
  {
    assert ColumnCount(["#....", "#....", "#...#", "#.#.#", "#.###"], 0, 5) == 5;
    assert ColumnCount(["#....", "#....", "#...#", "#.#.#", "#.###"], 1, 5) == 0;
    assert ColumnCount(["#....", "#....", "#...#", "#.#.#", "#.###"], 2, 5) == 2;
    assert ColumnCount(["#....", "#....", "#...#", "#.#.#", "#.###"], 3, 5) == 1;
    assert ColumnCount(["#....", "#....", "#...#", "#.#.#", "#.###"], 4, 5) == 3;
  }

  /** The fit results asserted in `test_parse` (keys 0, 1 and 2 against lock 0). */
  lemma SampleFits()
    ensures !Fits([0, 5, 3, 4, 3], [5, 0, 2, 1, 3])
    ensures !Fits([0, 5, 3, 4, 3], [4, 3, 4, 0, 2])
    ensures Fits([0, 5, 3, 4, 3], [3, 0, 2, 0, 1])
  {
    assert [5, 0, 2, 1, 3][4] + [0, 5, 3, 4, 3][4] > 5;
    assert [4, 3, 4, 0, 2][1] + [0, 5, 3, 4, 3][1] > 5;
  }
}
