/**
 * 2024 day 2: a report is safe when it is strictly monotone with steps of
 * at most 3; with the Problem Dampener, removing any one level may make it so.
 */
module Y2024Day02 {

  function Sign(x: int): int
  {
    if x > 0 then 1 else if x < 0 then -1 else 0
  }

  function Abs(x: int): nat
  {
    if x < 0 then -x else x
  }

  /** `basic_is_safe`, as the Rust code computes it: the sign of the first difference, then every window against it. */
  predicate BasicIsSafe(v: seq<int>)
  {
    if |v| < 2 then false
    else
      var sign := Sign(v[0] - v[1]);
      sign != 0 && forall i :: 0 <= i < |v| - 1 ==> Abs(v[i] - v[i + 1]) <= 3 && Sign(v[i] - v[i + 1]) == sign
  }

  /** The puzzle's rule: all steps go down by 1 to 3, or all go up by 1 to 3. */
  predicate Gradual(v: seq<int>)
  {
    |v| >= 2 &&
    ((forall i :: 0 <= i < |v| - 1 ==> 1 <= v[i] - v[i + 1] <= 3) ||
     (forall i :: 0 <= i < |v| - 1 ==> 1 <= v[i + 1] - v[i] <= 3))
  }

  lemma BasicIsSafeIsGradual(v: seq<int>)
    ensures BasicIsSafe(v) <==> Gradual(v)
  {
    if |v| >= 2 && BasicIsSafe(v) {
      var sign := Sign(v[0] - v[1]);
      if sign == 1 {
        assert forall i :: 0 <= i < |v| - 1 ==> 1 <= v[i] - v[i + 1] <= 3;
      } else {
        assert forall i :: 0 <= i < |v| - 1 ==> 1 <= v[i + 1] - v[i] <= 3;
      }
    }
    if Gradual(v) {
      assert v[0] != v[1];
    }
  }

  /** `copy_without`: the report with the level at `index` left out (unchanged when `index` is past the end). */
  function CopyWithout(v: seq<int>, index: nat): (r: seq<int>)
    ensures index < |v| ==> r == v[..index] + v[index + 1..]
    ensures index >= |v| ==> r == v
  {
    if v == [] then []
    else if index == 0 then v[1..]
    else [v[0]] + CopyWithout(v[1..], index - 1)
  }

  /** Safe with the dampener: safe as is, or after leaving out one level. */
  predicate Safe(v: seq<int>)
  {
    BasicIsSafe(v) || exists i :: 0 <= i < |v| && BasicIsSafe(CopyWithout(v, i))
  }

  /** `is_safe`: try the report itself, then each single removal in order, returning at the first success. */
  method IsSafe(v: seq<int>) returns (r: bool)
    ensures r <==> Safe(v)
  {
    if BasicIsSafe(v) {
      return true;
    }
    var i := 0;
    while i < |v|
      invariant 0 <= i <= |v|
      invariant forall j :: 0 <= j < i ==> !BasicIsSafe(CopyWithout(v, j))
    {
      var short := CopyWithout(v, i);
      if BasicIsSafe(short) {
        return true;
      }
      i := i + 1;
    }
    return false;
  }

  lemma {:induction false} TooSteep(w: seq<int>, k: nat)
    requires k + 1 < |w| && (w[k] - w[k + 1] > 3 || w[k + 1] - w[k] > 3)
    ensures !BasicIsSafe(w)
  {
  }

  /** The six reports of `test_process` hold four safe ones; `7 6 4 2 1` is safe as it is. */
  lemma SampleSafeDecreasing(v: seq<int>)
    requires v == [7, 6, 4, 2, 1]
    ensures Safe(v)
  {
    assert BasicIsSafe(v);
  }

  /** `1 3 6 7 9` is safe as it is. */
  lemma SampleSafeIncreasing(v: seq<int>)
    requires v == [1, 3, 6, 7, 9]
    ensures Safe(v)
  {
    assert BasicIsSafe(v);
  }

  /** `1 3 2 4 5` is safe once the 3 is removed. */
  lemma SampleDampenedIncreasing(v: seq<int>)
    requires v == [1, 3, 2, 4, 5]
    ensures Safe(v)
  {
    var w := CopyWithout(v, 1);
    assert w == [1, 2, 4, 5];
    assert BasicIsSafe(w);
  }

  /** `8 6 4 4 1` is safe once one 4 is removed. */
  lemma SampleDampenedDecreasing(v: seq<int>)
    requires v == [8, 6, 4, 4, 1]
    ensures Safe(v)
  {
    var w := CopyWithout(v, 2);
    assert w == [8, 6, 4, 1];
    assert BasicIsSafe(w);
  }

  /** `1 2 7 8 9` keeps a step of at least 5 whichever level is removed. */
  lemma SampleUnsafeIncreasing(v: seq<int>)
    requires v == [1, 2, 7, 8, 9]
    ensures !Safe(v)
  {
    TooSteep(v, 1);
    forall i | 0 <= i < |v| ensures !BasicIsSafe(CopyWithout(v, i)) {
      if i == 0 {
        TooSteep(CopyWithout(v, 0), 0);
      } else if i == 1 {
        TooSteep(CopyWithout(v, 1), 0);
      } else if i == 2 {
        TooSteep(CopyWithout(v, 2), 1);
      } else if i == 3 {
        TooSteep(CopyWithout(v, 3), 1);
      } else {
        TooSteep(CopyWithout(v, 4), 1);
      }
    }
  }

  /** `9 7 6 2 1` keeps a step of at least 4 whichever level is removed. */
  lemma SampleUnsafeDecreasing(v: seq<int>)
    requires v == [9, 7, 6, 2, 1]
    ensures !Safe(v)
  {
    TooSteep(v, 2);
    forall i | 0 <= i < |v| ensures !BasicIsSafe(CopyWithout(v, i)) {
      if i == 0 {
        TooSteep(CopyWithout(v, 0), 1);
      } else if i == 1 {
        TooSteep(CopyWithout(v, 1), 1);
      } else if i == 2 {
        TooSteep(CopyWithout(v, 2), 1);
      } else if i == 3 {
        TooSteep(CopyWithout(v, 3), 2);
      } else {
        TooSteep(CopyWithout(v, 4), 2);
      }
    }
  }
}
