/**
 * 2023 day 9: extrapolating a sequence from its table of differences.
 * `process` predicts the next value, `preprocess` the value before the first.
 */
module Y2023Day09 {

  /** `intervals`: the differences of adjacent values (`tuple_windows`). */
  function Intervals(s: seq<int>): (r: seq<int>)
    ensures |r| == if |s| == 0 then 0 else |s| - 1
    ensures forall i :: 0 <= i < |r| ==> r[i] == s[i + 1] - s[i]
  {
    if |s| < 2 then [] else seq(|s| - 1, i requires 0 <= i < |s| - 1 => s[i + 1] - s[i])
  }

  predicate AllZero(s: seq<int>)
  {
    forall i :: 0 <= i < |s| ==> s[i] == 0
  }

  /** `process`: the last value plus the extrapolated next difference. */
  function Process(s: seq<int>): int
    requires |s| >= 1
    decreases |s|
  {
    var next := Intervals(s);
    s[|s| - 1] + if AllZero(next) then 0 else Process(next)
  }

  /** `preprocess`: the first value minus the extrapolated previous difference. */
  function Preprocess(s: seq<int>): int
    requires |s| >= 1
    decreases |s|
  {
    var next := Intervals(s);
    s[0] - if AllZero(next) then 0 else Preprocess(next)
  }

  /** A constant sequence is extended by its own value. */
  lemma {:induction false} ConstantExtends(s: seq<int>, c: int)
    requires |s| >= 1 && forall i :: 0 <= i < |s| ==> s[i] == c
    ensures Process(s) == c && Preprocess(s) == c
  {
    var next := Intervals(s);
    assert AllZero(next) by {
      forall i | 0 <= i < |next| ensures next[i] == 0 {
        assert next[i] == s[i + 1] - s[i];
      }
    }
  }

  /** Appending a value appends its difference from the last value. */
  lemma IntervalsAppend(s: seq<int>, x: int)
    requires |s| >= 1
    ensures Intervals(s + [x]) == Intervals(s) + [x - s[|s| - 1]]
  {
    var t := s + [x];
    var lhs, rhs := Intervals(t), Intervals(s) + [x - s[|s| - 1]];
    assert |lhs| == |rhs|;
    forall i | 0 <= i < |lhs| ensures lhs[i] == rhs[i] {
      assert lhs[i] == t[i + 1] - t[i];
      if i < |s| - 1 {
        assert t[i + 1] == s[i + 1] && t[i] == s[i];
      }
    }
  }

  /**
   * Extrapolation keeps the difference table consistent: appending the
   * predicted value appends, to the differences, the value they predict
   * (or 0 once they are all zero).
   */
  lemma {:induction false} ExtendedDifferences(s: seq<int>)
    requires |s| >= 1
    ensures var next := Intervals(s);
      Intervals(s + [Process(s)]) == next + [if AllZero(next) then 0 else Process(next)]
  {
    var next := Intervals(s);
    var d := if AllZero(next) then 0 else Process(next);
    assert Process(s) == s[|s| - 1] + d;
    IntervalsAppend(s, Process(s));
  }

  function Negate(s: seq<int>): (r: seq<int>)
    ensures |r| == |s| && forall i :: 0 <= i < |s| ==> r[i] == -s[i]
  {
    seq(|s|, i requires 0 <= i < |s| => -s[i])
  }

  function Reverse(s: seq<int>): (r: seq<int>)
    ensures |r| == |s| && forall i :: 0 <= i < |s| ==> r[i] == s[|s| - 1 - i]
  {
    seq(|s|, i requires 0 <= i < |s| => s[|s| - 1 - i])
  }

  /** Extrapolation commutes with negation. */
  lemma {:induction false} ProcessNegate(s: seq<int>)
    requires |s| >= 1
    ensures Process(Negate(s)) == -Process(s)
    decreases |s|
  {
    assert Negate(s)[|s| - 1] == -s[|s| - 1];
    var next := Intervals(s);
    var nnext := Intervals(Negate(s));
    assert nnext == Negate(next) by {
      assert |nnext| == |Negate(next)|;
      forall i | 0 <= i < |nnext| ensures nnext[i] == Negate(next)[i] {
        assert nnext[i] == Negate(s)[i + 1] - Negate(s)[i];
      }
    }
    if !AllZero(next) {
      ProcessNegate(next);
    } else {
      assert AllZero(Negate(next));
    }
  }

  lemma {:induction false} IntervalsReverse(s: seq<int>)
    ensures Intervals(Reverse(s)) == Negate(Reverse(Intervals(s)))
  {
    var next := Intervals(s);
    var rnext := Intervals(Reverse(s));
    assert |rnext| == |Negate(Reverse(next))|;
    forall i | 0 <= i < |rnext| ensures rnext[i] == Negate(Reverse(next))[i] {
      assert rnext[i] == Reverse(s)[i + 1] - Reverse(s)[i];
      assert Reverse(next)[i] == next[|next| - 1 - i];
    }
  }

  /** Reversing and negating a sequence keeps it all zero, and keeps it not all zero. */
  lemma AllZeroFlip(s: seq<int>)
    ensures AllZero(Negate(Reverse(s))) <==> AllZero(s)
  {
    var f := Negate(Reverse(s));
    if AllZero(f) {
      forall i | 0 <= i < |s| ensures s[i] == 0 {
        assert f[|s| - 1 - i] == -s[i];
      }
    }
  }

  /** Extrapolating backwards is extrapolating the reversed sequence forwards. */
  lemma {:induction false} PreprocessIsReversedProcess(s: seq<int>)
    requires |s| >= 1
    ensures Preprocess(s) == Process(Reverse(s))
    decreases |s|
  {
    var next := Intervals(s);
    var rs := Reverse(s);
    var rnext := Intervals(rs);
    IntervalsReverse(s);
    AllZeroFlip(next);
    assert rs[|rs| - 1] == s[0];
    if !AllZero(next) {
      PreprocessIsReversedProcess(next);
      ProcessNegate(Reverse(next));
      assert Process(rs) == s[0] + Process(rnext);
    } else {
      assert Process(rs) == s[0];
    }
  }

  lemma {:induction false} ExtendForward(s: seq<int>, next: seq<int>, forward: int)
    requires |s| >= 1 && Intervals(s) == next && |next| >= 1 && next[0] != 0
    requires Process(next) == forward
    ensures Process(s) == s[|s| - 1] + forward
  {
  }

  lemma {:induction false} ExtendBy(s: seq<int>, next: seq<int>, forward: int, backward: int)
    requires |s| >= 1 && Intervals(s) == next && |next| >= 1 && !AllZero(next)
    requires Process(next) == forward && Preprocess(next) == backward
    ensures Process(s) == s[|s| - 1] + forward && Preprocess(s) == s[0] - backward
  {
  }

  /** The lines of `test_sample`: 18 + 28 + 68 = 114. */
  lemma SampleLine0()
    ensures Process([0, 3, 6, 9, 12, 15]) == 18
  {
    var s := [0, 3, 6, 9, 12, 15];
    assert Intervals(s) == [3, 3, 3, 3, 3];
    ConstantExtends([3, 3, 3, 3, 3], 3);
    assert !AllZero(Intervals(s));
  }

  /** The first differences of the second line, `2 3 4 5 6`, extend to 7. */
  lemma SampleLine1Middle()
    ensures Process([2, 3, 4, 5, 6]) == 7
  {
    ConstantExtends([1, 1, 1, 1], 1);
    assert Intervals([2, 3, 4, 5, 6]) == [1, 1, 1, 1];
    assert !AllZero([1, 1, 1, 1]);
  }

  lemma SampleLine1()
    ensures Process([1, 3, 6, 10, 15, 21]) == 28
  {
    SampleLine1Middle();
    var n := Intervals([1, 3, 6, 10, 15, 21]);
    assert n[0] == 2 && n[1] == 3 && n[2] == 4 && n[3] == 5 && n[4] == 6;
    assert n == [2, 3, 4, 5, 6];
    ExtendForward([1, 3, 6, 10, 15, 21], [2, 3, 4, 5, 6], 7);
  }

  /** The deepest differences of the third line, `0 2 4 6`, extend to 8 and -2. */
  lemma SampleLine2Deep()
    ensures Process([0, 2, 4, 6]) == 8 && Preprocess([0, 2, 4, 6]) == -2
  {
    ConstantExtends([2, 2, 2], 2);
    assert Intervals([0, 2, 4, 6]) == [2, 2, 2];
    ExtendBy([0, 2, 4, 6], [2, 2, 2], 2, 2);
  }

  /** The first differences of the third line, `3 3 5 9 15`, extend to 23 and 5. */
  lemma SampleLine2Middle()
    ensures Process([3, 3, 5, 9, 15]) == 23 && Preprocess([3, 3, 5, 9, 15]) == 5
  {
    SampleLine2Deep();
    assert Intervals([3, 3, 5, 9, 15]) == [0, 2, 4, 6];
    ExtendBy([3, 3, 5, 9, 15], [0, 2, 4, 6], 8, -2);
  }

  lemma SampleLine2()
    ensures Process([10, 13, 16, 21, 30, 45]) == 68
    ensures Preprocess([10, 13, 16, 21, 30, 45]) == 5
  {
    SampleLine2Middle();
    assert Intervals([10, 13, 16, 21, 30, 45]) == [3, 3, 5, 9, 15];
    ExtendBy([10, 13, 16, 21, 30, 45], [3, 3, 5, 9, 15], 23, 5);
  }
}
