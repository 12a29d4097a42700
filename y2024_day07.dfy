/**
 * 2024 day 7: can the operators `+` and `*`, applied strictly left to right,
 * combine an equation's components into its result?
 */
module Y2024Day07 {

  datatype Operator = Plus | Times

  datatype Equation = Equation(result: int, components: seq<int>)

  function Apply(op: Operator, total: int, c: int): int
  {
    match op
    case Plus => total + c
    case Times => total * c
  }

  /**
   * `can_make`: stop as soon as the running total passes the result, accept
   * an exhausted list exactly when the total is the result, otherwise apply
   * `operator` to the next component and try both operators for the rest.
   */
  function CanMake(result: int, total: int, op: Operator, components: seq<int>): (r: bool)
    ensures total > result ==> !r
    ensures components == [] ==> (r <==> total == result)
    decreases |components|
  {
    if total > result then false
    else if components == [] then total == result
    else
      var next := Apply(op, total, components[0]);
      CanMake(result, next, Plus, components[1..]) || CanMake(result, next, Times, components[1..])
  }

  /** `is_valid`: the first component starts the total. Rust indexes `components[0]`, so the list is not empty. */
  predicate IsValid(e: Equation)
    requires |e.components| >= 1
  {
    CanMake(e.result, e.components[0], Plus, e.components[1..])
      || CanMake(e.result, e.components[0], Times, e.components[1..])
  }

  /** Left-to-right evaluation of `total` followed by the components, with one operator for each component. */
  function Evaluate(total: int, components: seq<int>, ops: seq<Operator>): int
    requires |ops| == |components|
    decreases |components|
  {
    if components == [] then total
    else Evaluate(Apply(ops[0], total, components[0]), components[1..], ops[1..])
  }

  predicate AllPositive(s: seq<int>)
  {
    forall i :: 0 <= i < |s| ==> s[i] >= 1
  }

  /** With a non-negative total and positive components, evaluation never goes down. */
  lemma {:induction false} EvaluateGrows(total: int, components: seq<int>, ops: seq<Operator>)
    requires total >= 0 && AllPositive(components) && |ops| == |components|
    ensures Evaluate(total, components, ops) >= total
    decreases |components|
  {
    if components != [] {
      var next := Apply(ops[0], total, components[0]);
      assert next >= total by {
        if ops[0] == Times {
          assert total * components[0] >= total * 1;
        }
      }
      EvaluateGrows(next, components[1..], ops[1..]);
    }
  }

  /**
   * Pruning is sound for positive components: trying both operators at the
   * head of `components` succeeds exactly when some choice of operators
   * evaluates to the result.
   */
  lemma {:induction false} CanMakeComplete(result: int, total: int, components: seq<int>)
    requires total >= 0 && AllPositive(components)
    ensures (CanMake(result, total, Plus, components) || CanMake(result, total, Times, components))
      <==> exists ops :: |ops| == |components| && Evaluate(total, components, ops) == result
    decreases |components|
  {
    var both := CanMake(result, total, Plus, components) || CanMake(result, total, Times, components);
    if components == [] {
      assert Evaluate(total, components, []) == total;
    } else {
      var c, rest := components[0], components[1..];
      assert AllPositive(rest);
      var plus, times := total + c, total * c;
      assert times >= 0 by { assert c >= 1; }
      CanMakeComplete(result, plus, rest);
      CanMakeComplete(result, times, rest);
      if both {
        assert total <= result;
        if CanMake(result, plus, Plus, rest) || CanMake(result, plus, Times, rest) {
          var ops :| |ops| == |rest| && Evaluate(plus, rest, ops) == result;
          assert Evaluate(total, components, [Plus] + ops) == result by {
            assert ([Plus] + ops)[1..] == ops;
          }
        } else {
          var ops :| |ops| == |rest| && Evaluate(times, rest, ops) == result;
          assert Evaluate(total, components, [Times] + ops) == result by {
            assert ([Times] + ops)[1..] == ops;
          }
        }
      }
      if exists ops :: |ops| == |components| && Evaluate(total, components, ops) == result {
        var ops :| |ops| == |components| && Evaluate(total, components, ops) == result;
        EvaluateGrows(total, components, ops);
        assert total <= result;
        var next := Apply(ops[0], total, c);
        assert Evaluate(next, rest, ops[1..]) == result;
        assert CanMake(result, total, ops[0], components);
      }
    }
  }

  /**
   * For a non-negative first component and positive components after it,
   * `is_valid` holds exactly when some left-to-right operator choice
   * reaches the result.
   */
  lemma IsValidMeansReachable(e: Equation)
    requires |e.components| >= 1 && e.components[0] >= 0 && AllPositive(e.components[1..])
    ensures IsValid(e) <==>
      exists ops :: |ops| == |e.components| - 1 && Evaluate(e.components[0], e.components[1..], ops) == e.result
  {
    CanMakeComplete(e.result, e.components[0], e.components[1..]);
  }

  /**
   * With a zero component the early cut-off is not sound: `0: 5 0` is
   * reached by 5 * 0, yet the total 5 already exceeds the result.
   */
  lemma ZeroComponentRejected()
    ensures !IsValid(Equation(0, [5, 0]))
    ensures Evaluate(5, [0], [Times]) == 0
  {
  }

  /** The equations of `test_is_valid`. */
  lemma SampleEquations()
    ensures IsValid(Equation(190, [10, 19]))
    ensures IsValid(Equation(3267, [81, 40, 27]))
    ensures !IsValid(Equation(83, [17, 5]))
  {
    assert CanMake(3267, 121, Times, [27]);
  }
}
