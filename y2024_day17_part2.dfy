/**
 * Part two of 2024 day 17: the same computer, now with saved registers that
 * `reset` restores, a record of the last output, and a check whether a given
 * value of A makes the program print itself.  The instruction semantics are
 * those of part one (the Rust code repeats them with `i64` registers).
 */
module Y2024Day17Part2 {
  import opened Wrappers
  import opened Y2024Day17Part1
  import opened Arith

  /** `as_int` over the whole program: the codes a quine has to print. */
  function Codes(program: seq<Instruction>): (r: seq<nat>)
    ensures |r| == |program|
  {
    if program == [] then [] else [Code(program[0])] + Codes(program[1..])
  }

  /** The outputs so far spell the first |emitted| instructions of the program. */
  predicate Matches(emitted: seq<nat>, program: seq<Instruction>) {
    |emitted| <= |program| && forall i | 0 <= i < |emitted| :: emitted[i] == Literal(program[i])
  }

  /** Matching one more output: it must decode to the next instruction. */
  lemma MatchesExtend(emitted: seq<nat>, program: seq<Instruction>, o: nat)
    requires Matches(emitted, program) && |emitted| < |program| && o < 8
    ensures Matches(emitted + [o], program) <==> FromCode(o) == program[|emitted|]
  {
    if FromCode(o) == program[|emitted|] {
      assert Literal(FromCode(o)) == o;
    } else {
      FromLiteral(program[|emitted|]);
      assert (emitted + [o])[|emitted|] == o;
    }
  }

  /** All of the program matched is exactly the program's codes. */
  lemma {:induction false} MatchesAll(emitted: seq<nat>, program: seq<Instruction>)
    requires Matches(emitted, program)
    ensures emitted == Codes(program) <==> |emitted| == |program|
  {
    var r := Codes(program);
    if |emitted| == |program| {
      forall i | 0 <= i < |program|
        ensures emitted[i] == r[i]
      {
        CodesAt(program, i);
      }
    }
  }

  lemma {:induction false} CodesAt(program: seq<Instruction>, i: nat)
    requires i < |program|
    ensures Codes(program)[i] == Literal(program[i])
    decreases i
  {
    if i > 0 {
      CodesAt(program[1..], i - 1);
      assert program[1..][i - 1] == program[i];
    }
  }

  /**
   * A run that has matched `emitted` and then prints an `o` that does not
   * decode to the next instruction (or comes after the last one) is no quine run.
   */
  lemma MismatchIsNoQuine(program: seq<Instruction>, emitted: seq<nat>, o: nat, rest: Option<Trace>)
    requires Matches(emitted, program) && o < 8
    requires |emitted| == |program| || FromCode(o) != program[|emitted|]
    ensures Prepend(emitted + [o], rest).Some? ==>
      Prepend(emitted + [o], rest).value.emitted != Codes(program)
  {
    if rest.Some? {
      var all := Prepend(emitted + [o], rest).value.emitted;
      if all == Codes(program) {
        assert |all| <= |program|;
        assert all[|emitted|] == o;
        CodesAt(program, |emitted|);
        FromLiteral(program[|emitted|]);
        assert false;
      }
    }
  }

  /** One more step that does not halt, with the fuel left after it named `next`. */
  lemma RunAdvance(program: seq<Instruction>, s0: State, fuel: nat, emitted: seq<nat>, s: State, rest: nat, next: nat)
    requires rest == next + 1 && CanStep(program, s) && !StepEffect(program, s).halt
    requires RunFor(program, s0, fuel) == Prepend(emitted, RunFor(program, s, rest))
    ensures var e := StepEffect(program, s);
      RunFor(program, s0, fuel) == Prepend(emitted + Emit(e.out), RunFor(program, e.next, next))
  {
    var e := StepEffect(program, s);
    assert RunFor(program, s, next + 1) == Prepend(Emit(e.out), RunFor(program, e.next, next));
    PrependTwice(emitted, Emit(e.out), RunFor(program, e.next, next));
  }

  /** A step that prints nothing and does not halt. */
  lemma QuineQuiet(program: seq<Instruction>, s0: State, fuel: nat, emitted: seq<nat>, s: State, rest: nat, next: nat)
    requires rest == next + 1 && CanStep(program, s) && !StepEffect(program, s).halt
    requires StepEffect(program, s).out.None?
    requires RunFor(program, s0, fuel) == Prepend(emitted, RunFor(program, s, rest))
    ensures RunFor(program, s0, fuel) == Prepend(emitted, RunFor(program, StepEffect(program, s).next, next))
  {
    RunAdvance(program, s0, fuel, emitted, s, rest, next);
    assert emitted + [] == emitted;
  }

  /** A step that prints the code of the next instruction still expected. */
  lemma QuineMatch(program: seq<Instruction>, s0: State, fuel: nat, emitted: seq<nat>, s: State, rest: nat, next: nat, o: nat)
    requires rest == next + 1 && CanStep(program, s) && !StepEffect(program, s).halt
    requires StepEffect(program, s).out == Some(o)
    requires RunFor(program, s0, fuel) == Prepend(emitted, RunFor(program, s, rest))
    requires Matches(emitted, program) && |emitted| < |program| && FromCode(o) == program[|emitted|]
    ensures Matches(emitted + [o], program)
    ensures program[|emitted + [o]|..] == program[|emitted|..][1..]
    ensures RunFor(program, s0, fuel) == Prepend(emitted + [o], RunFor(program, StepEffect(program, s).next, next))
  {
    RunAdvance(program, s0, fuel, emitted, s, rest, next);
    MatchesExtend(emitted, program, o);
  }

  /** A step that prints anything else ends every quine hope of the run. */
  lemma QuineMismatch(program: seq<Instruction>, s0: State, fuel: nat, emitted: seq<nat>, s: State, rest: nat, o: nat)
    requires rest > 0 && CanStep(program, s) && !StepEffect(program, s).halt
    requires StepEffect(program, s).out == Some(o)
    requires RunFor(program, s0, fuel) == Prepend(emitted, RunFor(program, s, rest))
    requires Matches(emitted, program)
    requires |emitted| == |program| || FromCode(o) != program[|emitted|]
    ensures RunFor(program, s0, fuel).Some? ==> RunFor(program, s0, fuel).value.emitted != Codes(program)
  {
    RunAfterStep(program, s0, fuel, emitted, s, rest);
    MismatchIsNoQuine(program, emitted, o, RunFor(program, StepEffect(program, s).next, rest - 1));
  }

  class Device {
    var savedA: nat
    var savedB: nat
    var savedC: nat
    var registerA: nat
    var registerB: nat
    var registerC: nat
    var program: seq<Instruction>
    var pointer: nat
    var out: seq<nat>
    var lastOut: Option<nat>

    /** A device as the parser builds it: the saved registers equal the starting ones. */
    constructor (a: nat, b: nat, c: nat, program: seq<Instruction>)
      ensures savedA == a && savedB == b && savedC == c
      ensures registerA == a && registerB == b && registerC == c
      ensures this.program == program && pointer == 0 && out == [] && lastOut == None
    {
      savedA, savedB, savedC := a, b, c;
      registerA, registerB, registerC := a, b, c;
      this.program := program;
      pointer, out, lastOut := 0, [], None;
    }

    function Current(): State
      reads this
    {
      State(registerA, registerB, registerC, pointer)
    }

    /** `reset`: restore the saved registers, clear the output and rewind the pointer. */
    method Reset()
      modifies this
      ensures Current() == State(savedA, savedB, savedC, 0) && out == []
      ensures savedA == old(savedA) && savedB == old(savedB) && savedC == old(savedC)
      ensures program == old(program) && lastOut == old(lastOut)
    {
      registerA, registerB, registerC := savedA, savedB, savedC;
      out := [];
      pointer := 0;
    }

    /**
     * `step`: as in part one, and the output of an executed instruction (or
     * None) is also kept in `lastOut`; the early return at the guard leaves it.
     */
    method Step() returns (halt: bool)
      requires CanStep(program, Current())
      modifies this
      ensures program == old(program)
      ensures savedA == old(savedA) && savedB == old(savedB) && savedC == old(savedC)
      ensures var e := StepEffect(program, old(Current()));
        Current() == e.next && out == old(out) + Emit(e.out) && halt == e.halt &&
        lastOut == if HaltGuard(old(pointer), |program|) then old(lastOut) else e.out
    {
      if HaltGuard(pointer, |program|) {
        return true;
      }
      var e := Execute(program, Current());
      registerA, registerB, registerC := e.next.a, e.next.b, e.next.c;
      pointer := e.next.pointer;
      out := out + Emit(e.out);
      lastOut := e.out;
      halt := e.halt;
    }

    /**
     * `is_quine`: from the saved registers with A replaced, step until the
     * device halts, matching every output of a step that does not halt
     * against the program in order; true when the whole program was matched.
     * At most `fuel` steps are taken; None when they run out first, or when
     * a step cannot be executed, where the source panics.
     */
    method IsQuine(a: nat, fuel: nat) returns (r: Option<bool>)
      modifies this
      ensures program == old(program)
      ensures savedA == old(savedA) && savedB == old(savedB) && savedC == old(savedC)
      ensures var run := RunFor(program, State(a, old(savedB), old(savedC), 0), fuel);
        (run.Some? ==> r == Some(run.value.emitted == Codes(program))) &&
        (r == Some(true) ==> run.Some?) &&
        (r.None? ==> run.None?)
    {
      // The source reverses the program and pops from the back, which takes
      // the instructions in program order; `desired` is that remainder.
      var desired := program;
      Reset();
      registerA := a;
      ghost var s0 := Current();
      ghost var run := RunFor(program, s0, fuel);
      ghost var emitted: seq<nat> := [];
      var rest := fuel;
      PrependNothing(run);
      assert program[|emitted|..] == program;
      while rest > 0
        invariant program == old(program)
        invariant savedA == old(savedA) && savedB == old(savedB) && savedC == old(savedC)
        invariant Matches(emitted, program) && desired == program[|emitted|..]
        invariant run == Prepend(emitted, RunFor(program, Current(), rest))
      {
        if !CanStep(program, Current()) {
          assert RunFor(program, Current(), rest) == None;
          return None;
        }
        var verdict;
        var next := rest - 1;
        verdict, desired, emitted := QuineRound(s0, fuel, run, emitted, desired, rest, next);
        if verdict.Some? {
          return verdict;
        }
        rest := next;
      }
      return None;
    }

    /**
     * One round of is_quine's loop: a step, then the check of what it
     * printed against the next instruction still desired. A verdict ends
     * the loop: the whole program matched when the device halts, a mismatch
     * otherwise; with no verdict the run is one step further along.
     */
    method QuineRound(ghost s0: State, ghost fuel: nat, ghost run: Option<Trace>, ghost emitted: seq<nat>,
                      desired: seq<Instruction>, rest: nat, next: nat)
      returns (verdict: Option<bool>, desired': seq<Instruction>, ghost emitted': seq<nat>)
      requires CanStep(program, Current()) && rest == next + 1
      requires Matches(emitted, program) && desired == program[|emitted|..]
      requires run == RunFor(program, s0, fuel)
      requires run == Prepend(emitted, RunFor(program, Current(), rest))
      modifies this
      ensures program == old(program)
      ensures savedA == old(savedA) && savedB == old(savedB) && savedC == old(savedC)
      ensures verdict.Some? ==>
        (run.Some? ==> verdict == Some(run.value.emitted == Codes(program))) &&
        (verdict == Some(true) ==> run.Some?)
      ensures verdict.None? ==>
        Matches(emitted', program) && desired' == program[|emitted'|..] &&
        run == Prepend(emitted', RunFor(program, Current(), next))
    {
      ghost var before := Current();
      desired', emitted' := desired, emitted;
      var halt := Step();
      if halt {
        RunHalts(program, s0, fuel, emitted, before, rest);
        MatchesAll(emitted, program);
        return Some(desired == []), desired', emitted';
      }
      if lastOut.Some? {
        var o := lastOut.value;
        if desired == [] || FromCode(o) != desired[0] {
          QuineMismatch(program, s0, fuel, emitted, before, rest, o);
          return Some(false), desired', emitted';
        }
        QuineMatch(program, s0, fuel, emitted, before, rest, next, o);
        desired' := desired[1..];
        lastOut := None;
        emitted' := emitted + [o];
      } else {
        QuineQuiet(program, s0, fuel, emitted, before, rest, next);
      }
      verdict := None;
    }
  }

  /** The quine test program 0,3,5,4,3,0: `adv 3; out A; jnz 0`. */
  const QuineProgram: seq<Instruction> := [Adv, Jnz, Out, Bxc, Jnz, Adv]

  lemma QuineProgramSafe()
    ensures Safe(QuineProgram)
  {
    assert forall i | 0 <= i < |QuineProgram| - 1 && i % 2 == 0 :: i == 0 || i == 2 || i == 4;
  }

  /** With A = 117440 the quine program prints its own codes. */
  lemma QuineDigits()
    ensures ShiftDigits(117440, 3) == [0, 3, 5, 4, 3, 0]
  {
    assert Shr(3, 3) == 0;
    ShiftDigitsCons(28, 3, 3, [0]);
    ShiftDigitsCons(229, 3, 28, [3, 0]);
    ShiftDigitsCons(1835, 3, 229, [4, 3, 0]);
    ShiftDigitsCons(14680, 3, 1835, [5, 4, 3, 0]);
    ShiftDigitsCons(117440, 3, 14680, [3, 5, 4, 3, 0]);
  }

  /** With A = 2024 the first digit printed is already 5, not the 0 a quine needs. */
  lemma NotQuineDigits()
    ensures ShiftDigits(2024, 3)[0] == 5
  {
    assert Shr(2024, 3) == 253;
  }

  /** From A = 2024 the quine program halts having printed something other than its codes. */
  lemma QuineRunNo(a: nat, fuel: nat)
    requires a == 2024 && fuel >= 3 * (a + 1)
    ensures var run := RunFor(QuineProgram, State(a, 0, 0, 0), fuel);
      run.Some? && run.value.emitted != Codes(QuineProgram)
  {
    ShiftLoopRun(QuineProgram, Jnz, a, 0, 0, fuel);
    NotQuineDigits();
    CodesAt(QuineProgram, 0);
  }

  /** From A = 117440 the quine program halts having printed exactly its codes. */
  lemma QuineRunYes(a: nat, fuel: nat)
    requires a == 117440 && fuel >= 3 * (a + 1)
    ensures var run := RunFor(QuineProgram, State(a, 0, 0, 0), fuel);
      run.Some? && run.value.emitted == Codes(QuineProgram)
  {
    ShiftLoopRun(QuineProgram, Jnz, a, 0, 0, fuel);
    QuineDigits();
    QuineCodes();
  }

  lemma QuineCodes()
    ensures Codes(QuineProgram) == [0, 3, 5, 4, 3, 0]
  {
    var r := Codes(QuineProgram);
    CodesAt(QuineProgram, 0);
    CodesAt(QuineProgram, 1);
    CodesAt(QuineProgram, 2);
    CodesAt(QuineProgram, 3);
    CodesAt(QuineProgram, 4);
    CodesAt(QuineProgram, 5);
  }

  /** test_quine: 2024 is not a quine value of the program, 117440 is. */
  method QuineTest() returns (first: Option<bool>, second: Option<bool>)
    ensures first == Some(false) && second == Some(true)
  {
    var device := new Device(2024, 0, 0, QuineProgram);
    var a, fuel := 2024, 6075;
    QuineRunNo(a, fuel);
    first := device.IsQuine(a, fuel);
    device.Reset();
    a, fuel := 117440, 352323;
    QuineRunYes(a, fuel);
    second := device.IsQuine(a, fuel);
  }

  /**
   * `two_step`: one pass of the puzzle input's program
   * (2,4 1,5 7,5 1,6 0,3 4,6 5,5 3,0), worked out by hand: the digit it
   * prints and the next value of A.
   */
  function TwoStep(a: nat): (nat, nat) {
    var b := Xor(a % 8, 5);
    var c := Shr(a, b);
    (Xor(Xor(b, 6), c) % 8, a / 8)
  }

  /** `one_step`: the same pass written as the program's eight assignments. */
  method OneStep(a0: nat) returns (out: nat, next: nat)
    ensures (out, next) == TwoStep(a0)
    ensures out < 8
  {
    var a := a0;
    var b := a % 8;
    b := Xor(b, 5);
    var c := Shr(a, b);
    b := Xor(b, 6);
    a := a / 8;
    b := Xor(b, c);
    out, next := b % 8, a;
  }

  /** The puzzle input's program, decoded. */
  const PuzzleProgram: seq<Instruction> :=
    [Bst, Bxc, Bxl, Out, Cdv, Out, Bxl, Bdv, Adv, Jnz, Bxc, Bdv, Out, Out, Jnz, Adv]

  /** One step that neither prints nor halts leaves the rest of the run as it is. */
  lemma RunQuiet(program: seq<Instruction>, s: State, fuel: nat, next: State)
    requires fuel > 0 && s.pointer < |program| && CanExecute(program, s.pointer)
    requires Execute(program, s) == Effect(next, None, false)
    ensures RunFor(program, s, fuel) == RunFor(program, next, fuel - 1)
  {
    PrependNothing(RunFor(program, next, fuel - 1));
  }

  /** One step that prints `o` and does not halt puts `o` in front of the rest of the run. */
  lemma RunPrint(program: seq<Instruction>, s: State, fuel: nat, next: State, o: nat)
    requires fuel > 0 && s.pointer < |program| && CanExecute(program, s.pointer)
    requires Execute(program, s) == Effect(next, Some(o), false)
    ensures RunFor(program, s, fuel) == Prepend([o], RunFor(program, next, fuel - 1))
  {
  }

  /** The puzzle program, entry by entry. */
  predicate IsPuzzle(p: seq<Instruction>) {
    |p| == 16 &&
    p[0] == Bst && p[1] == Bxc && p[2] == Bxl && p[3] == Out &&
    p[4] == Cdv && p[5] == Out && p[6] == Bxl && p[7] == Bdv &&
    p[8] == Adv && p[9] == Jnz && p[10] == Bxc && p[11] == Bdv &&
    p[12] == Out && p[13] == Out && p[14] == Jnz && p[15] == Adv
  }

  lemma PuzzleIsPuzzle()
    ensures IsPuzzle(PuzzleProgram)
  {
  }

  /** 2,4: B := A mod 8. */
  lemma PuzzleStep0(p: seq<Instruction>, a: nat, b: nat, c: nat, fuel: nat)
    requires IsPuzzle(p) && fuel > 0
    ensures RunFor(p, State(a, b, c, 0), fuel) == RunFor(p, State(a, a % 8, c, 2), fuel - 1)
  {
    RunQuiet(p, State(a, b, c, 0), fuel, State(a, a % 8, c, 2));
  }

  /** 1,5: B := B xor 5. */
  lemma PuzzleStep2(p: seq<Instruction>, a: nat, b: nat, c: nat, fuel: nat)
    requires IsPuzzle(p) && fuel > 0
    ensures RunFor(p, State(a, b, c, 2), fuel) == RunFor(p, State(a, Xor(b, 5), c, 4), fuel - 1)
  {
    RunQuiet(p, State(a, b, c, 2), fuel, State(a, Xor(b, 5), c, 4));
  }

  /** 7,5: C := A / 2^B. */
  lemma PuzzleStep4(p: seq<Instruction>, a: nat, b: nat, c: nat, fuel: nat)
    requires IsPuzzle(p) && fuel > 0
    ensures RunFor(p, State(a, b, c, 4), fuel) == RunFor(p, State(a, b, Shr(a, b), 6), fuel - 1)
  {
    RunQuiet(p, State(a, b, c, 4), fuel, State(a, b, Shr(a, b), 6));
  }

  /** 1,6: B := B xor 6. */
  lemma PuzzleStep6(p: seq<Instruction>, a: nat, b: nat, c: nat, fuel: nat)
    requires IsPuzzle(p) && fuel > 0
    ensures RunFor(p, State(a, b, c, 6), fuel) == RunFor(p, State(a, Xor(b, 6), c, 8), fuel - 1)
  {
    RunQuiet(p, State(a, b, c, 6), fuel, State(a, Xor(b, 6), c, 8));
  }

  /** 0,3: A := A / 2^3. */
  lemma PuzzleStep8(p: seq<Instruction>, a: nat, b: nat, c: nat, fuel: nat)
    requires IsPuzzle(p) && fuel > 0
    ensures RunFor(p, State(a, b, c, 8), fuel) == RunFor(p, State(Shr(a, 3), b, c, 10), fuel - 1)
  {
    RunQuiet(p, State(a, b, c, 8), fuel, State(Shr(a, 3), b, c, 10));
  }

  /** 4,6: B := B xor C. */
  lemma PuzzleStep10(p: seq<Instruction>, a: nat, b: nat, c: nat, fuel: nat)
    requires IsPuzzle(p) && fuel > 0
    ensures RunFor(p, State(a, b, c, 10), fuel) == RunFor(p, State(a, Xor(b, c), c, 12), fuel - 1)
  {
    RunQuiet(p, State(a, b, c, 10), fuel, State(a, Xor(b, c), c, 12));
  }

  /** 5,5: print B mod 8. */
  lemma PuzzleStep12(p: seq<Instruction>, a: nat, b: nat, c: nat, fuel: nat)
    requires IsPuzzle(p) && fuel > 0
    ensures RunFor(p, State(a, b, c, 12), fuel) == Prepend([b % 8], RunFor(p, State(a, b, c, 14), fuel - 1))
  {
    RunPrint(p, State(a, b, c, 12), fuel, State(a, b, c, 14), b % 8);
  }

  /** 3,0: back to the start while A is not zero, otherwise past the end. */
  lemma PuzzleStep14(p: seq<Instruction>, a: nat, b: nat, c: nat, fuel: nat)
    requires IsPuzzle(p) && fuel > 0
    ensures a > 0 ==> RunFor(p, State(a, b, c, 14), fuel) == RunFor(p, State(a, b, c, 0), fuel - 1)
    ensures a == 0 ==> RunFor(p, State(a, b, c, 14), fuel) == Some(Trace([], None, State(a, b, c, 16)))
  {
    if a > 0 {
      RunQuiet(p, State(a, b, c, 14), fuel, State(a, b, c, 0));
    } else {
      assert Execute(p, State(a, b, c, 14)) == Effect(State(a, b, c, 16), None, true);
    }
  }

  /** The first four instructions: B := (A mod 8) xor 5, C := A / 2^B, B := B xor 6. */
  lemma PuzzleFirstHalf(p: seq<Instruction>, a: nat, b: nat, c: nat, fuel: nat)
    requires IsPuzzle(p) && fuel >= 4
    ensures var b1 := Xor(a % 8, 5);
      RunFor(p, State(a, b, c, 0), fuel) == RunFor(p, State(a, Xor(b1, 6), Shr(a, b1), 8), fuel - 4)
  {
    var b1 := Xor(a % 8, 5);
    PuzzleStep0(p, a, b, c, fuel);
    PuzzleStep2(p, a, a % 8, c, fuel - 1);
    PuzzleStep4(p, a, b1, c, fuel - 2);
    PuzzleStep6(p, a, b1, Shr(a, b1), fuel - 3);
  }

  /** The last four: A := A / 8, B := B xor C, print B mod 8, jump back while A > 0. */
  lemma PuzzleSecondHalf(p: seq<Instruction>, a: nat, b: nat, c: nat, fuel: nat, next: nat)
    requires IsPuzzle(p) && fuel == next + 4
    ensures var q := Shr(a, 3);
      var o := Xor(b, c) % 8;
      RunFor(p, State(a, b, c, 8), fuel) ==
        if q > 0 then Prepend([o], RunFor(p, State(q, Xor(b, c), c, 0), next))
        else Some(Trace([o], None, State(q, Xor(b, c), c, 16)))
  {
    var q := Shr(a, 3);
    var b3 := Xor(b, c);
    PuzzleStep8(p, a, b, c, fuel);
    PuzzleStep10(p, q, b, c, fuel - 1);
    PuzzleStep12(p, q, b3, c, fuel - 2);
    PuzzleStep14(p, q, b3, c, fuel - 3);
    if q == 0 {
      assert [b3 % 8] + [] == [b3 % 8];
    }
  }

  /** The two halves together: one pass, in the registers' own terms. */
  lemma PuzzleHalves(p: seq<Instruction>, a: nat, b: nat, c: nat, fuel: nat)
    requires IsPuzzle(p) && fuel >= 8
    ensures var b1 := Xor(a % 8, 5);
      var c1 := Shr(a, b1);
      var b3 := Xor(Xor(b1, 6), c1);
      RunFor(p, State(a, b, c, 0), fuel) ==
        if Shr(a, 3) > 0 then Prepend([b3 % 8], RunFor(p, State(Shr(a, 3), b3, c1, 0), fuel - 8))
        else Some(Trace([b3 % 8], None, State(Shr(a, 3), b3, c1, 16)))
  {
    var b1 := Xor(a % 8, 5);
    PuzzleFirstHalf(p, a, b, c, fuel);
    PuzzleSecondHalf(p, a, Xor(b1, 6), Shr(a, b1), fuel - 4, fuel - 8);
  }

  /** One pass of the puzzle program: print TwoStep(A).0 and loop back with A = TwoStep(A).1. */
  lemma PuzzlePass(p: seq<Instruction>, a: nat, b: nat, c: nat, fuel: nat)
    requires IsPuzzle(p) && fuel >= 8
    ensures var b1 := Xor(a % 8, 5);
      var c1 := Shr(a, b1);
      var b3 := Xor(Xor(b1, 6), c1);
      RunFor(p, State(a, b, c, 0), fuel) ==
        if a / 8 > 0 then Prepend([TwoStep(a).0], RunFor(p, State(a / 8, b3, c1, 0), fuel - 8))
        else Some(Trace([TwoStep(a).0], None, State(0, b3, c1, 16)))
  {
    ShrIsDivision(a, 3);
    assert Pow2(3) == 8;
    PuzzleHalves(p, a, b, c, fuel);
  }

  /** The digits the puzzle program prints from A: one TwoStep per pass until A is zero. */
  function PuzzleDigits(a: nat): (r: seq<nat>)
    ensures |r| >= 1 && r[0] == TwoStep(a).0
    decreases a
  {
    var (o, next) := TwoStep(a);
    [o] + if next > 0 then PuzzleDigits(next) else []
  }

  /**
   * `two_step` is what it claims to be: each pass of the puzzle program
   * prints TwoStep(A).0 and leaves TwoStep(A).1 in A, so the whole run
   * prints PuzzleDigits(A).
   */
  lemma {:induction false} PuzzleRun(p: seq<Instruction>, a: nat, b: nat, c: nat, fuel: nat)
    requires IsPuzzle(p) && fuel >= 8 * (a + 1)
    ensures var run := RunFor(p, State(a, b, c, 0), fuel);
      run.Some? && run.value.emitted == PuzzleDigits(a) && run.value.last == None
    decreases a
  {
    var b1 := Xor(a % 8, 5);
    var c1 := Shr(a, b1);
    PuzzlePass(p, a, b, c, fuel);
    if a / 8 > 0 {
      assert a / 8 + 1 <= a;
      PuzzleRun(p, a / 8, Xor(Xor(b1, 6), c1), c1, fuel - 8);
    }
  }

  lemma PuzzleCodes(p: seq<Instruction>)
    requires IsPuzzle(p)
    ensures Codes(p) == [2, 4, 1, 5, 7, 5, 1, 6, 0, 3, 4, 6, 5, 5, 3, 0]
  {
    CodesAt(p, 0); CodesAt(p, 1); CodesAt(p, 2); CodesAt(p, 3);
    CodesAt(p, 4); CodesAt(p, 5); CodesAt(p, 6); CodesAt(p, 7);
    CodesAt(p, 8); CodesAt(p, 9); CodesAt(p, 10); CodesAt(p, 11);
    CodesAt(p, 12); CodesAt(p, 13); CodesAt(p, 14); CodesAt(p, 15);
  }

  /** is_quine on the puzzle program holds exactly when PuzzleDigits(A) spells the program. */
  lemma PuzzleQuine(a: nat, b: nat, c: nat, fuel: nat)
    requires fuel >= 8 * (a + 1)
    ensures var run := RunFor(PuzzleProgram, State(a, b, c, 0), fuel);
      run.Some? && (run.value.emitted == Codes(PuzzleProgram) <==>
        PuzzleDigits(a) == [2, 4, 1, 5, 7, 5, 1, 6, 0, 3, 4, 6, 5, 5, 3, 0])
  {
    PuzzleIsPuzzle();
    PuzzleRun(PuzzleProgram, a, b, c, fuel);
    PuzzleCodes(PuzzleProgram);
  }

  /** The test find_eight applies to a candidate value of A, given its pass (digit, next A). */
  predicate Accepted(output: nat, regA: seq<nat>, pass: (nat, nat)) {
    pass.0 == output && pass.1 in regA
  }

  /** The values in [lo, hi) whose pass under `step` is accepted, in increasing order. */
  function Block(step: nat -> (nat, nat), output: nat, regA: seq<nat>, lo: nat, hi: nat): seq<nat>
    decreases hi
  {
    if hi <= lo then []
    else Block(step, output, regA, lo, hi - 1) + if Accepted(output, regA, step(hi - 1)) then [hi - 1] else []
  }

  /** find_eight's result: the accepted values of each block [8 base, 8 base + 8), base by base. */
  function Candidates(step: nat -> (nat, nat), output: nat, regA: seq<nat>, bases: seq<nat>): seq<nat>
    decreases |bases|
  {
    if bases == [] then []
    else
      var base := bases[|bases| - 1];
      Candidates(step, output, regA, bases[..|bases| - 1]) + Block(step, output, regA, base * 8, base * 8 + 8)
  }

  lemma {:induction false} BlockMembers(step: nat -> (nat, nat), output: nat, regA: seq<nat>, lo: nat, hi: nat)
    ensures forall i :: i in Block(step, output, regA, lo, hi) <==> lo <= i < hi && Accepted(output, regA, step(i))
    ensures |Block(step, output, regA, lo, hi)| <= if hi <= lo then 0 else hi - lo
    decreases hi
  {
    if lo < hi {
      BlockMembers(step, output, regA, lo, hi - 1);
    }
  }

  /**
   * A value is among the candidates exactly when its eighth is one of the
   * bases and its pass is accepted; there are at most eight per base.
   */
  lemma {:induction false} CandidatesMembers(step: nat -> (nat, nat), output: nat, regA: seq<nat>, bases: seq<nat>)
    ensures forall i: nat :: i in Candidates(step, output, regA, bases) <==>
      i / 8 in bases && Accepted(output, regA, step(i))
    ensures |Candidates(step, output, regA, bases)| <= 8 * |bases|
    decreases |bases|
  {
    if bases != [] {
      var init := bases[..|bases| - 1];
      var base := bases[|bases| - 1];
      CandidatesMembers(step, output, regA, init);
      BlockMembers(step, output, regA, base * 8, base * 8 + 8);
      assert bases == init + [base];
      forall i: nat
        ensures i in Block(step, output, regA, base * 8, base * 8 + 8) <==>
          i / 8 == base && Accepted(output, regA, step(i))
      {
        if base * 8 <= i < base * 8 + 8 {
          DivModUnique(i, 8, base, i - base * 8);
        }
      }
    }
  }

  /**
   * What find_eight returns for candidates `regA`: exactly the values whose
   * eighth is a candidate and whose pass prints `output` (the pass then ends
   * on that candidate), at most eight per candidate.
   */
  lemma FindEightMeaning(output: nat, regA: seq<nat>)
    ensures forall i: nat :: i in Candidates(TwoStep, output, regA, regA) <==>
      i / 8 in regA && TwoStep(i).0 == output
    ensures forall i: nat :: i in Candidates(TwoStep, output, regA, regA) ==> TwoStep(i).1 in regA
    ensures |Candidates(TwoStep, output, regA, regA)| <= 8 * |regA|
  {
    CandidatesMembers(TwoStep, output, regA, regA);
    forall i: nat
      ensures TwoStep(i).1 == i / 8
    {
    }
  }

  /**
   * `find_eight`: the values of A, eight per candidate base, whose pass
   * prints `output` and leaves a value that is one of the candidates.
   */
  method FindEight(output: nat, regA: seq<nat>) returns (result: seq<nat>)
    ensures result == Candidates(TwoStep, output, regA, regA)
  {
    result := [];
    for n := 0 to |regA|
      invariant result == Candidates(TwoStep, output, regA, regA[..n])
    {
      var found := ScanBase(output, regA, regA[n]);
      CandidatesExtend(output, regA, n, result, found);
      result := result + found;
    }
    assert regA[..|regA|] == regA;
  }

  /** One more base adds its block of accepted values at the end. */
  lemma CandidatesExtend(output: nat, regA: seq<nat>, n: nat, result: seq<nat>, found: seq<nat>)
    requires n < |regA| && result == Candidates(TwoStep, output, regA, regA[..n])
    requires found == Block(TwoStep, output, regA, regA[n] * 8, regA[n] * 8 + 8)
    ensures result + found == Candidates(TwoStep, output, regA, regA[..n + 1])
  {
    assert regA[..n + 1][..n] == regA[..n];
  }

  /** One more value joins the block exactly when its pass is accepted. */
  lemma BlockExtend(output: nat, regA: seq<nat>, lo: nat, i: nat, found: seq<nat>, out: nat, acc: nat)
    requires lo <= i && found == Block(TwoStep, output, regA, lo, i) && (out, acc) == TwoStep(i)
    ensures output == out && acc in regA ==> found + [i] == Block(TwoStep, output, regA, lo, i + 1)
    ensures !(output == out && acc in regA) ==> found == Block(TwoStep, output, regA, lo, i + 1)
  {
  }

  /** The inner loop of find_eight: the accepted values of [8 base, 8 base + 8). */
  method ScanBase(output: nat, regA: seq<nat>, base: nat) returns (found: seq<nat>)
    ensures found == Block(TwoStep, output, regA, base * 8, base * 8 + 8)
  {
    found := [];
    var lo := base * 8;
    assert (base + 1) * 8 == lo + 8;
    for i := lo to (base + 1) * 8
      invariant found == Block(TwoStep, output, regA, lo, i)
    {
      var (out, acc) := TwoStep(i);
      BlockExtend(output, regA, lo, i, found, out, acc);
      if output == out && acc in regA {
        found := found + [i];
      }
    }
  }
}
