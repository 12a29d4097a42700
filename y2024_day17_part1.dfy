/**
 * The three-bit computer of 2024 day 17: eight instructions, three registers,
 * an instruction pointer and an output list.  Each instruction is followed by
 * an operand, read either as a literal (its code) or as a combo operand
 * (codes 4, 5 and 6 read registers A, B and C).
 *
 * Registers are unbounded naturals here; the Rust code keeps them in `i32`
 * (part two: `i64`) and casts combo operands to `u32`.
 */
module Y2024Day17Part1 {
  import opened Wrappers
  import opened Arith

  datatype Instruction = Adv | Bxl | Bst | Jnz | Bxc | Out | Bdv | Cdv

  /** The numeric code of an instruction, as `Display` prints it. */
  function Code(i: Instruction): (n: nat)
    ensures n == Literal(i)
  {
    match i
    case Adv => 0
    case Bxl => 1
    case Bst => 2
    case Jnz => 3
    case Bxc => 4
    case Out => 5
    case Bdv => 6
    case Cdv => 7
  }

  /** `From<i32>`: the instruction with a given code; other values panic. */
  function FromCode(n: int): (i: Instruction)
    requires 0 <= n < 8
    ensures Literal(i) == n
  {
    if n == 0 then Adv
    else if n == 1 then Bxl
    else if n == 2 then Bst
    else if n == 3 then Jnz
    else if n == 4 then Bxc
    else if n == 5 then Out
    else if n == 6 then Bdv
    else Cdv
  }

  /** An operand read as a literal: the code it was parsed from. */
  function Literal(op: Instruction): (n: nat)
    ensures n < 8
  {
    match op
    case Adv => 0
    case Bxl => 1
    case Bst => 2
    case Jnz => 3
    case Bxc => 4
    case Out => 5
    case Bdv => 6
    case Cdv => 7
  }

  /** Parsing the code of an instruction gives the instruction back. */
  lemma FromLiteral(op: Instruction)
    ensures FromCode(Literal(op)) == op
  {
  }

  /** Distinct instructions have distinct codes. */
  lemma LiteralInjective(i: Instruction, j: Instruction)
    ensures Literal(i) == Literal(j) ==> i == j
  {
    FromLiteral(i);
    FromLiteral(j);
  }

  /** An operand read as a combo operand; operand 7 panics in the source. */
  function Combo(op: Instruction, a: nat, b: nat, c: nat): (n: nat)
    requires op != Cdv
    ensures Literal(op) < 4 ==> n == Literal(op)
    ensures Literal(op) == 4 ==> n == a
    ensures Literal(op) == 5 ==> n == b
    ensures Literal(op) == 6 ==> n == c
  {
    match op
    case Adv => 0
    case Bxl => 1
    case Bst => 2
    case Jnz => 3
    case Bxc => a
    case Out => b
    case Bdv => c
  }

  function Pow2(k: nat): (r: nat)
    ensures r >= 1
  {
    if k == 0 then 1 else 2 * Pow2(k - 1)
  }

  /**
   * A / 2^k as repeated halving: the quotient `a / 2.pow(k)` computes for a
   * non-negative A (ShrIsDivision).
   */
  function Shr(a: nat, k: nat): (r: nat)
    ensures r <= a
    ensures k >= 1 && a > 0 ==> r < a
  {
    if k == 0 then a else Shr(a / 2, k - 1)
  }

  lemma {:induction false} ShrIsDivision(a: nat, k: nat)
    ensures Shr(a, k) == a / Pow2(k)
    decreases k
  {
    if k > 0 {
      var m := Pow2(k - 1);
      ShrIsDivision(a / 2, k - 1);
      var q, r := (a / 2) / m, (a / 2) % m;
      DivModUnique(a / 2, m, q, r);
      DivModUnique(a, 2, a / 2, a % 2);
      assert a == q * (2 * m) + (2 * r + a % 2) by {
        assert a / 2 == q * m + r;
        MulAssociates(q, m, 2);
      }
      DivModUnique(a, 2 * m, q, 2 * r + a % 2);
    }
  }

  /** Bitwise exclusive or of two naturals, one bit at a time from the bottom. */
  function Xor(x: nat, y: nat): nat
    decreases x + y
  {
    if x == 0 && y == 0 then 0 else 2 * Xor(x / 2, y / 2) + (x + y) % 2
  }

  /** The bottom bit of an exclusive or, and the exclusive or of the bits above it. */
  lemma XorHalves(x: nat, y: nat)
    ensures Xor(x, y) % 2 == (x + y) % 2
    ensures Xor(x, y) / 2 == Xor(x / 2, y / 2)
  {
    assert Xor(x, y) == 2 * Xor(x / 2, y / 2) + (x + y) % 2;
    DivModUnique(Xor(x, y), 2, Xor(x / 2, y / 2), (x + y) % 2);
  }

  lemma {:induction false} XorZero(x: nat)
    ensures Xor(x, 0) == x
    decreases x
  {
    if x > 0 {
      XorZero(x / 2);
    }
  }

  lemma {:induction false} XorCommutes(x: nat, y: nat)
    ensures Xor(x, y) == Xor(y, x)
    decreases x + y
  {
    if x != 0 || y != 0 {
      XorCommutes(x / 2, y / 2);
    }
  }

  lemma {:induction false} XorSelf(x: nat)
    ensures Xor(x, x) == 0
    decreases x
  {
    if x > 0 {
      XorSelf(x / 2);
    }
  }

  /** Xoring with the same operand twice restores the register, as `bxl` twice does. */
  lemma {:induction false} XorCancels(x: nat, y: nat)
    ensures Xor(Xor(x, y), y) == x
    decreases x + y
  {
    if x != 0 || y != 0 {
      var z := Xor(x, y);
      XorHalves(x, y);
      XorHalves(z, y);
      XorCancels(x / 2, y / 2);
      assert Xor(z, y) / 2 == x / 2;
      assert Xor(z, y) % 2 == x % 2 by {
        ParityCancels(z, x, y);
      }
      DivModUnique(x, 2, Xor(z, y) / 2, Xor(z, y) % 2);
    }
  }

  lemma ParityCancels(z: nat, x: nat, y: nat)
    requires z % 2 == (x + y) % 2
    ensures (z + y) % 2 == x % 2
  {
    DivModUnique(z, 2, z / 2, z % 2);
    DivModUnique(x, 2, x / 2, x % 2);
    DivModUnique(y, 2, y / 2, y % 2);
    if x % 2 == y % 2 {
      DivModUnique(x + y, 2, x / 2 + y / 2 + x % 2, 0);
      DivModUnique(z + y, 2, z / 2 + y / 2, y % 2);
    } else {
      DivModUnique(x + y, 2, x / 2 + y / 2, 1);
      if y % 2 == 0 {
        DivModUnique(z + y, 2, z / 2 + y / 2, 1);
      } else {
        DivModUnique(z + y, 2, z / 2 + y / 2 + 1, 0);
      }
    }
  }

  /** The exclusive or of two numbers of k bits has k bits. */
  lemma {:induction false} XorBelow(x: nat, y: nat, k: nat)
    requires x < Pow2(k) && y < Pow2(k)
    ensures Xor(x, y) < Pow2(k)
    decreases k
  {
    if k == 0 {
      assert x == 0 && y == 0;
    } else {
      XorBelow(x / 2, y / 2, k - 1);
    }
  }

  /** Registers and instruction pointer of a device, without its program and output. */
  datatype State = State(a: nat, b: nat, c: nat, pointer: nat)

  /** What `execute` hands back: the new state, an optional output, and whether to halt. */
  datatype Effect = Effect(next: State, out: Option<nat>, halt: bool)

  predicate UsesCombo(i: Instruction) {
    i == Adv || i == Bst || i == Out || i == Bdv || i == Cdv
  }

  /** The instruction at the pointer can run: its operand exists and a combo operand is not 7. */
  predicate CanExecute(program: seq<Instruction>, pointer: nat) {
    pointer + 1 < |program| && (UsesCombo(program[pointer]) ==> program[pointer + 1] != Cdv)
  }

  function Finish(next: State, out: Option<nat>, length: nat): Effect {
    Effect(next, out, next.pointer >= length)
  }

  /** `execute`: run the instruction at the pointer on a copy of the registers. */
  function Execute(program: seq<Instruction>, s: State): (e: Effect)
    requires CanExecute(program, s.pointer)
    ensures e.halt <==> e.next.pointer >= |program|
    ensures program[s.pointer] != Jnz ==> e.next.pointer == s.pointer + 2
    ensures program[s.pointer] == Jnz ==>
      e.next.pointer == if s.a > 0 then Literal(program[s.pointer + 1]) else s.pointer + 2
    ensures e.out.Some? <==> program[s.pointer] == Out
    ensures e.out.Some? ==> e.out.value < 8
  {
    var op := program[s.pointer + 1];
    var p := s.pointer + 2;
    var combo := if UsesCombo(program[s.pointer]) then Combo(op, s.a, s.b, s.c) else 0;
    match program[s.pointer]
    case Adv => Finish(State(Shr(s.a, combo), s.b, s.c, p), None, |program|)
    case Bxl => Finish(State(s.a, Xor(s.b, Literal(op)), s.c, p), None, |program|)
    case Bst => Finish(State(s.a, combo % 8, s.c, p), None, |program|)
    case Jnz => Finish(State(s.a, s.b, s.c, if s.a > 0 then Literal(op) else p), None, |program|)
    case Bxc => Finish(State(s.a, Xor(s.b, s.c), s.c, p), None, |program|)
    case Out => Finish(State(s.a, s.b, s.c, p), Some(combo % 8), |program|)
    case Bdv => Finish(State(s.a, Shr(s.a, combo), s.c, p), None, |program|)
    case Cdv => Finish(State(s.a, s.b, Shr(s.a, combo), p), None, |program|)
  }

  /** Which register each instruction may write: A only by `adv`, C only by `cdv`, B by four of them. */
  lemma ExecuteWrites(program: seq<Instruction>, s: State)
    requires CanExecute(program, s.pointer)
    ensures program[s.pointer] != Adv ==> Execute(program, s).next.a == s.a
    ensures !(program[s.pointer] in {Bxl, Bst, Bxc, Bdv}) ==> Execute(program, s).next.b == s.b
    ensures program[s.pointer] != Cdv ==> Execute(program, s).next.c == s.c
    ensures Execute(program, s).next.a <= s.a
  {
  }

  /** The three division instructions agree: each stores A / 2^combo, in A, B or C. */
  lemma DivisionsAgree(program: seq<Instruction>, s: State, k: nat)
    requires CanExecute(program, s.pointer)
    requires program[s.pointer] == Adv || program[s.pointer] == Bdv || program[s.pointer] == Cdv
    requires k == Combo(program[s.pointer + 1], s.a, s.b, s.c)
    ensures var n := Execute(program, s).next;
      n.pointer == s.pointer + 2 &&
      (program[s.pointer] == Adv ==> n.a == s.a / Pow2(k) && n.b == s.b && n.c == s.c) &&
      (program[s.pointer] == Bdv ==> n.a == s.a && n.b == s.a / Pow2(k) && n.c == s.c) &&
      (program[s.pointer] == Cdv ==> n.a == s.a && n.b == s.b && n.c == s.a / Pow2(k))
  {
    ShrIsDivision(s.a, k);
  }

  /** `bxl` and `bxc` keep B within three bits when it starts there. */
  lemma XorInstructionsKeepThreeBits(program: seq<Instruction>, s: State)
    requires CanExecute(program, s.pointer) && program[s.pointer] in {Bxl, Bxc}
    requires s.b < 8 && s.c < 8
    ensures Execute(program, s).next.b < 8
  {
    assert Pow2(3) == 8;
    XorBelow(s.b, if program[s.pointer] == Bxl then Literal(program[s.pointer + 1]) else s.c, 3);
  }

  /** Executing `bxl` twice with the same operand gives B back. */
  lemma BxlTwice(program: seq<Instruction>, s: State)
    requires CanExecute(program, s.pointer) && program[s.pointer] == Bxl
    ensures var t := Execute(program, s).next;
      Execute(program, t.(pointer := s.pointer)).next.b == s.b
  {
    XorCancels(s.b, Literal(program[s.pointer + 1]));
  }

  /** The output of one step as the list `step` appends to `out`. */
  function Emit(out: Option<nat>): (r: seq<nat>)
    ensures out.None? ==> r == []
    ensures out.Some? ==> r == [out.value]
  {
    if out.Some? then [out.value] else []
  }

  /**
   * The halting guard of `step` as written: it stops a pointer beyond the end
   * of the program but lets one exactly at the end through to the fetch.
   */
  predicate HaltGuardAsWritten(pointer: nat, length: nat) {
    pointer > length
  }

  /** The halting guard as part two writes it, which the model uses in both parts. */
  predicate HaltGuard(pointer: nat, length: nat) {
    pointer >= length
  }

  /** With the corrected guard, an instruction is fetched only from inside the program. */
  lemma HaltGuardProtectsFetch(pointer: nat, length: nat)
    ensures !HaltGuard(pointer, length) ==> pointer < length
  {
  }

  /** A call of `step` may proceed: it stops at the guard, or the instruction can be executed. */
  predicate CanStep(program: seq<Instruction>, s: State) {
    HaltGuard(s.pointer, |program|) || CanExecute(program, s.pointer)
  }

  /** `step` on values: halt at the guard without change, otherwise `execute`. */
  function StepEffect(program: seq<Instruction>, s: State): (e: Effect)
    requires CanStep(program, s)
    ensures HaltGuard(s.pointer, |program|) ==> e == Effect(s, None, true)
    ensures e.halt <==> e.next.pointer >= |program| || HaltGuard(s.pointer, |program|)
  {
    if HaltGuard(s.pointer, |program|) then Effect(s, None, true) else Execute(program, s)
  }

  /**
   * `step` exactly as part one writes it: the guard `pointer > len` halts only
   * past the end, and an instruction fetched at the end of the program, a
   * missing operand or a combo operand 7 panics (None).
   */
  function StepAsWritten(program: seq<Instruction>, s: State): (r: Option<Effect>)
    ensures r.Some? <==> HaltGuardAsWritten(s.pointer, |program|) || CanExecute(program, s.pointer)
  {
    if HaltGuardAsWritten(s.pointer, |program|) then Some(Effect(s, None, true))
    else if CanExecute(program, s.pointer) then Some(Execute(program, s))
    else None
  }

  /** Away from the end of the program the guard as written and the corrected one agree, panics included. */
  lemma StepAsWrittenAgrees(program: seq<Instruction>, s: State)
    requires s.pointer != |program|
    ensures StepAsWritten(program, s).Some? <==> CanStep(program, s)
    ensures CanStep(program, s) ==> StepAsWritten(program, s) == Some(StepEffect(program, s))
  {
  }

  /**
   * With the pointer at the end of the program, where every halting run that
   * does not jump away leaves it, the step as written fetches past the end
   * and panics, while the corrected step halts without change.
   */
  lemma StepAsWrittenPanicsAtEnd(program: seq<Instruction>, s: State)
    requires s.pointer == |program|
    ensures StepAsWritten(program, s).None?
    ensures CanStep(program, s) && StepEffect(program, s) == Effect(s, None, true)
  {
  }

  /** Outputs of a run: those of the steps that did not halt, that of the halting step, and the final state. */
  datatype Trace = Trace(emitted: seq<nat>, last: Option<nat>, final: State)

  function Prepend(o: seq<nat>, r: Option<Trace>): (q: Option<Trace>)
    ensures q.Some? <==> r.Some?
    ensures q.Some? ==> q.value == r.value.(emitted := o + r.value.emitted)
  {
    if r.None? then None else Some(r.value.(emitted := o + r.value.emitted))
  }

  lemma PrependNothing(r: Option<Trace>)
    ensures Prepend([], r) == r
  {
    if r.Some? {
      assert [] + r.value.emitted == r.value.emitted;
    }
  }

  lemma PrependTwice(o: seq<nat>, o': seq<nat>, r: Option<Trace>)
    ensures Prepend(o, Prepend(o', r)) == Prepend(o + o', r)
  {
    if r.Some? {
      assert o + (o' + r.value.emitted) == (o + o') + r.value.emitted;
    }
  }

  /**
   * `while !step() {}` with at most `fuel` calls of `step`: None when the fuel
   * runs out first, or when an instruction cannot be executed (the source panics).
   */
  function RunFor(program: seq<Instruction>, s: State, fuel: nat): Option<Trace>
    decreases fuel
  {
    if fuel == 0 || !CanStep(program, s) then None
    else
      var e := StepEffect(program, s);
      if e.halt then Some(Trace([], e.out, e.next))
      else Prepend(Emit(e.out), RunFor(program, e.next, fuel - 1))
  }

  /** A run that has printed `emitted` and takes one more step that does not halt. */
  lemma RunAfterStep(program: seq<Instruction>, s0: State, fuel: nat, emitted: seq<nat>, s: State, rest: nat)
    requires rest > 0 && CanStep(program, s) && !StepEffect(program, s).halt
    requires RunFor(program, s0, fuel) == Prepend(emitted, RunFor(program, s, rest))
    ensures var e := StepEffect(program, s);
      RunFor(program, s0, fuel) == Prepend(emitted + Emit(e.out), RunFor(program, e.next, rest - 1))
  {
    var e := StepEffect(program, s);
    PrependTwice(emitted, Emit(e.out), RunFor(program, e.next, rest - 1));
  }

  /** A run that has printed `emitted` and whose next step halts. */
  lemma RunHalts(program: seq<Instruction>, s0: State, fuel: nat, emitted: seq<nat>, s: State, rest: nat)
    requires rest > 0 && CanStep(program, s) && StepEffect(program, s).halt
    requires RunFor(program, s0, fuel) == Prepend(emitted, RunFor(program, s, rest))
    ensures var e := StepEffect(program, s);
      RunFor(program, s0, fuel) == Some(Trace(emitted, e.out, e.next))
  {
    assert emitted + [] == emitted;
  }

  /** A run that finishes within some fuel finishes the same way with more. */
  lemma {:induction false} RunMoreFuel(program: seq<Instruction>, s: State, fuel: nat, fuel': nat)
    requires RunFor(program, s, fuel).Some? && fuel' >= fuel
    ensures RunFor(program, s, fuel') == RunFor(program, s, fuel)
    decreases fuel
  {
    var e := StepEffect(program, s);
    if !e.halt {
      RunMoreFuel(program, e.next, fuel - 1, fuel' - 1);
    }
  }

  /**
   * A program that cannot panic: even length, no combo operand 7 and only
   * even jump targets, so that the pointer stays even and every operand exists.
   */
  predicate Safe(program: seq<Instruction>) {
    |program| % 2 == 0 &&
    forall i | 0 <= i < |program| - 1 && i % 2 == 0 ::
      (UsesCombo(program[i]) ==> program[i + 1] != Cdv) &&
      (program[i] == Jnz ==> Literal(program[i + 1]) % 2 == 0)
  }

  /** In a safe program every step from an even pointer can run and leaves the pointer even. */
  lemma SafeStep(program: seq<Instruction>, s: State)
    requires Safe(program) && s.pointer % 2 == 0 && s.pointer < |program|
    ensures CanExecute(program, s.pointer)
    ensures Execute(program, s).next.pointer % 2 == 0
  {
    assert s.pointer < |program| - 1;
  }

  /** One more step of a safe run from an even pointer: where the run stands after it, halting or not. */
  lemma SafeRunStep(program: seq<Instruction>, s0: State, fuel: nat, emitted: seq<nat>, s: State, rest: nat)
    requires Safe(program) && s.pointer % 2 == 0 && rest > 0
    requires RunFor(program, s0, fuel) == Prepend(emitted, RunFor(program, s, rest))
    ensures CanStep(program, s)
    ensures var e := StepEffect(program, s);
      e.next.pointer % 2 == 0 &&
      (e.halt ==> RunFor(program, s0, fuel) == Some(Trace(emitted, e.out, e.next))) &&
      (!e.halt ==> RunFor(program, s0, fuel) == Prepend(emitted + Emit(e.out), RunFor(program, e.next, rest - 1)))
  {
    if !HaltGuard(s.pointer, |program|) {
      SafeStep(program, s);
    }
    if StepEffect(program, s).halt {
      RunHalts(program, s0, fuel, emitted, s, rest);
    } else {
      RunAfterStep(program, s0, fuel, emitted, s, rest);
    }
  }

  /**
   * A run of at most `fuel` steps from `s` comes, before it halts, to a step
   * whose instruction cannot be executed (a missing operand or a combo
   * operand 7), where the source panics.
   */
  predicate PanicsWithin(program: seq<Instruction>, s: State, fuel: nat)
    decreases fuel
  {
    fuel > 0 &&
    (!CanStep(program, s) ||
     (!StepEffect(program, s).halt && PanicsWithin(program, StepEffect(program, s).next, fuel - 1)))
  }

  /** A run that has printed `emitted` and comes to a step that cannot be executed. */
  lemma RunStuck(program: seq<Instruction>, s0: State, fuel: nat, emitted: seq<nat>, s: State, rest: nat)
    requires rest > 0 && !CanStep(program, s)
    requires RunFor(program, s0, fuel) == Prepend(emitted, RunFor(program, s, rest))
    requires PanicsWithin(program, s0, fuel) == PanicsWithin(program, s, rest)
    ensures RunFor(program, s0, fuel).None? && PanicsWithin(program, s0, fuel)
  {
    assert RunFor(program, s, rest) == None;
  }

  /** One more step of a run that has printed `emitted`: where the run and its panic stand after it. */
  lemma RunStep(program: seq<Instruction>, s0: State, fuel: nat, emitted: seq<nat>, s: State, rest: nat)
    requires rest > 0 && CanStep(program, s)
    requires RunFor(program, s0, fuel) == Prepend(emitted, RunFor(program, s, rest))
    requires PanicsWithin(program, s0, fuel) == PanicsWithin(program, s, rest)
    ensures var e := StepEffect(program, s);
      (e.halt ==> RunFor(program, s0, fuel) == Some(Trace(emitted, e.out, e.next)) && !PanicsWithin(program, s0, fuel)) &&
      (!e.halt ==>
        RunFor(program, s0, fuel) == Prepend(emitted + Emit(e.out), RunFor(program, e.next, rest - 1)) &&
        PanicsWithin(program, s0, fuel) == PanicsWithin(program, e.next, rest - 1))
  {
    if StepEffect(program, s).halt {
      RunHalts(program, s0, fuel, emitted, s, rest);
    } else {
      RunAfterStep(program, s0, fuel, emitted, s, rest);
    }
  }

  /** A run that panics has no trace. */
  lemma {:induction false} PanicHasNoTrace(program: seq<Instruction>, s: State, fuel: nat)
    requires PanicsWithin(program, s, fuel)
    ensures RunFor(program, s, fuel).None?
    decreases fuel
  {
    if CanStep(program, s) {
      PanicHasNoTrace(program, StepEffect(program, s).next, fuel - 1);
    }
  }

  /** A safe program never panics from an even pointer, however long it runs. */
  lemma {:induction false} SafeNeverPanics(program: seq<Instruction>, s: State, fuel: nat)
    requires Safe(program) && s.pointer % 2 == 0
    ensures !PanicsWithin(program, s, fuel)
    decreases fuel
  {
    if fuel > 0 {
      if !HaltGuard(s.pointer, |program|) {
        SafeStep(program, s);
      }
      if !StepEffect(program, s).halt {
        SafeNeverPanics(program, StepEffect(program, s).next, fuel - 1);
      }
    }
  }

  /**
   * Safety is sufficient, not necessary: `adv 3; out A; jnz 7` jumps to an odd
   * pointer past the end, yet from A = 8 it prints 1 and halts.
   */
  lemma OddJumpRuns()
    ensures !Safe([Adv, Jnz, Out, Bxc, Jnz, Cdv])
    ensures RunFor([Adv, Jnz, Out, Bxc, Jnz, Cdv], State(8, 0, 0, 0), 3) == Some(Trace([1], None, State(1, 0, 0, 7)))
  {
    var program := [Adv, Jnz, Out, Bxc, Jnz, Cdv];
    assert Literal(program[5]) == 7;
    assert Shr(8, 3) == 1 by {
      assert Shr(8, 1) == 4 && Shr(4, 1) == 2 && Shr(2, 1) == 1;
    }
    assert StepEffect(program, State(1, 0, 0, 4)) == Effect(State(1, 0, 0, 7), None, true);
    assert RunFor(program, State(1, 0, 0, 4), 1) == Some(Trace([], None, State(1, 0, 0, 7)));
    assert StepEffect(program, State(1, 0, 0, 2)) == Effect(State(1, 0, 0, 4), Some(1), false);
    assert [1] + [] == [1];
    assert RunFor(program, State(1, 0, 0, 2), 2) == Some(Trace([1], None, State(1, 0, 0, 7)));
    assert StepEffect(program, State(8, 0, 0, 0)) == Effect(State(1, 0, 0, 2), None, false);
    assert [] + [1] == [1];
  }

  /** `out 7` uses the reserved combo operand 7: the first step panics. */
  lemma ComboSevenPanics()
    ensures PanicsWithin([Out, Cdv], State(0, 0, 0, 0), 1)
  {
  }

  /**
   * `adv k; out A; jnz 0` with k a literal: the low three bits of A after each
   * division by 2^k, until A reaches zero.
   */
  function ShiftDigits(a: nat, k: nat): (r: seq<nat>)
    requires k >= 1
    ensures |r| >= 1 && r[0] == Shr(a, k) % 8
    decreases a
  {
    var q := Shr(a, k);
    [q % 8] + if q > 0 then ShiftDigits(q, k) else []
  }

  /** One pass of `adv k, out 4, jnz 0`: three steps that divide A, print it and jump back while it is positive. */
  lemma ShiftLoopOnce(program: seq<Instruction>, k: Instruction, a: nat, b: nat, c: nat, fuel: nat)
    requires program == [Adv, k, Out, Bxc, Jnz, Adv]
    requires 1 <= Literal(k) < 4 && fuel >= 3
    ensures var q := Shr(a, Literal(k));
      RunFor(program, State(a, b, c, 0), fuel) ==
        if q > 0 then Prepend([q % 8], RunFor(program, State(q, b, c, 0), fuel - 3))
        else Some(Trace([q % 8], None, State(q, b, c, 6)))
  {
    var q := Shr(a, Literal(k));
    var s0 := State(a, b, c, 0);
    var s1 := State(q, b, c, 2);
    var s2 := State(q, b, c, 4);
    assert Execute(program, s0) == Effect(s1, None, false);
    assert Execute(program, s1) == Effect(s2, Some(q % 8), false);
    assert RunFor(program, s0, fuel) == Prepend([], RunFor(program, s1, fuel - 1));
    assert RunFor(program, s1, fuel - 1) == Prepend([q % 8], RunFor(program, s2, fuel - 2));
    PrependNothing(RunFor(program, s1, fuel - 1));
    if q > 0 {
      var s3 := State(q, b, c, 0);
      assert Execute(program, s2) == Effect(s3, None, false);
      assert RunFor(program, s2, fuel - 2) == Prepend([], RunFor(program, s3, fuel - 3));
      PrependNothing(RunFor(program, s3, fuel - 3));
    } else {
      assert Execute(program, s2) == Effect(State(q, b, c, 6), None, true);
      assert RunFor(program, s2, fuel - 2) == Some(Trace([], None, State(q, b, c, 6)));
      assert [q % 8] + [] == [q % 8];
    }
  }

  /** The program `adv k, out 4, jnz 0` prints ShiftDigits of A and halts with A = 0. */
  lemma {:induction false} ShiftLoopRun(program: seq<Instruction>, k: Instruction, a: nat, b: nat, c: nat, fuel: nat)
    requires program == [Adv, k, Out, Bxc, Jnz, Adv]
    requires 1 <= Literal(k) < 4
    requires fuel >= 3 * (a + 1)
    ensures RunFor(program, State(a, b, c, 0), fuel)
      == Some(Trace(ShiftDigits(a, Literal(k)), None, State(0, b, c, 6)))
    decreases a
  {
    var d := Literal(k);
    var q := Shr(a, d);
    ShiftLoopOnce(program, k, a, b, c, fuel);
    if q > 0 {
      ShiftLoopRun(program, k, q, b, c, fuel - 3);
      assert ShiftDigits(a, d) == [q % 8] + ShiftDigits(q, d);
    } else {
      assert ShiftDigits(a, d) == [q % 8];
    }
  }

  /** ShiftDigits of A is the digit of the first quotient followed by ShiftDigits of that quotient. */
  lemma ShiftDigitsCons(a: nat, k: nat, q: nat, rest: seq<nat>)
    requires k >= 1 && q == Shr(a, k) && q > 0 && ShiftDigits(q, k) == rest
    ensures ShiftDigits(a, k) == [q % 8] + rest
  {
  }

  lemma SampleDigitsLow()
    ensures ShiftDigits(22, 1) == [3, 5, 2, 1, 0]
  {
    assert Shr(1, 1) == Shr(0, 0) == 0;
    ShiftDigitsCons(2, 1, 1, [0]);
    ShiftDigitsCons(5, 1, 2, [1, 0]);
    ShiftDigitsCons(11, 1, 5, [2, 1, 0]);
    ShiftDigitsCons(22, 1, 11, [5, 2, 1, 0]);
  }

  lemma SampleDigits()
    ensures ShiftDigits(729, 1) == [4, 6, 3, 5, 6, 3, 5, 2, 1, 0]
  {
    SampleDigitsLow();
    ShiftDigitsCons(45, 1, 22, [3, 5, 2, 1, 0]);
    ShiftDigitsCons(91, 1, 45, [6, 3, 5, 2, 1, 0]);
    ShiftDigitsCons(182, 1, 91, [5, 6, 3, 5, 2, 1, 0]);
    ShiftDigitsCons(364, 1, 182, [3, 5, 6, 3, 5, 2, 1, 0]);
    ShiftDigitsCons(729, 1, 364, [6, 3, 5, 6, 3, 5, 2, 1, 0]);
  }

  /** The sample: A = 729 with program 0,1,5,4,3,0 prints 4,6,3,5,6,3,5,2,1,0. */
  lemma SampleRun()
    ensures RunFor([Adv, Bxl, Out, Bxc, Jnz, Adv], State(729, 0, 0, 0), 2190)
      == Some(Trace([4, 6, 3, 5, 6, 3, 5, 2, 1, 0], None, State(0, 0, 0, 6)))
  {
    ShiftLoopRun([Adv, Bxl, Out, Bxc, Jnz, Adv], Bxl, 729, 0, 0, 2190);
    SampleDigits();
  }

  /**
   * After the sample run has halted, one more call of `step` as written (a
   * second `run` without `reset`) panics; the corrected guard halts again.
   */
  lemma SampleStepAfterRun()
    ensures var t := RunFor([Adv, Bxl, Out, Bxc, Jnz, Adv], State(729, 0, 0, 0), 2190);
      t.Some? && t.value.final.pointer == 6 &&
      StepAsWritten([Adv, Bxl, Out, Bxc, Jnz, Adv], t.value.final).None? &&
      StepEffect([Adv, Bxl, Out, Bxc, Jnz, Adv], t.value.final).halt
  {
    SampleRun();
    StepAsWrittenPanicsAtEnd([Adv, Bxl, Out, Bxc, Jnz, Adv], State(0, 0, 0, 6));
  }

  class Device {
    var registerA: nat
    var registerB: nat
    var registerC: nat
    var program: seq<Instruction>
    var pointer: nat
    var out: seq<nat>

    /** A device as the parser or a test builds it: pointer 0 and nothing printed. */
    constructor (a: nat, b: nat, c: nat, program: seq<Instruction>)
      ensures registerA == a && registerB == b && registerC == c
      ensures this.program == program && pointer == 0 && out == []
    {
      registerA, registerB, registerC := a, b, c;
      this.program := program;
      pointer, out := 0, [];
    }

    function Current(): State
      reads this
    {
      State(registerA, registerB, registerC, pointer)
    }

    /** `reset`: clear the output and rewind the pointer; the registers keep their values. */
    method Reset()
      modifies this
      ensures out == [] && pointer == 0
      ensures registerA == old(registerA) && registerB == old(registerB) && registerC == old(registerC)
      ensures program == old(program)
    {
      out := [];
      pointer := 0;
    }

    /** `step`: execute one instruction, append its output, and report whether to halt. */
    method Step() returns (halt: bool)
      requires CanStep(program, Current())
      modifies this
      ensures program == old(program)
      ensures var e := StepEffect(program, old(Current()));
        Current() == e.next && out == old(out) + Emit(e.out) && halt == e.halt
    {
      if HaltGuard(pointer, |program|) {
        return true;
      }
      var e := Execute(program, Current());
      registerA, registerB, registerC := e.next.a, e.next.b, e.next.c;
      pointer := e.next.pointer;
      out := out + Emit(e.out);
      halt := e.halt;
    }

    /**
     * `run`: step until the device halts, here with at most `fuel` steps.
     * `panicked` reports a step whose instruction cannot be executed, where
     * the source panics.
     */
    method Run(fuel: nat) returns (halted: bool, panicked: bool)
      modifies this
      ensures program == old(program)
      ensures halted <==> RunFor(program, old(Current()), fuel).Some?
      ensures panicked <==> PanicsWithin(program, old(Current()), fuel)
      ensures halted ==>
        var t := RunFor(program, old(Current()), fuel).value;
        Current() == t.final && out == old(out) + t.emitted + Emit(t.last)
    {
      ghost var s0 := Current();
      ghost var out0 := out;
      ghost var emitted: seq<nat> := [];
      var rest := fuel;
      PrependNothing(RunFor(program, s0, fuel));
      halted, panicked := false, false;
      while rest > 0
        invariant program == old(program)
        invariant out == out0 + emitted
        invariant RunFor(program, s0, fuel) == Prepend(emitted, RunFor(program, Current(), rest))
        invariant PanicsWithin(program, s0, fuel) == PanicsWithin(program, Current(), rest)
      {
        if !CanStep(program, Current()) {
          RunStuck(program, s0, fuel, emitted, Current(), rest);
          return false, true;
        }
        ghost var before := Current();
        ghost var e := StepEffect(program, before);
        RunStep(program, s0, fuel, emitted, before, rest);
        halted := Step();
        assert Current() == e.next && out == out0 + emitted + Emit(e.out);
        if halted {
          return;
        }
        emitted := emitted + Emit(e.out);
        rest := rest - 1;
      }
      assert RunFor(program, Current(), 0) == None;
    }
  }

  /** test_adv: 8 / 2^0, 8 / 2^1 and 9 / 2^2. */
  method AdvTest() returns (r: seq<nat>)
    ensures r == [8, 4, 2]
  {
    var device := new Device(8, 0, 0, [Adv, FromCode(0)]);
    var _ := device.Step();
    r := [device.registerA];
    device.Reset();
    device.program := device.program[1 := FromCode(1)];
    var _ := device.Step();
    r := r + [device.registerA];
    device.Reset();
    device.program := device.program[1 := FromCode(2)];
    device.registerA := 9;
    var _ := device.Step();
    r := r + [device.registerA];
  }

  /** test_bxl: 3 xor 0, 3 xor 3 and 3 xor 1. */
  method BxlTest() returns (r: seq<nat>)
    ensures r == [3, 0, 2]
  {
    var device := new Device(0, 3, 0, [Bxl, FromCode(0)]);
    var _ := device.Step();
    r := [device.registerB];
    device.Reset();
    device.registerB := 3;
    device.program := device.program[1 := FromCode(3)];
    var _ := device.Step();
    r := r + [device.registerB];
    device.Reset();
    device.registerB := 3;
    device.program := device.program[1 := FromCode(1)];
    var _ := device.Step();
    r := r + [device.registerB];
  }

  /** test_combo: operands 0 to 6 with A = 18, B = 19 and C = 20. */
  lemma ComboTest()
    ensures forall op | op != Cdv ::
      Combo(op, 18, 19, 20) == [0, 1, 2, 3, 18, 19, 20][Literal(op)]
  {
  }

  /** test_bst: B takes the combo operand modulo 8. */
  method BstTest() returns (r: seq<nat>)
    ensures r == [0, 2]
  {
    var device := new Device(18, 0, 0, [Bst, FromCode(0)]);
    var _ := device.Step();
    r := [device.registerB];
    device.Reset();
    device.program := device.program[1 := FromCode(4)];
    var _ := device.Step();
    r := r + [device.registerB];
  }

  /** test_jnz: no jump when A is 0, a jump to the literal when A is 1. */
  method JnzTest() returns (r: seq<nat>)
    ensures r == [0, 2, 4]
  {
    var device := new Device(0, 0, 0, [Jnz, FromCode(4), FromCode(5), FromCode(1), FromCode(5), FromCode(3)]);
    r := [device.pointer];
    var _ := device.Step();
    r := r + [device.pointer];
    device.Reset();
    device.registerA := 1;
    var _ := device.Step();
    r := r + [device.pointer];
  }

  /** test_bxc: 4 xor 1 in B, and the pointer moves past the operand. */
  method BxcTest() returns (b: nat, pointer: nat)
    ensures b == 5 && pointer == 2
  {
    var device := new Device(0, 4, 1, [Bxc, FromCode(0)]);
    var _ := device.Step();
    b, pointer := device.registerB, device.pointer;
  }

  /** test_out: 18 modulo 8 is printed. */
  method OutTest() returns (out: seq<nat>, pointer: nat)
    ensures out == [2] && pointer == 2
  {
    var device := new Device(18, 0, 0, [Out, FromCode(4)]);
    var _ := device.Step();
    out, pointer := device.out, device.pointer;
  }

  /** test_bdv: the quotient lands in B and A is kept. */
  method BdvTest() returns (a: seq<nat>, quotients: seq<nat>)
    ensures a == [8, 8, 9] && quotients == [8, 4, 2]
  {
    var device := new Device(8, 0, 0, [Bdv, FromCode(0)]);
    var _ := device.Step();
    a := [device.registerA];
    quotients := [device.registerB];
    device.Reset();
    device.program := device.program[1 := FromCode(1)];
    var _ := device.Step();
    a := a + [device.registerA];
    quotients := quotients + [device.registerB];
    device.Reset();
    device.program := device.program[1 := FromCode(2)];
    device.registerA := 9;
    var _ := device.Step();
    a := a + [device.registerA];
    quotients := quotients + [device.registerB];
  }

  /** test_cdv: the quotient lands in C and A is kept. */
  method CdvTest() returns (a: seq<nat>, quotients: seq<nat>)
    ensures a == [8, 8, 9] && quotients == [8, 4, 2]
  {
    var device := new Device(8, 0, 0, [Cdv, FromCode(0)]);
    var _ := device.Step();
    a := [device.registerA];
    quotients := [device.registerC];
    device.Reset();
    device.program := device.program[1 := FromCode(1)];
    var _ := device.Step();
    a := a + [device.registerA];
    quotients := quotients + [device.registerC];
    device.Reset();
    device.program := device.program[1 := FromCode(2)];
    device.registerA := 9;
    var _ := device.Step();
    a := a + [device.registerA];
    quotients := quotients + [device.registerC];
  }

  lemma SampleSafe(program: seq<Instruction>)
    requires program == [Adv, Bxl, Out, Bxc, Jnz, Adv]
    ensures Safe(program)
  {
    assert forall i | 0 <= i < |program| - 1 && i % 2 == 0 :: i == 0 || i == 2 || i == 4;
  }

  /** test_parse: the sample run through the device's own `run`. */
  method SampleTest() returns (out: seq<nat>)
    ensures out == [4, 6, 3, 5, 6, 3, 5, 2, 1, 0]
  {
    var program := [Adv, Bxl, Out, Bxc, Jnz, Adv];
    var device := new Device(729, 0, 0, program);
    SampleRun();
    var halted, panicked := device.Run(2190);
    out := device.out;
  }

  /** test_one: `bst 6` with C = 9 leaves 1 in B, and the run halts after that one step. */
  method OneTest() returns (b: nat)
    ensures b == 1
  {
    var program := [Bst, Bdv];
    var device := new Device(0, 0, 9, program);
    assert RunFor(program, State(0, 0, 9, 0), 1) == Some(Trace([], None, State(0, 1, 9, 2)));
    var halted, panicked := device.Run(1);
    b := device.registerB;
  }

  /** test_two: `out 0; out 1; out A` with A = 10 prints 0, 1 and 2. */
  method TwoTest() returns (out: seq<nat>)
    ensures out == [0, 1, 2]
  {
    var program := [Out, Adv, Out, Bxl, Out, Bxc];
    var device := new Device(10, 0, 0, program);
    var s0 := State(10, 0, 0, 0);
    assert RunFor(program, State(10, 0, 0, 4), 1) == Some(Trace([], Some(2), State(10, 0, 0, 6)));
    assert StepEffect(program, State(10, 0, 0, 2)) == Effect(State(10, 0, 0, 4), Some(1), false);
    assert [1] + [] == [1] && [0] + [1] == [0, 1];
    assert RunFor(program, State(10, 0, 0, 2), 2) == Some(Trace([1], Some(2), State(10, 0, 0, 6)));
    assert StepEffect(program, s0) == Effect(State(10, 0, 0, 2), Some(0), false);
    assert RunFor(program, s0, 3) == Some(Trace([0, 1], Some(2), State(10, 0, 0, 6)));
    var halted, panicked := device.Run(3);
    out := device.out;
  }
}
