/**
 * The 2023 shared library: compass directions that turn left, right and
 * about, integer positions ordered component by component, `transpose` of a
 * rectangular matrix, the decimal number parsers, and a grid whose cells live
 * in a map and whose corners grow to cover whatever index is written.
 */
module Y2023Lib {
  import opened Wrappers
  import opened Decimal

  // ----------------------------------------------------------- directions

  /** `Direction`; the derived default is North. */
  datatype Direction = North | South | East | West

  const DefaultDirection: Direction := North

  function Delta(d: Direction): (r: Pos)
    ensures (r.x == 0) != (r.y == 0) && -1 <= r.x <= 1 && -1 <= r.y <= 1
  {
    match d
    case North => Pos(0, -1)
    case South => Pos(0, 1)
    case East => Pos(1, 0)
    case West => Pos(-1, 0)
  }

  function Left(d: Direction): Direction
  {
    match d
    case North => West
    case South => East
    case East => North
    case West => South
  }

  function Right(d: Direction): Direction
  {
    match d
    case North => East
    case South => West
    case East => South
    case West => North
  }

  function Reverse(d: Direction): Direction
  {
    match d
    case North => South
    case South => North
    case East => West
    case West => East
  }

  /**
   * Left and right undo each other, reversing twice is the identity and is
   * two right turns, and a right turn rotates the step (dx, dy) to (-dy, dx)
   * (y grows downwards).
   */
  lemma Turns(d: Direction)
    ensures Left(Right(d)) == d && Right(Left(d)) == d
    ensures Reverse(Reverse(d)) == d && Reverse(d) != d
    ensures Reverse(d) == Right(Right(d)) && Reverse(d) == Left(Left(d))
    ensures Delta(Right(d)) == Pos(-Delta(d).y, Delta(d).x)
    ensures Delta(Reverse(d)) == Pos(-Delta(d).x, -Delta(d).y)
  {
  }

  /** `test_directions`. */
  lemma DirectionExamples()
    ensures DefaultDirection == North && Right(West) == North
  {
  }

  // ------------------------------------------------------------ positions

  datatype Pos = Pos(x: int, y: int)

  const Zero: Pos := Pos(0, 0)

  function Add(a: Pos, b: Pos): Pos
  {
    Pos(a.x + b.x, a.y + b.y)
  }

  /** `contains`: a lies at or beyond b on both axes. */
  predicate Contains(a: Pos, b: Pos)
  {
    a.x >= b.x && a.y >= b.y
  }

  function Max(a: int, b: int): int
  {
    if a >= b then a else b
  }

  function Min(a: int, b: int): int
  {
    if a <= b then a else b
  }

  /** `union`: the least position that contains both. */
  function Union(a: Pos, b: Pos): (r: Pos)
    ensures Contains(r, a) && Contains(r, b)
    ensures forall c :: Contains(c, a) && Contains(c, b) ==> Contains(c, r)
  {
    Pos(Max(a.x, b.x), Max(a.y, b.y))
  }

  /** `contains` is a partial order, and `union` is commutative and idempotent. */
  lemma ContainsOrder(a: Pos, b: Pos, c: Pos)
    ensures Contains(a, a)
    ensures Contains(a, b) && Contains(b, a) ==> a == b
    ensures Contains(a, b) && Contains(b, c) ==> Contains(a, c)
    ensures Union(a, b) == Union(b, a) && Union(a, a) == a
    ensures Contains(a, b) <==> Union(a, b) == a
  {
  }

  // ------------------------------------------------------------ transpose

  predicate Rectangular<T>(m: seq<seq<T>>)
  {
    |m| > 0 && forall j :: 0 <= j < |m| ==> |m[j]| == |m[0]|
  }

  /**
   * `transpose`: column i of the input becomes row i. Every row must be at
   * least as long as the first, or `inner[i]` panics.
   */
  function Transpose<T>(m: seq<seq<T>>): (r: seq<seq<T>>)
    requires |m| > 0 && forall j :: 0 <= j < |m| ==> |m[j]| >= |m[0]|
    ensures |r| == |m[0]| && forall i :: 0 <= i < |r| ==> |r[i]| == |m|
    ensures forall i, j :: 0 <= i < |r| && 0 <= j < |m| ==> r[i][j] == m[j][i]
  {
    seq(|m[0]|, i requires 0 <= i < |m[0]| => seq(|m|, j requires 0 <= j < |m| => m[j][i]))
  }

  /** Transposing a rectangular matrix with at least one column twice gives it back. */
  lemma TransposeTwice<T>(m: seq<seq<T>>)
    requires Rectangular(m) && |m[0]| > 0
    ensures Transpose(Transpose(m)) == m
  {
    var t := Transpose(m);
    var tt := Transpose(t);
    assert |tt| == |m|;
    forall j | 0 <= j < |m|
      ensures tt[j] == m[j]
    {
      assert |tt[j]| == |m[j]|;
    }
  }

  /** A 2 x 3 example. */
  lemma TransposeExample(m: seq<seq<int>>)
    requires m == [[1, 2, 3], [4, 5, 6]]
    ensures Transpose(m) == [[1, 4], [2, 5], [3, 6]]
  {
    var t := Transpose(m);
    assert t[0] == [1, 4] && t[1] == [2, 5] && t[2] == [3, 6];
  }

  // -------------------------------------------------------------- numbers

  predicate IsDigit(c: char)
  {
    '0' <= c <= '9'
  }

  /** The length of the run of digits at the front of s (what nom's `digit1` takes). */
  function DigitRun(s: string): (n: nat)
    ensures n <= |s| && IsDigits(s[..n])
    ensures n < |s| ==> !IsDigit(s[n])
  {
    if s == [] || !IsDigit(s[0]) then 0
    else
      var n := 1 + DigitRun(s[1..]);
      assert s[..n] == [s[0]] + s[1..][..n - 1];
      n
  }

  /** `number`: at least one digit, parsed, and the rest of the input; an error otherwise. */
  function Number(s: string): (r: Option<(nat, string)>)
    ensures r.Some? <==> |s| > 0 && IsDigit(s[0])
    ensures r.Some? ==> |r.value.1| < |s|
  {
    var n := DigitRun(s);
    if n == 0 then None else Some((Parse(s[..n]), s[n..]))
  }

  /** `signed_number`: an optional '-', then a `number`, negated when the '-' was there. */
  function SignedNumber(s: string): (r: Option<(int, string)>)
    ensures r.Some? ==> |r.value.1| < |s|
  {
    if |s| > 0 && s[0] == '-' then
      var r := Number(s[1..]);
      if r.None? then None else Some((-(r.value.0 as int), r.value.1))
    else
      var r := Number(s);
      if r.None? then None else Some((r.value.0 as int, r.value.1))
  }

  /** `digit1` takes exactly the digits in front of a non-digit. */
  lemma {:induction false} DigitRunOf(digits: string, rest: string)
    requires IsDigits(digits)
    requires rest == [] || !IsDigit(rest[0])
    ensures DigitRun(digits + rest) == |digits|
  {
    if digits == [] {
      assert digits + rest == rest;
    } else {
      assert (digits + rest)[1..] == digits[1..] + rest;
      DigitRunOf(digits[1..], rest);
    }
  }

  /** The number parsers read a run of digits that is followed by a non-digit. */
  lemma {:induction false} NumberReads(digits: string, rest: string)
    requires |digits| > 0 && IsDigits(digits)
    requires rest == [] || !IsDigit(rest[0])
    ensures Number(digits + rest) == Some((Parse(digits), rest))
  {
    DigitRunOf(digits, rest);
    var s := digits + rest;
    assert s[..|digits|] == digits && s[|digits|..] == rest;
  }

  /** `signed_number` negates the value exactly when a '-' leads. */
  lemma {:induction false} SignedNumberReads(s: string, digits: string, rest: string)
    requires |digits| > 0 && IsDigits(digits) && s == digits + rest
    requires rest == [] || !IsDigit(rest[0])
    ensures SignedNumber(s) == Some((Parse(digits) as int, rest))
    ensures SignedNumber("-" + s) == Some((-(Parse(digits) as int), rest))
  {
    NumberReads(digits, rest);
    assert s[0] == digits[0];
    SignedNumberOf(s, Parse(digits), rest);
  }

  lemma {:induction false} SignedNumberOf(s: string, v: nat, rest: string)
    requires Number(s) == Some((v, rest)) && s[0] != '-'
    ensures SignedNumber(s) == Some((v as int, rest))
    ensures SignedNumber("-" + s) == Some((-(v as int), rest))
  {
    assert ("-" + s)[1..] == s;
  }

  /** Writing any integer in decimal, with a '-' when negative, and reading it back gives the integer. */
  lemma {:induction false} SignedNumberRoundTrip(v: int, rest: string)
    requires rest == [] || !IsDigit(rest[0])
    ensures v >= 0 ==> SignedNumber(ToDecimal(v) + rest) == Some((v, rest))
    ensures v < 0 ==> SignedNumber("-" + (ToDecimal(-v) + rest)) == Some((v, rest))
  {
    if v >= 0 {
      SignedNumberReads(ToDecimal(v) + rest, ToDecimal(v), rest);
    } else {
      SignedNumberReads(ToDecimal(-v) + rest, ToDecimal(-v), rest);
    }
  }

  /** `test_number` and the middle entry of `test_signed_numberlist`. */
  lemma NumberExamples()
    ensures Number("20") == Some((20, ""))
    ensures SignedNumber("-20 3") == Some((-20, " 3"))
  {
    assert Parse("20") == 20 by {
      assert "20"[..1] == "2";
    }
    NumberReads("20", "");
    assert "20" + "" == "20";
    SignedNumberReads("20 3", "20", " 3");
    assert "-20 3" == "-" + "20 3";
  }

  // --------------------------------------------------------- number lists

  predicate IsBlank(c: char)
  {
    c == ' ' || c == '\t'
  }

  /** The length of the run of spaces and tabs at the front of s (what nom's `space0` takes). */
  function Blanks(s: string): (n: nat)
    ensures n <= |s| && forall i | 0 <= i < n :: IsBlank(s[i])
    ensures n < |s| ==> !IsBlank(s[n])
  {
    if s == [] || !IsBlank(s[0]) then 0
    else
      var n := 1 + Blanks(s[1..]);
      assert forall i | 1 <= i < n :: s[i] == s[1..][i - 1];
      n
  }

  /**
   * `space_separated_numbers`, that is `many1(preceded(space0, number))`:
   * numbers, each after optional blanks, for as long as one follows; an
   * error when not even the first one does. The input of an item that fails
   * is left unconsumed, blanks included.
   */
  function SpacedNumbers(s: string): (r: Option<(seq<nat>, string)>)
    ensures r.Some? ==> |r.value.0| > 0 && |r.value.1| < |s|
    decreases |s|
  {
    var item := Number(s[Blanks(s)..]);
    if item.None? then None
    else
      var more := SpacedNumbers(item.value.1);
      if more.None? then Some(([item.value.0], item.value.1))
      else Some(([item.value.0] + more.value.0, more.value.1))
  }

  /** `space_separated_signed_numbers`: the same with `signed_number` as the item. */
  function SpacedSignedNumbers(s: string): (r: Option<(seq<int>, string)>)
    ensures r.Some? ==> |r.value.0| > 0 && |r.value.1| < |s|
    decreases |s|
  {
    var item := SignedNumber(s[Blanks(s)..]);
    if item.None? then None
    else
      var more := SpacedSignedNumbers(item.value.1);
      if more.None? then Some(([item.value.0], item.value.1))
      else Some(([item.value.0] + more.value.0, more.value.1))
  }

  /** Numbers written in decimal, one space between neighbours. */
  function Spaced(vs: seq<nat>): string
    requires |vs| > 0
  {
    if |vs| == 1 then ToDecimal(vs[0]) else ToDecimal(vs[0]) + " " + Spaced(vs[1..])
  }

  /** An integer in decimal, with a '-' when negative. */
  function Signed(v: int): string
  {
    if v >= 0 then ToDecimal(v) else "-" + ToDecimal(-v)
  }

  /** Integers written with `Signed`, one space between neighbours. */
  function SpacedSigned(vs: seq<int>): string
    requires |vs| > 0
  {
    if |vs| == 1 then Signed(vs[0]) else Signed(vs[0]) + " " + SpacedSigned(vs[1..])
  }

  /** A leading space is skipped in front of a number. */
  lemma SpacedAfterBlank(x: string)
    requires |x| > 0 && !IsBlank(x[0])
    ensures Blanks(" " + x) == 1 && (" " + x)[1..] == x
  {
    assert (" " + x)[1..] == x;
  }

  /** One item of `many1`: the item read after the blanks, then the items after it. */
  lemma SpacedNumbersCons(s: string, v: nat, t: string)
    requires Number(s[Blanks(s)..]) == Some((v, t))
    ensures SpacedNumbers(s) == if SpacedNumbers(t).None? then Some(([v], t)) else Some(([v] + SpacedNumbers(t).value.0, SpacedNumbers(t).value.1))
  {
  }

  lemma SpacedSignedNumbersCons(s: string, v: int, t: string)
    requires SignedNumber(s[Blanks(s)..]) == Some((v, t))
    ensures SpacedSignedNumbers(s) == if SpacedSignedNumbers(t).None? then Some(([v], t)) else Some(([v] + SpacedSignedNumbers(t).value.0, SpacedSignedNumbers(t).value.1))
  {
  }

  lemma HeadTail<T>(vs: seq<T>)
    requires |vs| > 0
    ensures [vs[0]] + vs[1..] == vs
    ensures |vs| == 1 ==> [vs[0]] == vs
  {
  }

  /** `Spaced` starts with the digits of its first number. */
  lemma SpacedLeads(vs: seq<nat>)
    requires |vs| > 0
    ensures |Spaced(vs)| > 0 && IsDigit(Spaced(vs)[0])
  {
    var d := ToDecimal(vs[0]);
    assert d[0] == Spaced(vs)[0];
  }

  /** `SpacedSigned` starts with a signed number and no blank. */
  lemma SpacedSignedLeads(vs: seq<int>, rest: string)
    requires |vs| > 0 && (rest == [] || !IsDigit(rest[0]))
    ensures var x := SpacedSigned(vs) + rest; SignedNumber(x).Some? && |x| > 0 && !IsBlank(x[0])
  {
    var y := SignedSplit(vs, rest);
    SignedRoundTrip(vs[0], y);
  }

  /** `SpacedSigned` followed by `rest` is its first integer followed by what comes after it. */
  lemma SignedSplit(vs: seq<int>, rest: string) returns (y: string)
    requires |vs| > 0
    ensures y == if |vs| == 1 then rest else " " + (SpacedSigned(vs[1..]) + rest)
    ensures SpacedSigned(vs) + rest == Signed(vs[0]) + y
  {
    y := if |vs| == 1 then rest else " " + (SpacedSigned(vs[1..]) + rest);
  }

  /** A blank in front of a list that starts with a number changes nothing. */
  lemma SpacedNumbersSkipBlank(x: string)
    requires |x| > 0 && IsDigit(x[0])
    ensures SpacedNumbers(" " + x) == SpacedNumbers(x)
  {
    var item := Number(x);
    SpacedAfterBlank(x);
    assert Blanks(x) == 0 && x[0..] == x;
    SpacedNumbersCons(x, item.value.0, item.value.1);
    SpacedNumbersCons(" " + x, item.value.0, item.value.1);
  }

  lemma SpacedSignedNumbersSkipBlank(x: string)
    requires SignedNumber(x).Some? && !IsBlank(x[0])
    ensures SpacedSignedNumbers(" " + x) == SpacedSignedNumbers(x)
  {
    var item := SignedNumber(x);
    SpacedAfterBlank(x);
    assert Blanks(x) == 0 && x[0..] == x;
    SpacedSignedNumbersCons(x, item.value.0, item.value.1);
    SpacedSignedNumbersCons(" " + x, item.value.0, item.value.1);
  }

  /** A list that starts with a number in front of a non-digit: that number, then the list after it. */
  lemma SpacedNumbersFirst(d: string, tail: string)
    requires |d| > 0 && IsDigits(d) && (tail == [] || !IsDigit(tail[0]))
    ensures var more := SpacedNumbers(tail);
      SpacedNumbers(d + tail) == if more.None? then Some(([Parse(d)], tail)) else Some(([Parse(d)] + more.value.0, more.value.1))
  {
    NumberReads(d, tail);
    var s := d + tail;
    assert s[0] == d[0];
    assert Blanks(s) == 0 && s[0..] == s;
    SpacedNumbersCons(s, Parse(d), tail);
  }

  lemma SpacedSignedNumbersFirst(v: int, tail: string)
    requires tail == [] || !IsDigit(tail[0])
    ensures var more := SpacedSignedNumbers(tail);
      SpacedSignedNumbers(Signed(v) + tail) == if more.None? then Some(([v], tail)) else Some(([v] + more.value.0, more.value.1))
  {
    var s := Signed(v) + tail;
    SignedRoundTrip(v, tail);
    assert Blanks(s) == 0 && s[0..] == s;
    SpacedSignedNumbersCons(s, v, tail);
  }

  /**
   * Numbers written with single spaces between them read back as the same
   * list, whatever follows that does not continue the list.
   */
  lemma {:induction false} SpacedNumbersRoundTrip(vs: seq<nat>, rest: string)
    requires |vs| > 0
    requires SpacedNumbers(rest).None? && (rest == [] || !IsDigit(rest[0]))
    ensures SpacedNumbers(Spaced(vs) + rest) == Some((vs, rest))
  {
    var d := ToDecimal(vs[0]);
    HeadTail(vs);
    if |vs| == 1 {
      assert Spaced(vs) + rest == d + rest;
      SpacedNumbersFirst(d, rest);
    } else {
      var x := Spaced(vs[1..]) + rest;
      assert Spaced(vs) + rest == d + (" " + x);
      SpacedNumbersFirst(d, " " + x);
      SpacedNumbersRoundTrip(vs[1..], rest);
      SpacedLeads(vs[1..]);
      SpacedNumbersSkipBlank(x);
    }
  }

  /** The same for signed integers. */
  lemma {:induction false} SpacedSignedNumbersRoundTrip(vs: seq<int>, rest: string)
    requires |vs| > 0
    requires SpacedSignedNumbers(rest).None? && (rest == [] || !IsDigit(rest[0]))
    ensures SpacedSignedNumbers(SpacedSigned(vs) + rest) == Some((vs, rest))
  {
    HeadTail(vs);
    if |vs| == 1 {
      var y := SignedSplit(vs, rest);
      SpacedSignedNumbersFirst(vs[0], y);
    } else {
      var x := SpacedSigned(vs[1..]) + rest;
      var y := SignedSplit(vs, rest);
      SpacedSignedNumbersFirst(vs[0], y);
      SpacedSignedNumbersRoundTrip(vs[1..], rest);
      SpacedSignedLeads(vs[1..], rest);
      SpacedSignedNumbersSkipBlank(x);
    }
  }

  /** `Signed` starts with a '-' or a digit, never a blank. */
  lemma SignedLeads(v: int)
    ensures |Signed(v)| > 0 && !IsBlank(Signed(v)[0])
  {
  }

  /** `SignedNumberRoundTrip` in terms of `Signed`. */
  lemma SignedRoundTrip(v: int, rest: string)
    requires rest == [] || !IsDigit(rest[0])
    ensures SignedNumber(Signed(v) + rest) == Some((v, rest))
    ensures |Signed(v) + rest| > 0 && !IsBlank((Signed(v) + rest)[0])
  {
    SignedNumberRoundTrip(v, rest);
    if v >= 0 {
      SignedWritten(v, rest, ToDecimal(v) + rest);
    } else {
      SignedWritten(v, rest, "-" + (ToDecimal(-v) + rest));
    }
    SignedAheadOf(v, rest);
  }

  /** `Signed(v) + rest` is the string `SignedNumberRoundTrip` reads. */
  lemma SignedWritten(v: int, rest: string, s: string)
    requires s == if v >= 0 then ToDecimal(v) + rest else "-" + (ToDecimal(-v) + rest)
    ensures Signed(v) + rest == s
  {
  }

  /** A signed decimal followed by anything still starts with no blank. */
  lemma SignedAheadOf(v: int, rest: string)
    ensures |Signed(v) + rest| > 0 && !IsBlank((Signed(v) + rest)[0])
  {
    SignedLeads(v);
    assert (Signed(v) + rest)[0] == Signed(v)[0];
  }

  /** A whole line written by `Spaced` reads back as its numbers. */
  lemma SpacedNumbersOf(vs: seq<nat>, s: string)
    requires |vs| > 0 && s == Spaced(vs)
    ensures SpacedNumbers(s) == Some((vs, ""))
  {
    SpacedNumbersRoundTrip(vs, "");
    assert Spaced(vs) + "" == s;
  }

  /** A whole line written by `SpacedSigned` reads back as its integers. */
  lemma SpacedSignedNumbersOf(vs: seq<int>, s: string)
    requires |vs| > 0 && s == SpacedSigned(vs)
    ensures SpacedSignedNumbers(s) == Some((vs, ""))
  {
    SpacedSignedNumbersRoundTrip(vs, "");
    assert SpacedSigned(vs) + "" == s;
  }

  /** `test_numberlist`. */
  lemma NumberListExample()
    ensures SpacedNumbers("1 20 3") == Some(([1, 20, 3], ""))
  {
    assert ToDecimal(20) == "20";
    assert Spaced([3]) == "3";
    assert Spaced([20, 3]) == "20 3";
    assert Spaced([1, 20, 3]) == "1 20 3";
    SpacedNumbersOf([1, 20, 3], "1 20 3");
  }

  /** `test_signed_numberlist`. */
  lemma SignedNumberListExample()
    ensures SpacedSignedNumbers("1 -20 3") == Some(([1, -20, 3], ""))
  {
    assert ToDecimal(20) == "20";
    assert SpacedSigned([3]) == "3";
    assert SpacedSigned([-20, 3]) == "-20 3";
    assert SpacedSigned([1, -20, 3]) == "1 -20 3";
    SpacedSignedNumbersOf([1, -20, 3], "1 -20 3");
  }

  // ----------------------------------------------------------------- grid

  predicate InBox(p: Pos, topLeft: Pos, bottomRight: Pos)
  {
    Contains(p, topLeft) && Contains(bottomRight, p)
  }

  /**
   * The guard of `ensure` as written: not `top_left.contains(index)`, or
   * `bottom_right.contains(index)`.
   */
  predicate EnsureGuard(topLeft: Pos, bottomRight: Pos, index: Pos)
  {
    !Contains(topLeft, index) || Contains(bottomRight, index)
  }

  /**
   * That guard never skips the body: an index at or above-left of the top
   * left corner is also at or above-left of the bottom right one. (The body's
   * own tests then leave an index already inside the box alone.)
   */
  lemma EnsureGuardHolds(topLeft: Pos, bottomRight: Pos, index: Pos)
    requires Contains(bottomRight, topLeft)
    ensures EnsureGuard(topLeft, bottomRight, index)
  {
  }

  /**
   * `Grid<T>`: a map from position to cell, which holds exactly the
   * positions of the box from `topLeft` to `bottomRight`. `blank` is
   * `T::default()`.
   */
  class Grid<T> {
    var topLeft: Pos
    var bottomRight: Pos
    var cells: map<Pos, T>
    const blank: T

    ghost predicate Valid()
      reads this
    {
      Contains(bottomRight, topLeft) &&
      forall p :: p in cells <==> InBox(p, topLeft, bottomRight)
    }

    /** `Grid::default`: one blank cell at the origin, both corners at zero. */
    constructor Default(blank: T)
      ensures Valid() && topLeft == Zero && bottomRight == Zero
      ensures cells == map[Zero := blank] && this.blank == blank
    {
      topLeft := Zero;
      bottomRight := Zero;
      cells := map[Zero := blank];
      this.blank := blank;
    }

    /** `Index`: the cell at index; `unwrap` panics on a position outside the box. */
    function Get(index: Pos): (r: T)
      reads this
      requires Valid() && InBox(index, topLeft, bottomRight)
      ensures r == cells[index]
    {
      cells[index]
    }

    /**
     * One block of `ensure`: for each row from lo.y to hi.y, and each column
     * from lo.x to hi.x, insert a blank cell.
     */
    method FillRows(lo: Pos, hi: Pos)
      modifies this
      ensures topLeft == old(topLeft) && bottomRight == old(bottomRight)
      ensures forall p :: p in cells <==> p in old(cells) || InBox(p, lo, hi)
      ensures forall p :: p in cells ==> cells[p] == if InBox(p, lo, hi) then blank else old(cells)[p]
    {
      var y := lo.y;
      while y <= hi.y
        invariant topLeft == old(topLeft) && bottomRight == old(bottomRight)
        invariant lo.y <= y || hi.y < lo.y
        invariant forall p :: p in cells <==> p in old(cells) || (InBox(p, lo, hi) && p.y < y)
        invariant forall p :: p in cells ==> cells[p] == if InBox(p, lo, hi) && p.y < y then blank else old(cells)[p]
      {
        var x := lo.x;
        while x <= hi.x
          invariant topLeft == old(topLeft) && bottomRight == old(bottomRight)
          invariant lo.y <= y <= hi.y && (lo.x <= x || hi.x < lo.x)
          invariant forall p :: p in cells <==> p in old(cells) || (InBox(p, lo, hi) && (p.y < y || (p.y == y && p.x < x)))
          invariant forall p :: p in cells ==>
            cells[p] == if InBox(p, lo, hi) && (p.y < y || (p.y == y && p.x < x)) then blank else old(cells)[p]
        {
          cells := cells[Pos(x, y) := blank];
          x := x + 1;
        }
        y := y + 1;
      }
    }

    /**
     * `ensure`: grow the box to cover index, adding blank rows below, then
     * above, then blank columns to the right, then to the left. Cells already
     * present keep their values.
     */
    method Ensure(index: Pos)
      requires Valid()
      modifies this
      ensures Valid()
      ensures topLeft == Pos(Min(old(topLeft).x, index.x), Min(old(topLeft).y, index.y))
      ensures bottomRight == Pos(Max(old(bottomRight).x, index.x), Max(old(bottomRight).y, index.y))
      ensures forall p :: p in cells ==> cells[p] == if p in old(cells) then old(cells)[p] else blank
    {
      if EnsureGuard(topLeft, bottomRight, index) {
        if index.y > bottomRight.y {
          FillRows(Pos(topLeft.x, bottomRight.y + 1), Pos(bottomRight.x, index.y));
          bottomRight := Pos(bottomRight.x, index.y);
        }
        if index.y < topLeft.y {
          FillRows(Pos(topLeft.x, index.y), Pos(bottomRight.x, topLeft.y - 1));
          topLeft := Pos(topLeft.x, index.y);
        }
        if index.x > bottomRight.x {
          FillRows(Pos(bottomRight.x + 1, topLeft.y), Pos(index.x, bottomRight.y));
          bottomRight := Pos(index.x, bottomRight.y);
        }
        if index.x < topLeft.x {
          FillRows(Pos(index.x, topLeft.y), Pos(topLeft.x - 1, bottomRight.y));
          topLeft := Pos(index.x, topLeft.y);
        }
      } else {
        EnsureGuardHolds(topLeft, bottomRight, index);
        assert false;
      }
    }

    /** `IndexMut` followed by an assignment: `ensure`, then overwrite that one cell. */
    method Set(index: Pos, value: T)
      requires Valid()
      modifies this
      ensures Valid()
      ensures topLeft == Pos(Min(old(topLeft).x, index.x), Min(old(topLeft).y, index.y))
      ensures bottomRight == Pos(Max(old(bottomRight).x, index.x), Max(old(bottomRight).y, index.y))
      ensures cells[index] == value
      ensures forall p :: p in cells && p != index ==> cells[p] == if p in old(cells) then old(cells)[p] else blank
    {
      Ensure(index);
      cells := cells[index := value];
    }
  }

  /**
   * `test_grid`: the default grid reads '\0' at the origin; writing 'A' at
   * (4, 3) moves the bottom right corner there, and writing 'B' at (-14, -9)
   * moves the top left corner there. The cell at (-14, -9) then reads 'B',
   * and (4, 3) still reads 'A'.
   */
  method GridExample() returns (corners: seq<Pos>, read: seq<char>)
    ensures corners == [Zero, Zero, Pos(4, 3), Pos(-14, -9)]
    ensures read == ['\0', 'A', 'B', 'A']
  {
    var grid := new Grid<char>.Default('\0');
    corners := [grid.topLeft, grid.bottomRight];
    read := [grid.Get(Zero)];
    grid.Set(Pos(4, 3), 'A');
    corners := corners + [grid.bottomRight];
    read := read + [grid.Get(Pos(4, 3))];
    grid.Set(Pos(-14, -9), 'B');
    corners := corners + [grid.topLeft];
    read := read + [grid.Get(Pos(-14, -9)), grid.Get(Pos(4, 3))];
  }
}
