# Advent of Code solutions, modelled in Dafny

This project models the reusable logic of a collection of Advent of Code
solutions (the 2023 and 2024 puzzles), written in Rust. Each puzzle gets its
own Dafny module, and so does each of the two shared libraries: the sparse
growable grid with its directions and shared-tail paths (`2024/utils`), and
the 2023 helper library. The contracts prove what the code promises.

Code that updates state in place is modelled as classes with `modifies`
clauses, or as methods over arrays, and each of these is proved against a
specification function. Examples:

- the disk compactor of 2024 day 9 (both parts);
- the three-bit register machine of 2024 day 17;
- the 256-box lens map of 2023 day 15;
- the robot zone of 2024 day 14 and the box-pushing warehouse of 2024 day 15;
- the pulse network of 2023 day 20;
- the memoised towel counter of 2024 day 19;
- the interval table of 2023 day 5;
- the rock tilting of 2023 day 14.

Code that is pure in Rust is modelled with datatypes, functions and lemmas:

- the validators of 2024 days 2, 5 and 7;
- the recursions of 2023 days 9 and 12;
- the arithmetic of 2024 days 11, 13, 22 and 25;
- the hand ranking of 2023 day 7 and the cube sets of 2023 day 2.

Shared modules:

- `Wrappers` holds `Option`.
- `Arith` holds the multiplication and division facts the proofs need.
- `Decimal` models `to_string` and `parse` on decimal digit strings.

Integers are unbounded. A `panic!` in the source is modelled in one of two
ways:

- as a precondition, where callers can avoid it:
  - a single `step` of day 17 on a combo operand of 7;
  - a denominator of 0;
  - a character outside the puzzle's alphabet;
  - 2023 day 7's `Hand::new` and `Hand::new_wild` on a hand that is not five
    cards long;
  - 2024 day 9's `parse` on a disk map without a free block (as in "1", where
    the first scan indexes past the end) or without a file block (as in
    "01", where the scan for the last file block underflows);
- as an `Option` result, where the input decides it (the `unwrap` in
  `reorder`, an out-of-bounds push in the warehouse, a step that cannot be
  executed in day 17's `run` and `is_quine`).

The test cases of the modelled files are restated as lemmas, except those
listed under "## Left out".

## Model

The table lists the members that carry a contract. The definitions these
contracts are stated over have no contract of their own; the main ones are:

- `Y2024Day15.Movable`, `can_move`: 2024/day-15/src/common.rs:65-84;
- `Y2024Day15.Walk`, `step_up_down`: 2024/day-15/src/common.rs:122-137;
- `Y2024Day15.Score`, `score`: 2024/day-15/src/common.rs:49-55;
- `Y2023Day20.Process`, `process`: 2023/src/bin/day20/main.rs:154-214;
- `Y2023Day12.CountWaysImpl`, `count_ways_impl`: 2023/src/bin/day12/main.rs:77-113;
- `Y2023Day5.TranslateIn`, `translate`: 2023/src/bin/day5/main.rs:59-68;
- `Y2023Day5.Pieces`, `translate_range` corrected: 2023/src/bin/day5/main.rs:70-97;
- `Y2023Day5.Merge` and `Y2023Day5.Reduce`, `reduce_range_list` corrected: 2023/src/bin/day5/main.rs:120-136;
- `Y2024Day05.Reorder`, `reorder`: 2024/day-05/src/part2.rs:47-70;
- `Y2024Day07.IsValid`, `is_valid`: 2024/day-07/src/part1.rs:18-21;
- `Y2023Day15.FocusingPower`, `power`: 2023/src/bin/day15/main.rs:45-65;
- `Y2023Day14.Load`, `load`: 2023/src/bin/day14/main.rs:50-58;
- `Y2023Day14.TotalLoad`, the sum of the loads: 2023/src/bin/day14/main.rs:76;
- `Y2023Day07.Rank`, `rank`: 2023/src/bin/day7/main.rs:158-168;
- `Y2023Day07.Compare`, `cmp`: 2023/src/bin/day7/main.rs:185-210;
- `Y2024Day17Part1.RunFor`, `run`: 2024/day-17/src/part1.rs:75-92;
- `Y2024Day17Part1.PanicsWithin`, a panic within `run`: 2024/day-17/src/part1.rs:75-92;
- `Y2024Day09Part1.Checksum`, `checksum`: 2024/day-09/src/part1.rs:41-53;
- `Y2024Day14.Zone.Count`, `count`: 2024/day-14/src/common.rs:46-71;
- `Y2023Day09.Process`, `process`: 2023/src/bin/day9/main.rs:25-33;
- `Y2023Day09.Preprocess`, `preprocess`: 2023/src/bin/day9/main.rs:34-43;
- `Y2024Day02.BasicIsSafe`, `basic_is_safe`: 2024/day-02/src/part2.rs:42-54;
- `Y2023Day02.Add`, `Add for Cubes`: 2023/src/bin/day2/main.rs:11-20;
- `Y2023Day02.Contains`, `contains`: 2023/src/bin/day2/main.rs:60-62;
- `Y2023Day02.Minimum`, the fold of `combine` in `part2`: 2023/src/bin/day2/main.rs:88;
- `Y2024Day19.Ways`, `arrangements` without its cache: 2024/day-19/src/part2.rs:25-41.

| member | source | states |
|---|---|---|
| Y2024Grid.NewPath | 2024/utils/src/grid.rs:10-12 | a new path lists just its item and has length 1 |
| Y2024Grid.Len | 2024/utils/src/grid.rs:22-27 | a path is never empty (length at least 1, as `is_empty` says) |
| Y2024Grid.ToSeq | 2024/utils/src/grid.rs:28-40 | `to_vec` lists the head first |
| Y2024Grid.Extend | 2024/utils/src/grid.rs:43-61 | `&p + v` (and `+=`) puts v at the head, lists v followed by p's items and is one longer; p itself is a value and is unchanged |
| Y2024Grid.LenIsLength | 2024/utils/src/grid.rs:22-40 | `len` is the length of `to_vec` |
| Y2024Grid.OldestLast | 2024/utils/src/grid.rs:28-40 | `to_vec` ends with the path's first (oldest) item |
| Y2024Grid.PathExample | 2024/utils/src/grid.rs:563-573 | new(2) then += 3 lists [3, 2] with length 2; adding 8 gives length 3 and [8, 3, 2] |
| Y2024Grid.PlusCommutes | 2024/utils/src/grid.rs:207-252 | Xy addition commutes, and subtracting undoes adding |
| Y2024Grid.All4 | 2024/utils/src/grid.rs:98-100 | `all` lists four directions, every direction among them |
| Y2024Grid.Delta4 | 2024/utils/src/grid.rs:120-127 | every cardinal delta is a unit step |
| Y2024Grid.StepBack4 | 2024/utils/src/grid.rs:224-232 | `xy + d` and `xy - d` undo each other and move by exactly one cell |
| Y2024Grid.Turns4 | 2024/utils/src/grid.rs:102-127 | anticlockwise undoes clockwise, four clockwise turns are the identity, a clockwise turn rotates the delta by a quarter, and two turns reverse it |
| Y2024Grid.All8 | 2024/utils/src/grid.rs:142-153 | `all` lists eight directions, every direction among them |
| Y2024Grid.Delta8 | 2024/utils/src/grid.rs:188-199 | every compass delta is a non-zero step of at most one cell on each axis |
| Y2024Grid.StepBack8 | 2024/utils/src/grid.rs:234-279 | `xy + d` and `xy - d` undo each other and move to a neighbouring cell |
| Y2024Grid.Turns8 | 2024/utils/src/grid.rs:162-186 | anticlockwise and clockwise undo each other |
| Y2024Grid.EightTurns | 2024/utils/src/grid.rs:162-173 | eight clockwise turns are the identity |
| Y2024Grid.DiagonalSum | 2024/utils/src/grid.rs:162-199 | the diagonal clockwise of a cardinal direction steps by that direction plus the next cardinal one |
| Y2024Grid.CardinalTurnsDiagonal | 2024/utils/src/grid.rs:154-173 | clockwise maps `cardinal()` elementwise onto `diagonal()`, and the cardinal directions step like `Direction4`'s |
| Y2024Grid.XyExamples | 2024/utils/src/grid.rs:485-499 | `test_create_xy` and `test_modify_xy`: (0,1) has x 0 and y 1; (0,1) + (4,9) = (4,9) + (0,1) = (4,10); (0,1) - (4,9) = (-4,-8) and (4,9) - (0,1) = (4,8) |
| Y2024Grid.DirectionExamples | 2024/utils/src/grid.rs:507-522 | `test_directions`: N turns clockwise to E, SE anticlockwise to E; `all` lists 4 and 8 directions, `cardinal` and `diagonal` 4 each, and clockwise maps `cardinal` onto `diagonal` |
| Y2024Grid.StepExamples | 2024/utils/src/grid.rs:501-502 | (4,9) + N = (4,8) and (4,9) - SE = (3,8) |
| Y2024Grid.Nones | 2024/utils/src/grid.rs:391 | padding of n empty cells (`resize_with(.., None)`) |
| Y2024Grid.Grid.Empty | 2024/utils/src/grid.rs:362-368 | `empty` is the single empty cell at the origin, and `get` finds nothing anywhere |
| Y2024Grid.Grid.Width | 2024/utils/src/grid.rs:370-372 | the width is at least 1 |
| Y2024Grid.Grid.Height | 2024/utils/src/grid.rs:374-376 | the height is at least 1 |
| Y2024Grid.Grid.Get | 2024/utils/src/grid.rs:464-473 | None outside the bounds, without a panic |
| Y2024Grid.Grid.Keys | 2024/utils/src/grid.rs:382-386 | width * height coordinates, no two alike, every one in bounds and every in-bounds coordinate among them |
| Y2024Grid.Grid.All | 2024/utils/src/grid.rs:378-380 | width * height pairs of an in-bounds coordinate and what `get` returns there, each in-bounds coordinate exactly once |
| Y2024Grid.FilledKeys | 2024/utils/src/grid.rs:378-380 | in a listing without repeated coordinates, the count of filled cells is the number of coordinates holding a value |
| Y2024Grid.Grid.FilledTwo | 2024/utils/src/grid.rs:378-380 | a grid with exactly two cells holding a value has two filled entries in `all` |
| Y2024Grid.Grid.ExtendX | 2024/utils/src/grid.rs:388-404 | the columns grow to cover x on either side; every coordinate keeps its value |
| Y2024Grid.Grid.GrowEast | 2024/utils/src/grid.rs:389-394 | padding each row on the right moves the east bound to x and keeps every value |
| Y2024Grid.Grid.GrowWest | 2024/utils/src/grid.rs:395-403 | prefixing each row moves the west bound to x and keeps every value at its absolute coordinate |
| Y2024Grid.Grid.ExtendY | 2024/utils/src/grid.rs:406-427 | rows are added below or above to cover y; every coordinate keeps its value |
| Y2024Grid.Grid.Insert | 2024/utils/src/grid.rs:440-451 | the bounds become the smallest box covering the old box and xy; `get(xy)` is the element and every other coordinate keeps its value |
| Y2024Grid.Grid.Remove | 2024/utils/src/grid.rs:433-439 | returns the value that was there, empties the cell, leaves the bounds and every other cell as they were |
| Y2024Grid.GridExample | 2024/utils/src/grid.rs:525-557 | `test_grid`: the heights and widths 1, 1, 5, 4, 8, 7, the values `get` finds around the two inserts, the eight `contains` answers, 56 keys, 56 cells and 2 filled cells |
| Y2023Lib.Delta | 2023/src/lib.rs:76-83 | every direction steps by one cell along exactly one axis |
| Y2023Lib.Turns | 2023/src/lib.rs:84-107 | left and right undo each other; reverse is an involution without fixed points and is two turns either way; right rotates the delta a quarter turn and reverse negates it |
| Y2023Lib.DirectionExamples | 2023/src/lib.rs:313-316 | the default direction is North, and West turned right is North |
| Y2023Lib.Union | 2023/src/lib.rs:155-160 | the componentwise maximum contains both positions and is contained in every position that contains both |
| Y2023Lib.ContainsOrder | 2023/src/lib.rs:152-160 | `contains` is a partial order; `union` is commutative and idempotent, and a contains b exactly when their union is a |
| Y2023Lib.Transpose | 2023/src/lib.rs:49-53 | one row per column of the first row, one column per input row, and element [i][j] is m[j][i] |
| Y2023Lib.TransposeTwice | 2023/src/lib.rs:49-53 | transposing a non-empty rectangular matrix twice gives it back |
| Y2023Lib.TransposeExample | 2023/src/lib.rs:49-53 | [[1,2,3],[4,5,6]] transposes to [[1,4],[2,5],[3,6]] |
| Y2023Lib.DigitRun | 2023/src/lib.rs:26 | `digit1` takes the longest run of digits at the front of the input |
| Y2023Lib.Number | 2023/src/lib.rs:25-28 | `number` succeeds exactly when the input starts with a digit |
| Y2023Lib.DigitRunOf | 2023/src/lib.rs:26 | the run taken in front of a non-digit is exactly the digits |
| Y2023Lib.NumberReads | 2023/src/lib.rs:25-28 | `number` on digits followed by a non-digit returns their value and the rest |
| Y2023Lib.SignedNumberReads | 2023/src/lib.rs:30-39 | `signed_number` returns the digits' value, negated exactly when a '-' leads |
| Y2023Lib.SignedNumberOf | 2023/src/lib.rs:30-39 | a '-' in front of a number negates it, and its absence leaves it as is |
| Y2023Lib.SignedNumberRoundTrip | 2023/src/lib.rs:30-39 | writing an integer in decimal (with '-' when negative) and reading it back gives the integer and the rest |
| Y2023Lib.NumberExamples | 2023/src/lib.rs:286-297 | number("20") is 20; "-20 3" reads -20 and leaves " 3" |
| Y2023Lib.Blanks | 2023/src/lib.rs:41-47 | `space0` takes the whole run of spaces and tabs at the front and stops at the first other character |
| Y2023Lib.SpacedNumbers | 2023/src/lib.rs:41-43 | `space_separated_numbers` yields at least one number when it succeeds and always consumes input |
| Y2023Lib.SpacedSignedNumbers | 2023/src/lib.rs:45-47 | `space_separated_signed_numbers` yields at least one integer when it succeeds and always consumes input |
| Y2023Lib.SpacedNumbersSkipBlank | 2023/src/lib.rs:41-43 | a space in front of a list that starts with a digit does not change what is read |
| Y2023Lib.SpacedSignedNumbersSkipBlank | 2023/src/lib.rs:45-47 | a space in front of a list that starts with a signed number does not change what is read |
| Y2023Lib.SpacedNumbersFirst | 2023/src/lib.rs:41-43 | a list that starts with digits before a non-digit reads their value, then the list after them (or stops there) |
| Y2023Lib.SpacedSignedNumbersFirst | 2023/src/lib.rs:45-47 | a list that starts with a signed decimal before a non-digit reads that integer, then the list after it (or stops there) |
| Y2023Lib.SignedRoundTrip | 2023/src/lib.rs:30-39 | `signed_number` reads back any integer written in decimal with '-' when negative, and such a string never starts with a blank |
| Y2023Lib.SpacedNumbersRoundTrip | 2023/src/lib.rs:41-43 | any non-empty list of numbers written with single spaces, before a rest that is no list and no digit, reads back as that list and that rest |
| Y2023Lib.SpacedSignedNumbersRoundTrip | 2023/src/lib.rs:45-47 | the same round trip for signed integers |
| Y2023Lib.SpacedNumbersOf | 2023/src/lib.rs:41-43 | a whole line of numbers written with single spaces reads back as exactly those numbers with nothing left |
| Y2023Lib.SpacedSignedNumbersOf | 2023/src/lib.rs:45-47 | a whole line of signed integers written with single spaces reads back as exactly those integers with nothing left |
| Y2023Lib.NumberListExample | 2023/src/lib.rs:281-284 | `test_numberlist`: "1 20 3" reads [1, 20, 3] |
| Y2023Lib.SignedNumberListExample | 2023/src/lib.rs:286-292 | `test_signed_numberlist`: "1 -20 3" reads [1, -20, 3] |
| Y2023Lib.EnsureGuardHolds | 2023/src/lib.rs:177 | on a well-formed box the guard of `ensure` is always true, so the body always runs and its own tests decide |
| Y2023Lib.Grid.Default | 2023/src/lib.rs:220-233 | the default grid has one blank cell at the origin and both corners at zero |
| Y2023Lib.Grid.Get | 2023/src/lib.rs:265-274 | `Index` returns the stored cell; the `unwrap` panic outside the box becomes the requires |
| Y2023Lib.Grid.FillRows | 2023/src/lib.rs:180-184 | one block of nested loops inserts a blank cell at every position of its rectangle and changes nothing else |
| Y2023Lib.Grid.Ensure | 2023/src/lib.rs:176-217 | the box grows to the smallest one that covers the index, every new position is blank and every old cell keeps its value |
| Y2023Lib.Grid.Set | 2023/src/lib.rs:255-263 | `index_mut` then assignment: the box covers the index, the cell holds the value, the others keep theirs or are blank |
| Y2023Lib.GridExample | 2023/src/lib.rs:300-310 | the corners and cells of `test_grid`: '\0' at the origin, 'A' written at (4,3), then the top left corner at (-14,-9); the cell (-14,-9) reads 'B', where the test's last check expects 'A' (see Findings), and (4,3) still reads 'A' |
| Y2024Day17Part1.Code | 2024/day-17/src/part1.rs:25-41 | the code `Display` prints is the operand's literal value |
| Y2024Day17Part1.FromCode | 2024/day-17/src/part1.rs:44-58 | `From<i32>` maps each code 0..7 to the instruction whose literal is that code; other values panic (the requires) |
| Y2024Day17Part1.Literal | 2024/day-17/src/part1.rs:138-149 | a literal operand is below 8 |
| Y2024Day17Part1.FromLiteral | 2024/day-17/src/part1.rs:44-58 | parsing an instruction's code gives the instruction back |
| Y2024Day17Part1.LiteralInjective | 2024/day-17/src/part1.rs:138-149 | distinct instructions have distinct literals |
| Y2024Day17Part1.Combo | 2024/day-17/src/part1.rs:125-136 | combo operands 0-3 are literal, 4, 5 and 6 read A, B and C; operand 7 panics (the requires) |
| Y2024Day17Part1.Shr | 2024/day-17/src/part1.rs:160 | the quotient never exceeds A and is smaller than a positive A for a positive exponent |
| Y2024Day17Part1.ShrIsDivision | 2024/day-17/src/part1.rs:160 | repeated halving is A / 2^k |
| Y2024Day17Part1.XorHalves | 2024/day-17/src/part1.rs:163 | the low bit of a xor is the parity of the sum, and the rest is the xor of the halves |
| Y2024Day17Part1.XorZero | 2024/day-17/src/part1.rs:163 | xor with 0 is the identity |
| Y2024Day17Part1.XorCommutes | 2024/day-17/src/part1.rs:174 | xor commutes |
| Y2024Day17Part1.XorSelf | 2024/day-17/src/part1.rs:163 | a value xor itself is 0 |
| Y2024Day17Part1.XorCancels | 2024/day-17/src/part1.rs:163 | xor with the same value twice gives the value back |
| Y2024Day17Part1.XorBelow | 2024/day-17/src/part1.rs:174 | the xor of two k-bit values is a k-bit value |
| Y2024Day17Part1.Execute | 2024/day-17/src/part1.rs:151-192 | every instruction but `jnz` moves the pointer by 2; `jnz` jumps to the literal iff A > 0; only `out` outputs, a value below 8; halt iff the new pointer is at or past the program's end |
| Y2024Day17Part1.ExecuteWrites | 2024/day-17/src/part1.rs:158-183 | only `adv` writes A, only `bxl`, `bst`, `bxc` and `bdv` write B, only `cdv` writes C, and A never grows |
| Y2024Day17Part1.DivisionsAgree | 2024/day-17/src/part1.rs:159-161 | `adv`, `bdv` and `cdv` store A / 2^combo in A, B and C respectively and leave the other registers alone |
| Y2024Day17Part1.XorInstructionsKeepThreeBits | 2024/day-17/src/part1.rs:162-175 | `bxl` and `bxc` keep a three-bit B three-bit when C is three-bit |
| Y2024Day17Part1.BxlTwice | 2024/day-17/src/part1.rs:162-164 | `bxl` twice with the same operand restores B |
| Y2024Day17Part1.Emit | 2024/day-17/src/part1.rs:88-90 | a step appends its output to `out` when there is one, and nothing otherwise |
| Y2024Day17Part1.StepAsWritten | 2024/day-17/src/part1.rs:79-92 | `step` as written answers (a panic is None) exactly when the pointer is past the end or the instruction there can be executed |
| Y2024Day17Part1.StepAsWrittenAgrees | 2024/day-17/src/part1.rs:80-83 | away from the end of the program, the step as written panics exactly when the corrected step cannot proceed, and otherwise has the same effect |
| Y2024Day17Part1.StepAsWrittenPanicsAtEnd | 2024/day-17/src/part1.rs:80-83 | with the pointer equal to the program's length, the step as written fetches past the end and panics while the corrected step halts without change |
| Y2024Day17Part1.SampleStepAfterRun | 2024/day-17/src/part1.rs:80-83 | after the sample run halts at pointer 6, one more step as written panics where the corrected step halts |
| Y2024Day17Part1.HaltGuardProtectsFetch | 2024/day-17/src/part1.rs:80-83 | with the corrected guard `pointer >= len`, an instruction is only fetched from inside the program |
| Y2024Day17Part1.StepEffect | 2024/day-17/src/part1.rs:79-92 | at the guard `step` halts without change; otherwise it halts iff the new pointer is past the end |
| Y2024Day17Part1.Prepend | 2024/day-17/src/part1.rs:88-90 | output printed before a run comes in front of the run's output |
| Y2024Day17Part1.PrependNothing | 2024/day-17/src/part1.rs:88-90 | printing nothing first changes nothing |
| Y2024Day17Part1.PrependTwice | 2024/day-17/src/part1.rs:88-90 | printing o then o' is printing o + o' |
| Y2024Day17Part1.RunAfterStep | 2024/day-17/src/part1.rs:75-77 | a run that takes one more non-halting step has printed that step's output next |
| Y2024Day17Part1.RunHalts | 2024/day-17/src/part1.rs:75-77 | a run whose next step halts ends in that step's state with that step's output last |
| Y2024Day17Part1.RunMoreFuel | 2024/day-17/src/part1.rs:75-77 | a run that halts within some number of steps halts the same way when allowed more |
| Y2024Day17Part1.SafeStep | 2024/day-17/src/part1.rs:151-152 | in an even-length program with no combo operand 7 and even jump targets, every step from an even pointer has its operand and keeps the pointer even |
| Y2024Day17Part1.PanicHasNoTrace | 2024/day-17/src/part1.rs:75-77 | a run that comes to a step it cannot execute, before halting, has no trace |
| Y2024Day17Part1.SafeNeverPanics | 2024/day-17/src/part1.rs:75-77 | a safe program never panics from an even pointer, for any number of steps |
| Y2024Day17Part1.OddJumpRuns | 2024/day-17/src/part1.rs:168-172 | adv 3; out A; jnz 7 is not safe, yet from A = 8 it prints 1 and halts at pointer 7 |
| Y2024Day17Part1.ComboSevenPanics | 2024/day-17/src/part1.rs:134 | out with combo operand 7 panics on the first step |
| Y2024Day17Part1.RunStuck | 2024/day-17/src/part1.rs:75-77 | a run that comes to a step it cannot execute has no trace and panics |
| Y2024Day17Part1.RunStep | 2024/day-17/src/part1.rs:75-92 | one executable step ends the run with its output and no panic, or continues the run and its panic from the next state |
| Y2024Day17Part1.SafeRunStep | 2024/day-17/src/part1.rs:75-92 | in a safe program, each step of a run from an even pointer can be taken, keeps the pointer even, and either ends the run with its output or continues it |
| Y2024Day17Part1.ShiftDigits | 2024/day-17/src/part1.rs:159-176 | the outputs of a divide-and-print loop start with the low three bits of the first quotient |
| Y2024Day17Part1.ShiftLoopOnce | 2024/day-17/src/part1.rs:151-192 | one pass of `adv k, out 4, jnz 0` prints the low three bits of A / 2^k and jumps back while that quotient is positive |
| Y2024Day17Part1.ShiftLoopRun | 2024/day-17/src/part1.rs:75-77 | running that loop from A prints ShiftDigits(A, k) and halts with A = 0 |
| Y2024Day17Part1.ShiftDigitsCons | 2024/day-17/src/part1.rs:159-176 | the digit list is the first digit followed by the list for the quotient |
| Y2024Day17Part1.SampleDigitsLow | 2024/day-17/src/part1.rs:250 | the last five sample digits, from A = 22 |
| Y2024Day17Part1.SampleDigits | 2024/day-17/src/part1.rs:250 | A = 729 halved repeatedly prints 4,6,3,5,6,3,5,2,1,0 |
| Y2024Day17Part1.SampleRun | 2024/day-17/src/part1.rs:230-250 | the sample program 0,1,5,4,3,0 with A = 729 prints 4,6,3,5,6,3,5,2,1,0 and halts |
| Y2024Day17Part1.Device.constructor | 2024/day-17/src/part1.rs:210-224 | a parsed device has its registers and program, pointer 0 and no output |
| Y2024Day17Part1.Device.Reset | 2024/day-17/src/part1.rs:71-74 | `reset` clears the output and rewinds the pointer; the registers and program stay |
| Y2024Day17Part1.Device.Step | 2024/day-17/src/part1.rs:79-92 | corrected (see Findings: it halts at a pointer equal to the length, where the source's guard lets that pointer reach the fetch): the registers and pointer become the step's state, its output is appended, and the halt flag is returned |
| Y2024Day17Part1.Device.Run | 2024/day-17/src/part1.rs:75-77 | over the corrected `step` (see Findings): on any program, `while !step()` halts within the given steps exactly when the run does, ending in its final state with all of its output appended; it reports a panic exactly when the run comes to a step it cannot execute |
| Y2024Day17Part1.AdvTest | 2024/day-17/src/part1.rs:254-273 | `adv` gives 8, 4 and 2 |
| Y2024Day17Part1.BxlTest | 2024/day-17/src/part1.rs:275-295 | `bxl` gives 3, 0 and 2 |
| Y2024Day17Part1.ComboTest | 2024/day-17/src/part1.rs:297-314 | combo operands 0 to 6 read 0, 1, 2, 3, 18, 19 and 20 |
| Y2024Day17Part1.BstTest | 2024/day-17/src/part1.rs:316-330 | `bst` gives 0, then 18 mod 8 = 2 |
| Y2024Day17Part1.JnzTest | 2024/day-17/src/part1.rs:332-354 | the pointer is 0, then 2 when A is 0, then 4 when A is 1 |
| Y2024Day17Part1.BxcTest | 2024/day-17/src/part1.rs:356-369 | 4 xor 1 = 5 in B, pointer 2 |
| Y2024Day17Part1.OutTest | 2024/day-17/src/part1.rs:371-383 | `out 4` with A = 18 prints 2, pointer 2 |
| Y2024Day17Part1.BdvTest | 2024/day-17/src/part1.rs:385-407 | A stays 8, 8, 9 while B gets 8, 4, 2 |
| Y2024Day17Part1.CdvTest | 2024/day-17/src/part1.rs:408-430 | A stays 8, 8, 9 while C gets 8, 4, 2 |
| Y2024Day17Part1.SampleSafe | 2024/day-17/src/part1.rs:234 | the sample program can never panic |
| Y2024Day17Part1.SampleTest | 2024/day-17/src/part1.rs:244-251 | the device's own run prints 4,6,3,5,6,3,5,2,1,0 for the sample |
| Y2024Day17Part1.OneTest | 2024/day-17/src/part1.rs:432-442 | `bst 6` with C = 9 leaves 1 in B |
| Y2024Day17Part1.TwoTest | 2024/day-17/src/part1.rs:443-456 | 5,0,5,1,5,4 with A = 10 prints 0, 1, 2 |
| Y2024Day17Part2.Codes | 2024/day-17/src/part2.rs:229-241 | `as_int` over the program has one code per instruction |
| Y2024Day17Part2.MatchesExtend | 2024/day-17/src/part2.rs:162-165 | one more output keeps the match exactly when it decodes to the next instruction still wanted |
| Y2024Day17Part2.MatchesAll | 2024/day-17/src/part2.rs:170 | a matching prefix is the whole code list exactly when nothing is left to pop |
| Y2024Day17Part2.CodesAt | 2024/day-17/src/part2.rs:229-241 | the i-th code is the i-th instruction's literal |
| Y2024Day17Part2.MismatchIsNoQuine | 2024/day-17/src/part2.rs:162-164 | once an output does not match, or comes after the whole program, the run's outputs are not the program's codes |
| Y2024Day17Part2.QuineQuiet | 2024/day-17/src/part2.rs:161-168 | a step that prints nothing leaves the rest of the run to compare |
| Y2024Day17Part2.RunAdvance | 2024/day-17/src/part2.rs:161-168 | after one more step that does not halt, the run has printed that step's output next and goes on from the step's state with one step less |
| Y2024Day17Part2.QuineMatch | 2024/day-17/src/part2.rs:161-168 | a matching output extends the match and the run continues from the step's state |
| Y2024Day17Part2.QuineMismatch | 2024/day-17/src/part2.rs:163-165 | a mismatching output rules the run out as a quine |
| Y2024Day17Part2.Device.constructor | 2024/day-17/src/part2.rs:326-345 | a parsed device saves its registers, has pointer 0, no output and no last output |
| Y2024Day17Part2.Device.Reset | 2024/day-17/src/part2.rs:172-178 | `reset` restores the saved registers, clears the output and rewinds the pointer; the program and the last output stay |
| Y2024Day17Part2.Device.Step | 2024/day-17/src/part2.rs:183-197 | the new registers and pointer are the step's state, its output is appended, `last_out` is that output or None (unchanged at the guard), and halt is the step's halt flag |
| Y2024Day17Part2.Device.IsQuine | 2024/day-17/src/part2.rs:157-171 | when the run from A and the saved B and C halts, the answer is whether the outputs of its non-halting steps are the program's codes; true only for a halting run; on any program, None only when the fuel ran out or a step could not be executed (a panic) |
| Y2024Day17Part2.Device.QuineRound | 2024/day-17/src/part2.rs:161-168 | on any program, one round of the loop from an executable step keeps the program and saved registers; a verdict is the comparison of the whole run's output with the program's codes (true only for a run that halts); with no verdict the match has grown by what was printed and the run goes on one step further |
| Y2024Day17Part2.QuineProgramSafe | 2024/day-17/src/part2.rs:354-358 | the quine test program can never panic |
| Y2024Day17Part2.QuineDigits | 2024/day-17/src/part2.rs:588-589 | A = 117440 divided by 8 repeatedly prints 0,3,5,4,3,0 |
| Y2024Day17Part2.NotQuineDigits | 2024/day-17/src/part2.rs:587 | from A = 2024 the first digit is 5 |
| Y2024Day17Part2.QuineRunNo | 2024/day-17/src/part2.rs:587 | from A = 2024 the program halts printing something other than its codes |
| Y2024Day17Part2.QuineRunYes | 2024/day-17/src/part2.rs:588-589 | from A = 117440 the program halts printing exactly its codes |
| Y2024Day17Part2.QuineCodes | 2024/day-17/src/part2.rs:358 | the quine program's codes are 0,3,5,4,3,0 |
| Y2024Day17Part2.QuineTest | 2024/day-17/src/part2.rs:584-591 | `is_quine(2024)` is false and, after `reset`, `is_quine(117440)` is true |
| Y2024Day17Part2.OneStep | 2024/day-17/src/part2.rs:96-118 | `one_step` computes the same digit and next A as `two_step`, and the digit is below 8 |
| Y2024Day17Part2.RunQuiet | 2024/day-17/src/part2.rs:183-197 | a quiet non-halting step leaves the rest of the run unchanged |
| Y2024Day17Part2.RunPrint | 2024/day-17/src/part2.rs:183-197 | a printing non-halting step puts its digit in front of the rest of the run |
| Y2024Day17Part2.PuzzleIsPuzzle | 2024/day-17/src/part2.rs:102-118 | the decoded puzzle program is 2,4 1,5 7,5 1,6 0,3 4,6 5,5 3,0 |
| Y2024Day17Part2.PuzzleStep0 | 2024/day-17/src/part2.rs:104-105 | `bst 4` sets B to A mod 8 |
| Y2024Day17Part2.PuzzleStep2 | 2024/day-17/src/part2.rs:106-107 | `bxl 5` sets B to B xor 5 |
| Y2024Day17Part2.PuzzleStep4 | 2024/day-17/src/part2.rs:108-109 | `cdv 5` sets C to A / 2^B |
| Y2024Day17Part2.PuzzleStep6 | 2024/day-17/src/part2.rs:110-111 | `bxl 6` sets B to B xor 6 |
| Y2024Day17Part2.PuzzleStep8 | 2024/day-17/src/part2.rs:112-113 | `adv 3` divides A by 8 |
| Y2024Day17Part2.PuzzleStep10 | 2024/day-17/src/part2.rs:114-115 | `bxc` sets B to B xor C |
| Y2024Day17Part2.PuzzleStep12 | 2024/day-17/src/part2.rs:116-117 | `out 5` prints B mod 8 |
| Y2024Day17Part2.PuzzleStep14 | 2024/day-17/src/part2.rs:102-118 | `jnz 0` loops back while A > 0 and halts otherwise |
| Y2024Day17Part2.PuzzleFirstHalf | 2024/day-17/src/part2.rs:102-111 | the first four instructions compute B and C as `two_step` does |
| Y2024Day17Part2.PuzzleSecondHalf | 2024/day-17/src/part2.rs:112-118 | the last four divide A by 8, print (B xor C) mod 8 and loop while A > 0 |
| Y2024Day17Part2.PuzzleHalves | 2024/day-17/src/part2.rs:102-118 | one pass of the puzzle program prints (B xor C) mod 8 from the registers the first half computes, then loops with A shifted right by 3 unless that is zero |
| Y2024Day17Part2.PuzzlePass | 2024/day-17/src/part2.rs:96-100 | one pass of the program prints `two_step(A).0` and continues from A / 8 or halts |
| Y2024Day17Part2.PuzzleDigits | 2024/day-17/src/part2.rs:96-100 | the digits printed from A start with `two_step(A).0` |
| Y2024Day17Part2.PuzzleRun | 2024/day-17/src/part2.rs:96-100 | the whole run of the puzzle program prints PuzzleDigits(A): each pass is one `two_step` |
| Y2024Day17Part2.PuzzleCodes | 2024/day-17/src/part2.rs:102-118 | the puzzle program's codes are 2,4,1,5,7,5,1,6,0,3,4,6,5,5,3,0 |
| Y2024Day17Part2.PuzzleQuine | 2024/day-17/src/part2.rs:157-171 | the puzzle run prints its own codes exactly when PuzzleDigits(A) spells them |
| Y2024Day17Part2.BlockMembers | 2024/day-17/src/part2.rs:134-140 | a value is kept from a range exactly when it lies in the range and its pass is accepted; at most one per value |
| Y2024Day17Part2.CandidatesMembers | 2024/day-17/src/part2.rs:131-143 | a value is a candidate exactly when its eighth is a base and its pass is accepted; at most eight per base |
| Y2024Day17Part2.FindEightMeaning | 2024/day-17/src/part2.rs:131-143 | every value `find_eight` returns prints `output` in one pass and leaves one of the given values in A, and every value with an eighth among them that prints `output` is returned |
| Y2024Day17Part2.FindEight | 2024/day-17/src/part2.rs:131-143 | the loops collect exactly the candidates, base by base in order |
| Y2024Day17Part2.CandidatesExtend | 2024/day-17/src/part2.rs:134 | taking one more base appends exactly that base's block of accepted values |
| Y2024Day17Part2.ScanBase | 2024/day-17/src/part2.rs:134-140 | the inner loop collects exactly the accepted values of [8 base, 8 base + 8) in increasing order |
| Y2024Day17Part2.BlockExtend | 2024/day-17/src/part2.rs:136-138 | one more value is pushed exactly when it prints `output` and leaves a given value in A |
| Y2023Day15.Hash | 2023/src/bin/day15/main.rs:112-120 | a hash is below 256 |
| Y2023Day15.HashFrom | 2023/src/bin/day15/main.rs:113-117 | the fold stays below 256 and returns its start on an empty string |
| Y2023Day15.HashFromConcat | 2023/src/bin/day15/main.rs:113-117 | hashing s + t is hashing t from the hash of s |
| Y2023Day15.HashExample | 2023/src/bin/day15/main.rs:200-203 | the hash of "HASH" is 52 |
| Y2023Day15.HashStep | 2023/src/bin/day15/main.rs:113-117 | one character: add its code, multiply by 17, reduce mod 256 |
| Y2023Day15.Position | 2023/src/bin/day15/main.rs:81-87 | `position` finds the first slot holding the name, or None when no slot does |
| Y2023Day15.InsertSlots | 2023/src/bin/day15/main.rs:80-85 | inserting a present name replaces one slot holding it and keeps the length and every other slot; an absent name is appended |
| Y2023Day15.RemoveSlots | 2023/src/bin/day15/main.rs:86-90 | removing keeps the length, and each slot either stays or held the name and becomes Empty, so the name appears in no new slot |
| Y2023Day15.ApplyOtherBoxes | 2023/src/bin/day15/main.rs:77-78 | `apply` leaves every box other than the name's hash unchanged |
| Y2023Day15.Compacted | 2023/src/bin/day15/main.rs:67-75 | compacting never lengthens a box |
| Y2023Day15.CompactedConcat | 2023/src/bin/day15/main.rs:67-75 | compacting distributes over concatenation |
| Y2023Day15.CompactedKeepsLenses | 2023/src/bin/day15/main.rs:72 | `compact` drops every Empty and keeps every lens as often as before |
| Y2023Day15.CompactedNoEmpty | 2023/src/bin/day15/main.rs:72 | a box without Empty is left as it is |
| Y2023Day15.Delete | 2023/src/bin/day15/main.rs:86-90 | deleting never lengthens a box |
| Y2023Day15.CompactedOne | 2023/src/bin/day15/main.rs:72 | a one-entry box compacts to nothing or itself |
| Y2023Day15.ApplyBoxCons | 2023/src/bin/day15/main.rs:80-90 | apply on a box whose first slot holds the name acts there; otherwise it acts on the rest |
| Y2023Day15.CompactedRemove | 2023/src/bin/day15/main.rs:86-90 | leaving an Empty placeholder and compacting later is deleting the lens from the compacted box |
| Y2023Day15.CompactedInsert | 2023/src/bin/day15/main.rs:80-85 | inserting before compacting is inserting into the compacted box |
| Y2023Day15.CompactedApply | 2023/src/bin/day15/main.rs:77-92 | every operation commutes with compaction once `-` is read as deletion |
| Y2023Day15.CompactAll | 2023/src/bin/day15/main.rs:67-75 | every box is compacted and the count of boxes stays |
| Y2023Day15.ApplyAll | 2023/src/bin/day15/main.rs:107 | applying operations keeps 256 boxes |
| Y2023Day15.RuleAll | 2023/src/bin/day15/main.rs:107 | applying operations by the deletion rules keeps 256 boxes |
| Y2023Day15.CompactAllApplyAll | 2023/src/bin/day15/main.rs:104-110 | applying every operation with placeholders and compacting at the end gives the boxes that deleting at once gives, for any sequence of operations |
| Y2023Day15.PowerEmptyTail | 2023/src/bin/day15/main.rs:45-65 | empty boxes add nothing to the focusing power |
| Y2023Day15.PlaceholdersMatter | 2023/src/bin/day15/main.rs:45-65 | an Empty before a lens shifts its slot number, so `power` before `compact` would differ |
| Y2023Day15.Map.constructor | 2023/src/bin/day15/main.rs:39-43 | `new` makes 256 empty boxes |
| Y2023Day15.Map.Apply | 2023/src/bin/day15/main.rs:77-92 | `apply` changes the boxes to ApplyBoxes of the old ones |
| Y2023Day15.Map.Compact | 2023/src/bin/day15/main.rs:67-75 | `compact` replaces every box by its compacted form |
| Y2023Day15.SampleHashes | 2023/src/bin/day15/main.rs:209 | the sample's names rn, cm, qp, pc, ot and ab hash to 0, 0, 1, 3, 3 and 3 |
| Y2023Day15.NewBoxes | 2023/src/bin/day15/main.rs:41 | there are 256 boxes |
| Y2023Day15.Boxes4Power | 2023/src/bin/day15/main.rs:45-65 | the power of boxes that are empty past the fourth is the sum of the first four boxes' powers |
| Y2023Day15.RuleAllCons | 2023/src/bin/day15/main.rs:107 | applying a first operation and then the rest is applying them all |
| Y2023Day15.SampleStep | 2023/src/bin/day15/main.rs:209 | one operation of the sample, as RuleAllCons |
| Y2023Day15.SampleFirstStep | 2023/src/bin/day15/main.rs:209 | `rn=1` puts rn 1 in box 0 |
| Y2023Day15.SampleSecondStep | 2023/src/bin/day15/main.rs:209 | `cm-` on a box without cm changes nothing |
| Y2023Day15.SampleSecondQuarter | 2023/src/bin/day15/main.rs:209 | `qp=3, cm=2` add qp to box 1 and cm to box 0 |
| Y2023Day15.SampleQpLeaves | 2023/src/bin/day15/main.rs:209 | `qp-` empties box 1 |
| Y2023Day15.SampleThirdQuarter | 2023/src/bin/day15/main.rs:209 | `qp-, pc=4, ot=9` empty box 1 and fill box 3 with pc 4, ot 9 |
| Y2023Day15.SampleAbJoins | 2023/src/bin/day15/main.rs:209 | `ab=5, pc-` leave ot 9, ab 5 in box 3 |
| Y2023Day15.SampleLastQuarter | 2023/src/bin/day15/main.rs:209 | `ab=5, pc-, pc=6, ot=7` leave ot 7, ab 5, pc 6 in box 3 |
| Y2023Day15.SamplePower | 2023/src/bin/day15/main.rs:45-65 | box 0 contributes 5 and box 3 contributes 140 |
| Y2023Day15.Part2 | 2023/src/bin/day15/main.rs:104-110 | `part2` is the focusing power of the compacted boxes after applying all operations |
| Y2023Day15.SampleTest | 2023/src/bin/day15/main.rs:205-211 | the sample's focusing power is 145 |
| Y2023Day15.SampleRules | 2023/src/bin/day15/main.rs:205-211 | by the deletion rules the sample's power is 145 |
| Y2023Day15.SampleRulesBoxes | 2023/src/bin/day15/main.rs:209 | the sample leaves rn 1, cm 2 in box 0 and ot 7, ab 5, pc 6 in box 3 |
| Y2023Day15.SampleBoxesPower | 2023/src/bin/day15/main.rs:45-65 | those boxes have power 145 |
| Y2023Day5.Lookup | 2023/src/bin/day5/main.rs:60 | `get_key_value` returns a range of the map holding the key, and nothing exactly when no range holds it |
| Y2023Day5.LookupUnique | 2023/src/bin/day5/main.rs:60 | in a map of non-overlapping ranges, the range holding a key is the one found |
| Y2023Day5.LookupConcat | 2023/src/bin/day5/main.rs:60 | looking up in p + q looks in p first, then in q |
| Y2023Day5.TranslateMeaning | 2023/src/bin/day5/main.rs:59-68 | `translate` returns a key outside every range unchanged, and offsets a key inside a range by that range's target |
| Y2023Day5.ClipAllLookup | 2023/src/bin/day5/main.rs:103 | a key outside the inserted range is still held by what is left of its old range |
| Y2023Day5.ClipAllAvoids | 2023/src/bin/day5/main.rs:103 | no leftover range holds a key inside the inserted range |
| Y2023Day5.InsertLookup | 2023/src/bin/day5/main.rs:103 | after `insert(a..b, v)`, keys in a..b find the new range and other keys find what is left of their old range |
| Y2023Day5.WellFormedConcat | 2023/src/bin/day5/main.rs:45 | two well-formed maps whose ranges are apart make one well-formed map |
| Y2023Day5.WellFormedTail | 2023/src/bin/day5/main.rs:45 | dropping the first range keeps a map well formed, and that range is apart from the rest |
| Y2023Day5.ClipShape | 2023/src/bin/day5/main.rs:103 | what insertion leaves of one range is at most two non-empty, non-overlapping pieces of it outside the new range |
| Y2023Day5.ClipAllPieces | 2023/src/bin/day5/main.rs:103 | what insertion leaves of a well-formed map is well formed and clear of the new range |
| Y2023Day5.ClipAllWithin | 2023/src/bin/day5/main.rs:103 | every leftover piece lies inside one of the old ranges |
| Y2023Day5.InsertWellFormed | 2023/src/bin/day5/main.rs:103 | `insert` keeps the range map well formed |
| Y2023Day5.InsertTranslate | 2023/src/bin/day5/main.rs:103 | after `insert(a..b, v)`, keys in a..b translate through the new range, and keys below a, or from b on in a range starting from b, translate as before |
| Y2023Day5.InsertCovers | 2023/src/bin/day5/main.rs:99-117 | a map covering exactly 0..max still covers exactly 0..max(max, b) after inserting a..b with a <= max |
| Y2023Day5.InsertValid | 2023/src/bin/day5/main.rs:99-117 | insertion at or below the reach keeps the map well formed and gap-free |
| Y2023Day5.PlacedValid | 2023/src/bin/day5/main.rs:99-110 | `add` keeps the table well formed and covering exactly 0..max(max, start + length) |
| Y2023Day5.GapKeeps | 2023/src/bin/day5/main.rs:101-105 | filling max..start with a None range changes no translation and no lookup from start on |
| Y2023Day5.PlacedTranslate | 2023/src/bin/day5/main.rs:99-110 | after `add`, keys in start..start + length go to target + (key - start), keys below start translate as before, and so do keys past the new range whose range starts past it |
| Y2023Day5.ExtendKeeps | 2023/src/bin/day5/main.rs:112-117 | `extend` keeps the table valid, reaching up to length, and changes no translation |
| Y2023Day5.PiecesImage | 2023/src/bin/day5/main.rs:70-97 | on a gap-free table, the pieces of start..end hold exactly the translations of its keys |
| Y2023Day5.PiecesOvershoot | 2023/src/bin/day5/main.rs:86-89 | with 0..5 onto 100 and 5..10 a gap, the pieces as written are 100..110 and 5..10, which hold 107, the image of no key; the corrected pieces are 100..105 and 5..10 |
| Y2023Day5.Widen | 2023/src/bin/day5/main.rs:103 | the merged range reaches at least as far as the inserted one on both sides |
| Y2023Day5.CoalescingShifts | 2023/src/bin/day5/main.rs:109 | `add(0, 5, 100)` then `add(5, 5, 100)`: the merged range translates 7 to 107, where the line 5 5 100 means 102 |
| Y2023Day5.Table.constructor | 2023/src/bin/day5/main.rs:49-57 | `new` makes a valid table with the given names, reach 0 and no ranges |
| Y2023Day5.Table.Add | 2023/src/bin/day5/main.rs:99-110 | corrected `add`: keeps the table valid and its names, raises the reach to max(max, start + length), and makes the ranges Placed of the old ones, without rangemap's coalescing of equal-valued neighbours (see Findings) |
| Y2023Day5.Table.Extend | 2023/src/bin/day5/main.rs:112-117 | `extend` raises the reach to max(max, length) with a None range and changes no key's translation |
| Y2023Day5.Table.TranslateRange | 2023/src/bin/day5/main.rs:70-97 | the loop builds the corrected pieces of the range |
| Y2023Day5.TableTest | 2023/src/bin/day5/main.rs:254-263 | the table "50 98 2" and "52 50 48" translates 99 to 51 |
| Y2023Day5.InsertSpan | 2023/src/bin/day5/main.rs:122 | inserting into a sorted list keeps it sorted and adds exactly that range |
| Y2023Day5.InsertSpanBelow | 2023/src/bin/day5/main.rs:122 | a range ordered after the head stays sorted behind it |
| Y2023Day5.SortSpans | 2023/src/bin/day5/main.rs:122 | the sort by (start, end) is sorted and a permutation of the list |
| Y2023Day5.ReduceRangeList | 2023/src/bin/day5/main.rs:120-136 | the loop computes the corrected reduction: sort, then merge every range that starts no later than the current one ends |
| Y2023Day5.HitCons | 2023/src/bin/day5/main.rs:120-136 | a point is in a + q exactly when it is in a or in q |
| Y2023Day5.MergeCovers | 2023/src/bin/day5/main.rs:124-134 | merging a list ordered by start keeps exactly its points |
| Y2023Day5.MergeSeparated | 2023/src/bin/day5/main.rs:124-134 | the merged ranges start where the first did and each ends before the next starts |
| Y2023Day5.SortedStarts | 2023/src/bin/day5/main.rs:122 | in a sorted list the starts never decrease |
| Y2023Day5.ReduceCovers | 2023/src/bin/day5/main.rs:120-136 | the reduced list holds exactly the points of the input |
| Y2023Day5.ReduceSeparated | 2023/src/bin/day5/main.rs:120-136 | the reduced ranges are separated by gaps, and only the empty list reduces to nothing |
| Y2023Day5.SortedFirstLeast | 2023/src/bin/day5/main.rs:122 | the head of a sorted list is at or below every element |
| Y2023Day5.SortedTail | 2023/src/bin/day5/main.rs:122 | the tail of a sorted list is sorted |
| Y2023Day5.SortedUnique | 2023/src/bin/day5/main.rs:122 | two sorted permutations of one list are equal, so the sort's result is determined |
| Y2023Day5.ReduceBySorted | 2023/src/bin/day5/main.rs:120-136 | the reduction may be computed from any sorted permutation |
| Y2023Day5.ReduceAsWrittenBySorted | 2023/src/bin/day5/main.rs:120-136 | so may the reduction as written |
| Y2023Day5.ReduceApart | 2023/src/bin/day5/main.rs:277 | 1..2, 4..5 stays as it is |
| Y2023Day5.ReduceTouching | 2023/src/bin/day5/main.rs:278 | 1..2, 4..5, 5..8 reduces to 1..2, 4..8 |
| Y2023Day5.MergeTail | 2023/src/bin/day5/main.rs:278-280 | a range apart from two overlapping ones stays, and those two merge |
| Y2023Day5.ReduceOverlapping | 2023/src/bin/day5/main.rs:279 | 1..2, 4..5, 4..8 reduces to 1..2, 4..8 |
| Y2023Day5.ReduceUnsorted | 2023/src/bin/day5/main.rs:280 | 4..5, 1..2, 4..8 reduces to 1..2, 4..8 |
| Y2023Day5.EmptyInsideSorted | 2023/src/bin/day5/main.rs:283 | 1..3, 2..2, 2..6, 8..12 is the sorted order of the last test's list |
| Y2023Day5.ReduceEmptyInside | 2023/src/bin/day5/main.rs:281-284 | 1..3, 8..12, 2..2, 2..6 reduces to 1..6, 8..12 |
| Y2023Day5.ReduceEmptyInsideAsWritten | 2023/src/bin/day5/main.rs:281-284 | the code as written gives the same answer on that test |
| Y2023Day5.MergeEmptyInside | 2023/src/bin/day5/main.rs:281-284 | the corrected merge of the sorted test list |
| Y2023Day5.MergeEmptyInsideAsWritten | 2023/src/bin/day5/main.rs:281-284 | the merge as written of the sorted test list |
| Y2023Day5.ReduceShrinks | 2023/src/bin/day5/main.rs:127 | as written, 1..10, 2..3 reduces to 1..3 and loses the point 5; corrected, it reduces to 1..10 |
| Y2023Day14.Tilted | 2023/src/bin/day14/main.rs:21-48 | a tilt keeps the row's length |
| Y2023Day14.TiltFromShape | 2023/src/bin/day14/main.rs:21-48 | the scan keeps the settled prefix and produces one cell per cell read |
| Y2023Day14.TiltFromCounts | 2023/src/bin/day14/main.rs:21-48 | the scan neither creates nor destroys rocks or empty cells |
| Y2023Day14.TiltedCounts | 2023/src/bin/day14/main.rs:21-48 | a tilted row is a rearrangement of the row: the same length and the same multiset of cells |
| Y2023Day14.RollKeepsSquares | 2023/src/bin/day14/main.rs:37-42 | rolling a round rock over empty cells moves no square rock |
| Y2023Day14.TiltFromSquares | 2023/src/bin/day14/main.rs:21-48 | the scan leaves every square rock where it was |
| Y2023Day14.SquaresStay | 2023/src/bin/day14/main.rs:43-46 | tilting never moves a square rock |
| Y2023Day14.TiltFromSettled | 2023/src/bin/day14/main.rs:21-48 | the scan's output has no round rock right after an empty cell |
| Y2023Day14.TiltedSettled | 2023/src/bin/day14/main.rs:21-48 | after a tilt no round rock can roll further |
| Y2023Day14.SettledFixed | 2023/src/bin/day14/main.rs:21-48 | the scan of a settled rest gives it back unchanged |
| Y2023Day14.TiltIdempotent | 2023/src/bin/day14/main.rs:21-48 | a settled row is its own tilt, and tilting twice is tilting once |
| Y2023Day14.TiltFromNext | 2023/src/bin/day14/main.rs:26-46 | an empty cell widens the gap, a round rock settles at the gap's start, a square rock closes the gap |
| Y2023Day14.TiltFromGap | 2023/src/bin/day14/main.rs:31-33 | a run of k empty cells widens the gap by k |
| Y2023Day14.LoadConcat | 2023/src/bin/day14/main.rs:50-58 | the load of a + b is a's load raised by the length of b for each of a's round rocks, plus b's load |
| Y2023Day14.EmptiesWeightless | 2023/src/bin/day14/main.rs:50-58 | empty cells weigh nothing and hold no round rock |
| Y2023Day14.RollGain | 2023/src/bin/day14/main.rs:37-42 | rolling a round rock g cells toward the start raises the load by g |
| Y2023Day14.RollGainAlone | 2023/src/bin/day14/main.rs:37-42 | the same with nothing settled before it |
| Y2023Day14.TiltFromLoad | 2023/src/bin/day14/main.rs:21-58 | the scan's output weighs at least as much as its input |
| Y2023Day14.TiltRaisesLoad | 2023/src/bin/day14/main.rs:21-58 | a tilt never lowers a row's load |
| Y2023Day14.TiltExample | 2023/src/bin/day14/main.rs:132-156 | ..O#O.O tilts to O..#OO. |
| Y2023Day14.TiltFromCons | 2023/src/bin/day14/main.rs:26-46 | TiltFromNext for a row written as a first cell and the rest |
| Y2023Day14.TiltRow | 2023/src/bin/day14/main.rs:21-48 | `tilt` in place turns the array into the tilted row |
| Y2023Day14.SkipRocks | 2023/src/bin/day14/main.rs:26-28 | the first inner loop stops at an empty cell or the end, and the cells it passes do not change the scan |
| Y2023Day14.SkipEmpties | 2023/src/bin/day14/main.rs:31-33 | the second inner loop passes only empty cells and stops at a rock or the end |
| Y2023Day14.SkipStep | 2023/src/bin/day14/main.rs:26-28 | stepping over a rock with no gap pending keeps the scan's outcome |
| Y2023Day14.GapRun | 2023/src/bin/day14/main.rs:30-33 | the empty cells passed become the pending gap |
| Y2023Day14.EndStep | 2023/src/bin/day14/main.rs:34-36 | returning at the end of the row, the row already is the tilted row |
| Y2023Day14.RollStep | 2023/src/bin/day14/main.rs:37-42 | the swap into the first empty cell keeps the scan's outcome, and the cell after it is empty so the square test that follows fails |
| Y2023Day14.SquareStep | 2023/src/bin/day14/main.rs:43-46 | stepping past a square rock keeps the scan's outcome |
| Y2023Day14.TiltRowExample | 2023/src/bin/day14/main.rs:132-156 | `tilt` on the array ..O#O.O gives O..#OO. |
| Y2023Day14.Reversed | 2023/src/bin/day14/main.rs:10-19 | reversal maps index k to the k-th index from the end |
| Y2023Day14.TiltOne | 2023/src/bin/day14/main.rs:14 | a tilt in either direction keeps the row's length |
| Y2023Day14.TiltAll | 2023/src/bin/day14/main.rs:14 | tilting every row keeps the plate's shape |
| Y2023Day14.Quarter | 2023/src/bin/day14/main.rs:14-15 | a tilt and a transpose swap the plate's dimensions |
| Y2023Day14.Quarters | 2023/src/bin/day14/main.rs:13-16 | a plate stays a plate through any number of quarters |
| Y2023Day14.TiltRows | 2023/src/bin/day14/main.rs:14 | tilting each row on its own array gives TiltAll |
| Y2023Day14.TiltCopy | 2023/src/bin/day14/main.rs:14 | a row copied into a buffer (reversed when tilting towards the end) and tilted in place is the tilted row |
| Y2023Day14.Cycle | 2023/src/bin/day14/main.rs:10-19 | `cycle` as written is four quarters that all tilt toward the start of the rows |
| Y2023Day14.SpinCycle | 2023/src/bin/day14/main.rs:10-19 | the corrected cycle tilts north, west, south and east |
| Y2023Day14.SpinEndsEast | 2023/src/bin/day14/main.rs:10-19 | after a spin cycle no round rock can roll further east |
| Y2023Day14.CycleNeverSouth | 2023/src/bin/day14/main.rs:10-19 | on the column `.O` the written cycle leaves `O.` and a spin cycle leaves `.O` |
| Y2023Day14.CycleEnds | 2023/src/bin/day14/main.rs:13-16 | the last two quarters of each cycle on that column |
| Y2023Day14.QuartersSnoc | 2023/src/bin/day14/main.rs:13-16 | one more quarter extends the sequence of passes |
| Y2023Day14.TiltedSmall | 2023/src/bin/day14/main.rs:21-48 | .O tilts to O., and O., O and . are already tilted |
| Y2023Day14.TransposePair | 2023/src/bin/day14/main.rs:15 | transposing a 1 by 2 plate and back |
| Y2023Day14.QuarterNorth | 2023/src/bin/day14/main.rs:14-15 | a quarter toward the start on .O or O. gives the lines O and . |
| Y2023Day14.QuarterLines | 2023/src/bin/day14/main.rs:14-15 | a quarter toward the start on the lines O and . gives O. |
| Y2023Day14.QuarterSouth | 2023/src/bin/day14/main.rs:14-15 | quarters toward the end take O. to the lines . and O, and those back to .O |
| Y2023Day14.Part1AtLeast | 2023/src/bin/day14/main.rs:64-68 | `part1`, the load after one tilt north, is at least the load before |
| Y2023Day14.CyclesAsWritten | 2023/src/bin/day14/main.rs:72-74 | a plate stays a plate through any number of calls of `cycle` as written |
| Y2023Day14.Part2 | 2023/src/bin/day14/main.rs:70-77 | `part2` as written is the load after `count` calls of the written `cycle` |
| Y2023Day14.Spins | 2023/src/bin/day14/main.rs:72-74 | a plate stays a plate through any number of spin cycles |
| Y2023Day14.SpinPart2 | 2023/src/bin/day14/main.rs:70-77 | corrected `part2`: the load after `count` spin cycles (north, west, south, east) |
| Y2023Day14.Part2Differs | 2023/src/bin/day14/main.rs:70-77 | on the column `.O` after one cycle, `part2` as written gives load 2 and the corrected one load 1 |
| Y2024Day09Part1.Digits | 2024/day-09/src/part1.rs:62-63 | every character is read as a digit below 10, one per character |
| Y2024Day09Part1.RunOf | 2024/day-09/src/part1.rs:65-67 | a run of n copies of one block |
| Y2024Day09Part1.LayoutPrefix | 2024/day-09/src/part1.rs:62-72 | laying out a prefix of the map gives a prefix of the layout |
| Y2024Day09Part1.LayoutSnoc | 2024/day-09/src/part1.rs:62-72 | one more digit appends that many blocks of file k / 2 (k even) or free space (k odd) |
| Y2024Day09Part1.LayoutStep | 2024/day-09/src/part1.rs:62-72 | with `empty` alternating from false and `id` counting files, round i of the loop appends run i of the layout |
| Y2024Day09Part1.ChecksumFree | 2024/day-09/src/part1.rs:41-53 | free blocks add nothing to the checksum |
| Y2024Day09Part1.ChecksumFreeTail | 2024/day-09/src/part1.rs:41-53 | trailing free blocks leave the checksum unchanged |
| Y2024Day09Part1.ChecksumExample | 2024/day-09/src/part1.rs:117-123 | the checksum of 0,0,9,9,8,.,. is 18 + 27 + 32 |
| Y2024Day09Part1.Ids | 2024/day-09/src/part1.rs:12 | there are no more file ids than blocks |
| Y2024Day09Part1.Reversed | 2024/day-09/src/part1.rs:26-39 | reversal maps index k to the k-th index from the end |
| Y2024Day09Part1.FillHoles | 2024/day-09/src/part1.rs:26-39 | filling holes keeps the length |
| Y2024Day09Part1.Expected | 2024/day-09/src/part1.rs:4-8 | the compaction target has the disk's length |
| Y2024Day09Part1.IdsConcat | 2024/day-09/src/part1.rs:12 | the ids of a + b are those of a, then those of b |
| Y2024Day09Part1.IdsAllUsed | 2024/day-09/src/part1.rs:12 | a run of file blocks has one id per block |
| Y2024Day09Part1.IdsAllFree | 2024/day-09/src/part1.rs:12 | a run of free blocks has no ids |
| Y2024Day09Part1.FillHolesUsedPrefix | 2024/day-09/src/part1.rs:26-39 | a prefix with no hole is kept as it is |
| Y2024Day09Part1.FillHolesAllUsed | 2024/day-09/src/part1.rs:26-39 | a disk with no hole is kept as it is |
| Y2024Day09Part1.ReversedSnoc | 2024/day-09/src/part1.rs:26-39 | reversing s + [x] puts x first |
| Y2024Day09Part1.StepCount | 2024/day-09/src/part1.rs:26-39 | a swap keeps the number of file blocks, which lies after the first hole and at most at the last file block |
| Y2024Day09Part1.StepHead | 2024/day-09/src/part1.rs:28 | below the file count, the swap fills the first hole with the first filler |
| Y2024Day09Part1.StepTail | 2024/day-09/src/part1.rs:28 | from the file count on, the swap removes the last file id |
| Y2024Day09Part1.StepKeepsExpected | 2024/day-09/src/part1.rs:26-39 | a swap of the last file block into the first hole keeps the compaction target |
| Y2024Day09Part1.SplitIds | 2024/day-09/src/part1.rs:28 | the ids of the five pieces a swap touches add up |
| Y2024Day09Part1.CompactedIsExpected | 2024/day-09/src/part1.rs:4-8 | a disk whose files all come before its free space is its own target |
| Y2024Day09Part1.Files.constructor | 2024/day-09/src/part1.rs:18-24 | `new`: no blocks and both cursors at 0 |
| Y2024Day09Part1.Files.Step | 2024/day-09/src/part1.rs:26-39 | `step` moves exactly when the last file block lies after the first free block: it swaps them, moves the first cursor right and the last cursor left, keeps the cursors valid and the multiset of blocks; otherwise nothing changes |
| Y2024Day09Part1.Files.Compact | 2024/day-09/src/part1.rs:4-8 | stepping until nothing moves leaves every file block before every free block, exactly the compaction target, a permutation of the start |
| Y2024Day09Part1.SkipUsed | 2024/day-09/src/part1.rs:29-31 | the first cursor stops at the first free block at or after where it started |
| Y2024Day09Part1.SkipFree | 2024/day-09/src/part1.rs:32-34 | the last cursor stops at the last file block at or before where it started |
| Y2024Day09Part1.SwapCounts | 2024/day-09/src/part1.rs:28 | a swap keeps the multiset of blocks |
| Y2024Day09Part1.PushRun | 2024/day-09/src/part1.rs:65-67 | the inner loop pushes count copies of the block |
| Y2024Day09Part1.LayOut | 2024/day-09/src/part1.rs:59-72 | the parse loop lays out the disk map run by run |
| Y2024Day09Part1.FirstFree | 2024/day-09/src/part1.rs:73-75 | the first scan stops at the first free block |
| Y2024Day09Part1.LastUsedAsWritten | 2024/day-09/src/part1.rs:76-79 | as written, the second scan stops at once when the last block holds a file, and otherwise never moves `last_some` and panics when `first_none` underflows |
| Y2024Day09Part1.LastUsed | 2024/day-09/src/part1.rs:76-79 | the corrected scan stops at the last file block, with only free blocks after it |
| Y2024Day09Part1.Parse | 2024/day-09/src/part1.rs:58-81 | corrected (see Findings: the last cursor moves back past free blocks, where the source moves the first cursor): the parsed disk is the layout of the map, with both cursors valid; it requires a free block and a file block, without which the source's scans panic |
| Y2024Day09Part1.Process | 2024/day-09/src/part1.rs:4-8 | over the corrected `parse` (see Findings): `process` is the checksum of the compaction target of the layout |
| Y2024Day09Part1.TrailingFreeLayout | 2024/day-09/src/part1.rs:62-72 | "12" lays out as 0,.,. |
| Y2024Day09Part1.TrailingFreeExample | 2024/day-09/src/part1.rs:76-79 | on "12" the parser as written panics, where the corrected scan gives last file block 0 and first free block 1 |
| Y2024Day09Part1.LayoutThree | 2024/day-09/src/part1.rs:97-106 | the map 2,3,3 lays out as 0,0,.,.,.,1,1,1 |
| Y2024Day09Part1.LayoutSix | 2024/day-09/src/part1.rs:97-113 | the map 2,3,3,3,1,3 lays out as the sample's first fifteen blocks |
| Y2024Day09Part1.SampleLayout | 2024/day-09/src/part1.rs:96-115 | the sample's first fifteen blocks are 0,0,.,.,.,1,1,1,.,.,.,2,.,.,. |
| Y2024Day09Part2.FirstFit | 2024/day-09/src/part2.rs:31-35 | the index found is the first free span that starts left of the file and is at least as long; none means no span fits |
| Y2024Day09Part2.SwapRanges | 2024/day-09/src/part2.rs:37-39 | swapping two ranges keeps the disk's length |
| Y2024Day09Part2.FitBefore | 2024/day-09/src/part2.rs:31-35 | a free span that fits a file ends before the file starts, so the swapped ranges never overlap |
| Y2024Day09Part2.StepDisk | 2024/day-09/src/part2.rs:26-43 | a step keeps the spans ordered and each span's cells all used or all free; with no file left it changes nothing, otherwise it drops the last file span |
| Y2024Day09Part2.SwapOutside | 2024/day-09/src/part2.rs:37-39 | cells outside both swapped ranges keep their blocks |
| Y2024Day09Part2.MoveKeepsUsed | 2024/day-09/src/part2.rs:37-39 | moving the last file leaves every other file span full of file blocks |
| Y2024Day09Part2.MoveKeepsFree | 2024/day-09/src/part2.rs:37-40 | the free span used shrinks from the left and every free span stays free and in order |
| Y2024Day09Part2.ShrinkKeepsOrdered | 2024/day-09/src/part2.rs:37-40 | shrinking one free span from the left keeps the free spans in order |
| Y2024Day09Part2.PopKeepsUsed | 2024/day-09/src/part2.rs:30 | the file spans left after the pop are in order, hold file blocks, and end before the popped one |
| Y2024Day09Part2.MoveOk | 2024/day-09/src/part2.rs:30-40 | after moving the popped file into a fitting free span the disk is still in order |
| Y2024Day09Part2.StepDiskOk | 2024/day-09/src/part2.rs:26-43 | both branches of a step keep the disk in order |
| Y2024Day09Part2.StepMovesLeft | 2024/day-09/src/part2.rs:26-43 | with no fitting span the blocks and free spans stay; otherwise the file's blocks land at the start of the first fitting span, left of where they were, that span shrinks by the file's length, and the file's old cells become free |
| Y2024Day09Part2.SwapRangesNext | 2024/day-09/src/part2.rs:37-39 | one more iteration of the swap loop exchanges the next pair of cells |
| Y2024Day09Part2.SwapRangesCounts | 2024/day-09/src/part2.rs:37-39 | swapping two ranges keeps the multiset of blocks |
| Y2024Day09Part2.StepDiskCounts | 2024/day-09/src/part2.rs:26-43 | a step keeps the multiset of blocks |
| Y2024Day09Part2.Defrag | 2024/day-09/src/part2.rs:4-8 | stepping until no file span is left ends with the disk in order and no file span listed |
| Y2024Day09Part2.DefragCounts | 2024/day-09/src/part2.rs:4-8 | compaction keeps the disk's length and its multiset of blocks: no block is lost or invented |
| Y2024Day09Part2.StepLength | 2024/day-09/src/part2.rs:26-43 | a step keeps the disk's length |
| Y2024Day09Part2.LeadRun | 2024/day-09/src/part2.rs:77 | the leading run is every block equal to the first, and the block after it differs |
| Y2024Day09Part2.ChunkBy | 2024/day-09/src/part2.rs:77 | the chunks concatenate back to the disk and each is a non-empty run of equal blocks |
| Y2024Day09Part2.ChunksMaximal | 2024/day-09/src/part2.rs:77 | neighbouring chunks hold different blocks, and the first chunk starts with the disk's first block |
| Y2024Day09Part2.FlattenConcat | 2024/day-09/src/part2.rs:77-85 | flattening a + b gives the flattening of a, then of b |
| Y2024Day09Part2.FlattenSnoc | 2024/day-09/src/part2.rs:77-85 | flattening one more chunk appends it |
| Y2024Day09Part2.SpansOfOk | 2024/day-09/src/part2.rs:77-85 | the spans pushed for the chunks are in order, lie on the disk and hold only file blocks or only free blocks |
| Y2024Day09Part2.Parsed | 2024/day-09/src/part2.rs:62-87 | the parsed disk keeps the laid-out blocks and satisfies the order invariant |
| Y2024Day09Part2.SplitChunks | 2024/day-09/src/part2.rs:77-85 | the chunk loop pushes, for each chunk, a span starting where the chunks before it end, into the file or the free list |
| Y2024Day09Part2.Files.constructor | 2024/day-09/src/part2.rs:18-24 | a new Files has no blocks and no spans |
| Y2024Day09Part2.Files.Step | 2024/day-09/src/part2.rs:26-43 | returns false exactly when no file span is left, and leaves the state the step function gives |
| Y2024Day09Part2.Files.Compact | 2024/day-09/src/part2.rs:4-8 | stepping until step returns false leaves the compacted disk |
| Y2024Day09Part2.SwapRun | 2024/day-09/src/part2.rs:37-39 | the swap loop exchanges the two ranges cell by cell |
| Y2024Day09Part2.Parse | 2024/day-09/src/part2.rs:62-87 | parse builds a fresh Files holding the laid-out digits and the spans of their chunks |
| Y2024Day09Part2.Process | 2024/day-09/src/part2.rs:4-8 | the answer is the checksum of the disk compacted a whole file at a time |
| Y2023Day07.StrengthOrder | 2023/src/bin/day7/main.rs:5-21 | the joker is the weakest card and the ace the strongest, and distinct cards have distinct strengths |
| Y2023Day07.CardOf | 2023/src/bin/day7/main.rs:41-58 | a card character never reads as the joker |
| Y2023Day07.WildCardOf | 2023/src/bin/day7/main.rs:35-40 | with wild jokers, J reads as the joker and nothing reads as the jack |
| Y2023Day07.Distinct | 2023/src/bin/day7/main.rs:66-71 | the keys of the count map are exactly the cards of the hand, each once |
| Y2023Day07.CountsFor | 2023/src/bin/day7/main.rs:77 | there is one count per key |
| Y2023Day07.Remove | 2023/src/bin/day7/main.rs:72-76 | removing the joker key leaves every other key, each once |
| Y2023Day07.SumZeroCounts | 2023/src/bin/day7/main.rs:66-71 | an empty hand has zero counts |
| Y2023Day07.SumCountsSnoc | 2023/src/bin/day7/main.rs:66-71 | one more card raises the total count by one when it is a key |
| Y2023Day07.SumCounts | 2023/src/bin/day7/main.rs:66-71 | the counts add up to the number of cards |
| Y2023Day07.SumRemove | 2023/src/bin/day7/main.rs:72-76 | removing a key removes exactly its count from the total |
| Y2023Day07.CountsPositive | 2023/src/bin/day7/main.rs:66-71 | every key of the map counts at least one card |
| Y2023Day07.Insert | 2023/src/bin/day7/main.rs:77-78 | inserting adds exactly one element |
| Y2023Day07.ConsSorted | 2023/src/bin/day7/main.rs:77-78 | a head no larger than a sorted tail keeps it sorted |
| Y2023Day07.InsertBound | 2023/src/bin/day7/main.rs:77-78 | insertion keeps a common lower bound |
| Y2023Day07.InsertSorted | 2023/src/bin/day7/main.rs:77-78 | insertion into a sorted list keeps it sorted |
| Y2023Day07.InsertSum | 2023/src/bin/day7/main.rs:77-78 | insertion adds the element to the sum |
| Y2023Day07.Sort | 2023/src/bin/day7/main.rs:77-78 | sorting gives an ordered permutation with the same sum |
| Y2023Day07.SumAtLeastLength | 2023/src/bin/day7/main.rs:77-78 | positive counts add up to at least their number |
| Y2023Day07.SumOfFew | 2023/src/bin/day7/main.rs:77-78 | at most five counts add up to their first five entries |
| Y2023Day07.PartitionsOfFive | 2023/src/bin/day7/main.rs:134-155 | every sorted list of positive counts adding up to five is one of the seven signatures matched, so the final panic is unreachable |
| Y2023Day07.PartitionCases | 2023/src/bin/day7/main.rs:134-155 | the case split behind the seven signatures |
| Y2023Day07.Classify | 2023/src/bin/day7/main.rs:134-155 | a hand is built exactly when the signature is one of the seven matched, and it keeps the cards |
| Y2023Day07.RankOfSignature | 2023/src/bin/day7/main.rs:158-168 | ranks run from 1 to 7 and a hand ranks higher exactly when it has fewer groups, or as many groups and a larger largest group |
| Y2023Day07.RankDeterminesClass | 2023/src/bin/day7/main.rs:158-168 | two hands with the same rank and cards are the same hand |
| Y2023Day07.CardsOf | 2023/src/bin/day7/main.rs:126-133 | the cards of a hand read its characters one by one |
| Y2023Day07.WildCardsOf | 2023/src/bin/day7/main.rs:85-92 | the wild cards of a hand read its characters one by one with J as the joker |
| Y2023Day07.SignatureTotal | 2023/src/bin/day7/main.rs:116-156 | five characters always give one of the seven signatures |
| Y2023Day07.WildCounts | 2023/src/bin/day7/main.rs:66-76 | the counts left after removing the jokers, plus the jokers, add up to the hand, and each is positive |
| Y2023Day07.RaiseLast | 2023/src/bin/day7/main.rs:84 | adding the jokers to the largest count keeps the counts sorted and adds them to the sum |
| Y2023Day07.WildSignatureTotal | 2023/src/bin/day7/main.rs:62-115 | with wild jokers five cards still give one of the seven signatures, so that panic is unreachable too |
| Y2023Day07.AddJokersShape | 2023/src/bin/day7/main.rs:77-84 | after the jokers join (on a pushed 0 when every card is a joker) the counts are sorted, positive and add up to five |
| Y2023Day07.HandOf | 2023/src/bin/day7/main.rs:116-156 | Hand::new on five card characters gives a hand holding those cards |
| Y2023Day07.WildHandOf | 2023/src/bin/day7/main.rs:62-115 | Hand::new_wild on five card characters gives a hand holding those wild cards |
| Y2023Day07.DistinctSnoc | 2023/src/bin/day7/main.rs:66-71 | a new card adds one key, a repeated card none |
| Y2023Day07.TalliesSnoc | 2023/src/bin/day7/main.rs:68-70 | and_modify or or_insert(1) keeps every key's count equal to its number of occurrences |
| Y2023Day07.CountStep | 2023/src/bin/day7/main.rs:66-71 | one iteration of the counting loop keeps the keys and counts right |
| Y2023Day07.CountMap | 2023/src/bin/day7/main.rs:120-123 | the counting loop maps each card present to its number of occurrences |
| Y2023Day07.NewHand | 2023/src/bin/day7/main.rs:116-156 | the imperative Hand::new returns the hand HandOf specifies |
| Y2023Day07.JoinJokers | 2023/src/bin/day7/main.rs:79-84 | pushes a 0 when no count is left, then adds the jokers to the last count |
| Y2023Day07.NewWildHand | 2023/src/bin/day7/main.rs:62-115 | the imperative Hand::new_wild returns the hand WildHandOf specifies |
| Y2023Day07.CompareCardsFlip | 2023/src/bin/day7/main.rs:192-209 | comparing cards the other way round flips the result, and they compare equal exactly when they are equal |
| Y2023Day07.CompareCardsTransitive | 2023/src/bin/day7/main.rs:192-209 | the card comparison is transitive |
| Y2023Day07.CompareAntisymmetric | 2023/src/bin/day7/main.rs:184-211 | cmp is antisymmetric and returns Equal exactly for equal hands |
| Y2023Day07.CompareTransitive | 2023/src/bin/day7/main.rs:184-211 | cmp is transitive, so sorting the hands is well defined |
| Y2023Day07.SingleKey | 2023/src/bin/day7/main.rs:66-71 | a key list with no repeats holding only one card is that card alone |
| Y2023Day07.NoDuplicatesApart | 2023/src/bin/day7/main.rs:66-71 | entries of a list with no repeats at different places differ |
| Y2023Day07.TwoKeys | 2023/src/bin/day7/main.rs:120-123 | two different characters give at least two keys |
| Y2023Day07.DistinctOfNoDuplicates | 2023/src/bin/day7/main.rs:120-123 | a hand with no repeated character has one key per character |
| Y2023Day07.FlushBeatsOthers | 2023/src/bin/day7/main.rs:184-191 | five equal characters beat any hand with two different characters |
| Y2023Day07.FlushBeatsPair | 2023/src/bin/day7/main.rs:311-315 | TTTTT beats 55678 |
| Y2023Day07.CompareCardsAt | 2023/src/bin/day7/main.rs:192-209 | the first differing card decides the comparison |
| Y2023Day07.HighCardDecides | 2023/src/bin/day7/main.rs:184-209 | two high-card hands are ordered by their first differing card |
| Y2023Day07.HighCardOrder | 2023/src/bin/day7/main.rs:317-321 | 23467 beats 23457 |
| Y2023Day07.HighHand | 2023/src/bin/day7/main.rs:152-154 | five different characters make a high-card hand |
| Y2023Day07.WildJokersJoin | 2023/src/bin/day7/main.rs:323-326 | JJAAA with wild jokers has rank 7 |
| Y2024Day05.IndexFromMeans | 2024/day-05/src/part2.rs:39-41 | the search from position i finds the first occurrence of the page at or after i, and none exactly when the page does not occur there |
| Y2024Day05.IndexOfMeans | 2024/day-05/src/part2.rs:39-41 | index_of gives the first position of the page, and None exactly when the page is absent |
| Y2024Day05.Applies | 2024/day-05/src/part2.rs:21-23 | a rule applies exactly when both its pages are in the update |
| Y2024Day05.RuleValidMeans | 2024/day-05/src/part2.rs:24-32 | a rule with a missing page holds; in an update without repeats it holds exactly when every occurrence of its first page comes before every occurrence of its second |
| Y2024Day05.ValidFromMeans | 2024/day-05/src/part2.rs:36-38 | checking the rules from k on means every rule from k on holds |
| Y2024Day05.OrderValidMeans | 2024/day-05/src/part2.rs:36-38 | an update is valid exactly when every rule holds for it |
| Y2024Day05.BrokenRule | 2024/day-05/src/part2.rs:36-38 | one broken rule makes the update invalid |
| Y2024Day05.Midpage | 2024/day-05/src/part2.rs:43-45 | the middle page is a page of the update at the centre position (the upper middle for an even length) |
| Y2024Day05.RelevantFromMeans | 2024/day-05/src/part2.rs:51-55 | the filter from k on keeps exactly the rules from k on that apply |
| Y2024Day05.RelevantMeans | 2024/day-05/src/part2.rs:51-55 | the relevant rules are exactly the rules that apply to the update |
| Y2024Day05.LastCandidate | 2024/day-05/src/part2.rs:56-60 | the page found is in the update and is no relevant rule's first page; nothing is found (the unwrap panics) exactly when every page is some rule's first page |
| Y2024Day05.Without | 2024/day-05/src/part2.rs:61-66 | the filter keeps every other page, drops every copy of the page, and keeps an update without repeats so |
| Y2024Day05.WithoutCount | 2024/day-05/src/part2.rs:61-66 | the filter keeps the number of copies of every other page |
| Y2024Day05.ReorderPages | 2024/day-05/src/part2.rs:47-70 | a reordered update holds the same pages with no repeats, and is a permutation of an update without repeats |
| Y2024Day05.SnocNoRepeats | 2024/day-05/src/part2.rs:68 | pushing a page not yet present keeps the update free of repeats |
| Y2024Day05.CountOnce | 2024/day-05/src/part2.rs:61-66 | a page of an update without repeats occurs once |
| Y2024Day05.IndexFromSnoc | 2024/day-05/src/part2.rs:68 | pushing a new page leaves the positions of the others and puts it last |
| Y2024Day05.IndexOfSnoc | 2024/day-05/src/part2.rs:68 | pushing a new page leaves index_of of the others and gives it the last position |
| Y2024Day05.ReorderValid | 2024/day-05/src/part2.rs:47-70 | when reorder returns, its result satisfies every rule |
| Y2024Day05.SamePagesEmpty | 2024/day-05/src/part2.rs:48-50 | two updates with the same pages are both empty or both not |
| Y2024Day05.DictatedLast | 2024/day-05/src/part2.rs:56-60 | when the rules order every pair of a valid arrangement, the page found last is that arrangement's last page |
| Y2024Day05.DictatedPrefix | 2024/day-05/src/part2.rs:61-67 | dropping that page leaves an update and relevant rules that dictate the rest of the arrangement |
| Y2024Day05.PrefixPages | 2024/day-05/src/part2.rs:61-67 | removing the last page of a valid arrangement from the update leaves exactly the pages of the rest of the arrangement |
| Y2024Day05.PrefixRules | 2024/day-05/src/part2.rs:61-67 | the rules among the update's pages still dictate the rest of the arrangement: it has no repeats, satisfies each of those rules, and each of its ordered pairs is one of them |
| Y2024Day05.ReorderDictated | 2024/day-05/src/part2.rs:47-70 | when the rules order every pair of a valid arrangement of the same pages, reorder returns exactly that arrangement |
| Y2024Day05.LastCandidateUnique | 2024/day-05/src/part2.rs:56-60 | when exactly one page is no rule's first page, that page is found |
| Y2024Day05.RepeatsDropped | 2024/day-05/src/part2.rs:61-66 | an update 1,1 with no rules reorders to 1 alone, since the filter drops every copy |
| Y2024Day05.RuleExamples | 2024/day-05/src/part1.rs:102-117 | `test_valid_order` and `test_invalid_order` (part 1's `Rule::is_valid` is part 2's): on 75,47,61,53,29 the rules 75 before 47 and 74 before 47 hold and 47 before 75 does not |
| Y2024Day05.SampleValidOrders | 2024/day-05/src/part1.rs:120-132 | `test_find_valid_orders`: of the six sample updates, exactly the first three are valid |
| Y2024Day05.SampleFirstValid | 2024/day-05/src/part2.rs:130-142 | the first sample update 75,47,61,53,29 is valid |
| Y2024Day05.SampleSecondValid | 2024/day-05/src/part2.rs:130-142 | the second sample update 97,61,53,29,13 is valid |
| Y2024Day05.SampleThirdValid | 2024/day-05/src/part2.rs:130-142 | the third sample update 75,29,13 is valid |
| Y2024Day05.SampleFourthInvalid | 2024/day-05/src/part2.rs:130-142 | the fourth sample update 75,97,47,61,53 is invalid |
| Y2024Day05.SampleFifthInvalid | 2024/day-05/src/part2.rs:130-142 | the fifth sample update 61,13,29 is invalid |
| Y2024Day05.SampleSixthInvalid | 2024/day-05/src/part2.rs:130-142 | the sixth sample update 97,13,75,29,47 is invalid, so three are invalid |
| Y2024Day05.SampleDictates | 2024/day-05/src/part2.rs:144-153 | the sample rules order every pair of 97,75,47,61,53 |
| Y2024Day05.SampleTargetValid | 2024/day-05/src/part2.rs:144-153 | 97,75,47,61,53 satisfies every sample rule |
| Y2024Day05.SampleSamePages | 2024/day-05/src/part2.rs:144-153 | 75,97,47,61,53 and 97,75,47,61,53 hold the same pages |
| Y2024Day05.SampleReorder | 2024/day-05/src/part2.rs:144-153 | reordering the fourth sample update gives 97,75,47,61,53 |
| Y2024Day02.BasicIsSafeIsGradual | 2024/day-02/src/part2.rs:42-54 | `basic_is_safe` holds exactly when the report has at least two levels and every step goes down by 1 to 3, or every step goes up by 1 to 3 |
| Y2024Day02.CopyWithout | 2024/day-02/src/part2.rs:22-28 | the report with the level at `index` left out (unchanged when the index is past the end) |
| Y2024Day02.IsSafe | 2024/day-02/src/part2.rs:30-41 | the early-return loop answers true exactly when the report is basic-safe or some single removal is |
| Y2024Day02.TooSteep | 2024/day-02/src/part2.rs:50-53 | a step of more than 3 anywhere makes a report unsafe |
| Y2024Day02.SampleSafeDecreasing | 2024/day-02/src/part2.rs:61 | the sample report 7 6 4 2 1 is safe |
| Y2024Day02.SampleSafeIncreasing | 2024/day-02/src/part2.rs:61 | the sample report 1 3 6 7 9 is safe |
| Y2024Day02.SampleDampenedIncreasing | 2024/day-02/src/part2.rs:62-63 | 1 3 2 4 5 is safe once one level is left out |
| Y2024Day02.SampleDampenedDecreasing | 2024/day-02/src/part2.rs:62-63 | 8 6 4 4 1 is safe once one level is left out |
| Y2024Day02.SampleUnsafeIncreasing | 2024/day-02/src/part2.rs:62-63 | 1 2 7 8 9 is unsafe even with one removal, so 4 of the 6 sample reports are safe |
| Y2024Day02.SampleUnsafeDecreasing | 2024/day-02/src/part2.rs:62-63 | 9 7 6 2 1 is unsafe even with one removal |
| Y2024Day07.CanMake | 2024/day-07/src/part1.rs:23-36 | false as soon as the running total exceeds the result; with no components left, true exactly when the total equals the result |
| Y2024Day07.EvaluateGrows | 2024/day-07/src/part1.rs:30-33 | with a non-negative start and positive components, every left-to-right assignment of + and * ends at or above the start (why the early cut-off is sound) |
| Y2024Day07.CanMakeComplete | 2024/day-07/src/part1.rs:23-36 | for non-negative totals and positive components, `can_make` (trying + and * first) holds exactly when some operator sequence evaluates left to right to the result |
| Y2024Day07.IsValidMeansReachable | 2024/day-07/src/part1.rs:18-21 | for a non-negative first component and positive components after it, `is_valid` holds exactly when some assignment of operators between the components reaches the result |
| Y2024Day07.ZeroComponentRejected | 2024/day-07/src/part1.rs:24-26 | with a zero component the cut-off rejects `0: 5 0`, although 5 * 0 reaches 0 |
| Y2024Day07.SampleEquations | 2024/day-07/src/part1.rs:106-111 | "190: 10 19" and "3267: 81 40 27" are valid; "83: 17 5" is not |
| Y2024Day11.Step | 2024/day-11/src/part1.rs:12-25 | a blink turns one stone into one or two stones |
| Y2024Day11.SplitHalves | 2024/day-11/src/part1.rs:16-23 | a stone with an even number h+h of digits splits into stone / 10^h and stone % 10^h, its two halves of digits |
| Y2024Day11.OddMultiplies | 2024/day-11/src/part1.rs:24 | a non-zero stone with an odd number of digits is multiplied by 2024 |
| Y2024Day11.StepExamples | 2024/day-11/src/part1.rs:54-57 | step(125) = [253000], step(17) = [1, 7] and step(0) = [1] |
| Y2024Day22.Prune | 2024/day-22/src/part1.rs:16-18 | pruning (`% 16777216`) leaves a value below 2^24 |
| Y2024Day22.NextSecret | 2024/day-22/src/part1.rs:14-20 | the next secret lies in [0, 16777216) |
| Y2024Day22.ShiftIsArithmetic | 2024/day-22/src/part1.rs:14-20 | below 2^57, `<< 6` is `* 64`, stays a non-negative `i64` and divides back, `>> 5` is `/ 32` and pruning is `% 16777216`; below 2^24 (a pruned value), `<< 11` is `* 2048` and divides back |
| Y2024Day22.FirstRound | 2024/day-22/src/part1.rs:16 | the first shift-and-prune round equals `((secret * 64) ^ secret) % 16777216` |
| Y2024Day22.SecondRound | 2024/day-22/src/part1.rs:17 | the second round equals `((secret / 32) ^ secret) % 16777216` |
| Y2024Day22.ThirdRound | 2024/day-22/src/part1.rs:18 | the third round, on a pruned value, equals `((secret * 2048) ^ secret) % 16777216` |
| Y2024Day22.NthSecret | 2024/day-22/src/part1.rs:22-28 | zero steps return the secret itself; one or more leave it below 16777216 |
| Y2024Day22.NthSecretAdditive | 2024/day-22/src/part1.rs:22-28 | m steps followed by n steps are m + n steps |
| Y2024Day22.Secrets123 | 2024/day-22/src/part1.rs:40-44 | 123 is followed by 15887950, then 16495136 |
| Y2024Day22.TenthSecret123 | 2024/day-22/src/part1.rs:46 | the tenth secret after 123 is 5908254 |
| Y2024Day25.MayFit | 2024/day-25/src/part1.rs:25-37 | true exactly when a lock is compared with a key and every column's pins sum to at most 5 |
| Y2024Day25.ColumnCount | 2024/day-25/src/part1.rs:84-89 | a column's count of '#' cells over the first rows never exceeds the number of rows |
| Y2024Day25.Body | 2024/day-25/src/part1.rs:81-92 | the nested loops fill each of the five pin heights with the number of '#' cells in that column, each in 0..5 |
| Y2024Day25.SampleLock | 2024/day-25/src/part1.rs:151 | the first sample lock reads [0,5,3,4,3] |
| Y2024Day25.SampleKey | 2024/day-25/src/part1.rs:152 | the first sample key reads [5,0,2,1,3] |
| Y2024Day25.SampleFits | 2024/day-25/src/part1.rs:153-155 | the first lock fits neither of the first two keys and does fit the third |
| Decimal.ToDecimal | 2024/day-11/src/part1.rs:16 | to_string gives a digit string, at least one digit long, with no leading zero, that parses back to the number |
| Decimal.Parse | 2024/day-11/src/part1.rs:20-21 | parsing k digits gives a number below 10^k |
| Decimal.DigitCount | 2024/day-11/src/part1.rs:16-17 | a positive number with k digits lies between 10^(k-1) and 10^k |
| Decimal.ParseConcat | 2024/day-11/src/part1.rs:18-22 | the digits a followed by b parse to a times 10 to the length of b, plus b |
| Y2024Day14.WrapAxis | 2024/day-14/src/common.rs:82-88 | one axis of `step_robot`: a position in [0, size) moved by a velocity of magnitude below size stays in [0, size) and equals (p + v) mod size |
| Y2024Day14.Moved | 2024/day-14/src/common.rs:80-96 | a moved robot keeps its velocity, and a robot inside the zone stays inside it |
| Y2024Day14.MovedAll | 2024/day-14/src/common.rs:75-77 | moving every robot keeps their number and keeps them all inside the zone |
| Y2024Day14.AfterMoved | 2024/day-14/src/common.rs:80-96 | one step and then n - 1 seconds is the closed form for n seconds |
| Y2024Day14.StepsClosedForm | 2024/day-14/src/common.rs:73-78 | after n steps every robot inside the zone stands at (p + n*v) mod the zone size, and no robot is lost |
| Y2024Day14.Half | 2024/day-14/src/common.rs:47-48 | `i32` halving truncates toward zero: n / 2 for n >= 0, remainder of n's sign and magnitude at most 1 |
| Y2024Day14.CountIn | 2024/day-14/src/common.rs:50-69 | a quadrant holds at most every robot |
| Y2024Day14.CountMiddle | 2024/day-14/src/common.rs:47-69 | the robots on the middle row or column are at most every robot |
| Y2024Day14.QuadrantsPartition | 2024/day-14/src/common.rs:46-71 | the four quadrant counts plus the robots on a middle line make up every robot |
| Y2024Day14.Safety | 2024/day-14/src/common.rs:43-45 | the safety factor is zero exactly when some quadrant is empty |
| Y2024Day14.ProductZero | 2024/day-14/src/common.rs:44 | a product of four counts is zero exactly when one of them is |
| Y2024Day14.Zone.constructor | 2024/day-14/src/common.rs:34-41 | `new` keeps the size and robots and starts the step count at 0 |
| Y2024Day14.Zone.StepRobot | 2024/day-14/src/common.rs:80-96 | only the robot at `index` changes, to its moved self; the count is unchanged |
| Y2024Day14.Zone.Step | 2024/day-14/src/common.rs:73-78 | the count goes up by one and every robot is moved once |
| Y2024Day14.SampleStepRobot | 2024/day-14/src/common.rs:165-173 | the sample robot 10 steps from (2,4) to (4,1), (6,5), (8,2) and (10,6) |
| Y2024Day14.SampleAfter100 | 2024/day-14/src/common.rs:177-183 | the positions of the twelve sample robots after 100 steps |
| Y2024Day14.SampleSafety | 2024/day-14/src/common.rs:184 | after 100 steps the quadrants hold 1, 3, 4 and 1 robots, for a safety factor of 12 |
| Y2023Day20.Targets | 2023/src/bin/day20/main.rs:144-152 | sinks and the button have no targets; every other component's targets are its connections |
| Y2023Day20.ProcessSendsToTargets | 2023/src/bin/day20/main.rs:154-214 | a component keeps its name and targets, and sends either nothing or one pulse per target, in target order, all from itself and all at one level |
| Y2023Day20.FlipFlopIgnoresHigh | 2023/src/bin/day20/main.rs:156-174 | a flip-flop receiving a high pulse keeps its state and sends nothing |
| Y2023Day20.FlipFlopToggles | 2023/src/bin/day20/main.rs:156-174 | on a low pulse a flip-flop changes state and sends every target high when now on, low when now off; a second low pulse restores its state |
| Y2023Day20.ConjunctionRemembers | 2023/src/bin/day20/main.rs:175-193 | a conjunction records the sender's level, then sends low to all targets exactly when every remembered input is high |
| Y2023Day20.ConjunctionInverts | 2023/src/bin/day20/main.rs:175-193 | a conjunction remembering a single input sends the inverse of that input's pulse |
| Y2023Day20.BroadcasterForwards | 2023/src/bin/day20/main.rs:194-203 | the broadcaster stays as it is and forwards the level it receives to every target in order |
| Y2023Day20.SinkCounts | 2023/src/bin/day20/main.rs:204-212 | a sink counts one more pulse of the level received and sends nothing; the button does nothing |
| Y2023Day20.SampleInputs | 2023/src/bin/day20/main.rs:34-73 | in the second example network only a sends to inv, and a and b send to con |
| Y2023Day20.SampleWiringInv | 2023/src/bin/day20/main.rs:49-54 | wiring the parsed second example gives inv the memory a off, as the hand-built network has it |
| Y2023Day20.SampleWiringCon | 2023/src/bin/day20/main.rs:59-65 | wiring the parsed second example gives con the memory a off and b off, as the hand-built network has it |
| Y2023Day20.SampleFirstNetwork | 2023/src/bin/day20/main.rs:75-105 | in the first example network the broadcaster sends low to a, b and c, a turns on and sends high to b, b ignores it, and inv turns a high from c into a low to a |
| Y2023Day20.WiredMemory | 2023/src/bin/day20/main.rs:312-338 | after wiring, a parsed conjunction remembers exactly the components that send to it, each as off, and every other component is as parsed |
| Y2023Day20.RegistryLast | 2023/src/bin/day20/main.rs:314-317 | a component no later item renames is the one registered under its name |
| Y2023Day20.RegistryKeys | 2023/src/bin/day20/main.rs:314-317 | the registry's keys are exactly the components' names, each mapping to a component of that name |
| Y2023Day20.RegistryFrom | 2023/src/bin/day20/main.rs:314-317 | every registered component is one of the parsed items |
| Y2023Day20.AddInput | 2023/src/bin/day20/main.rs:321-324 | appending a sender to a target's input list adds exactly that name to that target's inputs |
| Y2023Day20.InputsBeforeNext | 2023/src/bin/day20/main.rs:319-326 | one more item adds its name to the inputs of each of its targets and nothing else |
| Y2023Day20.SeedNothing | 2023/src/bin/day20/main.rs:328-334 | seeding a component with no inputs leaves it as it is |
| Y2023Day20.Network.constructor | 2023/src/bin/day20/main.rs:312-338 | the network holds the registered components with every conjunction's inputs seeded off |
| Y2023Day20.Network.Deliver | 2023/src/bin/day20/main.rs:121-125 | a pulse to a known component replaces it by its next state and returns its pulses; a pulse to an unknown name changes nothing and sends nothing |
| Y2023Day20.SeedAll | 2023/src/bin/day20/main.rs:328-334 | every component with inputs is seeded with their names, every other one kept, and no name added or lost |
| Y2023Day20.SeedOne | 2023/src/bin/day20/main.rs:329-333 | a conjunction remembers each listed input as off; any other component is kept |
| Y2023Day20.Register | 2023/src/bin/day20/main.rs:314-317 | the insert loop builds the registry of the items |
| Y2023Day20.Remember | 2023/src/bin/day20/main.rs:330-332 | inserting each input as off adds exactly those names, all off, to the memory |
| Y2023Day20.CollectInputs | 2023/src/bin/day20/main.rs:318-326 | the input lists name, for each component, exactly the components that send to it |
| Y2023Day09.Intervals | 2023/src/bin/day9/main.rs:18-23 | one value fewer than the input (none for an empty input), element i being `s[i+1] - s[i]` |
| Y2023Day09.ConstantExtends | 2023/src/bin/day9/main.rs:25-43 | a constant sequence is extended, forwards and backwards, by its own value |
| Y2023Day09.IntervalsAppend | 2023/src/bin/day9/main.rs:18-23 | appending a value appends, to the differences, its difference from the last value |
| Y2023Day09.AllZeroFlip | 2023/src/bin/day9/main.rs:28 | the reversed, negated differences are all zero exactly when the differences are |
| Y2023Day09.ExtendForward | 2023/src/bin/day9/main.rs:25-33 | with differences that are not all zero, `process` adds their prediction to the last value |
| Y2023Day09.ExtendBy | 2023/src/bin/day9/main.rs:25-43 | with differences that are not all zero, `process` and `preprocess` extend by the differences' own predictions |
| Y2023Day09.SampleLine1Middle | 2023/src/bin/day9/main.rs:78 | the differences 2 3 4 5 6 of the second sample line extrapolate to 7 |
| Y2023Day09.SampleLine2Deep | 2023/src/bin/day9/main.rs:78-85 | the second differences 0 2 4 6 of the third sample line extrapolate to 8 and -2 |
| Y2023Day09.SampleLine2Middle | 2023/src/bin/day9/main.rs:78-85 | the differences 3 3 5 9 15 of the third sample line extrapolate to 23 and 5 |
| Y2023Day09.ExtendedDifferences | 2023/src/bin/day9/main.rs:25-33 | appending `process`'s prediction to a sequence appends, to its differences, the difference they predict themselves (0 once they are all zero) |
| Y2023Day09.ProcessNegate | 2023/src/bin/day9/main.rs:25-33 | extrapolating the negated sequence gives the negated prediction |
| Y2023Day09.IntervalsReverse | 2023/src/bin/day9/main.rs:18-23 | the differences of the reversed sequence are the negated reversed differences |
| Y2023Day09.PreprocessIsReversedProcess | 2023/src/bin/day9/main.rs:34-43 | `preprocess` of a sequence equals `process` of the reversed sequence |
| Y2023Day09.SampleLine0 | 2023/src/bin/day9/main.rs:77 | the first sample line 0 3 6 9 12 15 extrapolates to 18 |
| Y2023Day09.SampleLine1 | 2023/src/bin/day9/main.rs:78 | the second sample line extrapolates to 28 (18 + 28 + 68 = 114) |
| Y2023Day09.SampleLine2 | 2023/src/bin/day9/main.rs:78-85 | the third sample line extrapolates to 68 forwards and to 5 backwards |
| Y2023Day12.Unfold | 2023/src/bin/day12/main.rs:12-18 | count copies of the springs joined by a question mark each: empty for no copy, otherwise count copies plus count - 1 separators long |
| Y2023Day12.Repeat | 2023/src/bin/day12/main.rs:20 | the spec repeated count times has count times its length |
| Y2023Day12.Duplicate | 2023/src/bin/day12/main.rs:6-23 | duplicate passes the expected result through unchanged |
| Y2023Day12.UnfoldSplit | 2023/src/bin/day12/main.rs:12-18 | a + b copies are a copies, a question mark, then b copies |
| Y2023Day12.UnfoldEnds | 2023/src/bin/day12/main.rs:12-18 | with two or more copies the string ends with the springs preceded by a question mark |
| Y2023Day12.RepeatEntry | 2023/src/bin/day12/main.rs:20 | entry i of the repeated spec is entry i modulo the spec's length |
| Y2023Day12.EmptyRow | 2023/src/bin/day12/main.rs:79-90 | an empty row fits exactly when the spec is empty or a single 0 |
| Y2023Day12.DamagedTooMany | 2023/src/bin/day12/main.rs:96-97 | a damaged spring with no run left to extend allows no arrangement |
| Y2023Day12.FirstInFront | 2023/src/bin/day12/main.rs:91-94 | a pending first spring counts as if it were at the front of the input |
| Y2023Day12.QuestionSplits | 2023/src/bin/day12/main.rs:107-110 | an unknown spring counts the ways with a damaged spring there plus the ways with a working one |
| Y2023Day12.KnownStep | 2023/src/bin/day12/main.rs:95-106 | a known first spring either rules every arrangement out or continues with the spec and run flag its arm gives |
| Y2023Day12.Prefix | 2023/src/bin/day12/main.rs:107-110 | prefixing puts the spring in front of every row |
| Y2023Day12.CompletionsSound | 2023/src/bin/day12/main.rs:107-110 | every completion replaces each unknown spring by a known one and keeps the others |
| Y2023Day12.CompletionsComplete | 2023/src/bin/day12/main.rs:107-110 | every such replacement is among the completions |
| Y2023Day12.CompletionsDistinct | 2023/src/bin/day12/main.rs:107-110 | no completion is listed twice |
| Y2023Day12.RunsFromStarted | 2023/src/bin/day12/main.rs:77-113 | a run already started shows up as a first run at least as long |
| Y2023Day12.RunsPositive | 2023/src/bin/day12/main.rs:77-113 | the runs of damaged springs of a row are all positive |
| Y2023Day12.KnownRow | 2023/src/bin/day12/main.rs:77-113 | on a row with no unknown spring the count is 1 exactly when its damaged runs are the spec (also in the middle of a run), else 0 |
| Y2023Day12.KnownRowDamaged | 2023/src/bin/day12/main.rs:96-101 | the same for a known row starting with a damaged spring outside a run |
| Y2023Day12.KnownRowDamagedInRun | 2023/src/bin/day12/main.rs:96-101 | the same for a known row starting with a damaged spring inside a run |
| Y2023Day12.KnownRowWorking | 2023/src/bin/day12/main.rs:103-106 | the same for a known row starting with a working spring |
| Y2023Day12.SumAppend | 2023/src/bin/day12/main.rs:107-110 | the counts over two lists of rows add up |
| Y2023Day12.SumPrefix | 2023/src/bin/day12/main.rs:95-106 | the counts over rows prefixed by one known spring follow that spring's arm |
| Y2023Day12.CompletionsSprings | 2023/src/bin/day12/main.rs:107-110 | every completion is a row of springs |
| Y2023Day12.CountIsSum | 2023/src/bin/day12/main.rs:77-113 | the count of a row is the sum of the counts of its completions |
| Y2023Day12.SumUnfold | 2023/src/bin/day12/main.rs:95-106 | after a known first spring the count is the sum over the completions of the rest under that spring's arm |
| Y2023Day12.CountWaysMeans | 2023/src/bin/day12/main.rs:48-75 | for a spec of positive runs, count_ways is the number of ways to fill the unknown springs so that the damaged runs are exactly the spec |
| Y2023Day12.SumIsCount | 2023/src/bin/day12/main.rs:77-113 | over known rows, the summed counts are the number of rows whose damaged runs are the spec |
| Y2023Day12.SampleBrokenEnd | 2023/src/bin/day12/main.rs:427-430 | the last springs #.# of the test row fit runs 1,1 one way and no other spec reached |
| Y2023Day12.SampleBrokenQuestion | 2023/src/bin/day12/main.rs:427-430 | an unknown and an operational spring in front keep one arrangement for runs 1,1 and none for the other specs reached |
| Y2023Day12.SampleBrokenTail | 2023/src/bin/day12/main.rs:427-430 | the tail ?.#.# of the test row fits runs 1,1 one way |
| Y2023Day12.SampleBrokenMiddle | 2023/src/bin/day12/main.rs:427-430 | one more unknown spring in front keeps one way for runs 1,1 and none for 1 |
| Y2023Day12.SampleBrokenHead | 2023/src/bin/day12/main.rs:427-430 | the head ?.#. in front of such a tail gives exactly one way for runs 1,1,1 |
| Y2023Day12.SampleBroken | 2023/src/bin/day12/main.rs:427-430 | ?.#.??.#.# with runs 1,1,1 has exactly one arrangement |
| Y2023Day02.Combine | 2023/src/bin/day2/main.rs:27-33 | the componentwise maximum contains both sets and is contained in every set that contains both (least upper bound) |
| Y2023Day02.Power | 2023/src/bin/day2/main.rs:23-25 | the product of the three counts is zero exactly when one of the colours is absent |
| Y2023Day02.AddLaws | 2023/src/bin/day2/main.rs:11-21 | componentwise `+` is commutative and associative, has the default set as unit, and contains both operands |
| Y2023Day02.CombineCommutativeIdempotent | 2023/src/bin/day2/main.rs:27-33 | `combine` is commutative and idempotent, with the default set as unit |
| Y2023Day02.ContainsPartialOrder | 2023/src/bin/day2/main.rs:60-62 | `contains` (componentwise >=) is reflexive, antisymmetric and transitive |
| Y2023Day02.PowerMonotone | 2023/src/bin/day2/main.rs:23-25 | a set that contains another has at least its power |
| Y2023Day02.MinimumIsLeast | 2023/src/bin/day2/main.rs:88 | the fold of `combine` over a game is contained in a bag exactly when every set of the game is |
| Y2023Day02.ContainsExamples | 2023/src/bin/day2/main.rs:192-195 | green(3) contains the default set; the default set does not contain blue(1) |
| Y2024Day13.TDivExact | 2024/day-13/src/part2.rs:25-29 | Rust's truncating `%` is zero exactly when the magnitudes divide, and then the truncating `/` is the exact quotient |
| Y2024Day13.TDivOfMultiple | 2024/day-13/src/part2.rs:25-29 | a multiple of the divisor leaves remainder 0 and divides back to its factor |
| Y2024Day13.SolveAsWritten | 2024/day-13/src/part2.rs:21-33 | `solve` as written: None exactly when the Cramer numerator is not a multiple of the denominator |
| Y2024Day13.Solve | 2024/day-13/src/part2.rs:21-33 | corrected `solve`: a result only when the Cramer numerator is a multiple of the denominator |
| Y2024Day13.CramerJ | 2024/day-13/src/part2.rs:23-29 | presses i, j that land on the prize satisfy j * den == num |
| Y2024Day13.SolveComplete | 2024/day-13/src/part2.rs:21-33 | when i presses of A and j of B land on the prize, `solve` returns cost_a * i + cost_b * j |
| Y2024Day13.SolveSound | 2024/day-13/src/part2.rs:21-33 | every cost `solve` returns is the cost of whole presses that land on the prize |
| Y2024Day13.HitFound | 2024/day-13/src/part2.rs:29-30 | the j from Cramer's rule and an i solving the x equation land on the prize |
| Y2024Day13.AgreeWhenReachable | 2024/day-13/src/part2.rs:21-33 | on every machine whole presses can win, the as-written and the corrected `solve` agree |
| Y2024Day13.InexactPressesAccepted | 2024/day-13/src/part2.rs:30 | as written, A = (2,0), B = (1,1), prize (4,1) returns cost 4 through a truncated i = 3/2 |
| Y2024Day13.InexactPressesRejected | 2024/day-13/src/part2.rs:30 | the corrected `solve` returns None for that machine |
| Y2024Day13.InexactMachineUnwinnable | 2024/day-13/src/part2.rs:21-33 | no whole numbers of presses win that machine |
| Y2024Day13.SampleMachine0 | 2024/day-13/src/part2.rs:140 | the first sample machine costs 280 |
| Y2024Day13.SampleMachine1 | 2024/day-13/src/part2.rs:141-144 | the second sample machine has no solution, and costs 459236326669 with the offset 10000000000000 |
| Y2024Day13.SampleMachine2 | 2024/day-13/src/part2.rs:142 | the third sample machine costs 200 |
| Y2024Day13.SampleMachine3 | 2024/day-13/src/part2.rs:143 | the fourth sample machine has no solution |
| Y2024Day15.Get | 2024/utils/src/grid.rs:464-473 | get answers only inside the bounds |
| Y2024Day15.Insert | 2024/utils/src/grid.rs:440-451 | insert sets exactly the one cell, keeps every cell inside the bounds, and grows the bounds only for a cell outside them |
| Y2024Day15.InsertInPlace | 2024/utils/src/grid.rs:440-451 | the grid's `insert`, done in place on a grid that holds a floor, leaves the grid holding the `Insert` of that floor (same bounds, same value at every coordinate) |
| Y2024Day15.Slide | 2024/day-15/src/common.rs:115-119 | moving an item into the cell the push freed succeeds exactly when the push did, keeps the bounds when both cells are inside, and keeps every cell in bounds |
| Y2024Day15.Lift | 2024/day-15/src/common.rs:93-101 | the four inserts that lift a wide box keep the start and the bottom row of the bounds and keep every cell in bounds |
| Y2024Day15.Pushed | 2024/day-15/src/common.rs:86-121 | a push only succeeds from a cell inside the grid that is not the robot (the two panics), and keeps the start and the bottom row of the bounds |
| Y2024Day15.StepsAlong | 2024/day-15/src/common.rs:72 | k steps in one direction advance k along it and keep the other coordinate |
| Y2024Day15.ChainTail | 2024/day-15/src/common.rs:72 | a chain of k boxes is a box followed by a chain of k - 1 |
| Y2024Day15.MovableChain | 2024/day-15/src/common.rs:65-84 | behind a chain of standard boxes, an empty cell lets them move, a wall stops them, and leaving the grid panics |
| Y2024Day15.InsertOver | 2024/utils/src/grid.rs:440-451 | a second insert at the same cell overrides the first |
| Y2024Day15.InsertSame | 2024/utils/src/grid.rs:440-451 | inserting the item a cell already holds changes nothing |
| Y2024Day15.PushChain | 2024/day-15/src/common.rs:115-119 | pushing a chain of k standard boxes into an empty cell amounts to a box in that cell and the first cell emptied |
| Y2024Day15.PushChainCells | 2024/day-15/src/common.rs:115-119 | after that push every cell of the chain but the first holds a box, and every cell outside the chain's line segment is unchanged |
| Y2024Day15.WideLift | 2024/day-15/src/common.rs:73-109 | a wide box with empty cells above or below both halves can move, pushing its right half pushes from its left half, and only its four cells change |
| Y2024Day15.RowScoreChange | 2024/day-15/src/common.rs:49-55 | changing one cell changes a row's score by that cell's change when the cell lies in the rest of the row |
| Y2024Day15.RowsScoreChange | 2024/day-15/src/common.rs:49-55 | changing one cell changes the remaining rows' score by that cell's change when it lies in them |
| Y2024Day15.ScoreInsert | 2024/day-15/src/common.rs:49-55 | an insert inside the bounds takes out the cell's old GPS value and adds the new one when it is a box or a box's left half |
| Y2024Day15.RowScoreNone | 2024/day-15/src/common.rs:49-55 | a row with no box scores zero |
| Y2024Day15.RowsScoreNone | 2024/day-15/src/common.rs:49-55 | rows with no box score zero |
| Y2024Day15.ScoreNone | 2024/day-15/src/common.rs:49-55 | a grid with no box scores zero |
| Y2024Day15.PushChainScore | 2024/day-15/src/common.rs:49-55 | pushing a chain of boxes moves the score from the first cell's GPS value to the freed cell's |
| Y2024Day15.WalkMoves | 2024/day-15/src/common.rs:122-137 | the robot moves one cell exactly when can_move allows it and stays exactly when not, and a refused move changes nothing |
| Y2024Day15.WalkPushes | 2024/day-15/src/common.rs:122-137 | a robot behind a chain of boxes with an empty cell beyond moves one cell and the chain shifts by one |
| Y2024Day15.BehindChain | 2024/day-15/src/common.rs:135 | shifting the chain in front of the robot leaves the robot's own cell empty |
| Y2024Day15.WalkBlocked | 2024/day-15/src/common.rs:122-126 | a robot behind a chain of boxes ending at a wall stays and nothing changes |
| Y2024Day15.EastPair | 2024/day-15/src/common.rs:72 | two boxes side by side form a chain of two eastward |
| Y2024Day15.SampleRowLayout | 2024/day-15/src/part1.rs:42-51 | the sample's second row holds a wall, two empty cells, a box, an empty cell, a box, an empty cell and a wall, and scores 208 |
| Y2024Day15.EastPushOne | 2024/day-15/src/common.rs:122-137 | pushing one box east moves the robot and raises the score by one |
| Y2024Day15.EastPushTwo | 2024/day-15/src/common.rs:122-137 | pushing two boxes east moves the robot and raises the score by two |
| Y2024Day15.EastBlockedTwo | 2024/day-15/src/common.rs:122-126 | two boxes east against a wall stop the robot |
| Y2024Day15.SampleRowWalk | 2024/day-15/src/part1.rs:113-119 | three moves east from (2, 1) along that row end with the robot at (4, 1) and the score 3 higher |
| Y2024Day15.Warehouse.constructor | 2024/day-15/src/common.rs:34-43 | a warehouse starts with the given grid, robot and instructions, at the first instruction |
| Y2024Day15.Warehouse.Step | 2024/day-15/src/common.rs:59-63 | step consumes one instruction and leaves the grid and robot the walk for it gives |
| Y2024Day15.Warehouse.StepUpDown | 2024/day-15/src/common.rs:122-137 | the grid and robot become what the walk gives; the instructions are untouched |
| Y2024Day15.Warehouse.DoMove | 2024/day-15/src/common.rs:86-121 | the grid becomes the pushed grid and nothing else changes |
| Y2024Day15.Warehouse.Run | 2024/day-15/src/part1.rs:10-12 | stepping until done uses every instruction and leaves the grid and robot the replay of the remaining instructions gives |
| Y2024Day19.Prepend | 2024/day-19/src/part2.rs:33-37 | each listed layout gets the towel index in front |
| Y2024Day19.LayoutsCount | 2024/day-19/src/part2.rs:25-40 | the number of arrangements is the number of listed layouts |
| Y2024Day19.LayoutsFromCount | 2024/day-19/src/part2.rs:33-37 | the towel loop from towel i on counts the layouts starting with a towel from i on |
| Y2024Day19.SpellCons | 2024/day-19/src/part2.rs:34-35 | a layout with one more towel in front spells that towel followed by the rest |
| Y2024Day19.LayoutsSound | 2024/day-19/src/part2.rs:25-40 | every listed layout spells the pattern |
| Y2024Day19.LayoutsFromSound | 2024/day-19/src/part2.rs:33-37 | every layout the towel loop lists from towel i on spells the pattern and starts with a towel from i on |
| Y2024Day19.SpellNonEmpty | 2024/day-19/src/part2.rs:34-35 | with no empty towel, a layout of one towel or more spells at least its first towel |
| Y2024Day19.LayoutsComplete | 2024/day-19/src/part2.rs:25-40 | every sequence of towels that spells the pattern is listed |
| Y2024Day19.FromContains | 2024/day-19/src/part2.rs:33-37 | a layout starting with towel i is listed by the loop from any earlier towel |
| Y2024Day19.PrependDistinct | 2024/day-19/src/part2.rs:33-37 | one towel in front keeps distinct layouts distinct |
| Y2024Day19.LayoutsDistinct | 2024/day-19/src/part2.rs:25-40 | no layout is listed twice, so the count counts each arrangement once |
| Y2024Day19.LayoutsFromDistinct | 2024/day-19/src/part2.rs:33-37 | the towel loop lists no layout twice |
| Y2024Day19.SumCounts | 2024/day-19/src/part2.rs:8 | summing the per-pattern counts gives the total of arrangements |
| Y2024Day19.TotalFrom | 2024/day-19/src/part2.rs:8 | the total over patterns k on is the count of pattern k plus the total after it |
| Y2024Day19.Puzzle.constructor | 2024/day-19/src/part2.rs:56-61 | a puzzle starts with its towels and patterns and an empty cache |
| Y2024Day19.Puzzle.Arrangements | 2024/day-19/src/part2.rs:25-40 | the count is the number of arrangements of the pattern; a cached pattern answers from the cache and changes nothing; otherwise the pattern is cached with its count, and no entry is lost |
| Y2024Day19.Puzzle.Process | 2024/day-19/src/part2.rs:18-24 | one count per pattern, each the number of its arrangements, with the cache still agreeing |
| Y2024Day19.Solve | 2024/day-19/src/part2.rs:4-9 | process answers the sum of the arrangements over every pattern |
| Y2024Day19.Starts | 2024/day-19/src/part2.rs:34 | starts_with holds exactly when the towel is no longer than the pattern and agrees with it character by character |
| Y2024Day19.SampleStep | 2024/day-19/src/part2.rs:68 | with the sample towels, a pattern's count is the sum over the towels it starts with of the counts of what follows |
| Y2024Day19.SampleAt | 2024/day-19/src/part2.rs:68 | the same from position k of a pattern |
| Y2024Day19.SampleBrwrr | 2024/day-19/src/part2.rs:70 | brwrr has 2 arrangements |
| Y2024Day19.SampleBggr | 2024/day-19/src/part2.rs:71 | bggr has 1 arrangement |
| Y2024Day19.SampleGbbr | 2024/day-19/src/part2.rs:72 | gbbr has 4 arrangements |
| Y2024Day19.SampleRrbgbr | 2024/day-19/src/part2.rs:73 | rrbgbr has 6 arrangements |
| Y2024Day19.SampleUbwu | 2024/day-19/src/part2.rs:74 | ubwu has none |
| Y2024Day19.SampleBwurrg | 2024/day-19/src/part2.rs:75 | bwurrg has 1 arrangement |
| Y2024Day19.SampleBrgr | 2024/day-19/src/part2.rs:76 | brgr has 2 arrangements |
| Y2024Day19.SampleBbrgwb | 2024/day-19/src/part2.rs:77 | bbrgwb has none |
| Y2024Day19.SampleTotal | 2024/day-19/src/part2.rs:79-83 | the sample patterns have 16 arrangements in all |

## Left out

- Input parsing: each day's text parser (its `nom` parsers, `FromStr` implementations and line splitting) is not modelled; each model starts from the parsed values. The shared number parsers of the 2023 library are modelled.
- Integer widths: `u8`, `i32`, `u32`, `u64`, `i64`, `u128` and `i128` are modelled as unbounded integers, so overflow, wrap-around and narrowing casts are not captured.
- Output: `println!`, `Display` and `Debug` implementations, the `main` runners, the GUI and the async executors are I/O and are not modelled.
- Sample files: tests that read `sample.txt` or `input.txt` cannot be restated, because those files are not part of this model; only inline samples are proved.
- Other files: the tests of files outside this model (2024 day 11 part 2, day 13 part 1, day 14 part 2, day 19 part 1) are not restated. The tests of 2024 day 5 part 1 are restated against part 2's model, whose rules and validity checks are the same code.
- Parser tests: the tests that check a day's text parser (`test_parse`, `test_parse_sample`, `test_parsegame`, `test_set`, `test_group`, `test_seeds`, `test_almanack`, `test_parse_operations`, `test_parse_partial`), and those that run a whole sample through it to a total (`test_process`, `test_sample`, `test_sample_2`, `test_sample_part_1`, `test_sample_part_2`, `test_part1`, `test_part_1`, `test_part_2`, `test_simple_input`), are not restated unless a row of "## Model" names them. The text parser is not modelled.
- 2024 day 9 part 2: `test_parse` and `test_checksum` repeat part 1's tests word for word. Part 2's `Parse` and `Process` are proved to use part 1's `Layout` and `Checksum`, and `SampleLayout` and `ChecksumExample` restate those tests there.
- 2024 day 17 part 2: the single-instruction tests `test_adv` to `test_two` repeat part 1's, with saved registers added. Part 2's `Device.Step` is proved to take part 1's `StepEffect`, and part 1's tests are restated there (`AdvTest` to `TwoTest`).
- 2023 day 5: `follow`, `follow_ranges`, `part1`, `part2` and the almanac parser are not modelled; they only chain the modelled table lookups.
- Y2023Day5.Table.Add: requires a positive length, because rangemap's `insert` panics on an empty range; it places the range without rangemap's coalescing of equal-valued neighbours, which is modelled separately as `Y2023Day5.InsertAsWritten` (see Findings).
- 2023 day 9: the sample total 114 is shown line by line, because `sample.txt` is not part of this model.
- 2023 day 12: `count_ways_impl2`, `longest_run`, the async `part1`/`part2` and the text parser are not modelled; the samples 21 and 525152 need `sample.txt`.
- 2023 day 14: the `i32` load arithmetic, `Display` and the text parser are not modelled.
- 2023 day 15: `part1` (the sum of hashes) and the text parser are not modelled; focal lengths are naturals rather than `u8`.
- 2023 day 20: the `part1`/`part2` queue drivers, `is_high` and the text parser are not modelled; the sink counters are naturals rather than `u32`.
- 2024 day 2: the count of safe reports in `process` is not modelled; only the per-report rules are.
- 2024 day 5: `process` (the sum of middle pages) and `part1` are not modelled; `reorder` is proved a permutation only for updates without repeated pages (see `Y2024Day05.RepeatsDropped`).
- 2024 day 7: `calibration` (the sum of an equation's components) and the sum of the valid equations' results in `process` are not modelled.
- 2024 day 9: the sample checksums 1928 and 2858 and the `trim()` of the input are not modelled.
- 2024 day 11: the 55312 sample needs 25 blinks over a large stone count and is not restated.
- 2024 day 13: `test_process` and the second sample are not restated.
- 2024 day 15: `Display`, the text parser and `add_item` are not modelled. The tests need a sample warehouse read by that parser, so they are not restated: the robot positions (2,2), (2,2), (2,1), (2,1), (3,1), (4,1), (4,1), (4,2) and finally (4,4) in part 1's `test_step`, (8,3) in part 2's; the totals 10092, 2028 and 1949.
- Y2024Day15.Pushed: that a push allowed by `can_move` never panics is proved only for chains of standard boxes and for one wide box with free cells beyond it, not for every arrangement of wide boxes.
- 2024 day 17 part 1: `process`, `Display` and the text parser are not modelled.
- Y2024Day17Part1.Device: the registers are naturals while the source's are `i32`; negative register values, the truncation toward zero of `adv`, `bdv` and `cdv` on them, the `as u32` cast of a negative combo operand and the overflow of `2_i32.pow` for combo operands of 31 or more are not modelled.
- Y2024Day17Part2.Device: the registers are naturals while the source's are `i64`; negative register values, their truncating division and the overflow of `2_i64.pow` for combo operands of 63 or more are not modelled.
- 2024 day 17 part 2: `find`, `find_any`, `process`, `process_limit` and the search over 117000..118000 are not modelled; they are searches over the modelled `is_quine`.
- 2024 day 19: `part1` and the text parser are not modelled.
- Y2024Day19.Puzzle.Arrangements: requires that no towel is empty, because an empty towel makes the source recurse without end.
- 2024 day 22: the sample sum 37327623 needs 2000 rounds per buyer and is not restated.
- 2024 day 25: the count in `process` and the text parser are not modelled.

## Findings

| source | as written | input that shows it | evidently intended | confidence | as-written member | corrected member |
|---|---|---|---|---|---|---|
| 2024/day-17/src/part1.rs:80 | the halt test is `pointer > len`, so a pointer equal to the length reaches the fetch | any program, with the pointer equal to its length | halt when `pointer >= len` | not executed | Y2024Day17Part1.StepAsWrittenPanicsAtEnd | Y2024Day17Part1.StepEffect |
| 2023/src/bin/day5/main.rs:86-89 | the piece that closes a range runs for `end - range.start` instead of up to the range's stop | 0..5 mapped to 100 followed by a gap 5..10 gives 100..110, which holds 107 | the piece ends where the mapped range ends | not executed | Y2023Day5.PiecesOvershoot | Y2023Day5.PiecesImage |
| 2023/src/bin/day5/main.rs:127 | merging sets `last.end = current.end` without taking the maximum | 1..10 then 2..3 reduces to 1..3 | keep the larger end | not executed | Y2023Day5.ReduceShrinks | Y2023Day5.ReduceCovers |
| 2023/src/bin/day5/main.rs:109 | adjacent entries with the same target are coalesced, shifting the second | add(0,5,100) then add(5,5,100) translates 7 to 107 instead of 102 | coalesce only when the targets are contiguous | not executed | Y2023Day5.CoalescingShifts | Y2023Day5.PlacedTranslate |
| 2023/src/bin/day14/main.rs:10-19 | a cycle tilts and transposes four times, so it tilts north, west, north, west | the column `.O` | tilt north, west, south, east | not executed | Y2023Day14.CycleNeverSouth | Y2023Day14.SpinEndsEast |
| 2024/day-09/src/part1.rs:76-79 | the scan for the last file block decrements `first_none` instead of `last_some` | the disk map 12 | move `last_some` back past free blocks | not executed | Y2024Day09Part1.TrailingFreeExample | Y2024Day09Part1.LastUsed |
| 2024/day-13/src/part2.rs:30 | the presses of button A are not checked to divide exactly | A=(2,0), B=(1,1), prize (4,1) gives cost 4 | reject a machine whose A count is not whole | not executed | Y2024Day13.InexactPressesAccepted | Y2024Day13.InexactPressesRejected |
| 2023/src/lib.rs:310 | the last check of `test_grid` expects 'A' at (-14, -9), the cell just written with 'B' | the default grid with 'A' written at (4, 3) and then 'B' at (-14, -9) | the cell written last reads 'B', and 'A' stays at (4, 3) | not executed | Y2023Lib.GridExample | Y2023Lib.Grid.Set |
