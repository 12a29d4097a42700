/**
 * 2023 day 12: counting spring arrangements.  A row of springs is a string
 * over '#' (damaged), '.' (working) and '?' (unknown); the spec lists the
 * lengths of the runs of damaged springs.  `count_ways_impl` counts the
 * ways to replace every '?' so that the runs match the spec.
 */
module Y2023Day12 {
  import Arith
  import opened Wrappers

  predicate IsSpring(c: char)
  {
    c == '#' || c == '.' || c == '?'
  }

  /** A row as the parser accepts it: only '#', '.' and '?'. */
  predicate Springs(s: string)
  {
    forall i | 0 <= i < |s| :: IsSpring(s[i])
  }

  /** A row with no unknown spring left. */
  predicate Known(s: string)
  {
    forall i | 0 <= i < |s| :: s[i] == '#' || s[i] == '.'
  }

  /** A spec as read from the input: every run has at least one spring. */
  predicate Positive(spec: seq<nat>)
  {
    forall i | 0 <= i < |spec| :: spec[i] > 0
  }

  // -------------------------------------------------------------- duplicate

  /** `count` copies of `springs`, joined by '?'. */
  function Unfold(springs: string, count: nat): (r: string)
    ensures count == 0 ==> r == []
    ensures count > 0 ==> |r| == count * |springs| + count - 1
    decreases count
  {
    if count == 0 then []
    else if count == 1 then springs
    else Unfold(springs, count - 1) + "?" + springs
  }

  /** `count` copies of the spec, one after another. */
  function Repeat(spec: seq<nat>, count: nat): (r: seq<nat>)
    ensures |r| == count * |spec|
    decreases count
  {
    if count == 0 then [] else Repeat(spec, count - 1) + spec
  }

  /** A parsed line: the springs, the spec and an optional expected answer. */
  datatype Line = Line(springs: string, spec: seq<nat>, result: Option<nat>)

  /** `duplicate`: the unfolded row and spec for part 2; the expected answer passes through. */
  function Duplicate(line: Line, count: nat): (r: Line)
    ensures r.result == line.result
  {
    Line(Unfold(line.springs, count), Repeat(line.spec, count), line.result)
  }

  /** Unfolding `a + b` copies is unfolding `a` copies, a '?', and unfolding `b` copies. */
  lemma {:induction false} UnfoldSplit(springs: string, a: nat, b: nat)
    requires a > 0 && b > 0
    ensures Unfold(springs, a + b) == Unfold(springs, a) + "?" + Unfold(springs, b)
    decreases b
  {
    if b > 1 {
      UnfoldSplit(springs, a, b - 1);
    }
  }

  /** Each copy of the row sits between separators: the unfolded row ends with the row, after a '?' when there is more than one copy. */
  lemma UnfoldEnds(springs: string, count: nat)
    requires count > 1
    ensures var r := Unfold(springs, count);
      r[|r| - |springs|..] == springs && r[|r| - |springs| - 1] == '?'
  {
    var r := Unfold(springs, count);
    var prev := Unfold(springs, count - 1);
    assert r == prev + "?" + springs;
  }

  /** Entry `i` of the repeated spec is entry `i % |spec|` of the spec. */
  lemma {:induction false} RepeatEntry(spec: seq<nat>, count: nat, i: nat)
    requires i < |Repeat(spec, count)|
    ensures Repeat(spec, count)[i] == spec[i % |spec|]
    decreases count
  {
    var prev := Repeat(spec, count - 1);
    if i < |prev| {
      RepeatEntry(spec, count - 1, i);
    } else {
      var j := i - |prev|;
      assert i == (count - 1) * |spec| + j && 0 <= j < |spec|;
      Arith.DivModUnique(i, |spec|, count - 1, j);
    }
  }

  // ------------------------------------------------------- count_ways_impl

  /**
   * One known spring against the spec: `None` when it cannot fit (the arms
   * that return 0), otherwise the spec and the in-run flag to continue with.
   */
  function Next(c: char, spec: seq<nat>, inRun: bool): Option<(seq<nat>, bool)>
    requires c == '#' || c == '.'
  {
    if c == '#' then
      if spec == [] then None
      else if spec[0] == 0 then None
      else Some(([spec[0] - 1] + spec[1..], true))
    else
      if spec == [] then Some((spec, false))
      else if spec[0] == 0 then Some((spec[1..], false))
      else if !inRun then Some((spec, false))
      else None
  }

  function Rank(first: Option<char>): nat
  {
    if first.None? then 0 else if first.value == '?' then 2 else 1
  }

  /**
   * `count_ways_impl`: the number of arrangements of `first` followed by
   * `input` that fit `spec`; `inRun` says the previous spring was damaged.
   */
  function CountWaysImpl(first: Option<char>, input: string, spec: seq<nat>, inRun: bool): nat
    requires Springs(input) && (first.Some? ==> IsSpring(first.value))
    decreases |input|, Rank(first)
  {
    if |input| == 0 && first.None? then
      if spec == [] then 1 else if spec == [0] then 1 else 0
    else
      var c := if first.Some? then first.value else input[0];
      var rest := if first.Some? then input else input[1..];
      if c == '?' then
        CountWaysImpl(Some('#'), rest, spec, inRun) + CountWaysImpl(Some('.'), rest, spec, inRun)
      else
        match Next(c, spec, inRun)
        case None => 0
        case Some((spec', inRun')) => CountWaysImpl(None, rest, spec', inRun')
  }

  /** `count_ways`: the count for a whole row. */
  function CountWays(input: string, spec: seq<nat>): nat
    requires Springs(input)
  {
    CountWaysImpl(None, input, spec, false)
  }

  /** The empty row has one arrangement exactly when the spec is empty or a finished run `[0]`. */
  lemma EmptyRow(spec: seq<nat>, inRun: bool)
    ensures CountWaysImpl(None, [], spec, inRun) == (if spec == [] || spec == [0] then 1 else 0)
  {
  }

  /** A damaged spring with no run left to fill, or with the current run already full, allows nothing. */
  lemma DamagedTooMany(input: string, spec: seq<nat>, inRun: bool)
    requires Springs(input) && (spec == [] || spec[0] == 0)
    ensures CountWaysImpl(Some('#'), input, spec, inRun) == 0
    ensures CountWaysImpl(None, "#" + input, spec, inRun) == 0
  {
    assert ("#" + input)[0] == '#' && ("#" + input)[1..] == input;
  }

  /** Supplying the first spring as `first` is the same as putting it in front of the row. */
  lemma FirstInFront(c: char, input: string, spec: seq<nat>, inRun: bool)
    requires IsSpring(c) && Springs(input)
    ensures Springs([c] + input)
    ensures CountWaysImpl(Some(c), input, spec, inRun) == CountWaysImpl(None, [c] + input, spec, inRun)
  {
    assert ([c] + input)[0] == c && ([c] + input)[1..] == input;
  }

  /** The '?' arm: the count is the count with '#' there plus the count with '.' there. */
  lemma QuestionSplits(u: string, spec: seq<nat>, inRun: bool)
    requires Springs(u)
    ensures Springs("?" + u) && Springs("#" + u) && Springs("." + u)
    ensures CountWaysImpl(None, "?" + u, spec, inRun) ==
      CountWaysImpl(None, "#" + u, spec, inRun) + CountWaysImpl(None, "." + u, spec, inRun)
  {
    FirstInFront('?', u, spec, inRun);
    FirstInFront('#', u, spec, inRun);
    FirstInFront('.', u, spec, inRun);
    assert ("?" + u)[0] == '?' && ("?" + u)[1..] == u;
  }

  /** A known first spring either rules every arrangement out or moves on with the spec and flag `Next` gives. */
  lemma KnownStep(c: char, u: string, spec: seq<nat>, inRun: bool)
    requires (c == '#' || c == '.') && Springs(u)
    ensures Springs([c] + u)
    ensures CountWaysImpl(None, [c] + u, spec, inRun) ==
      match Next(c, spec, inRun)
      case None => 0
      case Some((spec', inRun')) => CountWaysImpl(None, u, spec', inRun')
  {
    FirstInFront(c, u, spec, inRun);
  }

  // ------------------------------------------------------------ completions

  /** Every spring of `s` prefixed with `c`. */
  function Prefix(c: char, ts: seq<string>): (r: seq<string>)
    ensures |r| == |ts| && forall i | 0 <= i < |ts| :: r[i] == [c] + ts[i]
  {
    seq(|ts|, i requires 0 <= i < |ts| => [c] + ts[i])
  }

  /** All rows obtained by replacing each '?' of `s` with '#' or '.'; '#' choices first. */
  function Completions(s: string): seq<string>
    requires Springs(s)
  {
    if s == [] then [[]]
    else
      var rest := Completions(s[1..]);
      if s[0] == '?' then Prefix('#', rest) + Prefix('.', rest) else Prefix(s[0], rest)
  }

  /** `t` replaces each '?' of `s` with a known spring and keeps every other spring. */
  predicate Completes(s: string, t: string)
  {
    |t| == |s| && Known(t) && forall i | 0 <= i < |s| :: s[i] != '?' ==> t[i] == s[i]
  }

  /** Every completion replaces the '?' springs of `s` and keeps the others. */
  lemma {:induction false} CompletionsSound(s: string, t: string)
    requires Springs(s) && t in Completions(s)
    ensures Completes(s, t)
    decreases |s|
  {
    if s != [] {
      var rest := Completions(s[1..]);
      var i :| 0 <= i < |Completions(s)| && Completions(s)[i] == t;
      var u := if s[0] == '?' && i >= |rest| then rest[i - |rest|] else rest[i];
      assert u in rest && t[1..] == u;
      CompletionsSound(s[1..], u);
      forall j | 0 <= j < |s| ensures t[j] == '#' || t[j] == '.'
      {
        if j > 0 { assert t[j] == u[j - 1]; }
      }
      forall j | 0 <= j < |s| && s[j] != '?' ensures t[j] == s[j] {
        if j > 0 { assert t[j] == u[j - 1] && s[j] == s[1..][j - 1]; }
      }
    }
  }

  /** Every row that completes `s` is one of its completions. */
  lemma {:induction false} CompletionsComplete(s: string, t: string)
    requires Springs(s) && Completes(s, t)
    ensures t in Completions(s)
    decreases |s|
  {
    if s != [] {
      var rest := Completions(s[1..]);
      var u := t[1..];
      assert Completes(s[1..], u) by {
        forall j | 0 <= j < |u| ensures u[j] == '#' || u[j] == '.' {
          assert u[j] == t[j + 1];
        }
        forall j | 0 <= j < |u| && s[1..][j] != '?' ensures u[j] == s[1..][j] {
          assert u[j] == t[j + 1];
        }
      }
      CompletionsComplete(s[1..], u);
      var k :| 0 <= k < |rest| && rest[k] == u;
      assert t == [t[0]] + u;
      if s[0] == '?' {
        if t[0] == '#' {
          assert Completions(s)[k] == t;
        } else {
          assert Completions(s)[|rest| + k] == t;
        }
      } else {
        assert Completions(s)[k] == t;
      }
    } else {
      assert t == [];
    }
  }

  /** No completion is listed twice. */
  lemma {:induction false} CompletionsDistinct(s: string)
    requires Springs(s)
    ensures forall i, j | 0 <= i < j < |Completions(s)| :: Completions(s)[i] != Completions(s)[j]
    decreases |s|
  {
    if s != [] {
      var rest := Completions(s[1..]);
      CompletionsDistinct(s[1..]);
      var all := Completions(s);
      forall i, j | 0 <= i < j < |all| ensures all[i] != all[j] {
        var ti, tj := all[i], all[j];
        var n := |rest|;
        if s[0] == '?' && i < n <= j {
          assert ti[0] == '#' && tj[0] == '.';
        } else {
          var a := if i >= n then i - n else i;
          var b := if j >= n then j - n else j;
          assert ti[1..] == rest[a] && tj[1..] == rest[b];
          assert a < b && rest[a] != rest[b];
        }
      }
    }
  }

  // ------------------------------------------------------------------- runs

  /**
   * The lengths of the maximal runs of '#' in `t`, from left to right, when
   * the run being read has `current` springs so far.
   */
  function RunsFrom(t: string, current: nat): seq<nat>
    decreases |t|
  {
    if t == [] then (if current > 0 then [current] else [])
    else if t[0] == '#' then RunsFrom(t[1..], current + 1)
    else (if current > 0 then [current] else []) + RunsFrom(t[1..], 0)
  }

  /** The run lengths of a known row. */
  function Runs(t: string): seq<nat>
  {
    RunsFrom(t, 0)
  }

  /** A run being read is reported, at least as long as it is now. */
  lemma {:induction false} RunsFromStarted(t: string, current: nat)
    requires current > 0
    ensures |RunsFrom(t, current)| > 0 && RunsFrom(t, current)[0] >= current
    decreases |t|
  {
    if t != [] && t[0] == '#' {
      RunsFromStarted(t[1..], current + 1);
    }
  }

  /** Every reported run has at least one spring. */
  lemma {:induction false} RunsPositive(t: string, current: nat)
    ensures Positive(RunsFrom(t, current))
    decreases |t|
  {
    if t != [] {
      RunsPositive(t[1..], if t[0] == '#' then current + 1 else 0);
    }
  }

  /**
   * On a known row `count_ways_impl` is 1 or 0: whether the run lengths are
   * the spec.  Inside a run of `current` springs with `left` still to place,
   * it is whether that run ends at `current + left` and the later runs are
   * the rest of the spec.
   */
  lemma {:induction false} KnownRow(t: string, spec: seq<nat>, left: nat, current: nat)
    requires Known(t) && Positive(spec) && current > 0
    ensures Springs(t)
    ensures CountWaysImpl(None, t, spec, false) == if RunsFrom(t, 0) == spec then 1 else 0
    ensures CountWaysImpl(None, t, [left] + spec, true) == if RunsFrom(t, current) == [current + left] + spec then 1 else 0
    decreases |t|, 1
  {
    if t == [] {
      assert spec != [0] by { if spec != [] { assert spec[0] > 0; } }
      assert RunsFrom(t, 0) == [] && RunsFrom(t, current) == [current];
      if spec != [] || left != 0 {
        assert [left] + spec != [0] by {
          if spec != [] { assert |[left] + spec| > 1; } else { assert ([left] + spec)[0] != 0; }
        }
        assert [current] != [current + left] + spec by {
          if spec != [] { assert |[current + left] + spec| > 1; } else { assert ([current + left] + spec)[0] != current; }
        }
      }
    } else if t[0] == '#' {
      KnownRowDamaged(t, spec);
      KnownRowDamagedInRun(t, spec, left, current);
    } else {
      KnownRowWorking(t, spec, left, current);
    }
  }

  /** `KnownRow` outside a run, for a row that starts with a damaged spring. */
  lemma {:induction false} KnownRowDamaged(t: string, spec: seq<nat>)
    requires Known(t) && Positive(spec) && t != [] && t[0] == '#'
    ensures Springs(t)
    ensures CountWaysImpl(None, t, spec, false) == if RunsFrom(t, 0) == spec then 1 else 0
    decreases |t|, 0
  {
    var u := t[1..];
    assert Known(u) by { assert forall j | 0 <= j < |u| :: u[j] == t[j + 1]; }
    assert RunsFrom(t, 0) == RunsFrom(u, 1);
    if spec != [] {
      assert CountWaysImpl(None, t, spec, false) == CountWaysImpl(None, u, [spec[0] - 1] + spec[1..], true);
      KnownRow(u, spec[1..], spec[0] - 1, 1);
      assert [1 + (spec[0] - 1)] + spec[1..] == spec;
    } else {
      assert CountWaysImpl(None, t, spec, false) == 0;
      RunsFromStarted(u, 1);
    }
  }

  /** `KnownRow` inside a run, for a row that starts with a damaged spring. */
  lemma {:induction false} KnownRowDamagedInRun(t: string, spec: seq<nat>, left: nat, current: nat)
    requires Known(t) && Positive(spec) && current > 0 && t != [] && t[0] == '#'
    ensures Springs(t)
    ensures CountWaysImpl(None, t, [left] + spec, true) == if RunsFrom(t, current) == [current + left] + spec then 1 else 0
    decreases |t|, 0
  {
    var u := t[1..];
    assert Known(u) by { assert forall j | 0 <= j < |u| :: u[j] == t[j + 1]; }
    var spec' := [left] + spec;
    assert spec'[0] == left && spec'[1..] == spec;
    assert RunsFrom(t, current) == RunsFrom(u, current + 1);
    if left == 0 {
      assert CountWaysImpl(None, t, spec', true) == 0;
      RunsFromStarted(u, current + 1);
    } else {
      assert CountWaysImpl(None, t, spec', true) == CountWaysImpl(None, u, [left - 1] + spec, true);
      KnownRow(u, spec, left - 1, current + 1);
      assert current + 1 + (left - 1) == current + left;
    }
  }

  /** `KnownRow` for a row that starts with a working spring. */
  lemma {:induction false} KnownRowWorking(t: string, spec: seq<nat>, left: nat, current: nat)
    requires Known(t) && Positive(spec) && current > 0 && t != [] && t[0] == '.'
    ensures Springs(t)
    ensures CountWaysImpl(None, t, spec, false) == if RunsFrom(t, 0) == spec then 1 else 0
    ensures CountWaysImpl(None, t, [left] + spec, true) == if RunsFrom(t, current) == [current + left] + spec then 1 else 0
    decreases |t|, 0
  {
    var u := t[1..];
    assert Known(u) by { assert forall j | 0 <= j < |u| :: u[j] == t[j + 1]; }
    var spec' := [left] + spec;
    assert spec'[0] == left && spec'[1..] == spec;
    assert RunsFrom(t, 0) == RunsFrom(u, 0);
    assert RunsFrom(t, current) == [current] + RunsFrom(u, 0);
    KnownRow(u, spec, 0, 1);
    assert CountWaysImpl(None, t, spec, false) == CountWaysImpl(None, u, spec, false);
    if left == 0 {
      assert CountWaysImpl(None, t, spec', true) == CountWaysImpl(None, u, spec, false);
      assert ([current] + RunsFrom(u, 0))[1..] == RunsFrom(u, 0) && ([current] + spec)[1..] == spec;
    } else {
      assert CountWaysImpl(None, t, spec', true) == 0;
      assert ([current] + RunsFrom(u, 0))[0] != ([current + left] + spec)[0];
    }
  }

  // -------------------------------------------------------------- counting

  /** The arrangements that `count_ways_impl` finds in each of the rows `ts`, added up. */
  function SumWays(ts: seq<string>, spec: seq<nat>, inRun: bool): nat
    requires forall i | 0 <= i < |ts| :: Springs(ts[i])
  {
    if ts == [] then 0 else CountWaysImpl(None, ts[0], spec, inRun) + SumWays(ts[1..], spec, inRun)
  }

  lemma {:induction false} SumAppend(a: seq<string>, b: seq<string>, spec: seq<nat>, inRun: bool)
    requires forall i | 0 <= i < |a| :: Springs(a[i])
    requires forall i | 0 <= i < |b| :: Springs(b[i])
    ensures forall i | 0 <= i < |a + b| :: Springs((a + b)[i])
    ensures SumWays(a + b, spec, inRun) == SumWays(a, spec, inRun) + SumWays(b, spec, inRun)
    decreases |a|
  {
    if a != [] {
      assert (a + b)[1..] == a[1..] + b;
      SumAppend(a[1..], b, spec, inRun);
    } else {
      assert a + b == b;
    }
  }

  /** A known spring in front of every row acts the same way on each of them. */
  lemma {:induction false} SumPrefix(c: char, ts: seq<string>, spec: seq<nat>, inRun: bool)
    requires c == '#' || c == '.'
    requires forall i | 0 <= i < |ts| :: Springs(ts[i])
    ensures forall i | 0 <= i < |ts| :: Springs(Prefix(c, ts)[i])
    ensures SumWays(Prefix(c, ts), spec, inRun) ==
      match Next(c, spec, inRun)
      case None => 0
      case Some((spec', inRun')) => SumWays(ts, spec', inRun')
    decreases |ts|
  {
    forall i | 0 <= i < |ts| ensures Springs(Prefix(c, ts)[i]) {
      FirstInFront(c, ts[i], spec, inRun);
    }
    if ts != [] {
      assert Prefix(c, ts)[1..] == Prefix(c, ts[1..]);
      SumPrefix(c, ts[1..], spec, inRun);
      var t := [c] + ts[0];
      assert t[0] == c && t[1..] == ts[0];
    }
  }

  /** Every completion of a row is a row the parser accepts. */
  lemma CompletionsSprings(s: string)
    requires Springs(s)
    ensures forall i | 0 <= i < |Completions(s)| :: Springs(Completions(s)[i])
  {
    forall i | 0 <= i < |Completions(s)| ensures Springs(Completions(s)[i]) {
      CompletionsSound(s, Completions(s)[i]);
    }
  }

  /**
   * The '?' arm adds the '#' case and the '.' case, so the count for a row
   * is the sum of the counts for its completions.
   */
  lemma {:induction false} CountIsSum(s: string, spec: seq<nat>, inRun: bool)
    requires Springs(s)
    ensures forall i | 0 <= i < |Completions(s)| :: Springs(Completions(s)[i])
    ensures CountWaysImpl(None, s, spec, inRun) == SumWays(Completions(s), spec, inRun)
    decreases |s|, 0
  {
    CompletionsSprings(s);
    if s != [] {
      var u := s[1..];
      var rest := Completions(u);
      CompletionsSprings(u);
      if s[0] == '?' {
        SumAppend(Prefix('#', rest), Prefix('.', rest), spec, inRun);
        SumPrefix('#', rest, spec, inRun);
        SumPrefix('.', rest, spec, inRun);
        FirstInFront('#', u, spec, inRun);
        FirstInFront('.', u, spec, inRun);
        assert CountWaysImpl(None, s, spec, inRun) ==
          CountWaysImpl(Some('#'), u, spec, inRun) + CountWaysImpl(Some('.'), u, spec, inRun);
        SumUnfold('#', u, spec, inRun);
        SumUnfold('.', u, spec, inRun);
      } else {
        SumPrefix(s[0], rest, spec, inRun);
        assert s == [s[0]] + u;
        SumUnfold(s[0], u, spec, inRun);
      }
    }
  }

  /** The step of `CountIsSum` for one known first spring. */
  lemma {:induction false} SumUnfold(c: char, u: string, spec: seq<nat>, inRun: bool)
    requires (c == '#' || c == '.') && Springs(u)
    ensures Springs([c] + u)
    ensures forall i | 0 <= i < |Completions(u)| :: Springs(Completions(u)[i])
    ensures CountWaysImpl(None, [c] + u, spec, inRun) ==
      match Next(c, spec, inRun)
      case None => 0
      case Some((spec', inRun')) => SumWays(Completions(u), spec', inRun')
    decreases |u|, 1
  {
    CompletionsSprings(u);
    FirstInFront(c, u, spec, inRun);
    match Next(c, spec, inRun)
    case None =>
    case Some((spec', inRun')) =>
      CountIsSum(u, spec', inRun');
  }

  /** How many of the rows `ts` have exactly the run lengths `spec`. */
  function CountRuns(ts: seq<string>, spec: seq<nat>): nat
  {
    if ts == [] then 0 else (if Runs(ts[0]) == spec then 1 else 0) + CountRuns(ts[1..], spec)
  }

  /**
   * The count is the number of ways to replace the '?' springs so that the
   * runs of damaged springs are exactly the spec.
   */
  lemma CountWaysMeans(s: string, spec: seq<nat>)
    requires Springs(s) && Positive(spec)
    ensures CountWays(s, spec) == CountRuns(Completions(s), spec)
  {
    CountIsSum(s, spec, false);
    var all := Completions(s);
    forall i | 0 <= i < |all| ensures Known(all[i]) {
      CompletionsSound(s, all[i]);
    }
    SumIsCount(all, spec);
  }

  lemma {:induction false} SumIsCount(ts: seq<string>, spec: seq<nat>)
    requires forall i | 0 <= i < |ts| :: Known(ts[i])
    requires Positive(spec)
    ensures forall i | 0 <= i < |ts| :: Springs(ts[i])
    ensures SumWays(ts, spec, false) == CountRuns(ts, spec)
    decreases |ts|
  {
    forall i | 0 <= i < |ts| ensures Springs(ts[i]) {
      assert Known(ts[i]);
    }
    if ts != [] {
      KnownRow(ts[0], spec, 0, 1);
      SumIsCount(ts[1..], spec);
    }
  }

  // ---------------------------------------------------------------- samples

  /** The last three springs `#.#` of the broken sample: runs 1,1 fit once, every other spec reached fits none. */
  lemma SampleBrokenEnd()
    ensures Springs("#.#")
    ensures CountWaysImpl(None, "#.#", [1, 1], false) == 1
    ensures CountWaysImpl(None, "#.#", [0, 1], true) == 0
    ensures CountWaysImpl(None, "#.#", [1], false) == 0
    ensures CountWaysImpl(None, "#.#", [0], true) == 0
    ensures CountWaysImpl(None, "#.#", [], false) == 0
  {
    var e: string := [];
    var a := "#" + e;
    var b := "." + a;
    var c := "#" + b;
    KnownStep('#', e, [1], false);
    KnownStep('#', e, [], false);
    KnownStep('.', a, [0, 1], true);
    KnownStep('.', a, [0], true);
    KnownStep('#', b, [1, 1], false);
    KnownStep('#', b, [1], false);
    KnownStep('#', b, [], false);
    assert c == "#.#";
  }

  /** `?.` in front of a tail with the counts of `#.#`: the counts of `?.#.#`. */
  lemma SampleBrokenQuestion(c: string)
    requires Springs(c)
    requires CountWaysImpl(None, c, [1, 1], false) == 1 && CountWaysImpl(None, c, [0, 1], true) == 0
    requires CountWaysImpl(None, c, [1], false) == 0 && CountWaysImpl(None, c, [0], true) == 0
    requires CountWaysImpl(None, c, [], false) == 0
    ensures Springs("?." + c)
    ensures CountWaysImpl(None, "?." + c, [1, 1], false) == 1
    ensures CountWaysImpl(None, "?." + c, [0, 1], true) == 0
    ensures CountWaysImpl(None, "?." + c, [1], false) == 0
    ensures CountWaysImpl(None, "?." + c, [0], true) == 0
  {
    var d := "." + c;
    KnownStep('.', c, [1, 1], false);
    KnownStep('.', c, [0, 1], true);
    KnownStep('.', c, [1], false);
    KnownStep('.', c, [0], true);
    KnownStep('.', c, [], false);
    QuestionSplits(d, [1, 1], false);
    KnownStep('#', d, [1, 1], false);
    KnownStep('.', d, [1, 1], false);
    QuestionSplits(d, [0, 1], true);
    KnownStep('#', d, [0, 1], true);
    KnownStep('.', d, [0, 1], true);
    QuestionSplits(d, [1], false);
    KnownStep('#', d, [1], false);
    KnownStep('.', d, [1], false);
    QuestionSplits(d, [0], true);
    KnownStep('#', d, [0], true);
    KnownStep('.', d, [0], true);
    assert "?" + d == "?." + c;
  }

  /** The tail `?.#.#` of the broken sample: one arrangement for runs 1,1 and none for the other specs reached. */
  lemma SampleBrokenTail()
    ensures Springs("?.#.#")
    ensures CountWaysImpl(None, "?.#.#", [1, 1], false) == 1
    ensures CountWaysImpl(None, "?.#.#", [0, 1], true) == 0
    ensures CountWaysImpl(None, "?.#.#", [1], false) == 0
    ensures CountWaysImpl(None, "?.#.#", [0], true) == 0
  {
    SampleBrokenEnd();
    SampleBrokenQuestion("#.#");
    assert "?." + "#.#" == "?.#.#";
  }

  /** One more '?' in front of a tail with the counts of `?.#.#`: the counts of `??.#.#`. */
  lemma SampleBrokenMiddle(q1: string)
    requires Springs(q1)
    requires CountWaysImpl(None, q1, [1, 1], false) == 1 && CountWaysImpl(None, q1, [0, 1], true) == 0
    requires CountWaysImpl(None, q1, [1], false) == 0 && CountWaysImpl(None, q1, [0], true) == 0
    ensures Springs("?" + q1)
    ensures CountWaysImpl(None, "?" + q1, [1, 1], false) == 1 && CountWaysImpl(None, "?" + q1, [1], false) == 0
  {
    QuestionSplits(q1, [1, 1], false);
    KnownStep('#', q1, [1, 1], false);
    KnownStep('.', q1, [1, 1], false);
    QuestionSplits(q1, [1], false);
    KnownStep('#', q1, [1], false);
    KnownStep('.', q1, [1], false);
  }

  /** The head `?.#.` of the broken sample, in front of any tail with the counts of `??.#.#`. */
  lemma SampleBrokenHead(q2: string)
    requires Springs(q2)
    requires CountWaysImpl(None, q2, [1, 1], false) == 1 && CountWaysImpl(None, q2, [1], false) == 0
    ensures Springs("?.#." + q2)
    ensures CountWays("?.#." + q2, [1, 1, 1]) == 1
  {
    var g := "." + q2;
    var h := "#" + g;
    var i := "." + h;
    var row := "?" + i;
    KnownStep('.', q2, [0, 1, 1], true);
    assert CountWaysImpl(None, g, [0, 1, 1], true) == 1;
    KnownStep('.', q2, [0, 1], true);
    assert CountWaysImpl(None, g, [0, 1], true) == 0;
    KnownStep('#', g, [1, 1, 1], false);
    assert CountWaysImpl(None, h, [1, 1, 1], false) == 1;
    KnownStep('#', g, [1, 1], false);
    assert CountWaysImpl(None, h, [1, 1], false) == 0;
    KnownStep('.', h, [1, 1, 1], false);
    assert CountWaysImpl(None, i, [1, 1, 1], false) == 1;
    KnownStep('.', h, [0, 1, 1], true);
    assert CountWaysImpl(None, i, [0, 1, 1], true) == 0;
    QuestionSplits(i, [1, 1, 1], false);
    KnownStep('#', i, [1, 1, 1], false);
    KnownStep('.', i, [1, 1, 1], false);
    assert row == "?.#." + q2;
  }

  /** `?.#.??.#.#` with runs 1,1,1 has a single arrangement. */
  lemma SampleBroken()
    ensures Springs("?.#.??.#.#")
    ensures CountWays("?.#.??.#.#", [1, 1, 1]) == 1
  {
    SampleBrokenTail();
    SampleBrokenMiddle("?.#.#");
    SampleBrokenHead("?" + "?.#.#");
    assert "?.#." + ("?" + "?.#.#") == "?.#.??.#.#";
  }
}
