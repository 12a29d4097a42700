/**
 * 2024 day 19, part 2: in how many ways can a pattern of stripes be laid out
 * from the available towels? The puzzle memoises the count of every pattern
 * it has solved in a cache that the recursion reads and fills.
 */
module Y2024Day19 {

  /** A towel of no stripes would make `arrangements` call itself for ever. */
  predicate NoEmpty(towels: seq<string>)
  {
    forall k :: 0 <= k < |towels| ==> |towels[k]| > 0
  }

  /**
   * `arrangements` without the cache: 1 for the empty pattern, otherwise
   * the sum over the towels that start the pattern of the ways to finish it.
   */
  function Ways(towels: seq<string>, p: string): nat
    requires NoEmpty(towels)
    decreases |p|, |towels| + 1
  {
    if |p| == 0 then 1 else Count(towels, 0, p)
  }

  /** The part of that sum contributed by the towels from index `i` on. */
  function Count(towels: seq<string>, i: nat, p: string): nat
    requires NoEmpty(towels)
    decreases |p|, |towels| - i
  {
    if i >= |towels| then 0
    else (if towels[i] <= p then Ways(towels, p[|towels[i]|..]) else 0) + Count(towels, i + 1, p)
  }

  // ------------------------------------------------------------- layouts

  predicate Indices(towels: seq<string>, a: seq<nat>)
  {
    forall k :: 0 <= k < |a| ==> a[k] < |towels|
  }

  /** The stripes of the towels `a` names, laid end to end. */
  function Spell(towels: seq<string>, a: seq<nat>): string
    requires Indices(towels, a)
    decreases |a|
  {
    if |a| == 0 then [] else towels[a[0]] + Spell(towels, a[1..])
  }

  /** `a` is a layout of `p`: a sequence of towels whose stripes make up `p`. */
  predicate Spells(towels: seq<string>, a: seq<nat>, p: string)
  {
    Indices(towels, a) && Spell(towels, a) == p
  }

  function Prepend(i: nat, ls: seq<seq<nat>>): (r: seq<seq<nat>>)
    ensures |r| == |ls| && forall k :: 0 <= k < |r| ==> r[k] == [i] + ls[k]
  {
    seq(|ls|, k requires 0 <= k < |ls| => [i] + ls[k])
  }

  /** Every layout of `p`, listed in the order `Ways` counts them. */
  function Layouts(towels: seq<string>, p: string): seq<seq<nat>>
    requires NoEmpty(towels)
    decreases |p|, |towels| + 1
  {
    if |p| == 0 then [[]] else LayoutsFrom(towels, 0, p)
  }

  /** The layouts of `p` whose first towel has index `i` or more. */
  function LayoutsFrom(towels: seq<string>, i: nat, p: string): seq<seq<nat>>
    requires NoEmpty(towels)
    decreases |p|, |towels| - i
  {
    if i >= |towels| then []
    else (if towels[i] <= p then Prepend(i, Layouts(towels, p[|towels[i]|..])) else [])
         + LayoutsFrom(towels, i + 1, p)
  }

  predicate Distinct<T(==)>(s: seq<T>)
  {
    forall j, k :: 0 <= j < k < |s| ==> s[j] != s[k]
  }

  /** `Ways` counts exactly the listed layouts. */
  lemma {:induction false} LayoutsCount(towels: seq<string>, p: string)
    requires NoEmpty(towels)
    ensures |Layouts(towels, p)| == Ways(towels, p)
    decreases |p|, |towels| + 1
  {
    if |p| > 0 {
      LayoutsFromCount(towels, 0, p);
    }
  }

  lemma {:induction false} LayoutsFromCount(towels: seq<string>, i: nat, p: string)
    requires NoEmpty(towels) && |p| > 0
    ensures |LayoutsFrom(towels, i, p)| == Count(towels, i, p)
    decreases |p|, |towels| - i
  {
    if i < |towels| {
      if towels[i] <= p {
        LayoutsCount(towels, p[|towels[i]|..]);
      }
      LayoutsFromCount(towels, i + 1, p);
    }
  }

  lemma {:induction false} SpellCons(towels: seq<string>, i: nat, a: seq<nat>)
    requires i < |towels| && Indices(towels, a)
    ensures Indices(towels, [i] + a)
    ensures Spell(towels, [i] + a) == towels[i] + Spell(towels, a)
  {
    assert ([i] + a)[1..] == a;
  }

  /** Every listed layout spells the pattern. */
  lemma {:induction false} LayoutsSound(towels: seq<string>, p: string)
    requires NoEmpty(towels)
    ensures forall a :: a in Layouts(towels, p) ==> Spells(towels, a, p)
    decreases |p|, |towels| + 1
  {
    if |p| > 0 {
      LayoutsFromSound(towels, 0, p);
    }
  }

  lemma {:induction false} LayoutsFromSound(towels: seq<string>, i: nat, p: string)
    requires NoEmpty(towels) && |p| > 0
    ensures forall a :: a in LayoutsFrom(towels, i, p) ==> Spells(towels, a, p) && |a| > 0 && a[0] >= i
    decreases |p|, |towels| - i
  {
    if i < |towels| {
      var t := towels[i];
      LayoutsFromSound(towels, i + 1, p);
      if t <= p {
        var rest := p[|t|..];
        LayoutsSound(towels, rest);
        var ls := Layouts(towels, rest);
        forall a | a in Prepend(i, ls)
          ensures Spells(towels, a, p) && |a| > 0 && a[0] >= i
        {
          var k :| 0 <= k < |ls| && a == Prepend(i, ls)[k];
          assert ls[k] in ls;
          SpellCons(towels, i, ls[k]);
          assert p == t + rest;
        }
      }
    }
  }

  /** A layout with a towel in it spells at least that towel's stripes. */
  lemma SpellNonEmpty(towels: seq<string>, a: seq<nat>)
    requires NoEmpty(towels) && Indices(towels, a) && |a| > 0
    ensures |Spell(towels, a)| >= |towels[a[0]]| > 0
  {
  }

  /** Every layout of the pattern is listed. */
  lemma {:induction false} LayoutsComplete(towels: seq<string>, a: seq<nat>, p: string)
    requires NoEmpty(towels) && Spells(towels, a, p)
    ensures a in Layouts(towels, p)
    decreases |p|
  {
    if |a| == 0 {
      assert p == [];
      assert Layouts(towels, p) == [[]];
    } else {
      SpellNonEmpty(towels, a);
      var i := a[0];
      var t := towels[i];
      var rest := a[1..];
      assert Spell(towels, a) == t + Spell(towels, rest);
      assert t <= p;
      assert Spells(towels, rest, p[|t|..]);
      LayoutsComplete(towels, rest, p[|t|..]);
      var ls := Layouts(towels, p[|t|..]);
      var k :| 0 <= k < |ls| && ls[k] == rest;
      assert Prepend(i, ls)[k] == a;
      FromContains(towels, 0, i, p, a);
    }
  }

  /** A layout listed for the towel at index `i` is listed from any `j <= i`. */
  lemma {:induction false} FromContains(towels: seq<string>, j: nat, i: nat, p: string, a: seq<nat>)
    requires NoEmpty(towels) && |p| > 0 && j <= i < |towels| && towels[i] <= p
    requires a in Prepend(i, Layouts(towels, p[|towels[i]|..]))
    ensures a in LayoutsFrom(towels, j, p)
    decreases i - j
  {
    if j < i {
      FromContains(towels, j + 1, i, p, a);
    }
  }

  lemma PrependDistinct(i: nat, ls: seq<seq<nat>>)
    requires Distinct(ls)
    ensures Distinct(Prepend(i, ls))
  {
    var r := Prepend(i, ls);
    forall j, k | 0 <= j < k < |r|
      ensures r[j] != r[k]
    {
      assert r[j][1..] == ls[j] && r[k][1..] == ls[k];
    }
  }

  /** No layout is listed twice, so `Ways` counts distinct layouts. */
  lemma {:induction false} LayoutsDistinct(towels: seq<string>, p: string)
    requires NoEmpty(towels)
    ensures Distinct(Layouts(towels, p))
    decreases |p|, |towels| + 1
  {
    if |p| > 0 {
      LayoutsFromDistinct(towels, 0, p);
    }
  }

  lemma {:induction false} LayoutsFromDistinct(towels: seq<string>, i: nat, p: string)
    requires NoEmpty(towels) && |p| > 0
    ensures Distinct(LayoutsFrom(towels, i, p))
    decreases |p|, |towels| - i
  {
    if i < |towels| {
      var t := towels[i];
      var tail := LayoutsFrom(towels, i + 1, p);
      LayoutsFromDistinct(towels, i + 1, p);
      LayoutsFromSound(towels, i + 1, p);
      if t <= p {
        var ls := Layouts(towels, p[|t|..]);
        LayoutsDistinct(towels, p[|t|..]);
        var head := Prepend(i, ls);
        PrependDistinct(i, ls);
        var all := head + tail;
        forall j, k | 0 <= j < k < |all|
          ensures all[j] != all[k]
        {
          if j < |head| && k >= |head| {
            assert all[j][0] == i;
            assert tail[k - |head|] in tail;
          }
        }
      }
    }
  }

  // --------------------------------------------------------------- total

  /** The sum of the counts, as the top-level `process` adds them up. */
  function Sum(s: seq<int>): int
  {
    if |s| == 0 then 0 else s[0] + Sum(s[1..])
  }

  /** The answer to part 2: the number of layouts of every pattern, summed. */
  function Total(towels: seq<string>, ps: seq<string>): nat
    requires NoEmpty(towels)
  {
    if |ps| == 0 then 0 else Ways(towels, ps[0]) + Total(towels, ps[1..])
  }

  /** Adding up the per-pattern counts gives the total. */
  lemma {:induction false} SumCounts(towels: seq<string>, ps: seq<string>, r: seq<int>)
    requires NoEmpty(towels)
    requires |r| == |ps| && forall k :: 0 <= k < |r| ==> r[k] == Ways(towels, ps[k])
    ensures Sum(r) == Total(towels, ps)
  {
    if |r| > 0 {
      SumCounts(towels, ps[1..], r[1..]);
    }
  }

  lemma TotalFrom(towels: seq<string>, ps: seq<string>, k: nat)
    requires NoEmpty(towels) && k < |ps|
    ensures Total(towels, ps[k..]) == Ways(towels, ps[k]) + Total(towels, ps[k+1..])
  {
    assert ps[k..][1..] == ps[k+1..];
  }

  // -------------------------------------------------------------- puzzle

  /** The puzzle: the towels, the patterns to lay out, and the memo of counts. */
  class Puzzle {
    var towels: seq<string>
    var patterns: seq<string>
    var cache: map<string, int>

    /** Every cached count is the count of its pattern. */
    ghost predicate Valid()
      reads this
    {
      NoEmpty(towels) && forall k :: k in cache ==> cache[k] == Ways(towels, k)
    }

    constructor (towels: seq<string>, patterns: seq<string>)
      requires NoEmpty(towels)
      ensures Valid() && this.towels == towels && this.patterns == patterns && cache == map[]
    {
      this.towels := towels;
      this.patterns := patterns;
      cache := map[];
    }

    /**
     * `arrangements`: the number of layouts of `pattern`, answered from the
     * cache when it is there and stored in the cache once computed.
     */
    method Arrangements(pattern: string) returns (count: int)
      requires Valid()
      modifies this
      ensures Valid() && towels == old(towels) && patterns == old(patterns)
      ensures count == Ways(towels, pattern)
      ensures pattern in old(cache) ==> count == old(cache[pattern]) && cache == old(cache)
      ensures |pattern| > 0 ==> pattern in cache && cache[pattern] == count
      ensures old(cache).Keys <= cache.Keys
      decreases |pattern|
    {
      count := 0;
      if |pattern| == 0 {
        return 1;
      }
      if pattern in cache {
        return cache[pattern];
      }
      var ts := towels;
      var i := 0;
      while i < |ts|
        invariant towels == ts && patterns == old(patterns) && Valid()
        invariant 0 <= i <= |ts|
        invariant old(cache).Keys <= cache.Keys
        invariant count + Count(towels, i, pattern) == Count(towels, 0, pattern)
      {
        var t := ts[i];
        if t <= pattern {
          var c := Arrangements(pattern[|t|..]);
          count := count + c;
        }
        i := i + 1;
      }
      cache := cache[pattern := count];
    }

    /** `process`: the count for every pattern, in order. */
    method Process() returns (r: seq<int>)
      requires Valid()
      modifies this
      ensures Valid() && towels == old(towels) && patterns == old(patterns)
      ensures |r| == |patterns| && forall k :: 0 <= k < |r| ==> r[k] == Ways(towels, patterns[k])
    {
      var ps := patterns;
      r := [];
      var i := 0;
      while i < |ps|
        invariant patterns == ps && towels == old(towels) && Valid()
        invariant 0 <= i <= |ps| && |r| == i
        invariant forall k :: 0 <= k < i ==> r[k] == Ways(towels, ps[k])
      {
        var c := Arrangements(ps[i]);
        r := r + [c];
        i := i + 1;
      }
    }
  }

  /** The top-level `process`: lay out every pattern and add up the counts. */
  method Solve(towels: seq<string>, patterns: seq<string>) returns (total: int)
    requires NoEmpty(towels)
    ensures total == Total(towels, patterns)
  {
    var puzzle := new Puzzle(towels, patterns);
    var counts := puzzle.Process();
    SumCounts(towels, patterns, counts);
    total := Sum(counts);
  }

  // -------------------------------------------------------------- sample

  /** `starts_with`: the towel's stripes are the first stripes of the pattern. */
  lemma Starts(t: string, p: string)
    ensures t <= p <==> |t| <= |p| && forall k :: 0 <= k < |t| ==> t[k] == p[k]
  {
    if |t| <= |p| && forall k :: 0 <= k < |t| ==> t[k] == p[k] {
      assert p[..|t|] == t;
    }
  }

  /**
   * With the sample's towels, the count for a pattern is the sum, towel by
   * towel in their listed order, of the counts for what each towel leaves.
   */
  lemma SampleStep(t: seq<string>, p: string)
    requires t == ["r", "wr", "b", "g", "bwu", "rb", "gb", "br"]
    requires |p| > 0
    ensures NoEmpty(t)
    ensures Ways(t, p) ==
      (if p[0] == 'r' then Ways(t, p[1..]) else 0)
      + (if |p| >= 2 && p[0] == 'w' && p[1] == 'r' then Ways(t, p[2..]) else 0)
      + (if p[0] == 'b' then Ways(t, p[1..]) else 0)
      + (if p[0] == 'g' then Ways(t, p[1..]) else 0)
      + (if |p| >= 3 && p[0] == 'b' && p[1] == 'w' && p[2] == 'u' then Ways(t, p[3..]) else 0)
      + (if |p| >= 2 && p[0] == 'r' && p[1] == 'b' then Ways(t, p[2..]) else 0)
      + (if |p| >= 2 && p[0] == 'g' && p[1] == 'b' then Ways(t, p[2..]) else 0)
      + (if |p| >= 2 && p[0] == 'b' && p[1] == 'r' then Ways(t, p[2..]) else 0)
  {
    assert NoEmpty(t);
    Starts(t[0], p); Starts(t[1], p); Starts(t[2], p); Starts(t[3], p);
    Starts(t[4], p); Starts(t[5], p); Starts(t[6], p); Starts(t[7], p);
    assert Count(t, 8, p) == 0;
    assert Count(t, 7, p) == (if t[7] <= p then Ways(t, p[2..]) else 0);
    assert Count(t, 6, p) == (if t[6] <= p then Ways(t, p[2..]) else 0) + Count(t, 7, p);
    assert Count(t, 5, p) == (if t[5] <= p then Ways(t, p[2..]) else 0) + Count(t, 6, p);
    assert Count(t, 4, p) == (if t[4] <= p then Ways(t, p[3..]) else 0) + Count(t, 5, p);
    assert Count(t, 3, p) == (if t[3] <= p then Ways(t, p[1..]) else 0) + Count(t, 4, p);
    assert Count(t, 2, p) == (if t[2] <= p then Ways(t, p[1..]) else 0) + Count(t, 3, p);
    assert Count(t, 1, p) == (if t[1] <= p then Ways(t, p[2..]) else 0) + Count(t, 2, p);
  }

  /** The same step for the suffix of `p` that starts at `k`. */
  lemma SampleAt(t: seq<string>, p: string, k: nat)
    requires t == ["r", "wr", "b", "g", "bwu", "rb", "gb", "br"]
    requires k < |p|
    ensures NoEmpty(t)
    ensures Ways(t, p[k..]) ==
      (if p[k] == 'r' then Ways(t, p[k+1..]) else 0)
      + (if k + 2 <= |p| && p[k] == 'w' && p[k+1] == 'r' then Ways(t, p[k+2..]) else 0)
      + (if p[k] == 'b' then Ways(t, p[k+1..]) else 0)
      + (if p[k] == 'g' then Ways(t, p[k+1..]) else 0)
      + (if k + 3 <= |p| && p[k] == 'b' && p[k+1] == 'w' && p[k+2] == 'u' then Ways(t, p[k+3..]) else 0)
      + (if k + 2 <= |p| && p[k] == 'r' && p[k+1] == 'b' then Ways(t, p[k+2..]) else 0)
      + (if k + 2 <= |p| && p[k] == 'g' && p[k+1] == 'b' then Ways(t, p[k+2..]) else 0)
      + (if k + 2 <= |p| && p[k] == 'b' && p[k+1] == 'r' then Ways(t, p[k+2..]) else 0)
  {
    SampleStep(t, p[k..]);
    assert p[k..][1..] == p[k+1..];
    if k + 2 <= |p| { assert p[k..][2..] == p[k+2..]; }
    if k + 3 <= |p| { assert p[k..][3..] == p[k+3..]; }
  }

  lemma {:induction false} SampleBrwrr(t: seq<string>)
    requires t == ["r", "wr", "b", "g", "bwu", "rb", "gb", "br"]
    ensures NoEmpty(t) && Ways(t, "brwrr") == 2
  {
    var p := "brwrr";
    assert NoEmpty(t);
    assert Ways(t, p[5..]) == 1;
    SampleAt(t, p, 4);
    SampleAt(t, p, 3);
    SampleAt(t, p, 2);
    SampleAt(t, p, 1);
    SampleAt(t, p, 0);
    assert p[0..] == p;
  }

  lemma {:induction false} SampleBggr(t: seq<string>)
    requires t == ["r", "wr", "b", "g", "bwu", "rb", "gb", "br"]
    ensures NoEmpty(t) && Ways(t, "bggr") == 1
  {
    var p := "bggr";
    assert NoEmpty(t);
    assert Ways(t, p[4..]) == 1;
    SampleAt(t, p, 3);
    SampleAt(t, p, 2);
    SampleAt(t, p, 1);
    SampleAt(t, p, 0);
    assert p[0..] == p;
  }

  lemma {:induction false} SampleGbbr(t: seq<string>)
    requires t == ["r", "wr", "b", "g", "bwu", "rb", "gb", "br"]
    ensures NoEmpty(t) && Ways(t, "gbbr") == 4
  {
    var p := "gbbr";
    assert NoEmpty(t);
    assert Ways(t, p[4..]) == 1;
    SampleAt(t, p, 3);
    SampleAt(t, p, 2);
    SampleAt(t, p, 1);
    SampleAt(t, p, 0);
    assert p[0..] == p;
  }

  lemma {:induction false} SampleRrbgbr(t: seq<string>)
    requires t == ["r", "wr", "b", "g", "bwu", "rb", "gb", "br"]
    ensures NoEmpty(t) && Ways(t, "rrbgbr") == 6
  {
    var p := "rrbgbr";
    assert NoEmpty(t);
    assert Ways(t, p[6..]) == 1;
    SampleAt(t, p, 5);
    SampleAt(t, p, 4);
    SampleAt(t, p, 3);
    SampleAt(t, p, 2);
    SampleAt(t, p, 1);
    SampleAt(t, p, 0);
    assert p[0..] == p;
  }

  lemma {:induction false} SampleUbwu(t: seq<string>)
    requires t == ["r", "wr", "b", "g", "bwu", "rb", "gb", "br"]
    ensures NoEmpty(t) && Ways(t, "ubwu") == 0
  {
    var p := "ubwu";
    assert NoEmpty(t);
    assert Ways(t, p[4..]) == 1;
    SampleAt(t, p, 3);
    SampleAt(t, p, 2);
    SampleAt(t, p, 1);
    SampleAt(t, p, 0);
    assert p[0..] == p;
  }

  lemma {:induction false} SampleBwurrg(t: seq<string>)
    requires t == ["r", "wr", "b", "g", "bwu", "rb", "gb", "br"]
    ensures NoEmpty(t) && Ways(t, "bwurrg") == 1
  {
    var p := "bwurrg";
    assert NoEmpty(t);
    assert Ways(t, p[6..]) == 1;
    SampleAt(t, p, 5);
    SampleAt(t, p, 4);
    SampleAt(t, p, 3);
    SampleAt(t, p, 2);
    SampleAt(t, p, 1);
    SampleAt(t, p, 0);
    assert p[0..] == p;
  }

  lemma {:induction false} SampleBrgr(t: seq<string>)
    requires t == ["r", "wr", "b", "g", "bwu", "rb", "gb", "br"]
    ensures NoEmpty(t) && Ways(t, "brgr") == 2
  {
    var p := "brgr";
    assert NoEmpty(t);
    assert Ways(t, p[4..]) == 1;
    SampleAt(t, p, 3);
    SampleAt(t, p, 2);
    SampleAt(t, p, 1);
    SampleAt(t, p, 0);
    assert p[0..] == p;
  }

  lemma {:induction false} SampleBbrgwb(t: seq<string>)
    requires t == ["r", "wr", "b", "g", "bwu", "rb", "gb", "br"]
    ensures NoEmpty(t) && Ways(t, "bbrgwb") == 0
  {
    var p := "bbrgwb";
    assert NoEmpty(t);
    assert Ways(t, p[6..]) == 1;
    SampleAt(t, p, 5);
    SampleAt(t, p, 4);
    SampleAt(t, p, 3);
    SampleAt(t, p, 2);
    SampleAt(t, p, 1);
    SampleAt(t, p, 0);
    assert p[0..] == p;
  }

  /** The sample's answer: its eight patterns can be laid out in 16 ways in all. */
  lemma {:induction false} SampleTotal(t: seq<string>, ps: seq<string>)
    requires t == ["r", "wr", "b", "g", "bwu", "rb", "gb", "br"]
    requires ps == ["brwrr", "bggr", "gbbr", "rrbgbr", "ubwu", "bwurrg", "brgr", "bbrgwb"]
    ensures NoEmpty(t) && Total(t, ps) == 16
  {
    SampleBrwrr(t);
    SampleBggr(t);
    SampleGbbr(t);
    SampleRrbgbr(t);
    SampleUbwu(t);
    SampleBwurrg(t);
    SampleBrgr(t);
    SampleBbrgwb(t);
    assert Total(t, ps[8..]) == 0;
    TotalFrom(t, ps, 7);
    TotalFrom(t, ps, 6);
    TotalFrom(t, ps, 5);
    TotalFrom(t, ps, 4);
    TotalFrom(t, ps, 3);
    TotalFrom(t, ps, 2);
    TotalFrom(t, ps, 1);
    TotalFrom(t, ps, 0);
    assert ps[0..] == ps;
  }
}
