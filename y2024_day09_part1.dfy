/**
 * 2024 day 9, part 1: a disk map of alternating file and free-space run
 * lengths is laid out block by block, then compacted one block at a time by
 * swapping the last file block into the first free block.  The same layout
 * and checksum serve part 2.
 */
module Y2024Day09Part1 {
  import opened Wrappers

  type Block = Option<nat>

  // -------------------------------------------------------------- layout

  predicate IsDigitChar(c: char)
  {
    '0' <= c <= '9'
  }

  /** `to_digit(10)` on every character; anything else makes the parser panic. */
  function Digits(input: string): (ds: seq<nat>)
    requires forall i | 0 <= i < |input| :: IsDigitChar(input[i])
    ensures |ds| == |input| && forall i | 0 <= i < |input| :: ds[i] < 10
  {
    seq(|input|, i requires 0 <= i < |input| && IsDigitChar(input[i]) => (input[i] as int - '0' as int) as nat)
  }

  function RunOf(n: nat, b: Block): (r: seq<Block>)
    ensures |r| == n && forall k | 0 <= k < n :: r[k] == b
  {
    seq(n, _ => b)
  }

  /** Run k of the map is file k / 2 when k is even and free space when k is odd. */
  function Label(k: nat): Block
  {
    if k % 2 == 0 then Some(k / 2) else None
  }

  /** The blocks the parser lays out: run after run, each of its length. */
  function Layout(ds: seq<nat>): seq<Block>
    decreases |ds|
  {
    if ds == [] then [] else Layout(ds[..|ds| - 1]) + RunOf(ds[|ds| - 1], Label(|ds| - 1))
  }

  /** The layout of a longer map extends the layout of a shorter one. */
  lemma {:induction false} LayoutPrefix(ds: seq<nat>, k: nat)
    requires k <= |ds|
    ensures |Layout(ds[..k])| <= |Layout(ds)| && Layout(ds)[..|Layout(ds[..k])|] == Layout(ds[..k])
    decreases |ds| - k
  {
    if k < |ds| {
      LayoutPrefix(ds, k + 1);
      var shorter := ds[..k + 1];
      assert shorter[..|shorter| - 1] == ds[..k];
      var a, b := Layout(ds[..k]), Layout(ds[..k + 1]);
      assert b == a + RunOf(ds[k], Label(k));
      assert Layout(ds)[..|a|] == Layout(ds)[..|b|][..|a|];
    } else {
      assert ds[..k] == ds;
    }
  }

  /** The layout is run k of value Label(k), for each k in order. */
  lemma LayoutSnoc(ds: seq<nat>, d: nat)
    ensures Layout(ds + [d]) == Layout(ds) + RunOf(d, Label(|ds|))
  {
    assert (ds + [d])[..|ds|] == ds;
  }

  // --------------------------------------------------------------- checksum

  function ChecksumFrom(blocks: seq<Block>, index: nat): nat
    decreases |blocks|
  {
    if blocks == [] then 0
    else (match blocks[0] case Some(id) => id * index case None => 0) + ChecksumFrom(blocks[1..], index + 1)
  }

  /** `checksum`: the sum of position times file id over the occupied blocks. */
  function Checksum(blocks: seq<Block>): nat
  {
    ChecksumFrom(blocks, 0)
  }

  /** A free run adds nothing to the checksum. */
  lemma {:induction false} ChecksumFree(n: nat, index: nat)
    ensures ChecksumFrom(RunOf(n, None), index) == 0
    decreases n
  {
    if n > 0 {
      assert RunOf(n, None)[1..] == RunOf(n - 1, None);
      ChecksumFree(n - 1, index + 1);
    }
  }

  /** Free blocks at the end add nothing to the checksum. */
  lemma {:induction false} ChecksumFreeTail(blocks: seq<Block>, index: nat, n: nat)
    ensures ChecksumFrom(blocks + RunOf(n, None), index) == ChecksumFrom(blocks, index)
    decreases |blocks|
  {
    if blocks == [] {
      assert blocks + RunOf(n, None) == RunOf(n, None);
      ChecksumFree(n, index);
    } else {
      assert (blocks + RunOf(n, None))[1..] == blocks[1..] + RunOf(n, None);
      ChecksumFreeTail(blocks[1..], index + 1, n);
    }
  }

  /** test_checksum */
  lemma ChecksumExample(blocks: seq<Block>)
    requires blocks == [Some(0), Some(0), Some(9), Some(9), Some(8), None, None]
    ensures Checksum(blocks) == 18 + 27 + 32
  {
    assert blocks[5..] == RunOf(2, None);
    ChecksumFree(2, 5);
    assert ChecksumFrom(blocks[4..], 4) == 32 by {
      assert blocks[4..][1..] == blocks[5..];
    }
    assert ChecksumFrom(blocks[3..], 3) == 27 + 32 by {
      assert blocks[3..][1..] == blocks[4..];
    }
    assert ChecksumFrom(blocks[2..], 2) == 18 + 27 + 32 by {
      assert blocks[2..][1..] == blocks[3..];
    }
    assert ChecksumFrom(blocks[1..], 1) == 18 + 27 + 32 by {
      assert blocks[1..][1..] == blocks[2..];
    }
  }

  // ------------------------------------------------------ compaction target

  /** The file ids of the occupied blocks, in order. */
  function Ids(b: seq<Block>): (r: seq<nat>)
    ensures |r| <= |b|
  {
    if b == [] then [] else (match b[0] case Some(id) => [id] case None => []) + Ids(b[1..])
  }

  function Reversed(s: seq<nat>): (r: seq<nat>)
    ensures |r| == |s| && forall k | 0 <= k < |s| :: r[k] == s[|s| - 1 - k]
  {
    seq(|s|, k requires 0 <= k < |s| => s[|s| - 1 - k])
  }

  /** Keep the occupied blocks of `p` and fill its holes, left to right, from `fillers`. */
  function FillHoles(p: seq<Block>, fillers: seq<nat>): (r: seq<Block>)
    ensures |r| == |p|
  {
    if p == [] then []
    else if p[0].Some? then [p[0]] + FillHoles(p[1..], fillers)
    else if fillers == [] then [None] + FillHoles(p[1..], [])
    else [Some(fillers[0])] + FillHoles(p[1..], fillers[1..])
  }

  /**
   * What block-by-block compaction should produce: with k occupied blocks,
   * the first k cells keep their files and take, hole by hole, the file
   * blocks lying at or after cell k, last one first; the rest is free.
   */
  function Expected(b: seq<Block>): (r: seq<Block>)
    ensures |r| == |b|
  {
    var k := |Ids(b)|;
    FillHoles(b[..k], Reversed(Ids(b[k..]))) + RunOf(|b| - k, None)
  }

  predicate AllUsed(s: seq<Block>)
  {
    forall i | 0 <= i < |s| :: s[i].Some?
  }

  predicate AllFree(s: seq<Block>)
  {
    forall i | 0 <= i < |s| :: s[i].None?
  }

  lemma {:induction false} IdsConcat(a: seq<Block>, b: seq<Block>)
    ensures Ids(a + b) == Ids(a) + Ids(b)
    decreases |a|
  {
    if a == [] {
      assert a + b == b;
    } else {
      assert (a + b)[1..] == a[1..] + b;
      IdsConcat(a[1..], b);
    }
  }

  lemma {:induction false} IdsAllUsed(s: seq<Block>)
    requires AllUsed(s)
    ensures |Ids(s)| == |s|
    decreases |s|
  {
    if s != [] {
      IdsAllUsed(s[1..]);
    }
  }

  lemma {:induction false} IdsAllFree(s: seq<Block>)
    requires AllFree(s)
    ensures Ids(s) == []
    decreases |s|
  {
    if s != [] {
      IdsAllFree(s[1..]);
    }
  }

  lemma {:induction false} FillHolesUsedPrefix(q: seq<Block>, t: seq<Block>, fillers: seq<nat>)
    requires AllUsed(q)
    ensures FillHoles(q + t, fillers) == q + FillHoles(t, fillers)
    decreases |q|
  {
    if q == [] {
      assert q + t == t;
    } else {
      assert (q + t)[0] == q[0] && (q + t)[1..] == q[1..] + t;
      FillHolesUsedPrefix(q[1..], t, fillers);
    }
  }

  lemma {:induction false} FillHolesAllUsed(q: seq<Block>, fillers: seq<nat>)
    requires AllUsed(q)
    ensures FillHoles(q, fillers) == q
  {
    FillHolesUsedPrefix(q, [], fillers);
    assert q + [] == q;
  }

  lemma ReversedSnoc(s: seq<nat>, x: nat)
    ensures Reversed(s + [x]) == [x] + Reversed(s)
  {
  }

  /** Where the k occupied blocks end: after the first hole and no later than the last file block. */
  lemma StepCount(b: seq<Block>, f: nat, l: nat)
    requires f < l < |b| && b[f].None? && b[l].Some?
    requires AllUsed(b[..f]) && AllFree(b[l + 1..])
    ensures |Ids(b[f := b[l]][l := None])| == |Ids(b)|
    ensures f < |Ids(b)| <= l
  {
    var head, mid, tail := b[..f], b[f + 1..l], b[l + 1..];
    assert b == head + [None] + mid + [b[l]] + tail;
    assert b[f := b[l]][l := None] == head + [b[l]] + mid + [None] + tail;
    SplitIds(head, mid, tail, None, b[l]);
    SplitIds(head, mid, tail, b[l], None);
    IdsAllUsed(head);
    IdsAllFree(tail);
  }

  /** Below cell k the swap fills the first hole with the first filler. */
  lemma StepHead(b: seq<Block>, f: nat, k: nat, id: nat, rest: seq<nat>)
    requires f < k <= |b| && b[f].None? && AllUsed(b[..f])
    ensures FillHoles(b[f := Some(id)][..k], rest) == FillHoles(b[..k], [id] + rest)
  {
    var head, after := b[..f], b[f + 1..k];
    assert b[..k] == head + ([None] + after);
    assert b[f := Some(id)][..k] == head + ([Some(id)] + after);
    FillHolesUsedPrefix(head, [None] + after, [id] + rest);
    FillHolesUsedPrefix(head, [Some(id)] + after, rest);
    assert ([None] + after)[1..] == after == ([Some(id)] + after)[1..];
  }

  /** From cell k on the swap removes the last file id. */
  lemma StepTail(b: seq<Block>, k: nat, l: nat)
    requires k <= l < |b| && b[l].Some? && AllFree(b[l + 1..])
    ensures Ids(b[k..]) == Ids(b[l := None][k..]) + [b[l].value]
  {
    var mid, tail := b[k..l], b[l + 1..];
    assert b[k..] == (mid + [b[l]]) + tail;
    assert b[l := None][k..] == (mid + [None]) + tail;
    IdsConcat(mid + [b[l]], tail);
    IdsConcat(mid, [b[l]]);
    IdsConcat(mid + [None], tail);
    IdsConcat(mid, [None]);
    assert Ids([None]) == [];
    assert Ids([b[l]]) == [b[l].value];
    IdsAllFree(tail);
  }

  /**
   * One step of part 1 keeps the target: swapping the last file block into
   * the first hole is exactly the first fill the target makes.
   */
  lemma StepKeepsExpected(b: seq<Block>, f: nat, l: nat)
    requires f < l < |b| && b[f].None? && b[l].Some?
    requires AllUsed(b[..f]) && AllFree(b[l + 1..])
    ensures Expected(b[f := b[l]][l := None]) == Expected(b)
  {
    var b' := b[f := b[l]][l := None];
    var id := b[l].value;
    StepCount(b, f, l);
    var k := |Ids(b)|;
    StepTail(b, k, l);
    var rest := Ids(b'[k..]);
    assert b'[k..] == b[l := None][k..];
    ReversedSnoc(rest, id);
    StepHead(b, f, k, id, Reversed(rest));
    assert b'[..k] == b[f := Some(id)][..k];
  }

  /** Ids of the five pieces a swap touches. */
  lemma SplitIds(head: seq<Block>, mid: seq<Block>, tail: seq<Block>, x: Block, y: Block)
    ensures |Ids(head + [x] + mid + [y] + tail)| == |Ids(head)| + |Ids([x])| + |Ids(mid)| + |Ids([y])| + |Ids(tail)|
  {
    IdsConcat(head + [x] + mid + [y], tail);
    IdsConcat(head + [x] + mid, [y]);
    IdsConcat(head + [x], mid);
    IdsConcat(head, [x]);
  }

  /** A compacted disk is its own target. */
  lemma CompactedIsExpected(b: seq<Block>, k: nat)
    requires k <= |b| && AllUsed(b[..k]) && AllFree(b[k..])
    ensures Expected(b) == b
  {
    assert b == b[..k] + b[k..];
    IdsConcat(b[..k], b[k..]);
    IdsAllUsed(b[..k]);
    IdsAllFree(b[k..]);
    FillHolesAllUsed(b[..k], []);
    assert b[k..] == RunOf(|b| - k, None);
  }

  // ------------------------------------------------------------------ disk

  /** `Files`: the blocks, the first free block and the last file block. */
  class Files {
    var blocks: seq<Block>
    var firstNone: nat
    var lastSome: nat

    /** The cursors point at the first free block and at the last file block. */
    predicate Valid()
      reads this
    {
      firstNone < |blocks| && blocks[firstNone].None? && AllUsed(blocks[..firstNone]) &&
      lastSome < |blocks| && blocks[lastSome].Some? && AllFree(blocks[lastSome + 1..])
    }

    /** `new` */
    constructor()
      ensures blocks == [] && firstNone == 0 && lastSome == 0
    {
      blocks, firstNone, lastSome := [], 0, 0;
    }

    /**
     * `step`: while the last file block lies after the first free block,
     * swap them and move both cursors to the next candidates.
     */
    method Step() returns (moved: bool)
      requires Valid()
      modifies this
      ensures Valid()
      ensures moved <==> old(lastSome) > old(firstNone)
      ensures moved ==> blocks == old(blocks)[old(firstNone) := old(blocks)[old(lastSome)]][old(lastSome) := None]
      ensures moved ==> firstNone > old(firstNone) && lastSome < old(lastSome)
      ensures !moved ==> blocks == old(blocks) && firstNone == old(firstNone) && lastSome == old(lastSome)
      ensures multiset(blocks) == multiset(old(blocks))
    {
      if lastSome > firstNone {
        var f, l := firstNone, lastSome;
        blocks := blocks[lastSome := blocks[firstNone]][firstNone := blocks[lastSome]];
        assert blocks == old(blocks)[f := old(blocks)[l]][l := None];
        SwapCounts(old(blocks), f, l);
        firstNone := SkipUsed(blocks, f, l);
        lastSome := SkipFree(blocks, l, f);
        assert firstNone > f && lastSome < l by {
          assert blocks[f].Some? && blocks[l].None?;
        }
        return true;
      } else {
        return false;
      }
    }

    /** `process`'s loop: step until nothing moves; the disk ends as the target says. */
    method Compact()
      requires Valid()
      modifies this
      ensures Valid() && lastSome < firstNone
      ensures AllUsed(blocks[..firstNone]) && AllFree(blocks[firstNone..])
      ensures blocks == Expected(old(blocks))
      ensures multiset(blocks) == multiset(old(blocks))
    {
      var moved := true;
      while moved
        invariant Valid()
        invariant Expected(blocks) == Expected(old(blocks))
        invariant multiset(blocks) == multiset(old(blocks))
        invariant !moved ==> lastSome <= firstNone
        decreases |blocks| + lastSome - firstNone, moved
      {
        ghost var b, f, l := blocks, firstNone, lastSome;
        moved := Step();
        if moved {
          StepKeepsExpected(b, f, l);
        }
      }
      assert lastSome != firstNone;
      assert AllFree(blocks[firstNone..]) by {
        forall i | firstNone <= i < |blocks| ensures blocks[i].None? {
          assert blocks[i] == blocks[lastSome + 1..][i - lastSome - 1];
        }
      }
      CompactedIsExpected(blocks, firstNone);
    }

    function ChecksumOf(): nat
      reads this
    {
      Checksum(blocks)
    }
  }

  /** `first_none` moves right over file blocks, up to a known free block `bound`. */
  method SkipUsed(blocks: seq<Block>, from: nat, ghost bound: nat) returns (i: nat)
    requires from <= bound < |blocks| && blocks[bound].None? && AllUsed(blocks[..from])
    ensures from <= i <= bound && blocks[i].None? && AllUsed(blocks[..i])
  {
    i := from;
    while blocks[i].Some?
      invariant from <= i <= bound && AllUsed(blocks[..i])
      decreases bound - i
    {
      i := i + 1;
      assert blocks[..i] == blocks[..i - 1] + [blocks[i - 1]];
    }
  }

  /** `last_some` moves left over free blocks, down to a known file block `bound`. */
  method SkipFree(blocks: seq<Block>, from: nat, ghost bound: nat) returns (i: nat)
    requires bound <= from < |blocks| && blocks[bound].Some? && AllFree(blocks[from + 1..])
    ensures bound <= i <= from && blocks[i].Some? && AllFree(blocks[i + 1..])
  {
    i := from;
    while blocks[i].None?
      invariant bound <= i <= from && AllFree(blocks[i + 1..])
      decreases i
    {
      assert blocks[i..] == [blocks[i]] + blocks[i + 1..];
      i := i - 1;
    }
  }

  /** A swap of two cells keeps the multiset of blocks. */
  lemma SwapCounts(b: seq<Block>, f: nat, l: nat)
    requires f < l < |b|
    ensures multiset(b[l := b[f]][f := b[l]]) == multiset(b)
  {
    var s := b[l := b[f]][f := b[l]];
    assert b == b[..f] + [b[f]] + b[f + 1..l] + [b[l]] + b[l + 1..];
    assert s == b[..f] + [b[l]] + b[f + 1..l] + [b[f]] + b[l + 1..];
  }

  // ---------------------------------------------------------------- parser

  /** Push `count` copies of `block`. */
  method PushRun(blocks: seq<Block>, count: nat, block: Block) returns (r: seq<Block>)
    ensures r == blocks + RunOf(count, block)
  {
    r := blocks;
    for k := 0 to count
      invariant r == blocks + RunOf(k, block)
    {
      r := r + [block];
    }
  }

  /** One round of `LayOut`: run `i` is file `id` or free space as `empty` alternates. */
  lemma LayoutStep(ds: seq<nat>, i: nat, empty: bool, id: nat)
    requires i < |ds| && (empty <==> i % 2 == 1) && id == (i + 1) / 2
    ensures Layout(ds[..i + 1]) == Layout(ds[..i]) + RunOf(ds[i], if empty then None else Some(id))
  {
    LayoutSnoc(ds[..i], ds[i]);
    assert ds[..i + 1] == ds[..i] + [ds[i]];
  }

  /** The layout loop of `parse`: push `count` copies of the block of each run. */
  method LayOut(input: string) returns (blocks: seq<Block>)
    requires forall i | 0 <= i < |input| :: IsDigitChar(input[i])
    ensures blocks == Layout(Digits(input))
  {
    var ds := Digits(input);
    var id := 0;
    var empty := false;
    blocks := [];
    for i := 0 to |input|
      invariant blocks == Layout(ds[..i])
      invariant empty <==> i % 2 == 1
      invariant id == (i + 1) / 2
    {
      var count := ds[i];
      var block := if empty then None else Some(id);
      LayoutStep(ds, i, empty, id);
      blocks := PushRun(blocks, count, block);
      empty := !empty;
      if empty {
        id := id + 1;
      }
    }
    assert ds[..|input|] == ds;
  }

  /** The first scan of `parse`: move `first_none` to the first free block. */
  method FirstFree(blocks: seq<Block>) returns (firstNone: nat)
    requires exists i | 0 <= i < |blocks| :: blocks[i].None?
    ensures firstNone < |blocks| && blocks[firstNone].None? && AllUsed(blocks[..firstNone])
  {
    firstNone := 0;
    while blocks[firstNone].Some?
      invariant firstNone < |blocks| && AllUsed(blocks[..firstNone])
      invariant exists i | firstNone <= i < |blocks| :: blocks[i].None?
      decreases |blocks| - firstNone
    {
      firstNone := firstNone + 1;
      assert blocks[..firstNone] == blocks[..firstNone - 1] + [blocks[firstNone - 1]];
    }
  }

  /**
   * The second scan of `parse` as written: it starts `last_some` at the
   * last block but, while that block is free, decrements `first_none`
   * instead, so it can only stop by underflowing `first_none`.
   */
  method LastUsedAsWritten(blocks: seq<Block>, firstNone: nat) returns (panics: bool, lastSome: nat, firstNone': nat)
    requires |blocks| > 0
    ensures panics <==> blocks[|blocks| - 1].None?
    ensures !panics ==> lastSome == |blocks| - 1 && firstNone' == firstNone
  {
    lastSome, firstNone' := |blocks| - 1, firstNone;
    while blocks[lastSome].None?
      invariant lastSome == |blocks| - 1
      invariant firstNone' != firstNone ==> blocks[lastSome].None?
      decreases firstNone'
    {
      if firstNone' == 0 {
        return true, lastSome, firstNone';
      }
      firstNone' := firstNone' - 1;
    }
    return false, lastSome, firstNone';
  }

  /** The second scan as intended: move `last_some` back to the last file block. */
  method LastUsed(blocks: seq<Block>) returns (lastSome: nat)
    requires exists i | 0 <= i < |blocks| :: blocks[i].Some?
    ensures lastSome < |blocks| && blocks[lastSome].Some? && AllFree(blocks[lastSome + 1..])
  {
    lastSome := |blocks| - 1;
    while blocks[lastSome].None?
      invariant lastSome < |blocks| && AllFree(blocks[lastSome + 1..])
      invariant exists i | 0 <= i <= lastSome :: blocks[i].Some?
      decreases lastSome
    {
      assert blocks[lastSome..] == [blocks[lastSome]] + blocks[lastSome + 1..];
      lastSome := lastSome - 1;
    }
  }

  /**
   * `parse`, with the second scan as intended.  The first scan walks off
   * the end of a disk without free space and the second underflows on a
   * disk without files: both panic, so both are required.
   */
  method Parse(input: string) returns (files: Files)
    requires forall i | 0 <= i < |input| :: IsDigitChar(input[i])
    requires exists i | 0 <= i < |Layout(Digits(input))| :: Layout(Digits(input))[i].None?
    requires exists i | 0 <= i < |Layout(Digits(input))| :: Layout(Digits(input))[i].Some?
    ensures fresh(files) && files.Valid() && files.blocks == Layout(Digits(input))
  {
    files := new Files();
    var blocks := LayOut(input);
    files.blocks := blocks;
    files.firstNone := FirstFree(blocks);
    files.lastSome := LastUsed(blocks);
  }

  /** `process`: parse, compact block by block, and sum the checksum. */
  method Process(input: string) returns (checksum: nat)
    requires forall i | 0 <= i < |input| :: IsDigitChar(input[i])
    requires exists i | 0 <= i < |Layout(Digits(input))| :: Layout(Digits(input))[i].None?
    requires exists i | 0 <= i < |Layout(Digits(input))| :: Layout(Digits(input))[i].Some?
    ensures checksum == Checksum(Expected(Layout(Digits(input))))
  {
    var files := Parse(input);
    files.Compact();
    checksum := files.ChecksumOf();
  }

  /** The layout of "12": one file block and two free blocks. */
  lemma TrailingFreeLayout(input: string)
    requires input == "12"
    ensures forall i | 0 <= i < |input| :: IsDigitChar(input[i])
    ensures Layout(Digits(input)) == [Some(0), None, None]
  {
    var ds := Digits(input);
    assert ds == [1, 2];
    assert ds[..1] == [1] && ds[..1][..0] == [];
    assert Layout(ds[..1]) == [Some(0)];
    assert ds[..|ds| - 1] == ds[..1];
  }

  /**
   * A disk map ending in free space: the parser as written panics, where
   * the intended scan leaves the last file block at 0 and the first free
   * block at 1.
   */
  method TrailingFreeExample() returns (panics: bool, files: Files)
    ensures panics
    ensures files.Valid() && files.lastSome == 0 && files.firstNone == 1
  {
    TrailingFreeLayout("12");
    var blocks := LayOut("12");
    assert blocks[0].Some? && blocks[1].None?;
    var firstNone := FirstFree(blocks);
    var lastSome, firstNone';
    panics, lastSome, firstNone' := LastUsedAsWritten(blocks, firstNone);
    files := Parse("12");
    assert files.blocks[..2] == [Some(0), None];
  }

  /** The first three runs of the sample map. */
  lemma LayoutThree(six: seq<nat>)
    requires |six| >= 3 && six[0] == 2 && six[1] == 3 && six[2] == 3
    ensures Layout(six[..3]) == [Some(0), Some(0), None, None, None, Some(1), Some(1), Some(1)]
  {
    var s0, s1, s2 := [Some(0), Some(0)], [None, None, None], [Some(1), Some(1), Some(1)];
    assert RunOf(2, Label(0)) == s0 && RunOf(3, Label(1)) == s1 && RunOf(3, Label(2)) == s2;
    assert six[..0] == [];
    LayoutSnoc(six[..0], six[0]);
    assert six[..1] == six[..0] + [six[0]];
    assert Layout(six[..1]) == s0;
    LayoutSnoc(six[..1], six[1]);
    assert six[..2] == six[..1] + [six[1]];
    assert Layout(six[..2]) == s0 + s1;
    LayoutSnoc(six[..2], six[2]);
    assert six[..3] == six[..2] + [six[2]];
  }

  /** The first six runs of the sample map: files 0, 1 and 2 with three free blocks after each. */
  lemma LayoutSix(six: seq<nat>)
    requires |six| == 6 && six[0] == 2 && six[1] == 3 && six[2] == 3 && six[3] == 3 && six[4] == 1 && six[5] == 3
    ensures Layout(six) == [Some(0), Some(0), None, None, None, Some(1), Some(1), Some(1),
                            None, None, None, Some(2), None, None, None]
  {
    var s3, s1, s4 := [Some(0), Some(0), None, None, None, Some(1), Some(1), Some(1)], [None, None, None], [Some(2)];
    assert RunOf(3, Label(3)) == s1 && RunOf(1, Label(4)) == s4 && RunOf(3, Label(5)) == s1;
    assert six[..6] == six;
    LayoutThree(six);
    LayoutSnoc(six[..3], six[3]);
    assert six[..4] == six[..3] + [six[3]];
    assert Layout(six[..4]) == s3 + s1;
    LayoutSnoc(six[..4], six[4]);
    assert six[..5] == six[..4] + [six[4]];
    assert Layout(six[..5]) == s3 + s1 + s4;
    LayoutSnoc(six[..5], six[5]);
    assert six[..6] == six[..5] + [six[5]];
  }

  /** test_parse: the first fifteen blocks of the sample. */
  lemma SampleLayout(input: string)
    requires input == "2333133121414131402"
    ensures forall i | 0 <= i < |input| :: IsDigitChar(input[i])
    ensures var b := Layout(Digits(input));
      |b| >= 15 && b[..15] == [Some(0), Some(0), None, None, None, Some(1), Some(1), Some(1),
                                None, None, None, Some(2), None, None, None]
  {
    var ds := Digits(input);
    assert input[0] == '2' && input[1] == '3' && input[2] == '3' && input[3] == '3' && input[4] == '1' && input[5] == '3';
    LayoutSix(ds[..6]);
    LayoutPrefix(ds, 6);
  }
}
