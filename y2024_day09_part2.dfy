/**
 * 2024 day 9, part 2: the same disk layout, now compacted a whole file at a
 * time.  The parser records the file spans and the free spans; each step
 * pops the last file span and swaps it into the first free span, left of
 * it, that is long enough.
 */
module Y2024Day09Part2 {
  import P1 = Y2024Day09Part1
  import opened Wrappers

  type Block = P1.Block

  /** A `(start, len)` pair of `free_blocks` or `used_blocks`. */
  datatype Span = Span(start: nat, len: nat)
  {
    function End(): nat { start + len }
  }

  /** The blocks and both span lists of `Files`. */
  datatype Disk = Disk(blocks: seq<Block>, free: seq<Span>, used: seq<Span>)

  // ------------------------------------------------------------ invariants

  /** Span `s` lies on the disk and its cells are all file blocks (`used`) or all free. */
  predicate Holds(b: seq<Block>, s: Span, used: bool)
  {
    s.End() <= |b| && forall k | s.start <= k < s.End() :: b[k].Some? == used
  }

  /** Spans listed left to right, none overlapping the next. */
  predicate Ordered(spans: seq<Span>)
  {
    forall i, j | 0 <= i < j < |spans| :: spans[i].End() <= spans[j].start
  }

  predicate AllHold(b: seq<Block>, spans: seq<Span>, used: bool)
  {
    forall j | 0 <= j < |spans| :: Holds(b, spans[j], used)
  }

  /** What the parser sets up and every step keeps. */
  predicate DiskOk(d: Disk)
  {
    Ordered(d.free) && Ordered(d.used) && AllHold(d.blocks, d.free, false) && AllHold(d.blocks, d.used, true)
  }

  // ------------------------------------------------------------------ step

  /** The test `position` applies: a free span left of the file with room for it. */
  predicate Fits(e: Span, file: Span)
  {
    file.start > e.start && e.len >= file.len
  }

  /** `position`: the first free span that fits, if any. */
  function FirstFit(free: seq<Span>, file: Span): (r: Option<nat>)
    ensures r.Some? ==> r.value < |free| && Fits(free[r.value], file)
    ensures r.Some? ==> forall j | 0 <= j < r.value :: !Fits(free[j], file)
    ensures r.None? ==> forall j | 0 <= j < |free| :: !Fits(free[j], file)
    decreases |free|
  {
    if free == [] then None
    else if Fits(free[0], file) then Some(0)
    else match FirstFit(free[1..], file)
      case None => None
      case Some(i) => Some(i + 1)
  }

  /** The cells after `for i in 0..n { swap(x + i, y + i) }`, for two ranges with the first before the second. */
  function SwapRanges(b: seq<Block>, x: nat, y: nat, n: nat): (r: seq<Block>)
    requires x + n <= y && y + n <= |b|
    ensures |r| == |b|
  {
    seq(|b|, k requires 0 <= k < |b| =>
      if x <= k < x + n then b[y + (k - x)] else if y <= k < y + n then b[x + (k - y)] else b[k])
  }

  /** A free span that fits a file lies wholly before it. */
  lemma FitBefore(d: Disk, e: Span, file: Span)
    requires AllHold(d.blocks, d.free, false) && AllHold(d.blocks, d.used, true)
    requires e in d.free && file in d.used && Fits(e, file)
    ensures e.start + file.len <= e.End() <= file.start || file.len == 0
    ensures file.End() <= |d.blocks|
  {
    assert Holds(d.blocks, e, false) && Holds(d.blocks, file, true);
    assert file.len == 0 || d.blocks[file.start].Some?;
  }

  /** `step`, as a function of the disk: pop the last file and move it if a span fits. */
  function StepDisk(d: Disk): (r: Disk)
    requires DiskOk(d)
    ensures DiskOk(r)
    ensures d.used == [] ==> r == d
    ensures d.used != [] ==> r.used == d.used[..|d.used| - 1]
  {
    StepDiskOk(d);
    StepUnchecked(d)
  }

  function StepUnchecked(d: Disk): (r: Disk)
    requires DiskOk(d)
  {
    if d.used == [] then d
    else
      var file := d.used[|d.used| - 1];
      var rest := d.used[..|d.used| - 1];
      match FirstFit(d.free, file)
      case None => Disk(d.blocks, d.free, rest)
      case Some(i) =>
        var e := d.free[i];
        FitBefore(d, e, file);
        Disk(SwapRanges(d.blocks, e.start, file.start, file.len), d.free[i := Span(e.start + file.len, e.len - file.len)], rest)
  }

  /** Cells outside both swapped ranges keep their blocks. */
  lemma SwapOutside(b: seq<Block>, x: nat, y: nat, n: nat, c: nat)
    requires x + n <= y && y + n <= |b| && c < |b|
    requires !(x <= c < x + n) && !(y <= c < y + n)
    ensures SwapRanges(b, x, y, n)[c] == b[c]
  {
  }

  /** Moving a file into a free range leaves every other file span's blocks in place. */
  lemma MoveKeepsUsed(b: seq<Block>, rest: seq<Span>, e: Span, file: Span)
    requires Holds(b, e, false) && Holds(b, file, true) && Fits(e, file) && e.start + file.len <= file.start
    requires AllHold(b, rest, true) && forall j | 0 <= j < |rest| :: rest[j].End() <= file.start
    ensures AllHold(SwapRanges(b, e.start, file.start, file.len), rest, true)
  {
    var x, y, n := e.start, file.start, file.len;
    var b' := SwapRanges(b, x, y, n);
    forall j | 0 <= j < |rest| ensures Holds(b', rest[j], true) {
      var u := rest[j];
      assert Holds(b, u, true);
      forall c | u.start <= c < u.End() ensures b'[c].Some? {
        // a cell holding a file block lies outside the free range filled
        assert b[c].Some?;
        SwapOutside(b, x, y, n, c);
      }
    }
  }

  /** Moving a file into free span i shrinks that span and keeps all free spans free and ordered. */
  lemma MoveKeepsFree(b: seq<Block>, free: seq<Span>, i: nat, file: Span)
    requires Ordered(free) && AllHold(b, free, false) && i < |free|
    requires Holds(b, file, true) && Fits(free[i], file) && free[i].start + file.len <= file.start
    ensures var e := free[i];
      var free' := free[i := Span(e.start + file.len, e.len - file.len)];
      Ordered(free') && AllHold(SwapRanges(b, e.start, file.start, file.len), free', false)
  {
    var e := free[i];
    var x, y, n := e.start, file.start, file.len;
    var b' := SwapRanges(b, x, y, n);
    var free' := free[i := Span(x + n, e.len - n)];
    assert Holds(b, e, false);
    forall j | 0 <= j < |free'| ensures Holds(b', free'[j], false) {
      var f := free'[j];
      if j == i {
        forall c | f.start <= c < f.End() ensures b'[c].None? {
          assert b[c].None?;
          SwapOutside(b, x, y, n, c);
        }
      } else {
        assert f == free[j] && Holds(b, f, false);
        assert f.End() <= e.start || e.End() <= f.start;
        forall c | f.start <= c < f.End() ensures b'[c].None? {
          assert b[c].None?;
          SwapOutside(b, x, y, n, c);
        }
      }
    }
    ShrinkKeepsOrdered(free, i, n);
  }

  /** A span shrunk from the left keeps a list of spans in order. */
  lemma ShrinkKeepsOrdered(free: seq<Span>, i: nat, n: nat)
    requires Ordered(free) && i < |free| && n <= free[i].len
    ensures Ordered(free[i := Span(free[i].start + n, free[i].len - n)])
  {
    var free' := free[i := Span(free[i].start + n, free[i].len - n)];
    forall j, k | 0 <= j < k < |free'| ensures free'[j].End() <= free'[k].start {
      assert free[j].End() <= free[k].start;
    }
  }

  /** The file spans left after popping the last one still hold and end before it. */
  lemma PopKeepsUsed(d: Disk)
    requires DiskOk(d) && d.used != []
    ensures var file, rest := d.used[|d.used| - 1], d.used[..|d.used| - 1];
      Ordered(rest) && AllHold(d.blocks, rest, true) && Holds(d.blocks, file, true) &&
      forall j | 0 <= j < |rest| :: rest[j].End() <= file.start
  {
    var file, rest := d.used[|d.used| - 1], d.used[..|d.used| - 1];
    forall j | 0 <= j < |rest| ensures Holds(d.blocks, rest[j], true) && rest[j].End() <= file.start {
      assert rest[j] == d.used[j];
    }
  }

  /** The disk after moving the popped file into free span i is in order. */
  lemma MoveOk(d: Disk, i: nat)
    requires DiskOk(d) && d.used != [] && i < |d.free| && Fits(d.free[i], d.used[|d.used| - 1])
    ensures var file, e := d.used[|d.used| - 1], d.free[i];
      e.start + file.len <= file.start && file.End() <= |d.blocks| &&
      DiskOk(Disk(SwapRanges(d.blocks, e.start, file.start, file.len),
                  d.free[i := Span(e.start + file.len, e.len - file.len)], d.used[..|d.used| - 1]))
  {
    var file, e := d.used[|d.used| - 1], d.free[i];
    FitBefore(d, e, file);
    PopKeepsUsed(d);
    MoveKeepsUsed(d.blocks, d.used[..|d.used| - 1], e, file);
    MoveKeepsFree(d.blocks, d.free, i, file);
  }

  /** A step keeps the spans ordered and each span's cells all used or all free. */
  lemma StepDiskOk(d: Disk)
    requires DiskOk(d)
    ensures DiskOk(StepUnchecked(d))
  {
    if d.used != [] {
      var file, rest := d.used[|d.used| - 1], d.used[..|d.used| - 1];
      var fit := FirstFit(d.free, file);
      if fit.Some? {
        var i := fit.value;
        var e := d.free[i];
        MoveOk(d, i);
        assert StepUnchecked(d) ==
          Disk(SwapRanges(d.blocks, e.start, file.start, file.len), d.free[i := Span(e.start + file.len, e.len - file.len)], rest);
      } else {
        PopKeepsUsed(d);
        assert StepUnchecked(d) == Disk(d.blocks, d.free, rest);
      }
    }
  }

  /** A moved file lands at the start of the first fitting span, and its old cells are free. */
  lemma StepMovesLeft(d: Disk)
    requires DiskOk(d) && d.used != []
    ensures var file := d.used[|d.used| - 1];
      match FirstFit(d.free, file)
      case None => StepDisk(d).blocks == d.blocks && StepDisk(d).free == d.free
      case Some(i) =>
        var e := d.free[i];
        e.start < file.start &&
        StepDisk(d).free == d.free[i := Span(e.start + file.len, e.len - file.len)] &&
        StepDisk(d).blocks[e.start..e.start + file.len] == d.blocks[file.start..file.End()] &&
        P1.AllFree(StepDisk(d).blocks[file.start..file.End()])
  {
    var file := d.used[|d.used| - 1];
    match FirstFit(d.free, file)
    case None =>
    case Some(i) =>
      var e := d.free[i];
      FitBefore(d, e, file);
      assert Holds(d.blocks, e, false);
      var b' := StepDisk(d).blocks;
      forall k | 0 <= k < file.len ensures b'[file.start..file.End()][k].None? {
        assert d.blocks[e.start + k].None?;
      }
      assert b'[e.start..e.start + file.len] == d.blocks[file.start..file.End()];
  }

  /** One exchange more of the two ranges. */
  lemma SwapRangesNext(b: seq<Block>, x: nat, y: nat, k: nat)
    requires x + k + 1 <= y && y + k + 1 <= |b|
    ensures var r := SwapRanges(b, x, y, k);
      r[y + k := r[x + k]][x + k := r[y + k]] == SwapRanges(b, x, y, k + 1)
  {
  }

  lemma {:induction false} SwapRangesCounts(b: seq<Block>, x: nat, y: nat, n: nat)
    requires x + n <= y && y + n <= |b|
    ensures multiset(SwapRanges(b, x, y, n)) == multiset(b)
    decreases n
  {
    if n == 0 {
      assert SwapRanges(b, x, y, 0) == b;
    } else {
      SwapRangesCounts(b, x, y, n - 1);
      SwapRangesNext(b, x, y, n - 1);
      P1.SwapCounts(SwapRanges(b, x, y, n - 1), x + n - 1, y + n - 1);
    }
  }

  /** A step only exchanges cells: the blocks are the same multiset. */
  lemma StepDiskCounts(d: Disk)
    requires DiskOk(d)
    ensures multiset(StepDisk(d).blocks) == multiset(d.blocks)
  {
    if d.used != [] {
      var file := d.used[|d.used| - 1];
      match FirstFit(d.free, file)
      case None =>
      case Some(i) =>
        var e := d.free[i];
        FitBefore(d, e, file);
        SwapRangesCounts(d.blocks, e.start, file.start, file.len);
    }
  }

  /** `process`'s loop: step until no file span is left. */
  function Defrag(d: Disk): (r: Disk)
    requires DiskOk(d)
    ensures DiskOk(r) && r.used == []
    decreases |d.used|
  {
    if d.used == [] then d else Defrag(StepDisk(d))
  }

  /** Compaction moves whole files around and loses or invents no block. */
  lemma {:induction false} DefragCounts(d: Disk)
    requires DiskOk(d)
    ensures multiset(Defrag(d).blocks) == multiset(d.blocks)
    ensures |Defrag(d).blocks| == |d.blocks|
    decreases |d.used|
  {
    if d.used != [] {
      StepDiskCounts(d);
      DefragCounts(StepDisk(d));
      assert |StepDisk(d).blocks| == |d.blocks| by {
        StepLength(d);
      }
    }
  }

  lemma StepLength(d: Disk)
    requires DiskOk(d)
    ensures |StepDisk(d).blocks| == |d.blocks|
  {
  }

  // ---------------------------------------------------------------- parser

  /** A chunk of `chunk_by`: non-empty, every block the same. */
  predicate IsRun(c: seq<Block>)
  {
    c != [] && forall k | 0 <= k < |c| :: c[k] == c[0]
  }

  function Flatten(cs: seq<seq<Block>>): seq<Block>
    decreases |cs|
  {
    if cs == [] then [] else cs[0] + Flatten(cs[1..])
  }

  /** Length of the run of blocks equal to the first. */
  function LeadRun(b: seq<Block>): (n: nat)
    requires b != []
    ensures 1 <= n <= |b| && forall k | 0 <= k < n :: b[k] == b[0]
    ensures n < |b| ==> b[n] != b[0]
    decreases |b|
  {
    if |b| == 1 || b[1] != b[0] then 1 else 1 + LeadRun(b[1..])
  }

  /** `chunk_by(|a, b| a == b)`: runs of equal blocks that together make up the disk. */
  function ChunkBy(b: seq<Block>): (cs: seq<seq<Block>>)
    ensures Flatten(cs) == b
    ensures forall j | 0 <= j < |cs| :: IsRun(cs[j])
    decreases |b|
  {
    if b == [] then []
    else
      var n := LeadRun(b);
      assert b[..n] + b[n..] == b;
      [b[..n]] + ChunkBy(b[n..])
  }

  /** The chunks are maximal: neighbouring chunks hold different blocks. */
  lemma {:induction false} ChunksMaximal(b: seq<Block>)
    ensures var cs := ChunkBy(b);
      (cs != [] ==> b != [] && cs[0][0] == b[0]) &&
      forall j | 0 <= j < |cs| - 1 :: cs[j][0] != cs[j + 1][0]
    decreases |b|
  {
    if b != [] {
      var n := LeadRun(b);
      var cs, rest := ChunkBy(b), ChunkBy(b[n..]);
      assert cs == [b[..n]] + rest;
      ChunksMaximal(b[n..]);
      forall j | 0 <= j < |cs| - 1 ensures cs[j][0] != cs[j + 1][0] {
        if j == 0 {
          assert cs[1] == rest[0] && rest[0][0] == b[n];
        } else {
          assert cs[j] == rest[j - 1] && cs[j + 1] == rest[j];
        }
      }
    }
  }

  /**
   * The spans the chunk loop pushes: each chunk of file blocks (`used`) or of
   * free blocks starts where the chunks before it end.
   */
  function SpansOf(cs: seq<seq<Block>>, used: bool): seq<Span>
    requires forall j | 0 <= j < |cs| :: IsRun(cs[j])
    decreases |cs|
  {
    if cs == [] then []
    else
      var init, c := cs[..|cs| - 1], cs[|cs| - 1];
      assert IsRun(cs[|cs| - 1]);
      SpansOf(init, used) + (if c[0].Some? == used then [Span(|Flatten(init)|, |c|)] else [])
  }

  lemma {:induction false} FlattenConcat(a: seq<seq<Block>>, b: seq<seq<Block>>)
    ensures Flatten(a + b) == Flatten(a) + Flatten(b)
    decreases |a|
  {
    if a == [] {
      assert a + b == b;
    } else {
      assert (a + b)[1..] == a[1..] + b;
      FlattenConcat(a[1..], b);
    }
  }

  lemma FlattenSnoc(cs: seq<seq<Block>>, c: seq<Block>)
    ensures Flatten(cs + [c]) == Flatten(cs) + c
  {
    FlattenConcat(cs, [c]);
    assert Flatten([c]) == c + Flatten([]);
  }

  /** The spans of the chunks of a disk are ordered and hold on it. */
  lemma {:induction false} SpansOfOk(cs: seq<seq<Block>>, used: bool)
    requires forall j | 0 <= j < |cs| :: IsRun(cs[j])
    ensures Ordered(SpansOf(cs, used)) && AllHold(Flatten(cs), SpansOf(cs, used), used)
    ensures forall j | 0 <= j < |SpansOf(cs, used)| :: SpansOf(cs, used)[j].End() <= |Flatten(cs)|
    decreases |cs|
  {
    if cs != [] {
      var init, c := cs[..|cs| - 1], cs[|cs| - 1];
      SpansOfOk(init, used);
      assert cs == init + [c];
      FlattenSnoc(init, c);
      var a, spans := Flatten(init), SpansOf(init, used);
      forall j | 0 <= j < |spans| ensures Holds(a + c, spans[j], used) {
        assert Holds(a, spans[j], used);
        forall k | spans[j].start <= k < spans[j].End() ensures (a + c)[k] == a[k] { }
      }
      if c[0].Some? == used {
        var s := Span(|a|, |c|);
        forall k | s.start <= k < s.End() ensures (a + c)[k].Some? == used {
          assert (a + c)[k] == c[k - |a|];
        }
        assert SpansOf(cs, used) == spans + [s];
      } else {
        assert SpansOf(cs, used) == spans;
      }
    }
  }

  /** What `parse` builds from a layout: its blocks and the spans of its chunks. */
  function Parsed(b: seq<Block>): (d: Disk)
    ensures DiskOk(d) && d.blocks == b
  {
    SpansOfOk(ChunkBy(b), false);
    SpansOfOk(ChunkBy(b), true);
    Disk(b, SpansOf(ChunkBy(b), false), SpansOf(ChunkBy(b), true))
  }

  /** The chunk loop of `parse`, with `i` the start of the current chunk. */
  method SplitChunks(blocks: seq<Block>) returns (free: seq<Span>, used: seq<Span>)
    ensures Disk(blocks, free, used) == Parsed(blocks)
  {
    var chunks := ChunkBy(blocks);
    var i := 0;
    free, used := [], [];
    for j := 0 to |chunks|
      invariant i == |Flatten(chunks[..j])|
      invariant free == SpansOf(chunks[..j], false) && used == SpansOf(chunks[..j], true)
    {
      var chunk := chunks[j];
      assert chunks[..j + 1][..j] == chunks[..j] && chunks[..j + 1] == chunks[..j] + [chunk];
      FlattenSnoc(chunks[..j], chunk);
      if chunk[0].Some? {
        used := used + [Span(i, |chunk|)];
      } else {
        free := free + [Span(i, |chunk|)];
      }
      i := i + |chunk|;
    }
    assert chunks[..|chunks|] == chunks;
  }

  // ------------------------------------------------------------------ disk

  /** `Files`: the blocks with the free spans and the file spans. */
  class Files {
    var blocks: seq<Block>
    var free: seq<Span>
    var used: seq<Span>

    function State(): Disk
      reads this
    {
      Disk(blocks, free, used)
    }

    /** `new` */
    constructor()
      ensures State() == Disk([], [], [])
    {
      blocks, free, used := [], [], [];
    }

    /** `step`: false once no file span is left; otherwise one file is popped and maybe moved. */
    method Step() returns (more: bool)
      requires DiskOk(State())
      modifies this
      ensures more <==> old(used) != []
      ensures State() == StepDisk(old(State()))
    {
      if used == [] {
        return false;
      }
      ghost var d := State();
      var file := used[|used| - 1];
      used := used[..|used| - 1];
      var fit := FirstFit(free, file);
      if fit.Some? {
        var e := free[fit.value];
        FitBefore(d, e, file);
        blocks := SwapRun(blocks, e.start, file.start, file.len);
        free := free[fit.value := Span(e.start + file.len, e.len - file.len)];
      }
      return true;
    }

    /** `while files.step() {}` */
    method Compact()
      requires DiskOk(State())
      modifies this
      ensures State() == Defrag(old(State()))
    {
      var more := true;
      while more
        invariant DiskOk(State())
        invariant Defrag(State()) == Defrag(old(State()))
        invariant !more ==> used == []
        decreases |used|, more
      {
        more := Step();
      }
    }
  }

  /** The swap loop of `step`. */
  method SwapRun(blocks: seq<Block>, x: nat, y: nat, n: nat) returns (r: seq<Block>)
    requires x + n <= y && y + n <= |blocks|
    ensures r == SwapRanges(blocks, x, y, n)
  {
    r := blocks;
    for k := 0 to n
      invariant r == SwapRanges(blocks, x, y, k)
    {
      SwapRangesNext(blocks, x, y, k);
      r := r[y + k := r[x + k]][x + k := r[y + k]];
    }
  }

  /** `parse`: lay the map out, then split it into file spans and free spans. */
  method Parse(input: string) returns (files: Files)
    requires forall i | 0 <= i < |input| :: P1.IsDigitChar(input[i])
    ensures fresh(files) && files.State() == Parsed(P1.Layout(P1.Digits(input)))
  {
    files := new Files();
    var blocks := P1.LayOut(input);
    var free, used := SplitChunks(blocks);
    files.blocks, files.free, files.used := blocks, free, used;
  }

  /** `process`: parse, move whole files, and sum the checksum. */
  method Process(input: string) returns (checksum: nat)
    requires forall i | 0 <= i < |input| :: P1.IsDigitChar(input[i])
    ensures checksum == P1.Checksum(Defrag(Parsed(P1.Layout(P1.Digits(input)))).blocks)
  {
    var files := Parse(input);
    files.Compact();
    checksum := P1.Checksum(files.blocks);
  }
}
