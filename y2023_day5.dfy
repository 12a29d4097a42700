// 2023 day 5: the almanac's translation tables (a range map from source ranges to target
// starts) and the merging of range lists.
module Y2023Day5 {
  import opened Wrappers

  function Min(a: nat, b: nat): nat { if a <= b then a else b }
  function Max(a: nat, b: nat): nat { if a <= b then b else a }

  /** A half-open range `start..end`, as `Range<u64>`. */
  datatype Span = Span(start: nat, end: nat)

  /** One range of a table's range map with its value: `Some(target)` maps `start..end` onto
      `target..`, `None` marks a gap that translates to itself. */
  datatype Segment = Segment(start: nat, end: nat, target: Option<nat>)

  predicate Contains(s: Segment, key: nat) {
    s.start <= key < s.end
  }

  predicate Apart(x: Segment, y: Segment) {
    x.end <= y.start || y.end <= x.start
  }

  /** The range map's own invariant: its ranges are non-empty and do not overlap. */
  predicate WellFormed(segs: seq<Segment>) {
    (forall i | 0 <= i < |segs| :: segs[i].start < segs[i].end) &&
    (forall i, j | 0 <= i < j < |segs| :: Apart(segs[i], segs[j]))
  }

  /** `get_key_value`: the range holding `key`, if there is one. */
  function Lookup(segs: seq<Segment>, key: nat): (r: Option<Segment>)
    ensures r.Some? ==> r.value in segs && Contains(r.value, key)
    ensures r.None? <==> forall s | s in segs :: !Contains(s, key)
  {
    if segs == [] then None
    else if Contains(segs[0], key) then Some(segs[0])
    else Lookup(segs[1..], key)
  }

  /** In a well-formed map, the range holding a key is the only one. */
  lemma LookupUnique(segs: seq<Segment>, key: nat, s: Segment)
    requires WellFormed(segs) && s in segs && Contains(s, key)
    ensures Lookup(segs, key) == Some(s)
  {
  }

  lemma {:induction false} LookupConcat(p: seq<Segment>, q: seq<Segment>, key: nat)
    ensures Lookup(p + q, key) == if Lookup(p, key).Some? then Lookup(p, key) else Lookup(q, key)
  {
    if p == [] {
      assert p + q == q;
    } else {
      assert (p + q)[0] == p[0] && (p + q)[1..] == p[1..] + q;
      LookupConcat(p[1..], q, key);
    }
  }

  /** Where a range sends `key`: `key - range.start + val`, or `key` itself for a gap. */
  function Image(s: Segment, key: nat): nat
    requires s.start <= key
  {
    match s.target
    case Some(v) => key - s.start + v
    case None => key
  }

  /** `Table::translate` on the table's ranges. */
  function TranslateIn(segs: seq<Segment>, key: nat): nat {
    match Lookup(segs, key)
    case None => key
    case Some(s) => Image(s, key)
  }

  /** In a well-formed map, a key outside every range translates to itself and a key inside a
      range is offset by that range. */
  lemma TranslateMeaning(segs: seq<Segment>, key: nat)
    requires WellFormed(segs)
    ensures (forall s | s in segs :: !Contains(s, key)) ==> TranslateIn(segs, key) == key
    ensures forall s | s in segs && Contains(s, key) :: TranslateIn(segs, key) == Image(s, key)
  {
    forall s | s in segs && Contains(s, key)
      ensures TranslateIn(segs, key) == Image(s, key)
    {
      LookupUnique(segs, key, s);
    }
  }

  /** What is left of `s` once `a..b` is written over it: its part before `a` and its part from
      `b`, each keeping its old value. */
  function Clip(s: Segment, a: nat, b: nat): seq<Segment> {
    (if s.start < Min(s.end, a) then [Segment(s.start, Min(s.end, a), s.target)] else []) +
    (if Max(s.start, b) < s.end then [Segment(Max(s.start, b), s.end, s.target)] else [])
  }

  function ClipAll(segs: seq<Segment>, a: nat, b: nat): seq<Segment> {
    if segs == [] then [] else Clip(segs[0], a, b) + ClipAll(segs[1..], a, b)
  }

  /** `RangeMap::insert(a..b, v)`: the new range replaces whatever it overlaps (the library
      panics on an empty range). Touching ranges with equal values are not merged here; see
      `InsertAsWritten`. */
  function Insert(segs: seq<Segment>, a: nat, b: nat, v: Option<nat>): seq<Segment>
    requires a < b
  {
    ClipAll(segs, a, b) + [Segment(a, b, v)]
  }

  /** The part of the range `t` that still holds `key` once `a..b` is written over it. */
  function Survivor(t: Segment, a: nat, b: nat, key: nat): Segment {
    if key < a then Segment(t.start, Min(t.end, a), t.target) else Segment(Max(t.start, b), t.end, t.target)
  }

  lemma {:induction false} ClipAllLookup(segs: seq<Segment>, a: nat, b: nat, key: nat)
    requires a < b && (key < a || b <= key)
    ensures Lookup(ClipAll(segs, a, b), key) ==
      match Lookup(segs, key)
      case None => None
      case Some(t) => Some(Survivor(t, a, b, key))
  {
    if segs != [] {
      var s := segs[0];
      LookupConcat(Clip(s, a, b), ClipAll(segs[1..], a, b), key);
      ClipAllLookup(segs[1..], a, b, key);
      if Contains(s, key) {
        if key < a {
          assert Clip(s, a, b)[0] == Survivor(s, a, b, key);
        } else if s.start < Min(s.end, a) {
          assert Clip(s, a, b) == [Segment(s.start, Min(s.end, a), s.target), Survivor(s, a, b, key)];
        } else {
          assert Clip(s, a, b) == [Survivor(s, a, b, key)];
        }
      } else {
        assert Lookup(Clip(s, a, b), key).None?;
      }
    }
  }

  lemma {:induction false} ClipAllAvoids(segs: seq<Segment>, a: nat, b: nat, key: nat)
    requires a <= key < b
    ensures Lookup(ClipAll(segs, a, b), key).None?
  {
    if segs != [] {
      LookupConcat(Clip(segs[0], a, b), ClipAll(segs[1..], a, b), key);
      ClipAllAvoids(segs[1..], a, b, key);
    }
  }

  /** After `Insert`, a key inside `a..b` is found in the new range; any other key is found in
      what survives of its old range. */
  lemma InsertLookup(segs: seq<Segment>, a: nat, b: nat, v: Option<nat>, key: nat)
    requires a < b
    ensures Lookup(Insert(segs, a, b, v), key) ==
      if a <= key < b then Some(Segment(a, b, v))
      else match Lookup(segs, key)
        case None => None
        case Some(t) => Some(Survivor(t, a, b, key))
  {
    LookupConcat(ClipAll(segs, a, b), [Segment(a, b, v)], key);
    if a <= key < b {
      ClipAllAvoids(segs, a, b, key);
    } else {
      ClipAllLookup(segs, a, b, key);
    }
  }

  /** A piece cut from `s` lies inside `s`, is non-empty and stays clear of `a..b`. */
  predicate PieceOf(p: Segment, s: Segment, a: nat, b: nat) {
    s.start <= p.start < p.end <= s.end && (p.end <= a || b <= p.start)
  }

  lemma WellFormedConcat(p: seq<Segment>, q: seq<Segment>)
    requires WellFormed(p) && WellFormed(q)
    requires forall x, y | x in p && y in q :: Apart(x, y)
    ensures WellFormed(p + q)
  {
    var r := p + q;
    forall i, j | 0 <= i < j < |r|
      ensures Apart(r[i], r[j])
    {
      if j < |p| {
        assert r[i] == p[i] && r[j] == p[j];
      } else if i < |p| {
        assert r[i] == p[i] && r[j] == q[j - |p|];
      } else {
        assert r[i] == q[i - |p|] && r[j] == q[j - |p|];
      }
    }
  }

  lemma WellFormedTail(segs: seq<Segment>)
    requires WellFormed(segs) && segs != []
    ensures WellFormed(segs[1..]) && forall t | t in segs[1..] :: Apart(segs[0], t)
  {
    var rest := segs[1..];
    forall i, j | 0 <= i < j < |rest|
      ensures Apart(rest[i], rest[j])
    {
      assert rest[i] == segs[i + 1] && rest[j] == segs[j + 1];
    }
    forall t | t in rest
      ensures Apart(segs[0], t)
    {
      var j :| 0 <= j < |rest| && rest[j] == t;
      assert segs[j + 1] == t;
    }
  }

  lemma ClipShape(s: Segment, a: nat, b: nat)
    requires s.start < s.end && a < b
    ensures WellFormed(Clip(s, a, b)) && forall p | p in Clip(s, a, b) :: PieceOf(p, s, a, b)
  {
  }

  lemma {:induction false} ClipAllPieces(segs: seq<Segment>, a: nat, b: nat)
    requires WellFormed(segs) && a < b
    ensures WellFormed(ClipAll(segs, a, b))
    ensures forall p | p in ClipAll(segs, a, b) :: p.end <= a || b <= p.start
  {
    if segs != [] {
      var s, rest := segs[0], segs[1..];
      WellFormedTail(segs);
      ClipAllPieces(rest, a, b);
      ClipShape(s, a, b);
      ClipAllWithin(rest, a, b);
      var left := Clip(s, a, b);
      forall x, y | x in left && y in ClipAll(rest, a, b)
        ensures Apart(x, y)
      {
        var t :| t in rest && y.start >= t.start && y.end <= t.end;
        assert Apart(s, t);
      }
      WellFormedConcat(left, ClipAll(rest, a, b));
    }
  }

  lemma {:induction false} ClipAllWithin(segs: seq<Segment>, a: nat, b: nat)
    ensures forall p | p in ClipAll(segs, a, b) :: exists t | t in segs :: p.start >= t.start && p.end <= t.end
  {
    if segs != [] {
      ClipAllWithin(segs[1..], a, b);
      forall p | p in ClipAll(segs, a, b)
        ensures exists t | t in segs :: p.start >= t.start && p.end <= t.end
      {
        if p in Clip(segs[0], a, b) {
          assert segs[0] in segs;
        } else {
          assert p in ClipAll(segs[1..], a, b);
          var t :| t in segs[1..] && p.start >= t.start && p.end <= t.end;
          assert t in segs;
        }
      }
    }
  }

  lemma InsertWellFormed(segs: seq<Segment>, a: nat, b: nat, v: Option<nat>)
    requires WellFormed(segs) && a < b
    ensures WellFormed(Insert(segs, a, b, v))
  {
    ClipAllPieces(segs, a, b);
    WellFormedConcat(ClipAll(segs, a, b), [Segment(a, b, v)]);
  }

  /** Every key below `max`, and no other, lies in some range. */
  ghost predicate Covers(segs: seq<Segment>, max: nat) {
    forall key: nat :: Lookup(segs, key).Some? <==> key < max
  }

  /** Inserting `a..b` keeps the translation of every key below `a`, and of every key from `b`
      on whose range starts at or after `b`; keys in `a..b` now go through the new range. */
  lemma InsertTranslate(segs: seq<Segment>, a: nat, b: nat, v: Option<nat>, key: nat)
    requires a < b
    ensures a <= key < b ==> TranslateIn(Insert(segs, a, b, v), key) == Image(Segment(a, b, v), key)
    ensures key < a ==> TranslateIn(Insert(segs, a, b, v), key) == TranslateIn(segs, key)
    ensures b <= key && (Lookup(segs, key).None? || b <= Lookup(segs, key).value.start) ==>
      TranslateIn(Insert(segs, a, b, v), key) == TranslateIn(segs, key)
  {
    InsertLookup(segs, a, b, v, key);
  }

  lemma InsertCovers(segs: seq<Segment>, a: nat, b: nat, v: Option<nat>, max: nat)
    requires a < b && Covers(segs, max) && a <= max
    ensures Covers(Insert(segs, a, b, v), Max(max, b))
  {
    forall key: nat
      ensures Lookup(Insert(segs, a, b, v), key).Some? <==> key < Max(max, b)
    {
      InsertLookup(segs, a, b, v, key);
    }
  }

  /** The ranges after `Table::add(start, length, target)` on a table filled up to `max`: the gap
      `max..start` (if any) as a `None` range, then `start..start + length` onto `target`. */
  function Placed(segs: seq<Segment>, max: nat, start: nat, length: nat, target: nat): seq<Segment>
    requires 0 < length
  {
    var filled := if start > max then Insert(segs, max, start, None) else segs;
    Insert(filled, start, start + length, Some(target))
  }

  lemma InsertValid(segs: seq<Segment>, a: nat, b: nat, v: Option<nat>, max: nat)
    requires WellFormed(segs) && Covers(segs, max) && a < b && a <= max
    ensures WellFormed(Insert(segs, a, b, v)) && Covers(Insert(segs, a, b, v), Max(max, b))
  {
    InsertWellFormed(segs, a, b, v);
    InsertCovers(segs, a, b, v, max);
  }

  /** `add` keeps the table well formed and covering exactly `0..max(max, start + length)`. */
  lemma PlacedValid(segs: seq<Segment>, max: nat, start: nat, length: nat, target: nat)
    requires WellFormed(segs) && Covers(segs, max) && 0 < length
    ensures WellFormed(Placed(segs, max, start, length, target))
    ensures Covers(Placed(segs, max, start, length, target), Max(max, start + length))
  {
    var filled := if start > max then Insert(segs, max, start, None) else segs;
    var reach := if start > max then start else max;
    if start > max {
      InsertValid(segs, max, start, None, max);
    }
    InsertValid(filled, start, start + length, Some(target), reach);
  }

  /** Filling the gap `max..start` changes no translation, and leaves the range of every key at
      or past `start` as it was. */
  lemma GapKeeps(segs: seq<Segment>, max: nat, start: nat, key: nat)
    requires Covers(segs, max) && max < start
    ensures TranslateIn(Insert(segs, max, start, None), key) == TranslateIn(segs, key)
    ensures start <= key ==> Lookup(Insert(segs, max, start, None), key) == Lookup(segs, key)
  {
    InsertLookup(segs, max, start, None, key);
    if key >= max {
      assert Lookup(segs, key).None?;
    }
  }

  /** After `add`, keys in `start..start + length` are offset onto `target`, keys below `start`
      translate as before, and so do keys past the new range whose old range started past it. */
  lemma PlacedTranslate(segs: seq<Segment>, max: nat, start: nat, length: nat, target: nat, key: nat)
    requires Covers(segs, max) && 0 < length
    ensures start <= key < start + length ==>
      TranslateIn(Placed(segs, max, start, length, target), key) == key - start + target
    ensures key < start ==>
      TranslateIn(Placed(segs, max, start, length, target), key) == TranslateIn(segs, key)
    ensures start + length <= key && (Lookup(segs, key).None? || start + length <= Lookup(segs, key).value.start) ==>
      TranslateIn(Placed(segs, max, start, length, target), key) == TranslateIn(segs, key)
  {
    var filled := if start > max then Insert(segs, max, start, None) else segs;
    if start > max {
      GapKeeps(segs, max, start, key);
    }
    InsertTranslate(filled, start, start + length, Some(target), key);
  }

  /** `Table::extend` fills `max..length` with a gap range, which changes no translation. */
  lemma ExtendKeeps(segs: seq<Segment>, max: nat, length: nat, key: nat)
    requires WellFormed(segs) && Covers(segs, max) && max < length
    ensures WellFormed(Insert(segs, max, length, None)) && Covers(Insert(segs, max, length, None), length)
    ensures TranslateIn(Insert(segs, max, length, None), key) == TranslateIn(segs, key)
  {
    InsertWellFormed(segs, max, length, None);
    InsertCovers(segs, max, length, None, max);
    InsertTranslate(segs, max, length, None, key);
  }

  /** The pieces `translate_range` maps `start..end` to: the part inside each range it meets,
      offset by that range, and the rest unchanged once no range holds the cursor. */
  function Pieces(segs: seq<Segment>, start: nat, end: nat): seq<Span>
    decreases end - start
  {
    if start >= end then []
    else match Lookup(segs, start)
      case None => [Span(start, end)]
      case Some(seg) =>
        var stop := if seg.end >= end then end else seg.end;
        [Span(Image(seg, start), Image(seg, stop))] + Pieces(segs, stop, end)
  }

  /** The pieces as written: each piece is closed at the image of the requested end, even when
      its range stops short of it. */
  function PiecesAsWritten(segs: seq<Segment>, start: nat, end: nat): seq<Span>
    decreases end - start
  {
    if start >= end then []
    else match Lookup(segs, start)
      case None => [Span(start, end)]
      case Some(seg) =>
        var stop := if seg.end >= end then end else seg.end;
        [Span(Image(seg, start), Image(seg, end))] + PiecesAsWritten(segs, stop, end)
  }

  /** Some span of the list holds `y`. */
  predicate Hit(spans: seq<Span>, y: nat) {
    exists sp | sp in spans :: sp.start <= y < sp.end
  }

  /** On a table covering exactly `0..max`, the pieces of `start..end` hold exactly the
      translations of its keys. */
  lemma {:induction false} PiecesImage(segs: seq<Segment>, max: nat, start: nat, end: nat)
    requires WellFormed(segs) && Covers(segs, max)
    ensures forall x | start <= x < end :: Hit(Pieces(segs, start, end), TranslateIn(segs, x))
    ensures forall y | Hit(Pieces(segs, start, end), y) :: exists x :: start <= x < end && TranslateIn(segs, x) == y
    decreases end - start
  {
    if start < end {
      var r := Pieces(segs, start, end);
      match Lookup(segs, start)
      case None =>
        assert r == [Span(start, end)];
        forall x | start <= x < end
          ensures TranslateIn(segs, x) == x
        {
          assert Lookup(segs, x).None?;
        }
        forall y: nat | Hit(r, y)
          ensures exists x :: start <= x < end && TranslateIn(segs, x) == y
        {
          assert TranslateIn(segs, y) == y;
        }
      case Some(seg) =>
        var stop := if seg.end >= end then end else seg.end;
        var head := Span(Image(seg, start), Image(seg, stop));
        var tail := Pieces(segs, stop, end);
        assert r == [head] + tail;
        PiecesImage(segs, max, stop, end);
        forall x | start <= x < stop
          ensures TranslateIn(segs, x) == head.start + (x - start)
        {
          LookupUnique(segs, x, seg);
        }
        forall x | start <= x < end
          ensures Hit(r, TranslateIn(segs, x))
        {
          if x < stop {
            assert head in r;
          } else {
            var sp :| sp in tail && sp.start <= TranslateIn(segs, x) < sp.end;
            assert sp in r;
          }
        }
        forall y: nat | Hit(r, y)
          ensures exists x :: start <= x < end && TranslateIn(segs, x) == y
        {
          var sp :| sp in r && sp.start <= y < sp.end;
          if sp == head {
            assert head.end == head.start + (stop - start);
            var x: nat := start + (y - head.start);
            assert start <= x < stop;
            assert TranslateIn(segs, x) == y;
          } else {
            assert sp in tail;
            assert Hit(tail, y);
            var x :| stop <= x < end && TranslateIn(segs, x) == y;
            assert start <= x < end;
          }
        }
    }
  }

  /** As written, a range that stops short of the requested end still yields a piece reaching
      the image of that end: with `0..5` onto `100` and a gap `5..10`, the pieces of `0..10` hold
      107, which no key translates to. */
  lemma PiecesOvershoot(segs: seq<Segment>)
    requires segs == [Segment(0, 5, Some(100)), Segment(5, 10, None)]
    ensures WellFormed(segs) && Covers(segs, 10)
    ensures PiecesAsWritten(segs, 0, 10) == [Span(100, 110), Span(5, 10)]
    ensures Hit(PiecesAsWritten(segs, 0, 10), 107) && forall x | 0 <= x < 10 :: TranslateIn(segs, x) != 107
    ensures Pieces(segs, 0, 10) == [Span(100, 105), Span(5, 10)]
  {
    assert Lookup(segs, 0) == Some(segs[0]);
    assert Lookup(segs, 5) == Some(segs[1]);
    assert PiecesAsWritten(segs, 10, 10) == [];
    assert Pieces(segs, 10, 10) == [];
    assert Span(100, 110) in PiecesAsWritten(segs, 0, 10);
    forall x | 0 <= x < 10
      ensures TranslateIn(segs, x) != 107
    {
      if x < 5 {
        LookupUnique(segs, x, segs[0]);
      } else {
        LookupUnique(segs, x, segs[1]);
      }
    }
  }

  /** As written, `RangeMap::insert` also merges the new range with any range of the same value
      that overlaps or touches it, and the merged range keeps the lower start. */
  function Widen(segs: seq<Segment>, a: nat, b: nat, v: Option<nat>): (r: (nat, nat))
    ensures r.0 <= a && b <= r.1
  {
    if segs == [] then (a, b)
    else
      var w := Widen(segs[1..], a, b, v);
      var s := segs[0];
      if s.target == v && s.start <= b && a <= s.end then (Min(w.0, s.start), Max(w.1, s.end)) else w
  }

  function InsertAsWritten(segs: seq<Segment>, a: nat, b: nat, v: Option<nat>): seq<Segment>
    requires a < b
  {
    var w := Widen(segs, a, b, v);
    Insert(segs, w.0, w.1, v)
  }

  /** Two adjacent source ranges with one target start, `add(0, 5, 100)` then `add(5, 5, 100)`,
      are merged by the range map, so 7 translates to 107 instead of 102. */
  lemma CoalescingShifts(segs: seq<Segment>)
    requires segs == [Segment(0, 5, Some(100))]
    ensures TranslateIn(InsertAsWritten(segs, 5, 10, Some(100)), 7) == 107
    ensures TranslateIn(Insert(segs, 5, 10, Some(100)), 7) == 102
  {
    assert Widen(segs, 5, 10, Some(100)) == (0, 10);
    assert ClipAll(segs, 0, 10) == [] by {
      assert Clip(segs[0], 0, 10) == [] && segs[1..] == [];
    }
    assert InsertAsWritten(segs, 5, 10, Some(100)) == [Segment(0, 10, Some(100))];
    assert ClipAll(segs, 5, 10) == [Segment(0, 5, Some(100))] by {
      assert Clip(segs[0], 5, 10) == [Segment(0, 5, Some(100))] && segs[1..] == [];
    }
    assert Insert(segs, 5, 10, Some(100)) == [Segment(0, 5, Some(100)), Segment(5, 10, Some(100))];
    assert Lookup(Insert(segs, 5, 10, Some(100)), 7) == Some(Segment(5, 10, Some(100)));
  }

  /** A translation table: its name, the table it feeds, how far its ranges reach, and the range
      map itself. */
  class Table {
    var name: string
    var next: string
    var max: nat
    var translation: seq<Segment>

    ghost predicate Valid()
      reads this
    {
      WellFormed(translation) && Covers(translation, max)
    }

    constructor (name: string, next: string)
      ensures Valid() && this.name == name && this.next == next
      ensures max == 0 && translation == []
    {
      this.name := name;
      this.next := next;
      max := 0;
      translation := [];
    }

    function Translate(key: nat): nat
      reads this
    {
      TranslateIn(translation, key)
    }

    /** `add(start, length, target)`: map `start..start + length` onto `target..`, first filling
        any gap above the current reach with a `None` range. */
    method Add(start: nat, length: nat, target: nat)
      requires Valid() && 0 < length
      modifies this
      ensures Valid() && name == old(name) && next == old(next)
      ensures max == Max(old(max), start + length)
      ensures translation == Placed(old(translation), old(max), start, length, target)
    {
      PlacedValid(translation, max, start, length, target);
      if start > max {
        translation := Insert(translation, max, start, None);
        max := start + length;
      }
      if start + length > max {
        max := start + length;
      }
      translation := Insert(translation, start, start + length, Some(target));
    }

    /** `extend(length)`: reach up to `length` with a gap range, changing no translation. */
    method Extend(length: nat)
      requires Valid()
      modifies this
      ensures Valid() && name == old(name) && next == old(next)
      ensures max == Max(old(max), length)
      ensures translation == if length > old(max) then Insert(old(translation), old(max), length, None) else old(translation)
      ensures forall key: nat :: Translate(key) == old(Translate(key))
    {
      if length > max {
        ExtendKeeps(translation, max, length, 0);
        forall key: nat
          ensures TranslateIn(Insert(translation, max, length, None), key) == TranslateIn(translation, key)
        {
          ExtendKeeps(translation, max, length, key);
        }
        translation := Insert(translation, max, length, None);
        max := length;
      }
    }

    /** `translate_range(range)`, with each piece closed where it ends (see `PiecesAsWritten`). */
    method TranslateRange(range: Span) returns (result: seq<Span>)
      ensures result == Pieces(translation, range.start, range.end)
    {
      var start := range.start;
      var end := range.end;
      result := [];
      while start < end
        invariant result + Pieces(translation, start, end) == Pieces(translation, range.start, range.end)
        decreases end - start
      {
        var found := Lookup(translation, start);
        if found.Some? {
          var seg := found.value;
          var open := Image(seg, start);
          var stop := if seg.end >= end then end else seg.end;
          start := stop;
          var close := Image(seg, stop);
          result := result + [Span(open, close)];
        } else {
          result := result + [Span(start, end)];
          start := end;
        }
      }
    }
  }

  /** test_table: the ranges "50 98 2" and "52 50 48" send 99 to 51. */
  method TableTest() returns (r: nat)
    ensures r == 51
  {
    var table := new Table("seed", "soil");
    table.Add(98, 2, 50);
    PlacedTranslate([], 0, 98, 2, 50, 99);
    ghost var before := table.translation;
    table.Add(50, 48, 52);
    PlacedTranslate(before, 100, 50, 48, 52, 99);
    r := table.Translate(99);
  }

  /** The order `reduce_range_list` sorts by: start, then end. */
  predicate SpanLe(x: Span, y: Span) {
    x.start < y.start || (x.start == y.start && x.end <= y.end)
  }

  predicate SortedSpans(s: seq<Span>) {
    forall i, j | 0 <= i < j < |s| :: SpanLe(s[i], s[j])
  }

  function InsertSpan(x: Span, s: seq<Span>): (r: seq<Span>)
    requires SortedSpans(s)
    ensures SortedSpans(r) && multiset(r) == multiset(s) + multiset{x}
  {
    if s == [] then [x]
    else if SpanLe(x, s[0]) then [x] + s
    else
      var rest := InsertSpan(x, s[1..]);
      assert s == [s[0]] + s[1..];
      InsertSpanBelow(s[0], x, s[1..], rest);
      [s[0]] + rest
  }

  lemma InsertSpanBelow(first: Span, x: Span, tail: seq<Span>, rest: seq<Span>)
    requires SortedSpans(rest) && multiset(rest) == multiset(tail) + multiset{x}
    requires SortedSpans([first] + tail) && !SpanLe(x, first)
    ensures SortedSpans([first] + rest)
  {
    var r := [first] + rest;
    forall i, j | 0 <= i < j < |r|
      ensures SpanLe(r[i], r[j])
    {
      if i > 0 {
        assert r[i] == rest[i - 1] && r[j] == rest[j - 1];
        assert SpanLe(rest[i - 1], rest[j - 1]);
      } else {
        var y := rest[j - 1];
        assert r[j] == y;
        assert y in multiset(rest);
        if y != x {
          assert y in multiset(tail);
          var k :| 0 <= k < |tail| && tail[k] == y;
          assert ([first] + tail)[0] == first && ([first] + tail)[k + 1] == y;
          assert SpanLe(([first] + tail)[0], ([first] + tail)[k + 1]);
        }
      }
    }
  }

  /** `list.sort_by(start, end)`: a sorted permutation of the list. */
  function SortSpans(list: seq<Span>): (r: seq<Span>)
    ensures SortedSpans(r) && multiset(r) == multiset(list)
  {
    if list == [] then []
    else
      assert list == [list[0]] + list[1..];
      InsertSpan(list[0], SortSpans(list[1..]))
  }

  /** The merge loop of `reduce_range_list` over a sorted list, with the end of a merged range
      raised to the larger of the two ends. */
  function Merge(last: Span, rest: seq<Span>): seq<Span>
    decreases |rest|
  {
    if rest == [] then [last]
    else if rest[0].start <= last.end then Merge(Span(last.start, Max(last.end, rest[0].end)), rest[1..])
    else [last] + Merge(rest[0], rest[1..])
  }

  /** The merge loop as written: a merged range takes the end of the later range, even when that
      end is the smaller one. */
  function MergeAsWritten(last: Span, rest: seq<Span>): seq<Span>
    decreases |rest|
  {
    if rest == [] then [last]
    else if rest[0].start <= last.end then MergeAsWritten(Span(last.start, rest[0].end), rest[1..])
    else [last] + MergeAsWritten(rest[0], rest[1..])
  }

  function Reduce(list: seq<Span>): seq<Span> {
    var sorted := SortSpans(list);
    if sorted == [] then [] else Merge(sorted[0], sorted[1..])
  }

  function ReduceAsWritten(list: seq<Span>): seq<Span> {
    var sorted := SortSpans(list);
    if sorted == [] then [] else MergeAsWritten(sorted[0], sorted[1..])
  }

  /** `reduce_range_list`: sort, then merge each range into the last one kept while it starts no
      later than that one ends. */
  method ReduceRangeList(list: seq<Span>) returns (result: seq<Span>)
    ensures result == Reduce(list)
  {
    var sorted := SortSpans(list);
    result := [];
    if sorted != [] {
      var last := sorted[0];
      for i := 1 to |sorted|
        invariant result + Merge(last, sorted[i..]) == Merge(sorted[0], sorted[1..])
      {
        var current := sorted[i];
        assert sorted[i..][0] == current && sorted[i..][1..] == sorted[i + 1..];
        if current.start <= last.end {
          last := Span(last.start, Max(last.end, current.end));
        } else {
          assert result + Merge(last, sorted[i..]) == (result + [last]) + Merge(current, sorted[i + 1..]);
          result := result + [last];
          last := current;
        }
      }
      assert sorted[|sorted|..] == [];
      result := result + [last];
    }
  }

  lemma HitCons(a: Span, q: seq<Span>, y: nat)
    ensures Hit([a] + q, y) <==> (a.start <= y < a.end || Hit(q, y))
  {
    if Hit(q, y) {
      var sp :| sp in q && sp.start <= y < sp.end;
      assert sp in [a] + q;
    }
    if a.start <= y < a.end {
      assert a in [a] + q;
    }
  }

  /** Merging keeps exactly the points of `last` and of the rest. */
  lemma {:induction false} MergeCovers(last: Span, rest: seq<Span>, y: nat)
    requires forall k | 0 <= k < |rest| :: last.start <= rest[k].start
    requires forall i, j | 0 <= i < j < |rest| :: rest[i].start <= rest[j].start
    ensures Hit(Merge(last, rest), y) <==> (last.start <= y < last.end || Hit(rest, y))
    decreases |rest|
  {
    if rest == [] {
      HitCons(last, [], y);
      assert [last] + [] == [last];
    } else {
      var c, tail := rest[0], rest[1..];
      assert rest == [c] + tail;
      HitCons(c, tail, y);
      var next := if c.start <= last.end then Span(last.start, Max(last.end, c.end)) else c;
      forall k | 0 <= k < |tail|
        ensures next.start <= tail[k].start
      {
        assert tail[k] == rest[k + 1];
      }
      forall i, j | 0 <= i < j < |tail|
        ensures tail[i].start <= tail[j].start
      {
        assert tail[i] == rest[i + 1] && tail[j] == rest[j + 1];
      }
      MergeCovers(next, tail, y);
      if c.start > last.end {
        HitCons(last, Merge(c, tail), y);
      }
    }
  }

  /** Merged ranges come out in order of start, each ending strictly before the next begins:
      overlapping and touching ranges are merged. */
  lemma {:induction false} MergeSeparated(last: Span, rest: seq<Span>)
    requires forall k | 0 <= k < |rest| :: last.start <= rest[k].start
    requires forall i, j | 0 <= i < j < |rest| :: rest[i].start <= rest[j].start
    ensures Merge(last, rest) != [] && Merge(last, rest)[0].start == last.start
    ensures forall i | 0 <= i < |Merge(last, rest)| - 1 ::
      Merge(last, rest)[i].start <= Merge(last, rest)[i + 1].start && Merge(last, rest)[i].end < Merge(last, rest)[i + 1].start
    decreases |rest|
  {
    if rest != [] {
      var c := rest[0];
      if c.start <= last.end {
        var m := Span(last.start, Max(last.end, c.end));
        forall k | 0 <= k < |rest[1..]|
          ensures m.start <= rest[1..][k].start
        {
          assert rest[1..][k] == rest[k + 1];
        }
        MergeSeparated(m, rest[1..]);
      } else {
        forall k | 0 <= k < |rest[1..]|
          ensures c.start <= rest[1..][k].start
        {
          assert rest[1..][k] == rest[k + 1];
        }
        MergeSeparated(c, rest[1..]);
        var tail := Merge(c, rest[1..]);
        var r := [last] + tail;
        assert Merge(last, rest) == r;
        forall i | 0 <= i < |r| - 1
          ensures r[i].start <= r[i + 1].start && r[i].end < r[i + 1].start
        {
          if i > 0 {
            assert r[i] == tail[i - 1] && r[i + 1] == tail[i];
          }
        }
      }
    }
  }

  /** The facts `Merge` needs about a sorted list. */
  lemma SortedStarts(sorted: seq<Span>)
    requires SortedSpans(sorted) && sorted != []
    ensures forall k | 0 <= k < |sorted[1..]| :: sorted[0].start <= sorted[1..][k].start
    ensures forall i, j | 0 <= i < j < |sorted[1..]| :: sorted[1..][i].start <= sorted[1..][j].start
  {
    var rest := sorted[1..];
    forall k | 0 <= k < |rest|
      ensures sorted[0].start <= rest[k].start
    {
      assert SpanLe(sorted[0], sorted[k + 1]);
    }
    forall i, j | 0 <= i < j < |rest|
      ensures rest[i].start <= rest[j].start
    {
      assert SpanLe(sorted[i + 1], sorted[j + 1]);
    }
  }

  /** `reduce_range_list` keeps exactly the points of its input. */
  lemma ReduceCovers(list: seq<Span>, y: nat)
    ensures Hit(Reduce(list), y) <==> Hit(list, y)
  {
    var sorted := SortSpans(list);
    assert Hit(sorted, y) <==> Hit(list, y) by {
      forall sp
        ensures sp in sorted <==> sp in list
      {
        assert sp in sorted <==> sp in multiset(sorted);
        assert sp in list <==> sp in multiset(list);
      }
    }
    if sorted != [] {
      SortedStarts(sorted);
      MergeCovers(sorted[0], sorted[1..], y);
      assert sorted == [sorted[0]] + sorted[1..];
      HitCons(sorted[0], sorted[1..], y);
    }
  }

  /** `reduce_range_list` returns its ranges in order of start with a gap between any two, and
      is empty exactly for the empty list. */
  lemma ReduceSeparated(list: seq<Span>)
    ensures forall i | 0 <= i < |Reduce(list)| - 1 ::
      Reduce(list)[i].start <= Reduce(list)[i + 1].start && Reduce(list)[i].end < Reduce(list)[i + 1].start
    ensures Reduce(list) == [] <==> list == []
  {
    var sorted := SortSpans(list);
    if sorted != [] {
      SortedStarts(sorted);
      MergeSeparated(sorted[0], sorted[1..]);
    } else {
      assert multiset(list) == multiset{};
    }
  }

  lemma SortedFirstLeast(a: seq<Span>, x: Span)
    requires SortedSpans(a) && x in a
    ensures SpanLe(a[0], x)
  {
    var i :| 0 <= i < |a| && a[i] == x;
    if i > 0 {
      assert SpanLe(a[0], a[i]);
    }
  }

  lemma SortedTail(a: seq<Span>)
    requires SortedSpans(a) && a != []
    ensures SortedSpans(a[1..])
  {
    forall i, j | 0 <= i < j < |a[1..]|
      ensures SpanLe(a[1..][i], a[1..][j])
    {
      assert SpanLe(a[i + 1], a[j + 1]);
    }
  }

  /** There is only one sorted arrangement of a list. */
  lemma {:induction false} SortedUnique(a: seq<Span>, b: seq<Span>)
    requires SortedSpans(a) && SortedSpans(b) && multiset(a) == multiset(b)
    ensures a == b
    decreases |a|
  {
    if a != [] {
      assert |b| == |multiset(b)| == |a|;
      assert b[0] in multiset(a) && a[0] in multiset(b);
      SortedFirstLeast(a, b[0]);
      SortedFirstLeast(b, a[0]);
      assert a[0] == b[0];
      assert a == [a[0]] + a[1..] && b == [b[0]] + b[1..];
      assert multiset(a[1..]) == multiset(a) - multiset{a[0]};
      assert multiset(b[1..]) == multiset(b) - multiset{b[0]};
      SortedTail(a);
      SortedTail(b);
      SortedUnique(a[1..], b[1..]);
    }
  }

  /** `Reduce` of a list whose sorted order is known. */
  lemma ReduceBySorted(list: seq<Span>, sorted: seq<Span>)
    requires SortedSpans(sorted) && multiset(sorted) == multiset(list) && sorted != []
    ensures Reduce(list) == Merge(sorted[0], sorted[1..])
  {
    SortedUnique(SortSpans(list), sorted);
  }

  lemma ReduceAsWrittenBySorted(list: seq<Span>, sorted: seq<Span>)
    requires SortedSpans(sorted) && multiset(sorted) == multiset(list) && sorted != []
    ensures ReduceAsWritten(list) == MergeAsWritten(sorted[0], sorted[1..])
  {
    SortedUnique(SortSpans(list), sorted);
  }

  /** test_reduce_range_list: `[1..2, 4..5]` is left as it is. */
  lemma ReduceApart(list: seq<Span>)
    requires list == [Span(1, 2), Span(4, 5)]
    ensures Reduce(list) == list
  {
    ReduceBySorted(list, list);
  }

  /** test_reduce_range_list: touching ranges merge, `[1..2, 4..5, 5..8]` gives `[1..2, 4..8]`. */
  lemma ReduceTouching(list: seq<Span>)
    requires list == [Span(1, 2), Span(4, 5), Span(5, 8)]
    ensures Reduce(list) == [Span(1, 2), Span(4, 8)]
  {
    ReduceBySorted(list, list);
    MergeTail(list[0], list[1..], Span(4, 8));
  }

  /** Merging a range into one that lies apart from it, after which the rest merges into `m`. */
  lemma MergeTail(first: Span, rest: seq<Span>, m: Span)
    requires |rest| == 2 && first.end < rest[0].start && rest[1].start <= rest[0].end
    requires m == Span(rest[0].start, Max(rest[0].end, rest[1].end))
    ensures Merge(first, rest) == [first, m]
  {
    assert rest[1..][1..] == [];
    assert Merge(m, []) == [m];
    assert Merge(rest[0], rest[1..]) == Merge(m, rest[1..][1..]);
    assert Merge(first, rest) == [first] + Merge(rest[0], rest[1..]);
  }

  /** test_reduce_range_list: `[1..2, 4..5, 4..8]` gives `[1..2, 4..8]`. */
  lemma ReduceOverlapping(list: seq<Span>)
    requires list == [Span(1, 2), Span(4, 5), Span(4, 8)]
    ensures Reduce(list) == [Span(1, 2), Span(4, 8)]
  {
    ReduceBySorted(list, list);
    MergeTail(list[0], list[1..], Span(4, 8));
  }

  /** test_reduce_range_list: unsorted `[4..5, 1..2, 4..8]` gives `[1..2, 4..8]`. */
  lemma ReduceUnsorted(list: seq<Span>)
    requires list == [Span(4, 5), Span(1, 2), Span(4, 8)]
    ensures Reduce(list) == [Span(1, 2), Span(4, 8)]
  {
    var sorted := [list[1], list[0], list[2]];
    assert multiset(sorted) == multiset(list) by {
      assert list == [list[0]] + [list[1]] + [list[2]];
      assert sorted == [list[1]] + [list[0]] + [list[2]];
    }
    ReduceBySorted(list, sorted);
    MergeTail(sorted[0], sorted[1..], Span(4, 8));
  }

  /** The sorted order of the last case of test_reduce_range_list. */
  lemma EmptyInsideSorted(list: seq<Span>, sorted: seq<Span>)
    requires list == [Span(1, 3), Span(8, 12), Span(2, 2), Span(2, 6)]
    requires sorted == [list[0], list[2], list[3], list[1]]
    ensures SortedSpans(sorted) && multiset(sorted) == multiset(list)
  {
    assert list == [list[0]] + [list[1]] + [list[2]] + [list[3]];
    assert sorted == [list[0]] + [list[2]] + [list[3]] + [list[1]];
  }

  /** test_reduce_range_list: `[1..3, 8..12, 2..2, 2..6]` gives `[1..6, 8..12]`. */
  lemma ReduceEmptyInside(list: seq<Span>)
    requires list == [Span(1, 3), Span(8, 12), Span(2, 2), Span(2, 6)]
    ensures Reduce(list) == [Span(1, 6), Span(8, 12)]
  {
    var sorted := [list[0], list[2], list[3], list[1]];
    EmptyInsideSorted(list, sorted);
    ReduceBySorted(list, sorted);
    MergeEmptyInside(sorted[0], sorted[1..]);
  }

  /** As written the same case gives `[1..6, 8..12]` too: the range `2..2` cuts `1..3` down to
      `1..2`, but `2..6` follows it. */
  lemma ReduceEmptyInsideAsWritten(list: seq<Span>)
    requires list == [Span(1, 3), Span(8, 12), Span(2, 2), Span(2, 6)]
    ensures ReduceAsWritten(list) == [Span(1, 6), Span(8, 12)]
  {
    var sorted := [list[0], list[2], list[3], list[1]];
    EmptyInsideSorted(list, sorted);
    ReduceAsWrittenBySorted(list, sorted);
    MergeEmptyInsideAsWritten(sorted[0], sorted[1..]);
  }

  lemma MergeEmptyInside(first: Span, rest: seq<Span>)
    requires first == Span(1, 3) && rest == [Span(2, 2), Span(2, 6), Span(8, 12)]
    ensures Merge(first, rest) == [Span(1, 6), Span(8, 12)]
  {
    var last := rest[2..];
    assert rest[1..] == [Span(2, 6)] + last && rest[1..][1..] == last && last[1..] == [];
    assert Merge(Span(8, 12), []) == [Span(8, 12)];
    assert Merge(Span(1, 6), last) == [Span(1, 6)] + Merge(Span(8, 12), []);
    assert Merge(first, rest) == Merge(Span(1, 3), rest[1..]) == Merge(Span(1, 6), last);
  }

  lemma MergeEmptyInsideAsWritten(first: Span, rest: seq<Span>)
    requires first == Span(1, 3) && rest == [Span(2, 2), Span(2, 6), Span(8, 12)]
    ensures MergeAsWritten(first, rest) == [Span(1, 6), Span(8, 12)]
  {
    var last := rest[2..];
    assert rest[1..] == [Span(2, 6)] + last && rest[1..][1..] == last && last[1..] == [];
    assert MergeAsWritten(Span(8, 12), []) == [Span(8, 12)];
    assert MergeAsWritten(Span(1, 6), last) == [Span(1, 6)] + MergeAsWritten(Span(8, 12), []);
    assert MergeAsWritten(first, rest) == MergeAsWritten(Span(1, 2), rest[1..]) == MergeAsWritten(Span(1, 6), last);
  }

  /** As written, a range inside the one being built cuts it short: `[1..10, 2..3]` reduces to
      `[1..3]`, losing the point 5. */
  lemma ReduceShrinks(list: seq<Span>)
    requires list == [Span(1, 10), Span(2, 3)]
    ensures ReduceAsWritten(list) == [Span(1, 3)]
    ensures Hit(list, 5) && !Hit(ReduceAsWritten(list), 5)
    ensures Reduce(list) == [Span(1, 10)]
  {
    ReduceBySorted(list, list);
    ReduceAsWrittenBySorted(list, list);
    assert list[0] in list;
  }
}
