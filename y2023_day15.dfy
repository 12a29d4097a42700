/**
 * 2023 day 15: the HASH algorithm and the HASHMAP of 256 boxes of labelled
 * lenses.  Removing a lens leaves an Empty placeholder in its slot; the
 * placeholders are squeezed out once, by `compact`, before the focusing
 * power is summed.
 */
module Y2023Day15 {
  import opened Wrappers

  /**
   * `hash`: fold the character codes left to right, adding each to the
   * current value, multiplying by 17 and keeping the remainder modulo 256.
   * (The value never exceeds (255 + 0x10FFFF) * 17, so the source's `u32`
   * cannot overflow.)
   */
  function Hash(s: string): (h: nat)
    ensures h < 256
  {
    HashFrom(0, s)
  }

  function HashFrom(acc: nat, s: string): (h: nat)
    requires acc < 256
    ensures h < 256
    ensures s == [] ==> h == acc
    decreases |s|
  {
    if s == [] then acc else HashFrom((acc + s[0] as int) * 17 % 256, s[1..])
  }

  /** Hashing a concatenation continues from the hash of the first part. */
  lemma {:induction false} HashFromConcat(acc: nat, s: string, t: string)
    requires acc < 256
    ensures HashFrom(acc, s + t) == HashFrom(HashFrom(acc, s), t)
    decreases |s|
  {
    if s != [] {
      assert (s + t)[0] == s[0] && (s + t)[1..] == s[1..] + t;
      HashFromConcat((acc + s[0] as int) * 17 % 256, s[1..], t);
    } else {
      assert s + t == t;
    }
  }

  /** test_hash */
  lemma HashExample(s: string)
    requires s == "HASH"
    ensures Hash(s) == 52
  {
    // H = 72, A = 65, S = 83: 0 -> 200 -> 153 -> 172 -> 52
    assert s[0] == 'H' && s[1] == 'A' && s[2] == 'S' && s[3] == 'H' && |s| == 4;
    HashStep(0, s, 200);
    HashStep(200, s[1..], 153);
    HashStep(153, s[2..], 172);
    assert s[1..][1..] == s[2..] && s[2..][1..] == s[3..] && s[3..][1..] == [];
    HashStep(172, s[3..], 52);
  }

  /** One step of the fold, with the next accumulator named. */
  lemma HashStep(acc: nat, s: string, next: nat)
    requires acc < 256 && s != [] && next == (acc + s[0] as int) * 17 % 256
    ensures HashFrom(acc, s) == HashFrom(next, s[1..])
  {
  }

  datatype Operation = Insert(name: string, value: nat) | Remove(name: string)

  datatype Entry = Occupied(name: string, value: nat) | Empty

  /** `is_occupied`: the entry holds a lens with this name. */
  predicate IsOccupied(e: Entry, name: string) {
    e.Occupied? && e.name == name
  }

  /** `iter().position(is_occupied)`: the first slot holding the name. */
  function Position(box: seq<Entry>, name: string): (r: Option<nat>)
    ensures r.Some? ==> r.value < |box| && IsOccupied(box[r.value], name) &&
                        forall j | 0 <= j < r.value :: !IsOccupied(box[j], name)
    ensures r.None? ==> forall j | 0 <= j < |box| :: !IsOccupied(box[j], name)
    decreases |box|
  {
    if box == [] then None
    else if IsOccupied(box[0], name) then Some(0)
    else match Position(box[1..], name)
      case None => None
      case Some(i) => Some(i + 1)
  }

  /** `apply` on the box the name hashes to. */
  function ApplyBox(box: seq<Entry>, op: Operation): seq<Entry> {
    match op
    case Insert(name, value) =>
      (match Position(box, name)
       case Some(i) => box[i := Occupied(name, value)]
       case None => box + [Occupied(name, value)])
    case Remove(name) =>
      (match Position(box, name)
       case Some(i) => box[i := Empty]
       case None => box)
  }

  /** `apply` on all boxes: only the box the name hashes to changes. */
  function ApplyBoxes(boxes: seq<seq<Entry>>, op: Operation): seq<seq<Entry>>
    requires |boxes| == 256
  {
    boxes[Hash(op.name) := ApplyBox(boxes[Hash(op.name)], op)]
  }

  /** The entries other than Empty, in order: what `compact` keeps of a box. */
  function Compacted(box: seq<Entry>): (r: seq<Entry>)
    ensures |r| <= |box|
    decreases |box|
  {
    if box == [] then []
    else (if box[0] == Empty then [] else [box[0]]) + Compacted(box[1..])
  }

  /**
   * Inserting: a lens whose name is present replaces the first one in its
   * slot, otherwise it goes at the end; no other slot changes.
   */
  lemma InsertSlots(box: seq<Entry>, name: string, value: nat)
    ensures var r := ApplyBox(box, Insert(name, value));
      (exists i | 0 <= i < |box| :: IsOccupied(box[i], name)) ==>
        |r| == |box| &&
        exists i | 0 <= i < |box| ::
          IsOccupied(box[i], name) && r[i] == Occupied(name, value) &&
          forall j | 0 <= j < |box| && j != i :: r[j] == box[j]
    ensures var r := ApplyBox(box, Insert(name, value));
      (forall i | 0 <= i < |box| :: !IsOccupied(box[i], name)) ==> r == box + [Occupied(name, value)]
  {
  }

  /**
   * Removing: the first lens with the name becomes Empty, everything else
   * stays, and nothing changes when the name is absent.
   */
  lemma RemoveSlots(box: seq<Entry>, name: string)
    ensures var r := ApplyBox(box, Remove(name));
      |r| == |box| && forall j | 0 <= j < |box| :: r[j] == box[j] || (IsOccupied(box[j], name) && r[j] == Empty)
    ensures var r := ApplyBox(box, Remove(name));
      forall j | 0 <= j < |box| :: IsOccupied(r[j], name) ==> IsOccupied(box[j], name)
  {
  }

  /** apply changes only the box the name hashes to. */
  lemma ApplyOtherBoxes(boxes: seq<seq<Entry>>, op: Operation, k: nat)
    requires |boxes| == 256 && k < 256 && k != Hash(op.name)
    ensures ApplyBoxes(boxes, op)[k] == boxes[k]
  {
  }

  lemma {:induction false} CompactedConcat(a: seq<Entry>, b: seq<Entry>)
    ensures Compacted(a + b) == Compacted(a) + Compacted(b)
    decreases |a|
  {
    if a != [] {
      assert (a + b)[0] == a[0] && (a + b)[1..] == a[1..] + b;
      CompactedConcat(a[1..], b);
    } else {
      assert a + b == b;
    }
  }

  /** compact drops exactly the Empty entries: none is left, and every lens keeps its multiplicity. */
  lemma {:induction false} CompactedKeepsLenses(box: seq<Entry>)
    ensures Empty !in Compacted(box)
    ensures forall e | e != Empty :: multiset(Compacted(box))[e] == multiset(box)[e]
    decreases |box|
  {
    if box != [] {
      CompactedKeepsLenses(box[1..]);
      assert box == [box[0]] + box[1..];
    }
  }

  /** A box without Empty entries is left as it is. */
  lemma {:induction false} CompactedNoEmpty(box: seq<Entry>)
    requires Empty !in box
    ensures Compacted(box) == box
    decreases |box|
  {
    if box != [] {
      CompactedNoEmpty(box[1..]);
    }
  }

  /** Delete the first lens with the name: the puzzle's own meaning of `-`. */
  function Delete(box: seq<Entry>, name: string): (r: seq<Entry>)
    ensures |r| <= |box|
    decreases |box|
  {
    if box == [] then []
    else if IsOccupied(box[0], name) then box[1..]
    else [box[0]] + Delete(box[1..], name)
  }

  lemma CompactedOne(x: Entry)
    ensures Compacted([x]) == if x == Empty then [] else [x]
  {
    assert [x][1..] == [];
  }

  /** apply on a box whose first entry does not hold the name leaves that entry in front. */
  lemma ApplyBoxCons(x: Entry, rest: seq<Entry>, op: Operation)
    ensures !IsOccupied(x, op.name) ==> ApplyBox([x] + rest, op) == [x] + ApplyBox(rest, op)
    ensures IsOccupied(x, op.name) && op.Insert? ==> ApplyBox([x] + rest, op) == [Occupied(op.name, op.value)] + rest
    ensures IsOccupied(x, op.name) && op.Remove? ==> ApplyBox([x] + rest, op) == [Empty] + rest
  {
    var box := [x] + rest;
    assert box[0] == x && box[1..] == rest;
  }

  /**
   * Leaving placeholders is sound: compacting after a removal is deleting
   * the lens from the compacted box outright.
   */
  lemma {:induction false} CompactedRemove(box: seq<Entry>, name: string)
    ensures Compacted(ApplyBox(box, Remove(name))) == Delete(Compacted(box), name)
    decreases |box|
  {
    if box != [] {
      var x, rest := box[0], box[1..];
      assert box == [x] + rest;
      CompactedRemove(rest, name);
      ApplyBoxCons(x, rest, Remove(name));
      CompactedConcat([x], rest);
      CompactedOne(x);
      if IsOccupied(x, name) {
        CompactedConcat([Empty], rest);
        CompactedOne(Empty);
      } else {
        CompactedConcat([x], ApplyBox(rest, Remove(name)));
        if x != Empty {
          var c := [x] + Compacted(rest);
          assert c[0] == x && c[1..] == Compacted(rest);
          assert Delete(c, name) == [x] + Delete(Compacted(rest), name);
        } else {
          assert [] + Compacted(rest) == Compacted(rest);
          assert [] + Compacted(ApplyBox(rest, Remove(name))) == Compacted(ApplyBox(rest, Remove(name)));
        }
      }
    }
  }

  /**
   * ... and compacting after an insertion is inserting into the compacted
   * box, so the placeholders never change the final arrangement.
   */
  lemma {:induction false} CompactedInsert(box: seq<Entry>, name: string, value: nat)
    ensures Compacted(ApplyBox(box, Insert(name, value))) == ApplyBox(Compacted(box), Insert(name, value))
    decreases |box|
  {
    var op := Insert(name, value);
    var lens := Occupied(name, value);
    if box == [] {
      assert ApplyBox(box, op) == [lens];
      CompactedOne(lens);
    } else {
      var x, rest := box[0], box[1..];
      assert box == [x] + rest;
      CompactedInsert(rest, name, value);
      ApplyBoxCons(x, rest, op);
      CompactedConcat([x], rest);
      CompactedOne(x);
      if IsOccupied(x, name) {
        CompactedConcat([lens], rest);
        CompactedOne(lens);
        ApplyBoxCons(x, Compacted(rest), op);
      } else {
        CompactedConcat([x], ApplyBox(rest, op));
        assert Compacted(ApplyBox(box, op)) == Compacted([x]) + ApplyBox(Compacted(rest), op);
        if x != Empty {
          ApplyBoxCons(x, Compacted(rest), op);
          assert Compacted(box) == [x] + Compacted(rest);
        } else {
          assert Compacted(box) == Compacted(rest);
          assert Compacted(ApplyBox(box, op)) == [] + ApplyBox(Compacted(rest), op);
        }
      }
    }
  }

  /** The puzzle's own rules on a box without placeholders: `=` inserts or replaces, `-` deletes. */
  function Rule(box: seq<Entry>, op: Operation): seq<Entry> {
    match op
    case Insert(_, _) => ApplyBox(box, op)
    case Remove(name) => Delete(box, name)
  }

  lemma CompactedApply(box: seq<Entry>, op: Operation)
    ensures Compacted(ApplyBox(box, op)) == Rule(Compacted(box), op)
  {
    match op
    case Insert(name, value) => CompactedInsert(box, name, value);
    case Remove(name) => CompactedRemove(box, name);
  }

  /** `compact` on all boxes, as a value. */
  function CompactAll(boxes: seq<seq<Entry>>): (r: seq<seq<Entry>>)
    ensures |r| == |boxes| && forall k | 0 <= k < |boxes| :: r[k] == Compacted(boxes[k])
  {
    seq(|boxes|, k requires 0 <= k < |boxes| => Compacted(boxes[k]))
  }

  /** The operations applied in order with placeholders, as `part2` does before compacting. */
  function ApplyAll(boxes: seq<seq<Entry>>, ops: seq<Operation>): (r: seq<seq<Entry>>)
    requires |boxes| == 256
    ensures |r| == 256
    decreases |ops|
  {
    if ops == [] then boxes else ApplyAll(ApplyBoxes(boxes, ops[0]), ops[1..])
  }

  /** The operations applied in order by the puzzle's rules. */
  function RuleAll(boxes: seq<seq<Entry>>, ops: seq<Operation>): (r: seq<seq<Entry>>)
    requires |boxes| == 256
    ensures |r| == 256
    decreases |ops|
  {
    if ops == [] then boxes
    else
      var k := Hash(ops[0].name);
      RuleAll(boxes[k := Rule(boxes[k], ops[0])], ops[1..])
  }

  /**
   * Applying with placeholders and compacting at the end gives the boxes the
   * puzzle's rules give, for every sequence of operations.
   */
  lemma {:induction false} CompactAllApplyAll(boxes: seq<seq<Entry>>, ops: seq<Operation>)
    requires |boxes| == 256
    ensures CompactAll(ApplyAll(boxes, ops)) == RuleAll(CompactAll(boxes), ops)
    decreases |ops|
  {
    if ops != [] {
      var k := Hash(ops[0].name);
      var next := ApplyBoxes(boxes, ops[0]);
      CompactedApply(boxes[k], ops[0]);
      assert CompactAll(next) == CompactAll(boxes)[k := Rule(CompactAll(boxes)[k], ops[0])];
      CompactAllApplyAll(next, ops[1..]);
    }
  }

  /** Slot sums of one box: slot k (from 1) of box `boxid` weighs (boxid + 1) * k * focal length. */
  function BoxPower(boxid: nat, box: seq<Entry>): nat
    decreases |box|
  {
    if box == [] then 0
    else
      var last := box[|box| - 1];
      BoxPower(boxid, box[..|box| - 1]) + (boxid + 1) * |box| * (if last.Occupied? then last.value else 0)
  }

  /** `power` over the first `n` boxes. */
  function PowerUpTo(boxes: seq<seq<Entry>>, n: nat): nat
    requires n <= |boxes|
  {
    if n == 0 then 0 else PowerUpTo(boxes, n - 1) + BoxPower(n - 1, boxes[n - 1])
  }

  function FocusingPower(boxes: seq<seq<Entry>>): nat {
    PowerUpTo(boxes, |boxes|)
  }

  /** Empty boxes past the first `n` add nothing. */
  lemma {:induction false} PowerEmptyTail(boxes: seq<seq<Entry>>, n: nat, m: nat)
    requires n <= m <= |boxes|
    requires forall k | n <= k < |boxes| :: boxes[k] == []
    ensures PowerUpTo(boxes, m) == PowerUpTo(boxes, n)
    decreases m
  {
    if m > n {
      PowerEmptyTail(boxes, n, m - 1);
    }
  }

  /** Placeholders count as focal length 0 but push later lenses to higher slots. */
  lemma PlaceholdersMatter()
    ensures BoxPower(0, [Empty, Occupied("a", 1)]) == 2
    ensures BoxPower(0, Compacted([Empty, Occupied("a", 1)])) == 1
  {
    assert [Empty, Occupied("a", 1)][..1] == [Empty];
    assert Compacted([Empty, Occupied("a", 1)]) == [Occupied("a", 1)] by {
      assert [Empty, Occupied("a", 1)][1..] == [Occupied("a", 1)];
      assert Compacted([Occupied("a", 1)]) == [Occupied("a", 1)] + Compacted([]);
    }
    assert [Occupied("a", 1)][..0] == [];
  }

  class Map {
    var boxes: seq<seq<Entry>>

    predicate Valid()
      reads this
    {
      |boxes| == 256
    }

    /** `new`: 256 empty boxes. */
    constructor ()
      ensures Valid() && boxes == NewBoxes()
    {
      boxes := seq(256, _ => []);
    }

    /** `apply`: hash the name, then insert or remove in that box. */
    method Apply(op: Operation)
      requires Valid()
      modifies this
      ensures Valid() && boxes == ApplyBoxes(old(boxes), op)
    {
      var id := Hash(op.name);
      match op {
        case Insert(name, value) =>
          match Position(boxes[id], name) {
            case Some(i) => boxes := boxes[id := boxes[id][i := Occupied(name, value)]];
            case None => boxes := boxes[id := boxes[id] + [Occupied(name, value)]];
          }
        case Remove(name) =>
          match Position(boxes[id], name) {
            case Some(i) => boxes := boxes[id := boxes[id][i := Empty]];
            case None =>
          }
      }
    }

    /** `compact`: every box keeps only its non-Empty entries, in order. */
    method Compact()
      requires Valid()
      modifies this
      ensures Valid() && forall k | 0 <= k < 256 :: boxes[k] == Compacted(old(boxes)[k])
    {
      for id := 0 to |boxes|
        invariant |boxes| == 256
        invariant forall k | 0 <= k < id :: boxes[k] == Compacted(old(boxes)[k])
        invariant forall k | id <= k < 256 :: boxes[k] == old(boxes)[k]
      {
        boxes := boxes[id := Compacted(boxes[id])];
      }
    }

    /** `power`: the sum over boxes and slots of box number * slot number * focal length. */
    function Power(): nat
      reads this
    {
      FocusingPower(boxes)
    }
  }

  lemma SampleHashes()
    ensures Hash("rn") == 0 && Hash("cm") == 0 && Hash("qp") == 1
    ensures Hash("pc") == 3 && Hash("ot") == 3 && Hash("ab") == 3
  {
    assert "rn"[1..] == "n" && "cm"[1..] == "m" && "qp"[1..] == "p";
    assert "pc"[1..] == "c" && "ot"[1..] == "t" && "ab"[1..] == "b";
    assert "n"[1..] == "m"[1..] == "p"[1..] == "c"[1..] == "t"[1..] == "b"[1..] == "";
  }

  /** `Map::new()` as a value. */
  function NewBoxes(): (r: seq<seq<Entry>>)
    ensures |r| == 256
  {
    seq(256, _ => [])
  }

  /** 256 boxes, all empty except the first four. */
  function Boxes4(b0: seq<Entry>, b1: seq<Entry>, b2: seq<Entry>, b3: seq<Entry>): seq<seq<Entry>> {
    seq(256, k => if k == 0 then b0 else if k == 1 then b1 else if k == 2 then b2 else if k == 3 then b3 else [])
  }

  lemma Boxes4Power(b0: seq<Entry>, b1: seq<Entry>, b2: seq<Entry>, b3: seq<Entry>)
    ensures FocusingPower(Boxes4(b0, b1, b2, b3)) ==
      BoxPower(0, b0) + BoxPower(1, b1) + BoxPower(2, b2) + BoxPower(3, b3)
  {
    var boxes := Boxes4(b0, b1, b2, b3);
    PowerEmptyTail(boxes, 4, 256);
    assert boxes[0] == b0 && boxes[1] == b1 && boxes[2] == b2 && boxes[3] == b3;
    assert PowerUpTo(boxes, 1) == BoxPower(0, b0);
    assert PowerUpTo(boxes, 2) == BoxPower(0, b0) + BoxPower(1, b1);
    assert PowerUpTo(boxes, 4) == PowerUpTo(boxes, 2) + BoxPower(2, b2) + BoxPower(3, b3);
  }

  const SampleOps: seq<Operation> := [
    Insert("rn", 1), Remove("cm"), Insert("qp", 3), Insert("cm", 2), Remove("qp"), Insert("pc", 4),
    Insert("ot", 9), Insert("ab", 5), Remove("pc"), Insert("pc", 6), Insert("ot", 7)]

  lemma RuleAllCons(boxes: seq<seq<Entry>>, ops: seq<Operation>, k: nat, box: seq<Entry>, after: seq<seq<Entry>>)
    requires |boxes| == 256 && ops != [] && k == Hash(ops[0].name)
    requires box == Rule(boxes[k], ops[0]) && after == boxes[k := box]
    ensures RuleAll(boxes, ops) == RuleAll(after, ops[1..])
  {
  }

  /** One operation of the sample, by the puzzle's rules. */
  lemma SampleStep(i: nat, before: seq<seq<Entry>>, k: nat, box: seq<Entry>, after: seq<seq<Entry>>)
    requires i < |SampleOps| && |before| == 256 && k == Hash(SampleOps[i].name)
    requires box == Rule(before[k], SampleOps[i]) && after == before[k := box]
    ensures RuleAll(before, SampleOps[i..]) == RuleAll(after, SampleOps[i + 1..])
  {
    assert SampleOps[i..][0] == SampleOps[i] && SampleOps[i..][1..] == SampleOps[i + 1..];
    RuleAllCons(before, SampleOps[i..], k, box, after);
  }

  /** The sample by the puzzle's rules, first operation: rn enters box 0. */
  lemma SampleFirstStep(start: seq<seq<Entry>>, rn: Entry)
    requires start == NewBoxes() && rn == Occupied("rn", 1)
    ensures RuleAll(start, SampleOps) == RuleAll(Boxes4([rn], [], [], []), SampleOps[1..])
  {
    SampleHashes();
    assert start == Boxes4([], [], [], []);
    SampleStep(0, start, 0, [rn], Boxes4([rn], [], [], []));
  }

  /** Second operation: cm is not in box 0, so nothing changes. */
  lemma SampleSecondStep(rn: Entry)
    requires rn == Occupied("rn", 1)
    ensures RuleAll(Boxes4([rn], [], [], []), SampleOps[1..]) == RuleAll(Boxes4([rn], [], [], []), SampleOps[2..])
  {
    SampleHashes();
    SampleStep(1, Boxes4([rn], [], [], []), 0, [rn], Boxes4([rn], [], [], []));
  }

  /** Second quarter: qp enters box 1 and cm box 0. */
  lemma SampleSecondQuarter(rn: Entry, cm: Entry, qp: Entry)
    requires rn == Occupied("rn", 1) && cm == Occupied("cm", 2) && qp == Occupied("qp", 3)
    ensures RuleAll(Boxes4([rn], [], [], []), SampleOps[2..]) == RuleAll(Boxes4([rn, cm], [qp], [], []), SampleOps[4..])
  {
    SampleHashes();
    SampleStep(2, Boxes4([rn], [], [], []), 1, [qp], Boxes4([rn], [qp], [], []));
    SampleStep(3, Boxes4([rn], [qp], [], []), 0, [rn, cm], Boxes4([rn, cm], [qp], [], []));
  }

  /** Fifth operation: qp leaves box 1. */
  lemma SampleQpLeaves(b0: seq<Entry>, qp: Entry)
    requires qp == Occupied("qp", 3)
    ensures RuleAll(Boxes4(b0, [qp], [], []), SampleOps[4..]) == RuleAll(Boxes4(b0, [], [], []), SampleOps[5..])
  {
    SampleHashes();
    SampleStep(4, Boxes4(b0, [qp], [], []), 1, [], Boxes4(b0, [], [], []));
  }

  /** Third quarter: qp leaves box 1 and pc 4, ot 9 enter box 3. */
  lemma SampleThirdQuarter(b0: seq<Entry>, qp: Entry, pc4: Entry, ot9: Entry)
    requires qp == Occupied("qp", 3) && pc4 == Occupied("pc", 4) && ot9 == Occupied("ot", 9)
    ensures RuleAll(Boxes4(b0, [qp], [], []), SampleOps[4..]) == RuleAll(Boxes4(b0, [], [], [pc4, ot9]), SampleOps[7..])
  {
    SampleQpLeaves(b0, qp);
    SampleHashes();
    SampleStep(5, Boxes4(b0, [], [], []), 3, [pc4], Boxes4(b0, [], [], [pc4]));
    SampleStep(6, Boxes4(b0, [], [], [pc4]), 3, [pc4, ot9], Boxes4(b0, [], [], [pc4, ot9]));
  }

  /** Eighth and ninth operations: ab 5 joins box 3 and pc leaves it. */
  lemma SampleAbJoins(b0: seq<Entry>, pc4: Entry, ot9: Entry, ab5: Entry)
    requires pc4 == Occupied("pc", 4) && ot9 == Occupied("ot", 9) && ab5 == Occupied("ab", 5)
    ensures RuleAll(Boxes4(b0, [], [], [pc4, ot9]), SampleOps[7..]) == RuleAll(Boxes4(b0, [], [], [ot9, ab5]), SampleOps[9..])
  {
    SampleHashes();
    SampleStep(7, Boxes4(b0, [], [], [pc4, ot9]), 3, [pc4, ot9, ab5], Boxes4(b0, [], [], [pc4, ot9, ab5]));
    assert [pc4, ot9, ab5][1..] == [ot9, ab5];
    SampleStep(8, Boxes4(b0, [], [], [pc4, ot9, ab5]), 3, [ot9, ab5], Boxes4(b0, [], [], [ot9, ab5]));
  }

  /** Last quarter: box 3 ends as ot 7, ab 5, pc 6. */
  lemma SampleLastQuarter(b0: seq<Entry>, pc4: Entry, ot9: Entry, ab5: Entry, pc6: Entry, ot7: Entry)
    requires pc4 == Occupied("pc", 4) && ot9 == Occupied("ot", 9) && ab5 == Occupied("ab", 5)
    requires pc6 == Occupied("pc", 6) && ot7 == Occupied("ot", 7)
    ensures RuleAll(Boxes4(b0, [], [], [pc4, ot9]), SampleOps[7..]) == Boxes4(b0, [], [], [ot7, ab5, pc6])
  {
    SampleAbJoins(b0, pc4, ot9, ab5);
    SampleHashes();
    SampleStep(9, Boxes4(b0, [], [], [ot9, ab5]), 3, [ot9, ab5, pc6], Boxes4(b0, [], [], [ot9, ab5, pc6]));
    SampleStep(10, Boxes4(b0, [], [], [ot9, ab5, pc6]), 3, [ot7, ab5, pc6], Boxes4(b0, [], [], [ot7, ab5, pc6]));
    assert SampleOps[11..] == [];
  }

  lemma SamplePower(b0: seq<Entry>, b3: seq<Entry>)
    requires b0 == [Occupied("rn", 1), Occupied("cm", 2)]
    requires b3 == [Occupied("ot", 7), Occupied("ab", 5), Occupied("pc", 6)]
    ensures BoxPower(0, b0) == 5 && BoxPower(3, b3) == 140
  {
    assert b0[..1] == [b0[0]] && b0[..1][..0] == [];
    assert BoxPower(0, b0[..1]) == 1;
    assert b3[..2] == [b3[0], b3[1]] && b3[..2][..1] == [b3[0]] && b3[..2][..1][..0] == [];
    assert BoxPower(3, b3[..2][..1]) == 28;
    assert BoxPower(3, b3[..2]) == 68;
  }

  /** `part2`: apply every operation, compact, and sum the focusing power. */
  method Part2(ops: seq<Operation>) returns (power: nat)
    ensures power == FocusingPower(CompactAll(ApplyAll(NewBoxes(), ops)))
  {
    var hm := new Map();
    assert hm.boxes == NewBoxes();
    for i := 0 to |ops|
      invariant hm.Valid() && ApplyAll(hm.boxes, ops[i..]) == ApplyAll(NewBoxes(), ops)
    {
      assert ops[i..][0] == ops[i] && ops[i..][1..] == ops[i + 1..];
      hm.Apply(ops[i]);
    }
    ghost var applied := hm.boxes;
    assert applied == ApplyAll(NewBoxes(), ops) by {
      assert ops[|ops|..] == [];
    }
    hm.Compact();
    assert hm.boxes == CompactAll(applied);
    power := hm.Power();
  }

  /** test_hashmap: rn=1,cm-,qp=3,cm=2,qp-,pc=4,ot=9,ab=5,pc-,pc=6,ot=7 has focusing power 145. */
  method SampleTest() returns (power: nat)
    ensures power == 145
  {
    var ops, start := SampleOps, NewBoxes();
    power := Part2(ops);
    CompactAllApplyAll(start, ops);
    assert CompactAll(start) == start;
    SampleRules(start);
  }

  /** By the puzzle's rules, the sample leaves rn 1, cm 2 in box 0 and ot 7, ab 5, pc 6 in box 3,
      for a focusing power of 145. */
  lemma SampleRules(start: seq<seq<Entry>>)
    requires start == NewBoxes()
    ensures FocusingPower(RuleAll(start, SampleOps)) == 145
  {
    var rn, cm, qp := Occupied("rn", 1), Occupied("cm", 2), Occupied("qp", 3);
    var pc4, ot9, ab5, pc6, ot7 := Occupied("pc", 4), Occupied("ot", 9), Occupied("ab", 5), Occupied("pc", 6), Occupied("ot", 7);
    SampleRulesBoxes(start, rn, cm, qp, pc4, ot9, ab5, pc6, ot7);
    SampleBoxesPower([rn, cm], [ot7, ab5, pc6]);
  }

  /** The boxes the sample leaves behind. */
  lemma SampleRulesBoxes(start: seq<seq<Entry>>, rn: Entry, cm: Entry, qp: Entry,
                         pc4: Entry, ot9: Entry, ab5: Entry, pc6: Entry, ot7: Entry)
    requires start == NewBoxes()
    requires rn == Occupied("rn", 1) && cm == Occupied("cm", 2) && qp == Occupied("qp", 3)
    requires pc4 == Occupied("pc", 4) && ot9 == Occupied("ot", 9) && ab5 == Occupied("ab", 5)
    requires pc6 == Occupied("pc", 6) && ot7 == Occupied("ot", 7)
    ensures RuleAll(start, SampleOps) == Boxes4([rn, cm], [], [], [ot7, ab5, pc6])
  {
    SampleFirstStep(start, rn);
    SampleSecondStep(rn);
    SampleSecondQuarter(rn, cm, qp);
    SampleThirdQuarter([rn, cm], qp, pc4, ot9);
    SampleLastQuarter([rn, cm], pc4, ot9, ab5, pc6, ot7);
  }

  /** The focusing power of those boxes. */
  lemma SampleBoxesPower(b0: seq<Entry>, b3: seq<Entry>)
    requires b0 == [Occupied("rn", 1), Occupied("cm", 2)]
    requires b3 == [Occupied("ot", 7), Occupied("ab", 5), Occupied("pc", 6)]
    ensures FocusingPower(Boxes4(b0, [], [], b3)) == 145
  {
    Boxes4Power(b0, [], [], b3);
    SamplePower(b0, b3);
  }
}
