/**
 * 2023 day 7: Camel Cards.  A hand of five cards is classified by the sorted
 * counts of its equal cards (its signature); hands order by that class, then
 * card by card.  With wild jokers, the jokers join the largest group.
 */
module Y2023Day07 {
  datatype Card = Joker | Two | Three | Four | Five | Six | Seven | Eight | Nine | Ten | Jack | Queen | King | Ace

  /** The declaration order of `Card`, which its derived `Ord` follows. */
  function Strength(c: Card): nat
  {
    match c
    case Joker => 0 case Two => 1 case Three => 2 case Four => 3 case Five => 4
    case Six => 5 case Seven => 6 case Eight => 7 case Nine => 8 case Ten => 9
    case Jack => 10 case Queen => 11 case King => 12 case Ace => 13
  }

  /** Cards are ordered from Joker, the lowest, to Ace, the highest, without ties. */
  lemma StrengthOrder(c: Card, d: Card)
    ensures Strength(Joker) <= Strength(c) <= Strength(Ace)
    ensures c != d ==> Strength(c) != Strength(d)
  {
  }

  predicate IsCardChar(c: char)
  {
    c == 'A' || c == 'K' || c == 'Q' || c == 'J' || c == 'T' ||
    ('2' <= c <= '9')
  }

  /** `Card::new`: any other character panics. */
  function CardOf(c: char): (card: Card)
    requires IsCardChar(c)
    ensures card != Joker
  {
    match c
    case 'A' => Ace case 'K' => King case 'Q' => Queen case 'J' => Jack case 'T' => Ten
    case '9' => Nine case '8' => Eight case '7' => Seven case '6' => Six case '5' => Five
    case '4' => Four case '3' => Three case '2' => Two
  }

  /** `Card::new_wild`: 'J' is the joker. */
  function WildCardOf(c: char): (card: Card)
    requires IsCardChar(c)
    ensures card != Jack
    ensures card == Joker <==> c == 'J'
  {
    if c == 'J' then Joker else CardOf(c)
  }

  // ------------------------------------------------------------- counting

  predicate NoDuplicates<T(==,!new)>(d: seq<T>)
  {
    forall i, j | 0 <= i < j < |d| :: d[i] != d[j]
  }

  /** The distinct elements of `t` in order of first appearance. */
  function Distinct<T(==,!new)>(t: seq<T>): (d: seq<T>)
    ensures forall y :: y in d <==> y in t
    ensures NoDuplicates(d)
    decreases |t|
  {
    if t == [] then []
    else
      var init, x := t[..|t| - 1], t[|t| - 1];
      assert t == init + [x];
      if x in init then Distinct(init) else Distinct(init) + [x]
  }

  /** The count of each key of `ds` in `t`. */
  function CountsFor<T(==,!new)>(t: seq<T>, ds: seq<T>): (r: seq<nat>)
    ensures |r| == |ds|
  {
    seq(|ds|, j requires 0 <= j < |ds| => multiset(t)[ds[j]])
  }

  /** `ds` with `x` taken out. */
  function Remove<T(==,!new)>(ds: seq<T>, x: T): (r: seq<T>)
    ensures forall y :: y in r <==> y in ds && y != x
    ensures NoDuplicates(ds) ==> NoDuplicates(r)
  {
    if ds == [] then []
    else if ds[0] == x then
      assert NoDuplicates(ds) ==> NoDuplicates(ds[1..]);
      Remove(ds[1..], x)
    else
      var rest := Remove(ds[1..], x);
      assert NoDuplicates(ds) ==> NoDuplicates(ds[1..]) && ds[0] !in ds[1..];
      [ds[0]] + rest
  }

  function Sum(xs: seq<nat>): nat
  {
    if xs == [] then 0 else xs[0] + Sum(xs[1..])
  }

  lemma {:induction false} SumZeroCounts<T(!new)>(ds: seq<T>)
    ensures Sum(CountsFor([], ds)) == 0
    decreases |ds|
  {
    if ds != [] {
      assert CountsFor([], ds)[1..] == CountsFor([], ds[1..]);
      SumZeroCounts(ds[1..]);
    }
  }

  /** One more element of `t` adds one to the total when its key is listed. */
  lemma {:induction false} SumCountsSnoc<T(!new)>(t: seq<T>, x: T, ds: seq<T>)
    requires NoDuplicates(ds)
    ensures Sum(CountsFor(t + [x], ds)) == Sum(CountsFor(t, ds)) + (if x in ds then 1 else 0)
    decreases |ds|
  {
    if ds != [] {
      assert CountsFor(t + [x], ds)[1..] == CountsFor(t + [x], ds[1..]);
      assert CountsFor(t, ds)[1..] == CountsFor(t, ds[1..]);
      assert multiset(t + [x]) == multiset(t) + multiset{x};
      assert NoDuplicates(ds[1..]);
      SumCountsSnoc(t, x, ds[1..]);
      assert x in ds <==> x == ds[0] || x in ds[1..];
      assert x == ds[0] ==> x !in ds[1..];
    }
  }

  /** Counting every element under distinct keys counts each once. */
  lemma {:induction false} SumCounts<T(!new)>(t: seq<T>, ds: seq<T>)
    requires NoDuplicates(ds) && forall y | y in t :: y in ds
    ensures Sum(CountsFor(t, ds)) == |t|
    decreases |t|
  {
    if t == [] {
      SumZeroCounts(ds);
    } else {
      var init, x := t[..|t| - 1], t[|t| - 1];
      assert t == init + [x];
      SumCounts(init, ds);
      SumCountsSnoc(init, x, ds);
    }
  }

  /** Taking a key out of the list drops its count from the total. */
  lemma {:induction false} SumRemove<T(!new)>(t: seq<T>, ds: seq<T>, x: T)
    requires NoDuplicates(ds)
    ensures Sum(CountsFor(t, Remove(ds, x))) + (if x in ds then multiset(t)[x] else 0) == Sum(CountsFor(t, ds))
    decreases |ds|
  {
    if ds != [] {
      assert CountsFor(t, ds)[1..] == CountsFor(t, ds[1..]);
      assert NoDuplicates(ds[1..]);
      SumRemove(t, ds[1..], x);
      if ds[0] != x {
        var r := Remove(ds, x);
        assert r == [ds[0]] + Remove(ds[1..], x);
        assert CountsFor(t, r)[1..] == CountsFor(t, Remove(ds[1..], x));
      } else {
        assert x !in ds[1..];
      }
    }
  }

  /** Every listed key of elements of `t` occurs at least once. */
  lemma CountsPositive<T(!new)>(t: seq<T>, ds: seq<T>)
    requires forall y | y in ds :: y in t
    ensures forall k | 0 <= k < |ds| :: CountsFor(t, ds)[k] >= 1
  {
    forall k | 0 <= k < |ds| ensures CountsFor(t, ds)[k] >= 1 {
      assert ds[k] in t;
      assert ds[k] in multiset(t);
    }
  }

  // -------------------------------------------------------------- sorting

  predicate Sorted(xs: seq<nat>)
  {
    forall i, j | 0 <= i < j < |xs| :: xs[i] <= xs[j]
  }

  function Insert(x: nat, s: seq<nat>): (r: seq<nat>)
    ensures multiset(r) == multiset(s) + multiset{x} && |r| == |s| + 1
  {
    if s == [] then [x]
    else if x <= s[0] then [x] + s
    else
      assert s == [s[0]] + s[1..];
      [s[0]] + Insert(x, s[1..])
  }

  lemma ConsSorted(h: nat, rest: seq<nat>)
    requires Sorted(rest) && forall k | 0 <= k < |rest| :: h <= rest[k]
    ensures Sorted([h] + rest)
  {
    var r := [h] + rest;
    forall i, j | 0 <= i < j < |r| ensures r[i] <= r[j] {
      assert r[j] == rest[j - 1];
      if i > 0 {
        assert r[i] == rest[i - 1];
      }
    }
  }

  /** A lower bound of `x` and of `s` bounds `Insert(x, s)`. */
  lemma InsertBound(x: nat, s: seq<nat>, b: nat)
    requires b <= x && forall k | 0 <= k < |s| :: b <= s[k]
    ensures forall k | 0 <= k < |s| + 1 :: b <= Insert(x, s)[k]
  {
    var r := Insert(x, s);
    forall k | 0 <= k < |r| ensures b <= r[k] {
      assert r[k] in multiset(r);
      assert r[k] in s || r[k] == x;
    }
  }

  lemma {:induction false} InsertSorted(x: nat, s: seq<nat>)
    requires Sorted(s)
    ensures Sorted(Insert(x, s))
  {
    if s == [] {
    } else if x <= s[0] {
      ConsSorted(x, s);
    } else {
      InsertSorted(x, s[1..]);
      InsertBound(x, s[1..], s[0]);
      ConsSorted(s[0], Insert(x, s[1..]));
    }
  }

  lemma {:induction false} InsertSum(x: nat, s: seq<nat>)
    ensures Sum(Insert(x, s)) == Sum(s) + x
  {
    if s != [] && x > s[0] {
      InsertSum(x, s[1..]);
      assert ([s[0]] + Insert(x, s[1..]))[1..] == Insert(x, s[1..]);
    }
  }

  /** `sort`: ascending, same elements, same total. */
  function Sort(xs: seq<nat>): (r: seq<nat>)
    ensures Sorted(r) && multiset(r) == multiset(xs) && |r| == |xs| && Sum(r) == Sum(xs)
  {
    if xs == [] then []
    else
      assert xs == [xs[0]] + xs[1..];
      InsertSorted(xs[0], Sort(xs[1..]));
      InsertSum(xs[0], Sort(xs[1..]));
      Insert(xs[0], Sort(xs[1..]))
  }

  // ------------------------------------------------------------ signature

  /** The seven sorted signatures `new` recognises, one per class. */
  predicate IsSignature(sig: seq<nat>)
  {
    sig == [5] || sig == [1, 4] || sig == [2, 3] || sig == [1, 1, 3] || sig == [1, 2, 2] ||
    sig == [1, 1, 1, 2] || sig == [1, 1, 1, 1, 1]
  }

  lemma {:induction false} SumAtLeastLength(xs: seq<nat>)
    requires forall k | 0 <= k < |xs| :: xs[k] >= 1
    ensures Sum(xs) >= |xs|
  {
    if xs != [] {
      SumAtLeastLength(xs[1..]);
    }
  }

  function At(xs: seq<nat>, k: nat): nat
  {
    if k < |xs| then xs[k] else 0
  }

  lemma {:induction false} SumOfFew(xs: seq<nat>)
    requires |xs| <= 5
    ensures Sum(xs) == At(xs, 0) + At(xs, 1) + At(xs, 2) + At(xs, 3) + At(xs, 4)
  {
    if xs != [] {
      SumOfFew(xs[1..]);
      assert At(xs[1..], 0) == At(xs, 1) && At(xs[1..], 1) == At(xs, 2);
      assert At(xs[1..], 2) == At(xs, 3) && At(xs[1..], 3) == At(xs, 4) && At(xs[1..], 4) == 0;
    }
  }

  /** The partitions of five: a sorted list of positive counts adding to 5 is one of the seven. */
  lemma PartitionsOfFive(sig: seq<nat>)
    requires Sorted(sig) && Sum(sig) == 5 && forall k | 0 <= k < |sig| :: sig[k] >= 1
    ensures IsSignature(sig)
  {
    SumAtLeastLength(sig);
    SumOfFew(sig);
    var n := |sig|;
    assert n >= 2 ==> 1 <= sig[0] <= sig[1];
    assert n >= 3 ==> sig[1] <= sig[2];
    assert n >= 4 ==> sig[2] <= sig[3];
    PartitionCases(sig);
  }

  /** The case analysis behind `PartitionsOfFive`, on the counts themselves. */
  lemma PartitionCases(sig: seq<nat>)
    requires 1 <= |sig| <= 5 && forall k | 0 <= k < |sig| :: sig[k] >= 1
    requires At(sig, 0) + At(sig, 1) + At(sig, 2) + At(sig, 3) + At(sig, 4) == 5
    requires |sig| >= 2 ==> sig[0] <= sig[1]
    requires |sig| >= 3 ==> sig[1] <= sig[2]
    requires |sig| >= 4 ==> sig[2] <= sig[3]
    ensures IsSignature(sig)
  {
    var n := |sig|;
    if n == 1 {
      assert sig == [5];
    } else if n == 2 {
      if sig[0] == 1 {
        assert sig == [1, 4];
      } else {
        assert sig == [2, 3];
      }
    } else if n == 3 {
      if sig[1] == 1 {
        assert sig == [1, 1, 3];
      } else {
        assert sig == [1, 2, 2];
      }
    } else if n == 4 {
      assert sig == [1, 1, 1, 2];
    } else {
      assert sig == [1, 1, 1, 1, 1];
    }
  }

  // ----------------------------------------------------------------- hands

  /** `Hand`: the class, holding the five cards in order. */
  datatype Hand =
    | Flush(cards: seq<Card>)
    | FourOfAKind(cards: seq<Card>)
    | FullHouse(cards: seq<Card>)
    | ThreeOfAKind(cards: seq<Card>)
    | TwoPair(cards: seq<Card>)
    | Pair(cards: seq<Card>)
    | High(cards: seq<Card>)

  predicate WellFormed(h: Hand)
  {
    |h.cards| == 5
  }

  datatype Classified = Classified(hand: Hand) | BadSignature

  /** The `if sig == vec![..]` chain of `new` and `new_wild`. */
  function Classify(sig: seq<nat>, cards: seq<Card>): (r: Classified)
    ensures r.Classified? <==> IsSignature(sig)
    ensures r.Classified? ==> r.hand.cards == cards
  {
    if sig == [5] then Classified(Flush(cards))
    else if sig == [1, 4] then Classified(FourOfAKind(cards))
    else if sig == [2, 3] then Classified(FullHouse(cards))
    else if sig == [1, 1, 3] then Classified(ThreeOfAKind(cards))
    else if sig == [1, 2, 2] then Classified(TwoPair(cards))
    else if sig == [1, 1, 1, 2] then Classified(Pair(cards))
    else if sig == [1, 1, 1, 1, 1] then Classified(High(cards))
    else BadSignature
  }

  /** `rank` */
  function Rank(h: Hand): nat
  {
    match h
    case Flush(_) => 7
    case FourOfAKind(_) => 6
    case FullHouse(_) => 5
    case ThreeOfAKind(_) => 4
    case TwoPair(_) => 3
    case Pair(_) => 2
    case High(_) => 1
  }

  /** The rank runs over 1..7, grows as the groups merge, and tells the classes apart. */
  lemma RankOfSignature(sig: seq<nat>, other: seq<nat>, cards: seq<Card>)
    requires IsSignature(sig) && IsSignature(other)
    ensures 1 <= Rank(Classify(sig, cards).hand) <= 7
    ensures Rank(Classify(sig, cards).hand) > Rank(Classify(other, cards).hand) <==>
      |sig| < |other| || (|sig| == |other| && sig[|sig| - 1] > other[|other| - 1])
  {
  }

  lemma RankDeterminesClass(a: Hand, b: Hand)
    requires Rank(a) == Rank(b) && a.cards == b.cards
    ensures a == b
  {
  }

  function CardsOf(s: string): (cards: seq<Card>)
    requires forall c | c in s :: IsCardChar(c)
    ensures |cards| == |s| && forall i | 0 <= i < |s| :: cards[i] == CardOf(s[i])
  {
    seq(|s|, i requires 0 <= i < |s| && s[i] in s => CardOf(s[i]))
  }

  function WildCardsOf(s: string): (cards: seq<Card>)
    requires forall c | c in s :: IsCardChar(c)
    ensures |cards| == |s| && forall i | 0 <= i < |s| :: cards[i] == WildCardOf(s[i])
  {
    seq(|s|, i requires 0 <= i < |s| && s[i] in s => WildCardOf(s[i]))
  }

  /** The signature `new` builds: the sorted counts of equal characters. */
  function Signature(s: string): seq<nat>
  {
    Sort(CountsFor(s, Distinct(s)))
  }

  /** The signature `new_wild` builds: the sorted counts of the other cards, the jokers added to the largest. */
  function WildSignature(cards: seq<Card>): seq<nat>
  {
    AddJokers(Sort(CountsFor(cards, Remove(Distinct(cards), Joker))), multiset(cards)[Joker])
  }

  /** An empty signature becomes `[0]`; the jokers join its last, largest, count. */
  function AddJokers(sig: seq<nat>, jokers: nat): seq<nat>
  {
    var sig := if |sig| == 0 then [0] else sig;
    sig[|sig| - 1 := sig[|sig| - 1] + jokers]
  }

  /** Five characters always make one of the seven signatures: `new` never reaches its last panic. */
  lemma SignatureTotal(s: string)
    requires |s| == 5
    ensures IsSignature(Signature(s))
  {
    var ds := Distinct(s);
    SumCounts(s, ds);
    CountsPositive(s, ds);
    var sig := Signature(s);
    forall k | 0 <= k < |sig| ensures sig[k] >= 1 {
      assert sig[k] in multiset(CountsFor(s, ds));
    }
    PartitionsOfFive(sig);
  }

  /** The counts `new_wild` sorts: positive, and with the jokers they add up to the hand. */
  lemma WildCounts(cards: seq<Card>)
    ensures var counts := CountsFor(cards, Remove(Distinct(cards), Joker));
      Sum(counts) + multiset(cards)[Joker] == |cards| && forall k | 0 <= k < |counts| :: counts[k] >= 1
  {
    var ds := Distinct(cards);
    SumCounts(cards, ds);
    SumRemove(cards, ds, Joker);
    assert Joker !in ds ==> multiset(cards)[Joker] == 0;
    CountsPositive(cards, Remove(ds, Joker));
  }

  /** Raising the largest of sorted positive counts keeps them sorted and positive. */
  lemma {:induction false} RaiseLast(xs: seq<nat>, n: nat)
    requires xs != [] && Sorted(xs)
    ensures var ys := xs[|xs| - 1 := xs[|xs| - 1] + n];
      Sorted(ys) && Sum(ys) == Sum(xs) + n && forall k | 0 <= k < |xs| :: ys[k] >= xs[k]
    decreases |xs|
  {
    var ys := xs[|xs| - 1 := xs[|xs| - 1] + n];
    if |xs| > 1 {
      assert ys[1..] == xs[1..][|xs| - 2 := xs[1..][|xs| - 2] + n];
      RaiseLast(xs[1..], n);
    }
  }

  /** With wild jokers too: the jokers raise the largest count, so the signature stays a partition of five. */
  lemma WildSignatureTotal(cards: seq<Card>)
    requires |cards| == 5
    ensures IsSignature(WildSignature(cards))
  {
    var counts := CountsFor(cards, Remove(Distinct(cards), Joker));
    WildCounts(cards);
    var sorted := Sort(counts);
    forall k | 0 <= k < |sorted| ensures sorted[k] >= 1 {
      assert sorted[k] in multiset(counts);
    }
    AddJokersShape(sorted, multiset(cards)[Joker]);
    PartitionsOfFive(WildSignature(cards));
  }

  /** The jokers keep the counts sorted and positive, and make them add up to the hand. */
  lemma AddJokersShape(sorted: seq<nat>, jokers: nat)
    requires Sorted(sorted) && Sum(sorted) + jokers == 5
    requires forall k | 0 <= k < |sorted| :: sorted[k] >= 1
    ensures var sig := AddJokers(sorted, jokers);
      Sorted(sig) && Sum(sig) == 5 && forall k | 0 <= k < |sig| :: sig[k] >= 1
  {
    if |sorted| == 0 {
      assert AddJokers(sorted, jokers) == [jokers];
    } else {
      RaiseLast(sorted, jokers);
    }
  }

  /** What `Hand::new` returns for five card characters. */
  function HandOf(s: string): (h: Hand)
    requires |s| == 5 && forall c | c in s :: IsCardChar(c)
    ensures WellFormed(h) && h.cards == CardsOf(s)
  {
    SignatureTotal(s);
    Classify(Signature(s), CardsOf(s)).hand
  }

  /** What `Hand::new_wild` returns for five card characters. */
  function WildHandOf(s: string): (h: Hand)
    requires |s| == 5 && forall c | c in s :: IsCardChar(c)
    ensures WellFormed(h) && h.cards == WildCardsOf(s)
  {
    WildSignatureTotal(WildCardsOf(s));
    Classify(WildSignature(WildCardsOf(s)), WildCardsOf(s)).hand
  }

  lemma DistinctSnoc<T(!new)>(t: seq<T>, x: T)
    ensures Distinct(t + [x]) == if x in t then Distinct(t) else Distinct(t) + [x]
  {
    assert (t + [x])[..|t|] == t;
  }

  /** `counts` holds, for each element of `u` and nothing else, how often it occurs. */
  ghost predicate Tallies<T(!new)>(counts: map<T, nat>, u: seq<T>)
  {
    (forall x :: x in counts <==> x in u) && forall x | x in counts :: counts[x] == multiset(u)[x]
  }

  /** One more element bumps its own count, starting from one. */
  function Bump<T(==)>(counts: map<T, nat>, x: T): map<T, nat>
  {
    if x in counts then counts[x := counts[x] + 1] else counts[x := 1]
  }

  lemma TalliesSnoc<T(!new)>(counts: map<T, nat>, u: seq<T>, x: T)
    requires Tallies(counts, u)
    ensures Tallies(Bump(counts, x), u + [x])
  {
    assert multiset(u + [x]) == multiset(u) + multiset{x};
  }

  lemma CountStep<T(!new)>(t: seq<T>, i: nat, counts: map<T, nat>, order: seq<T>)
    requires i < |t| && order == Distinct(t[..i]) && Tallies(counts, t[..i])
    ensures t[i] in counts ==> order == Distinct(t[..i + 1])
    ensures t[i] !in counts ==> order + [t[i]] == Distinct(t[..i + 1])
    ensures Tallies(Bump(counts, t[i]), t[..i + 1])
  {
    assert t[..i + 1] == t[..i] + [t[i]];
    DistinctSnoc(t[..i], t[i]);
    TalliesSnoc(counts, t[..i], t[i]);
  }

  /** The counting loop of `new` and `new_wild`: a count per key, keys in order of first appearance. */
  method CountMap<T(==,!new)>(t: seq<T>) returns (counts: map<T, nat>, order: seq<T>)
    ensures order == Distinct(t)
    ensures Tallies(counts, t)
  {
    counts, order := map[], [];
    for i := 0 to |t|
      invariant order == Distinct(t[..i])
      invariant Tallies(counts, t[..i])
    {
      var x := t[i];
      CountStep(t, i, counts, order);
      if x !in counts {
        order := order + [x];
      }
      counts := Bump(counts, x);
    }
    assert t[..|t|] == t;
  }

  /** `Hand::new`: panics unless the hand has five card characters. */
  method NewHand(s: string) returns (h: Hand)
    requires |s| == 5 && forall c | c in s :: IsCardChar(c)
    ensures h == HandOf(s)
  {
    var counts, order := CountMap(s);
    var values := seq(|order|, j requires 0 <= j < |order| && order[j] in counts => counts[order[j]]);
    assert values == CountsFor(s, Distinct(s));
    var sig := Sort(values);
    var cards := CardsOf(s);
    SignatureTotal(s);
    h := Classify(sig, cards).hand;
  }

  /** The joker step of `new_wild`: an empty signature gets a zero, then its last count takes the jokers. */
  method JoinJokers(sorted: seq<nat>, jokers: nat) returns (sig: seq<nat>)
    ensures sig == AddJokers(sorted, jokers)
  {
    sig := sorted;
    if |sig| == 0 {
      sig := [0];
    }
    sig := sig[|sig| - 1 := sig[|sig| - 1] + jokers];
  }

  /** `Hand::new_wild`: the jokers are taken out of the counts and added to the largest one. */
  method NewWildHand(s: string) returns (h: Hand)
    requires |s| == 5 && forall c | c in s :: IsCardChar(c)
    ensures h == WildHandOf(s)
  {
    var cards := WildCardsOf(s);
    var counts, order := CountMap(cards);
    var jokers := if Joker in counts then counts[Joker] else 0;
    var kept := Remove(order, Joker);
    var values := seq(|kept|, j requires 0 <= j < |kept| && kept[j] in counts => counts[kept[j]]);
    assert values == CountsFor(cards, kept);
    assert jokers == multiset(cards)[Joker];
    var sig := JoinJokers(Sort(values), jokers);
    WildSignatureTotal(cards);
    h := Classify(sig, cards).hand;
  }

  // -------------------------------------------------------------- ordering

  datatype Ordering = Less | Equal | Greater

  function Flip(o: Ordering): Ordering
  {
    match o
    case Less => Greater
    case Equal => Equal
    case Greater => Less
  }

  /** Card-by-card comparison from position i on. */
  function CompareCards(x: seq<Card>, y: seq<Card>, i: nat): Ordering
    requires |x| == |y| && i <= |x|
    decreases |x| - i
  {
    if i == |x| then Equal
    else if x[i] != y[i] then (if Strength(x[i]) < Strength(y[i]) then Less else Greater)
    else CompareCards(x, y, i + 1)
  }

  /** `cmp`: by rank, then by the cards left to right. */
  function Compare(a: Hand, b: Hand): Ordering
    requires WellFormed(a) && WellFormed(b)
  {
    if Rank(a) > Rank(b) then Greater
    else if Rank(a) < Rank(b) then Less
    else CompareCards(a.cards, b.cards, 0)
  }

  lemma {:induction false} CompareCardsFlip(x: seq<Card>, y: seq<Card>, i: nat)
    requires |x| == |y| && i <= |x|
    ensures CompareCards(y, x, i) == Flip(CompareCards(x, y, i))
    ensures CompareCards(x, y, i) == Equal <==> x[i..] == y[i..]
    decreases |x| - i
  {
    if i < |x| {
      if x[i] != y[i] {
        StrengthOrder(x[i], y[i]);
      } else {
        CompareCardsFlip(x, y, i + 1);
        assert x[i..] == [x[i]] + x[i + 1..] && y[i..] == [y[i]] + y[i + 1..];
      }
    }
  }

  lemma {:induction false} CompareCardsTransitive(x: seq<Card>, y: seq<Card>, z: seq<Card>, i: nat)
    requires |x| == |y| == |z| && i <= |x|
    requires CompareCards(x, y, i) == Less && CompareCards(y, z, i) == Less
    ensures CompareCards(x, z, i) == Less
    decreases |x| - i
  {
    if x[i] == y[i] && y[i] == z[i] {
      CompareCardsTransitive(x, y, z, i + 1);
    } else {
      StrengthOrder(x[i], z[i]);
    }
  }

  /** `cmp` is antisymmetric and says Equal only for the same hand. */
  lemma CompareAntisymmetric(a: Hand, b: Hand)
    requires WellFormed(a) && WellFormed(b)
    ensures Compare(b, a) == Flip(Compare(a, b))
    ensures Compare(a, b) == Equal <==> a == b
  {
    CompareCardsFlip(a.cards, b.cards, 0);
    if Compare(a, b) == Equal {
      assert a.cards == a.cards[0..] && b.cards == b.cards[0..];
      RankDeterminesClass(a, b);
    }
  }

  /** `cmp` is transitive, so sorting by it is well defined. */
  lemma CompareTransitive(a: Hand, b: Hand, c: Hand)
    requires WellFormed(a) && WellFormed(b) && WellFormed(c)
    requires Compare(a, b) == Less && Compare(b, c) == Less
    ensures Compare(a, c) == Less
  {
    if Rank(a) == Rank(b) == Rank(c) {
      CompareCardsTransitive(a.cards, b.cards, c.cards, 0);
    }
  }

  // ----------------------------------------------------------------- tests

  /** A list without duplicates whose every element is `c`, and which holds `c`, is `[c]`. */
  lemma SingleKey<T(!new)>(d: seq<T>, c: T)
    requires NoDuplicates(d) && c in d && forall y | y in d :: y == c
    ensures d == [c]
  {
    forall k | 0 <= k < |d| ensures d[k] == c {
      assert d[k] in d;
    }
    if |d| >= 2 {
      NoDuplicatesApart(d, 0, 1);
      assert false;
    }
  }

  lemma NoDuplicatesApart<T(!new)>(d: seq<T>, i: nat, j: nat)
    requires NoDuplicates(d) && i < j < |d|
    ensures d[i] != d[j]
  {
  }

  /** Two different characters make at least two groups. */
  lemma TwoKeys(s: string, i: nat, j: nat)
    requires i < |s| && j < |s| && s[i] != s[j]
    ensures |Distinct(s)| >= 2
  {
    var d := Distinct(s);
    assert s[i] in d && s[j] in d;
  }

  lemma {:induction false} DistinctOfNoDuplicates<T(!new)>(t: seq<T>)
    requires NoDuplicates(t)
    ensures Distinct(t) == t
    decreases |t|
  {
    if t != [] {
      var init := t[..|t| - 1];
      assert t == init + [t[|t| - 1]];
      assert NoDuplicates(init);
      assert t[|t| - 1] !in init;
      DistinctOfNoDuplicates(init);
    }
  }

  /** Five equal cards beat any hand with two different cards. */
  lemma FlushBeatsOthers(flush: string, other: string, i: nat, j: nat)
    requires |flush| == 5 && forall k | 0 <= k < 5 :: flush[k] == flush[0]
    requires |other| == 5 && i < 5 && j < 5 && other[i] != other[j]
    requires IsCardChar(flush[0]) && forall c | c in other :: IsCardChar(c)
    ensures Compare(HandOf(flush), HandOf(other)) == Greater
  {
    var c := flush[0];
    SingleKey(Distinct(flush), c);
    assert flush == [c, c, c, c, c];
    assert multiset(flush)[c] == 5;
    assert CountsFor(flush, [c]) == [5];
    assert Signature(flush) == [5];
    TwoKeys(other, i, j);
    SignatureTotal(other);
  }

  /** test_build_hand: five tens (`TTTTT`) beat a pair of fives (`55678`). */
  lemma FlushBeatsPair(flush: string, pair: string)
    requires flush == "TTTTT" && pair == "55678"
    ensures Compare(HandOf(flush), HandOf(pair)) == Greater
  {
    FlushBeatsOthers(flush, pair, 0, 2);
  }

  /** Cards that agree before position k are decided by the cards at k. */
  lemma {:induction false} CompareCardsAt(x: seq<Card>, y: seq<Card>, i: nat, k: nat)
    requires |x| == |y| && i <= k < |x|
    requires forall j | i <= j < k :: x[j] == y[j]
    requires Strength(x[k]) > Strength(y[k])
    ensures CompareCards(x, y, i) == Greater
    decreases k - i
  {
    if i < k {
      CompareCardsAt(x, y, i + 1, k);
    }
  }

  /** Of two high-card hands that agree before position k, the one with the higher card at k wins. */
  lemma HighCardDecides(one: string, two: string, k: nat)
    requires |one| == 5 && NoDuplicates(one) && forall c | c in one :: IsCardChar(c)
    requires |two| == 5 && NoDuplicates(two) && forall c | c in two :: IsCardChar(c)
    requires k < 5 && one[..k] == two[..k] && Strength(CardOf(one[k])) > Strength(CardOf(two[k]))
    ensures Compare(HandOf(one), HandOf(two)) == Greater
  {
    HighHand(one);
    HighHand(two);
    var x, y := HandOf(one).cards, HandOf(two).cards;
    forall j | 0 <= j < k ensures x[j] == y[j] {
      assert one[j] == one[..k][j];
    }
    CompareCardsAt(x, y, 0, k);
  }

  /** test_compare_high: `23467` beats `23457` on the fourth card. */
  lemma HighCardOrder(one: string, two: string)
    requires one == "23467" && two == "23457"
    ensures Compare(HandOf(one), HandOf(two)) == Greater
  {
    assert one[..3] == two[..3];
    HighCardDecides(one, two, 3);
  }

  /** Five different cards make a high-card hand. */
  lemma HighHand(s: string)
    requires |s| == 5 && NoDuplicates(s) && forall c | c in s :: IsCardChar(c)
    ensures HandOf(s).High?
  {
    DistinctOfNoDuplicates(s);
    SignatureTotal(s);
  }

  /** test_new_wild: two jokers join the three aces. */
  lemma WildJokersJoin(s: string)
    requires s == "JJAAA"
    ensures Rank(WildHandOf(s)) == 7
  {
    var cards := WildCardsOf(s);
    assert cards == [Joker, Joker, Ace, Ace, Ace];
    var kept := Remove(Distinct(cards), Joker);
    SingleKey(kept, Ace);
    assert multiset(cards) == multiset{Joker, Joker, Ace, Ace, Ace};
    assert CountsFor(cards, [Ace]) == [3];
    assert WildSignature(cards) == [5];
  }
}
