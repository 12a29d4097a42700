/**
 * 2024 day 5, part 2: page-ordering rules.  A rule `a|b` asks that page `a`
 * come before page `b` whenever both are in an update; `reorder` rebuilds an
 * update from the back, each time picking a page no applicable rule wants
 * earlier.
 */
module Y2024Day05 {
  import opened Wrappers

  /** `Rule(a, b)`: page `before` must precede page `after`. */
  datatype Rule = Rule(before: int, after: int)

  /** `Order`: the pages of one update, in order. */
  type Order = seq<int>

  predicate NoRepeats(order: Order)
  {
    forall i, j | 0 <= i < j < |order| :: order[i] != order[j]
  }

  /** `index_of`: the first position of `v`. */
  function IndexOf(order: Order, v: int): Option<nat>
  {
    IndexFrom(order, v, 0)
  }

  /** The first position of `v` at or after `i`. */
  function IndexFrom(order: Order, v: int, i: nat): Option<nat>
    decreases |order| - i
  {
    if i >= |order| then None
    else if order[i] == v then Some(i)
    else IndexFrom(order, v, i + 1)
  }

  lemma {:induction false} IndexFromMeans(order: Order, v: int, i: nat)
    requires i <= |order|
    ensures var r := IndexFrom(order, v, i);
      (r.None? <==> v !in order[i..]) &&
      (r.Some? ==> i <= r.value < |order| && order[r.value] == v && v !in order[i..r.value])
    decreases |order| - i
  {
    if i < |order| {
      assert order[i..] == [order[i]] + order[i + 1..];
      IndexFromMeans(order, v, i + 1);
      var r := IndexFrom(order, v, i + 1);
      if order[i] != v && r.Some? {
        assert order[i..r.value] == [order[i]] + order[i + 1..r.value];
      }
    }
  }

  /** `index_of` finds `v` exactly when it is present, at a position holding `v` with no earlier copy. */
  lemma IndexOfMeans(order: Order, v: int)
    ensures var r := IndexOf(order, v);
      (r.None? <==> v !in order) &&
      (r.Some? ==> r.value < |order| && order[r.value] == v && v !in order[..r.value])
  {
    IndexFromMeans(order, v, 0);
    assert order[0..] == order;
  }

  /** `Rule::applies`: both pages are in the update. */
  function Applies(rule: Rule, order: Order): (b: bool)
    ensures b <==> rule.before in order && rule.after in order
  {
    IndexOfMeans(order, rule.before);
    IndexOfMeans(order, rule.after);
    IndexOf(order, rule.before).Some? && IndexOf(order, rule.after).Some?
  }

  /** `Rule::is_valid`: a missing page satisfies the rule; otherwise the first `before` comes first. */
  predicate RuleValid(rule: Rule, order: Order)
  {
    match IndexOf(order, rule.before)
    case None => true
    case Some(i1) =>
      match IndexOf(order, rule.after)
      case None => true
      case Some(i2) => i1 < i2
  }

  /**
   * A rule holds when one of its pages is missing; on an update without
   * repeats it holds exactly when no `after` page stands at or before a
   * `before` page.
   */
  lemma RuleValidMeans(rule: Rule, order: Order)
    ensures rule.before !in order || rule.after !in order ==> RuleValid(rule, order)
    ensures NoRepeats(order) ==>
      (RuleValid(rule, order) <==>
       forall i, j | 0 <= i < |order| && 0 <= j < |order| && order[i] == rule.before && order[j] == rule.after :: i < j)
  {
    IndexOfMeans(order, rule.before);
    IndexOfMeans(order, rule.after);
  }

  /** `Order::is_valid`: every rule holds. */
  predicate OrderValid(order: Order, rules: seq<Rule>)
  {
    ValidFrom(order, rules, 0)
  }

  /** Every rule from the `k`-th on holds. */
  predicate ValidFrom(order: Order, rules: seq<Rule>, k: nat)
    decreases |rules| - k
  {
    k >= |rules| || (RuleValid(rules[k], order) && ValidFrom(order, rules, k + 1))
  }

  lemma {:induction false} ValidFromMeans(order: Order, rules: seq<Rule>, k: nat)
    ensures ValidFrom(order, rules, k) <==> forall j | k <= j < |rules| :: RuleValid(rules[j], order)
    decreases |rules| - k
  {
    if k < |rules| {
      ValidFromMeans(order, rules, k + 1);
    }
  }

  /** An update is valid exactly when every rule holds on it. */
  lemma OrderValidMeans(order: Order, rules: seq<Rule>)
    ensures OrderValid(order, rules) <==> forall r | r in rules :: RuleValid(r, order)
  {
    ValidFromMeans(order, rules, 0);
  }

  /** One broken rule makes the update invalid. */
  lemma BrokenRule(order: Order, rules: seq<Rule>, k: nat)
    requires k < |rules| && !RuleValid(rules[k], order)
    ensures !OrderValid(order, rules)
  {
    ValidFromMeans(order, rules, 0);
  }

  /** `midpage`: the page in the middle; an empty update panics on the index. */
  function Midpage(order: Order): (r: int)
    requires |order| > 0
    ensures r in order
    ensures exists i | 0 <= i < |order| :: order[i] == r && (i == |order| - 1 - i || i == |order| - i)
  {
    order[|order| / 2]
  }

  /** The rules that apply to the update, in their given order. */
  function Relevant(rules: seq<Rule>, order: Order): seq<Rule>
  {
    RelevantFrom(rules, order, 0)
  }

  /** The rules from the `k`-th on that apply to the update. */
  function RelevantFrom(rules: seq<Rule>, order: Order, k: nat): seq<Rule>
    decreases |rules| - k
  {
    if k >= |rules| then []
    else if Applies(rules[k], order) then [rules[k]] + RelevantFrom(rules, order, k + 1)
    else RelevantFrom(rules, order, k + 1)
  }

  lemma {:induction false} RelevantFromMeans(rules: seq<Rule>, order: Order, k: nat)
    requires k <= |rules|
    ensures forall rule :: rule in RelevantFrom(rules, order, k) <==> rule in rules[k..] && Applies(rule, order)
    decreases |rules| - k
  {
    if k < |rules| {
      assert rules[k..] == [rules[k]] + rules[k + 1..];
      RelevantFromMeans(rules, order, k + 1);
    }
  }

  /** `relevant_rules` keeps exactly the rules whose two pages are both in the update. */
  lemma RelevantMeans(rules: seq<Rule>, order: Order)
    ensures forall rule :: rule in Relevant(rules, order) <==> rule in rules && Applies(rule, order)
  {
    RelevantFromMeans(rules, order, 0);
    assert rules[0..] == rules;
  }

  /** The first page that is no rule's `before`; None where `reorder` unwraps and panics. */
  function LastCandidate(order: Order, rules: seq<Rule>): (r: Option<int>)
    ensures r.Some? ==> r.value in order && forall rule | rule in rules :: rule.before != r.value
    ensures r.None? <==> forall e | e in order :: exists rule | rule in rules :: rule.before == e
  {
    if order == [] then None
    else if forall rule | rule in rules :: rule.before != order[0] then Some(order[0])
    else
      assert order == [order[0]] + order[1..];
      LastCandidate(order[1..], rules)
  }

  /** The update with every copy of `e` filtered out. */
  function Without(order: Order, e: int): (r: Order)
    ensures forall x :: x in r <==> x in order && x != e
    ensures |r| <= |order| && (e in order ==> |r| < |order|)
    ensures NoRepeats(order) ==> NoRepeats(r)
  {
    if order == [] then []
    else
      assert order == [order[0]] + order[1..];
      var rest := Without(order[1..], e);
      if order[0] == e then rest
      else
        assert NoRepeats(order) ==> order[0] !in order[1..];
        [order[0]] + rest
  }

  /** `reorder`: put last a page no applicable rule wants earlier, reorder the rest; None is the panic. */
  function Reorder(order: Order, rules: seq<Rule>): Option<Order>
    decreases |order|
  {
    if |order| == 0 then Some(order)
    else
      var relevant := Relevant(rules, order);
      match LastCandidate(order, relevant)
      case None => None
      case Some(last) =>
        match Reorder(Without(order, last), relevant)
        case None => None
        case Some(smaller) => Some(smaller + [last])
  }

  // ------------------------------------------------------------ properties

  lemma WithoutCount(order: Order, e: int, x: int)
    requires x != e
    ensures multiset(Without(order, e))[x] == multiset(order)[x]
  {
    if order != [] {
      assert order == [order[0]] + order[1..];
      WithoutCount(order[1..], e, x);
    }
  }

  /** `reorder` keeps exactly the pages of the update, once each; without repeats it is a permutation. */
  lemma {:induction false} ReorderPages(order: Order, rules: seq<Rule>)
    requires Reorder(order, rules).Some?
    ensures var r := Reorder(order, rules).value;
      (forall x :: x in r <==> x in order) && NoRepeats(r)
    ensures NoRepeats(order) ==> multiset(Reorder(order, rules).value) == multiset(order)
    decreases |order|
  {
    if |order| > 0 {
      var relevant := Relevant(rules, order);
      var last := LastCandidate(order, relevant).value;
      var rest := Without(order, last);
      ReorderPages(rest, relevant);
      var smaller := Reorder(rest, relevant).value;
      var r := smaller + [last];
      assert r == Reorder(order, rules).value;
      SnocNoRepeats(smaller, last);
      if NoRepeats(order) {
        forall x ensures multiset(r)[x] == multiset(order)[x] {
          if x == last {
            assert last !in smaller;
            CountOnce(order, last);
          } else {
            WithoutCount(order, last, x);
          }
        }
        assert multiset(r) == multiset(order);
      }
    }
  }

  lemma SnocNoRepeats(s: Order, e: int)
    requires NoRepeats(s) && e !in s
    ensures NoRepeats(s + [e])
  {
    var r := s + [e];
    forall i, j | 0 <= i < j < |r| ensures r[i] != r[j] {
      if j == |r| - 1 {
        assert r[i] == s[i];
      } else {
        assert r[i] == s[i] && r[j] == s[j];
      }
    }
  }

  lemma {:induction false} CountOnce(order: Order, x: int)
    requires NoRepeats(order) && x in order
    ensures multiset(order)[x] == 1
  {
    assert order == [order[0]] + order[1..];
    if order[0] == x {
      assert x !in order[1..];
    } else {
      CountOnce(order[1..], x);
    }
  }

  lemma {:induction false} IndexFromSnoc(s: Order, e: int, x: int, i: nat)
    requires e !in s && i <= |s|
    ensures x in s[i..] ==> IndexFrom(s + [e], x, i) == IndexFrom(s, x, i)
    ensures IndexFrom(s + [e], e, i) == Some(|s|)
    decreases |s| - i
  {
    if i < |s| {
      assert s[i..] == [s[i]] + s[i + 1..];
      IndexFromSnoc(s, e, x, i + 1);
    }
  }

  /** Appending a new page keeps the positions of the others. */
  lemma IndexOfSnoc(s: Order, e: int, x: int)
    requires e !in s
    ensures x in s ==> IndexOf(s + [e], x) == IndexOf(s, x)
    ensures IndexOf(s + [e], e) == Some(|s|)
  {
    IndexFromSnoc(s, e, x, 0);
    assert s[0..] == s;
  }

  /** The update `reorder` builds satisfies every rule it was given. */
  lemma {:induction false} ReorderValid(order: Order, rules: seq<Rule>)
    requires Reorder(order, rules).Some?
    ensures OrderValid(Reorder(order, rules).value, rules)
    decreases |order|
  {
    ReorderPages(order, rules);
    OrderValidMeans(Reorder(order, rules).value, rules);
    if |order| > 0 {
      var relevant := Relevant(rules, order);
      RelevantMeans(rules, order);
      var last := LastCandidate(order, relevant).value;
      var rest := Without(order, last);
      ReorderValid(rest, relevant);
      OrderValidMeans(Reorder(rest, relevant).value, relevant);
      ReorderPages(rest, relevant);
      var smaller := Reorder(rest, relevant).value;
      var r := smaller + [last];
      assert last !in smaller;
      forall rule | rule in rules ensures RuleValid(rule, r) {
        RuleValidMeans(rule, r);
        if rule.before in r && rule.after in r {
          IndexOfMeans(smaller, rule.before);
          assert rule in relevant;
          IndexOfSnoc(smaller, last, rule.before);
          IndexOfSnoc(smaller, last, rule.after);
          if rule.after != last {
            assert RuleValid(rule, smaller);
          }
        }
      }
    }
  }

  /** Every earlier page of `target` has a rule putting it before every later one. */
  predicate Chained(rules: seq<Rule>, target: Order)
  {
    forall i, j | 0 <= i < j < |target| :: Rule(target[i], target[j]) in rules
  }

  /** Two updates hold the same pages. */
  predicate SamePages(a: Order, b: Order)
  {
    (forall i | 0 <= i < |a| :: a[i] in b) && (forall j | 0 <= j < |b| :: b[j] in a)
  }

  lemma SamePagesEmpty(a: Order, b: Order)
    requires SamePages(a, b)
    ensures |a| == 0 <==> |b| == 0
  {
    if |a| > 0 {
      assert a[0] in b;
    }
    if |b| > 0 {
      assert b[0] in a;
    }
  }

  /** The conditions under which `reorder` rebuilds `target`. */
  predicate Dictates(rules: seq<Rule>, target: Order)
  {
    NoRepeats(target) && (forall rule | rule in rules :: RuleValid(rule, target)) && Chained(rules, target)
  }

  /** Under those conditions the last page of `target` is the one `reorder` puts last. */
  lemma DictatedLast(order: Order, rules: seq<Rule>, target: Order)
    requires |target| > 0 && SamePages(order, target) && Dictates(rules, target)
    ensures LastCandidate(order, Relevant(rules, order)) == Some(target[|target| - 1])
  {
    var n := |target|;
    var t := target[n - 1];
    var relevant := Relevant(rules, order);
    RelevantMeans(rules, order);
    IndexOfMeans(target, t);
    assert t in order;
    forall rule | rule in relevant ensures rule.before != t {
      if rule.before == t {
        IndexOfMeans(target, rule.after);
        assert false;
      }
    }
    forall e | e in order && e != t ensures exists rule | rule in relevant :: rule.before == e {
      var i :| 0 <= i < n && target[i] == e;
      assert Rule(target[i], target[n - 1]) in rules;
      assert Rule(e, t) in relevant;
    }
    LastCandidateUnique(order, relevant, t);
  }

  /** Dropping that last page leaves conditions under which the rest is rebuilt the same way. */
  lemma DictatedPrefix(order: Order, rules: seq<Rule>, target: Order)
    requires |target| > 0 && SamePages(order, target) && Dictates(rules, target)
    ensures var t := target[|target| - 1];
      SamePages(Without(order, t), target[..|target| - 1]) &&
      Dictates(Relevant(rules, order), target[..|target| - 1])
  {
    PrefixPages(order, rules, target);
    PrefixRules(order, rules, target);
  }

  /** The pages of `DictatedPrefix`: dropping the last page of `target` from the update leaves the prefix's pages. */
  lemma PrefixPages(order: Order, rules: seq<Rule>, target: Order)
    requires |target| > 0 && SamePages(order, target) && Dictates(rules, target)
    ensures SamePages(Without(order, target[|target| - 1]), target[..|target| - 1])
  {
    var n := |target|;
    var t := target[n - 1];
    var prefix := target[..n - 1];
    assert target == prefix + [t];
    assert t !in prefix by {
      forall i | 0 <= i < n - 1 ensures prefix[i] != t {
        assert prefix[i] == target[i];
      }
    }
    var rest := Without(order, t);
    forall j | 0 <= j < |prefix| ensures prefix[j] in rest {
      assert target[j] == prefix[j];
      assert target[j] in order;
    }
    forall i | 0 <= i < |rest| ensures rest[i] in prefix {
      var x := rest[i];
      assert x in order && x != t;
      var k :| 0 <= k < |order| && order[k] == x;
      assert x in target;
      var m :| 0 <= m < n && target[m] == x;
      assert prefix[m] == x;
    }
  }

  /** The rules of `DictatedPrefix`: the rules among the update's pages still dictate the prefix. */
  lemma PrefixRules(order: Order, rules: seq<Rule>, target: Order)
    requires |target| > 0 && SamePages(order, target) && Dictates(rules, target)
    ensures Dictates(Relevant(rules, order), target[..|target| - 1])
  {
    var n := |target|;
    var t := target[n - 1];
    var prefix := target[..n - 1];
    var relevant := Relevant(rules, order);
    RelevantMeans(rules, order);
    assert target == prefix + [t];
    forall rule | rule in relevant ensures RuleValid(rule, prefix) {
      RuleValidMeans(rule, prefix);
      IndexOfSnoc(prefix, t, rule.before);
      IndexOfSnoc(prefix, t, rule.after);
    }
    forall i, j | 0 <= i < j < |prefix| ensures Rule(prefix[i], prefix[j]) in relevant {
      assert Rule(target[i], target[j]) in rules;
    }
  }

  /**
   * When some arrangement `target` of the update's pages satisfies the rules
   * and the rules order each of its pairs, `reorder` does not panic and
   * returns exactly that arrangement.
   */
  lemma {:induction false} ReorderDictated(order: Order, rules: seq<Rule>, target: Order)
    requires SamePages(order, target) && Dictates(rules, target)
    ensures Reorder(order, rules) == Some(target)
    decreases |order|
  {
    SamePagesEmpty(order, target);
    if |order| > 0 {
      var n := |target|;
      var t, prefix, relevant := target[n - 1], target[..n - 1], Relevant(rules, order);
      DictatedLast(order, rules, target);
      DictatedPrefix(order, rules, target);
      ReorderDictated(Without(order, t), relevant, prefix);
      assert LastCandidate(order, relevant) == Some(t);
      assert Reorder(Without(order, t), relevant) == Some(prefix);
      assert Reorder(order, rules) == Some(prefix + [t]);
      assert target == prefix + [t];
    }
  }

  /** When `t` is the only page of the update that no rule puts first, `reorder` picks it. */
  lemma LastCandidateUnique(order: Order, rules: seq<Rule>, t: int)
    requires t in order
    requires forall rule | rule in rules :: rule.before != t
    requires forall e | e in order && e != t :: exists rule | rule in rules :: rule.before == e
    ensures LastCandidate(order, rules) == Some(t)
  {
  }

  /** `filter(|e| e != last_number)` drops every copy: an update with a repeated page comes back shorter. */
  lemma RepeatsDropped(order: Order)
    requires order == [1, 1]
    ensures Reorder(order, []) == Some([1])
  {
    assert Relevant([], order) == [];
    assert LastCandidate(order, []) == Some(1);
    assert Without(order, 1) == [];
    assert Reorder([], []) == Some([]);
    assert [] + [1] == [1];
  }

  // ----------------------------------------------------------------- tests

  /** The rules of the sample. */
  function SampleRules(): seq<Rule>
  {
    [Rule(47, 53), Rule(97, 13), Rule(97, 61), Rule(97, 47), Rule(75, 29), Rule(61, 13), Rule(75, 53),
     Rule(29, 13), Rule(97, 29), Rule(53, 29), Rule(61, 53), Rule(97, 53), Rule(61, 29), Rule(47, 13),
     Rule(75, 47), Rule(97, 75), Rule(47, 61), Rule(75, 61), Rule(47, 29), Rule(75, 13), Rule(53, 13)]
  }

  /** The updates of the sample. */
  function SampleOrders(): seq<Order>
  {
    [[75, 47, 61, 53, 29], [97, 61, 53, 29, 13], [75, 29, 13], [75, 97, 47, 61, 53], [61, 13, 29], [97, 13, 75, 29, 47]]
  }

  /** `test_valid_order` and `test_invalid_order`. */
  lemma RuleExamples()
    ensures RuleValid(Rule(75, 47), [75, 47, 61, 53, 29])
    ensures RuleValid(Rule(74, 47), [75, 47, 61, 53, 29])
    ensures !RuleValid(Rule(47, 75), [75, 47, 61, 53, 29])
  {
    var o: Order := [75, 47, 61, 53, 29];
    assert IndexOf(o, 75) == Some(0);
    assert IndexOf(o, 47) == Some(1);
    assert IndexOf(o, 74) == None;
  }

  /** `test_find_valid_orders`: the first three sample updates are the valid ones. */
  lemma SampleValidOrders()
    ensures forall i | 0 <= i < |SampleOrders()| :: OrderValid(SampleOrders()[i], SampleRules()) <==> i < 3
  {
    SampleFirstValid();
    SampleSecondValid();
    SampleThirdValid();
    SampleFourthInvalid();
    SampleFifthInvalid();
    SampleSixthInvalid();
    forall i | 0 <= i < |SampleOrders()|
      ensures OrderValid(SampleOrders()[i], SampleRules()) <==> i < 3
    {
      assert i == 0 || i == 1 || i == 2 || i == 3 || i == 4 || i == 5;
    }
  }

  /** The first sample update is already in order. */
  lemma SampleFirstValid()
    ensures OrderValid(SampleOrders()[0], SampleRules())
  {
    var o, rules := [75, 47, 61, 53, 29], SampleRules();
    assert IndexOf(o, 13) == None;
    assert IndexOf(o, 29) == Some(4);
    assert IndexOf(o, 47) == Some(1);
    assert IndexOf(o, 53) == Some(3);
    assert IndexOf(o, 61) == Some(2);
    assert IndexOf(o, 75) == Some(0);
    assert IndexOf(o, 97) == None;
    assert ValidFrom(o, rules, 20);
    assert ValidFrom(o, rules, 19);
    assert ValidFrom(o, rules, 18);
    assert ValidFrom(o, rules, 17);
    assert ValidFrom(o, rules, 16);
    assert ValidFrom(o, rules, 15);
    assert ValidFrom(o, rules, 14);
    assert ValidFrom(o, rules, 13);
    assert ValidFrom(o, rules, 12);
    assert ValidFrom(o, rules, 11);
    assert ValidFrom(o, rules, 10);
    assert ValidFrom(o, rules, 9);
    assert ValidFrom(o, rules, 8);
    assert ValidFrom(o, rules, 7);
    assert ValidFrom(o, rules, 6);
    assert ValidFrom(o, rules, 5);
    assert ValidFrom(o, rules, 4);
    assert ValidFrom(o, rules, 3);
    assert ValidFrom(o, rules, 2);
    assert ValidFrom(o, rules, 1);
    assert ValidFrom(o, rules, 0);
  }

  /** The second sample update is already in order. */
  lemma SampleSecondValid()
    ensures OrderValid(SampleOrders()[1], SampleRules())
  {
    var o, rules := [97, 61, 53, 29, 13], SampleRules();
    assert IndexOf(o, 13) == Some(4);
    assert IndexOf(o, 29) == Some(3);
    assert IndexOf(o, 47) == None;
    assert IndexOf(o, 53) == Some(2);
    assert IndexOf(o, 61) == Some(1);
    assert IndexOf(o, 75) == None;
    assert IndexOf(o, 97) == Some(0);
    assert ValidFrom(o, rules, 20);
    assert ValidFrom(o, rules, 19);
    assert ValidFrom(o, rules, 18);
    assert ValidFrom(o, rules, 17);
    assert ValidFrom(o, rules, 16);
    assert ValidFrom(o, rules, 15);
    assert ValidFrom(o, rules, 14);
    assert ValidFrom(o, rules, 13);
    assert ValidFrom(o, rules, 12);
    assert ValidFrom(o, rules, 11);
    assert ValidFrom(o, rules, 10);
    assert ValidFrom(o, rules, 9);
    assert ValidFrom(o, rules, 8);
    assert ValidFrom(o, rules, 7);
    assert ValidFrom(o, rules, 6);
    assert ValidFrom(o, rules, 5);
    assert ValidFrom(o, rules, 4);
    assert ValidFrom(o, rules, 3);
    assert ValidFrom(o, rules, 2);
    assert ValidFrom(o, rules, 1);
    assert ValidFrom(o, rules, 0);
  }

  /** The third sample update is already in order. */
  lemma SampleThirdValid()
    ensures OrderValid(SampleOrders()[2], SampleRules())
  {
    var o, rules := [75, 29, 13], SampleRules();
    assert IndexOf(o, 13) == Some(2);
    assert IndexOf(o, 29) == Some(1);
    assert IndexOf(o, 47) == None;
    assert IndexOf(o, 53) == None;
    assert IndexOf(o, 61) == None;
    assert IndexOf(o, 75) == Some(0);
    assert IndexOf(o, 97) == None;
    assert ValidFrom(o, rules, 20);
    assert ValidFrom(o, rules, 19);
    assert ValidFrom(o, rules, 18);
    assert ValidFrom(o, rules, 17);
    assert ValidFrom(o, rules, 16);
    assert ValidFrom(o, rules, 15);
    assert ValidFrom(o, rules, 14);
    assert ValidFrom(o, rules, 13);
    assert ValidFrom(o, rules, 12);
    assert ValidFrom(o, rules, 11);
    assert ValidFrom(o, rules, 10);
    assert ValidFrom(o, rules, 9);
    assert ValidFrom(o, rules, 8);
    assert ValidFrom(o, rules, 7);
    assert ValidFrom(o, rules, 6);
    assert ValidFrom(o, rules, 5);
    assert ValidFrom(o, rules, 4);
    assert ValidFrom(o, rules, 3);
    assert ValidFrom(o, rules, 2);
    assert ValidFrom(o, rules, 1);
    assert ValidFrom(o, rules, 0);
  }

  /** The fourth sample update breaks rule 97|75. */
  lemma SampleFourthInvalid()
    ensures !OrderValid(SampleOrders()[3], SampleRules())
  {
    var o, rules := [75, 97, 47, 61, 53], SampleRules();
    assert rules[15] == Rule(97, 75);
    assert IndexOf(o, 97).Some? && IndexOf(o, 75).Some?;
    BrokenRule(o, rules, 15);
  }

  /** The fifth sample update breaks rule 29|13. */
  lemma SampleFifthInvalid()
    ensures !OrderValid(SampleOrders()[4], SampleRules())
  {
    var o, rules := [61, 13, 29], SampleRules();
    assert rules[7] == Rule(29, 13);
    assert IndexOf(o, 29).Some? && IndexOf(o, 13).Some?;
    BrokenRule(o, rules, 7);
  }

  /** The sixth sample update breaks rule 75|13. */
  lemma SampleSixthInvalid()
    ensures !OrderValid(SampleOrders()[5], SampleRules())
  {
    var o, rules := [97, 13, 75, 29, 47], SampleRules();
    assert rules[19] == Rule(75, 13);
    assert IndexOf(o, 75).Some? && IndexOf(o, 13).Some?;
    BrokenRule(o, rules, 19);
  }

  /** The sample rules are satisfied by 97, 75, 47, 61, 53 and order every pair of it. */
  lemma SampleDictates()
    ensures Dictates(SampleRules(), [97, 75, 47, 61, 53])
  {
    var rules, target := SampleRules(), [97, 75, 47, 61, 53];
    SampleTargetValid();
    OrderValidMeans(target, rules);
    assert rules[15] == Rule(97, 75);
    assert rules[3] == Rule(97, 47);
    assert rules[2] == Rule(97, 61);
    assert rules[11] == Rule(97, 53);
    assert rules[14] == Rule(75, 47);
    assert rules[17] == Rule(75, 61);
    assert rules[6] == Rule(75, 53);
    assert rules[16] == Rule(47, 61);
    assert rules[0] == Rule(47, 53);
    assert rules[10] == Rule(61, 53);
  }

  lemma SampleTargetValid()
    ensures OrderValid([97, 75, 47, 61, 53], SampleRules())
  {
    var rules, target := SampleRules(), [97, 75, 47, 61, 53];
    assert IndexOf(target, 13) == None;
    assert IndexOf(target, 29) == None;
    assert IndexOf(target, 47) == Some(2);
    assert IndexOf(target, 53) == Some(4);
    assert IndexOf(target, 61) == Some(3);
    assert IndexOf(target, 75) == Some(1);
    assert IndexOf(target, 97) == Some(0);
    assert ValidFrom(target, rules, 20);
    assert ValidFrom(target, rules, 19);
    assert ValidFrom(target, rules, 18);
    assert ValidFrom(target, rules, 17);
    assert ValidFrom(target, rules, 16);
    assert ValidFrom(target, rules, 15);
    assert ValidFrom(target, rules, 14);
    assert ValidFrom(target, rules, 13);
    assert ValidFrom(target, rules, 12);
    assert ValidFrom(target, rules, 11);
    assert ValidFrom(target, rules, 10);
    assert ValidFrom(target, rules, 9);
    assert ValidFrom(target, rules, 8);
    assert ValidFrom(target, rules, 7);
    assert ValidFrom(target, rules, 6);
    assert ValidFrom(target, rules, 5);
    assert ValidFrom(target, rules, 4);
    assert ValidFrom(target, rules, 3);
    assert ValidFrom(target, rules, 2);
    assert ValidFrom(target, rules, 1);
    assert ValidFrom(target, rules, 0);
  }

  lemma SampleSamePages()
    ensures SamePages([75, 97, 47, 61, 53], [97, 75, 47, 61, 53])
  {
  }

  /** The fourth sample update is reordered to 97, 75, 47, 61, 53. */
  lemma SampleReorder()
    ensures Reorder(SampleOrders()[3], SampleRules()) == Some([97, 75, 47, 61, 53])
  {
    assert SampleOrders()[3] == [75, 97, 47, 61, 53];
    SampleDictates();
    SampleSamePages();
    ReorderDictated([75, 97, 47, 61, 53], SampleRules(), [97, 75, 47, 61, 53]);
  }
}
