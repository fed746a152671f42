// Grouping cards by value (card.py `group_value`, and the same loop inlined
// in `is_full_house` / `is_four_of_a_kind` of validation.py and
// pusoy_dos.py) and the frequency sort key `frequency_counter`.

module Grouping {
  import opened Cards
  import opened CardSort
  import opened PyText

  /** len(groups[v]): how many cards of value v there are. */
  function Count(cards: seq<Card>, v: Value): nat
  {
    multiset(ValuesOf(cards))[v]
  }

  lemma CountAppend(cards: seq<Card>, c: Card, v: Value)
    ensures Count(cards + [c], v) == Count(cards, v) + (if c.value == v then 1 else 0)
  {
    assert ValuesOf(cards + [c]) == ValuesOf(cards) + [c.value];
  }

  /** The list that group_value files under value v: the cards of that value,
      in the order they come in. */
  function OfValue(cards: seq<Card>, v: Value): (r: seq<Card>)
    ensures forall c :: c in r ==> c.value == v
    ensures |r| == Count(cards, v)
    decreases |cards|
  {
    if cards == [] then []
    else
      var init, last := cards[..|cards| - 1], cards[|cards| - 1];
      assert cards == init + [last];
      CountAppend(init, last, v);
      OfValue(init, v) + (if last.value == v then [last] else [])
  }

  /** Each card of value v appears in the group of v as often as in the
      hand, and no card of another value appears there. */
  lemma {:induction false} OfValueExact(cards: seq<Card>, v: Value, c: Card)
    ensures multiset(OfValue(cards, v))[c] == if c.value == v then multiset(cards)[c] else 0
    decreases |cards|
  {
    if cards != [] {
      var init, last := cards[..|cards| - 1], cards[|cards| - 1];
      assert cards == init + [last];
      assert multiset(cards) == multiset(init) + multiset{last};
      OfValueExact(init, v, c);
    } else {
      assert c !in OfValue(cards, v);
    }
  }

  /** The keys of the dictionary group_value builds, in insertion order:
      each value present once, in order of first appearance. */
  function FirstSeen(cards: seq<Card>): seq<Value>
    decreases |cards|
  {
    if cards == [] then []
    else
      var seen := FirstSeen(cards[..|cards| - 1]);
      var v := cards[|cards| - 1].value;
      if v in seen then seen else seen + [v]
  }

  predicate Distinct(L: seq<Value>)
  {
    forall i, j :: 0 <= i < j < |L| ==> L[i] != L[j]
  }

  /** The keys are pairwise different and are exactly the values present. */
  lemma {:induction false} FirstSeenKeys(cards: seq<Card>)
    ensures Distinct(FirstSeen(cards))
    ensures forall v :: v in FirstSeen(cards) <==> Count(cards, v) > 0
    decreases |cards|
  {
    if cards != [] {
      var init, last := cards[..|cards| - 1], cards[|cards| - 1];
      assert cards == init + [last];
      FirstSeenKeys(init);
      forall v ensures Count(cards, v) == Count(init, v) + (if last.value == v then 1 else 0) {
        CountAppend(init, last, v);
      }
    }
  }

  /** `map(len, groups.values())` over the list L of keys. */
  function CountsOver(cards: seq<Card>, L: seq<Value>): (r: seq<nat>)
    ensures |r| == |L|
    ensures forall k :: 0 <= k < |L| ==> r[k] == Count(cards, L[k])
  {
    seq(|L|, k requires 0 <= k < |L| => Count(cards, L[k]))
  }

  /** The sizes of the value groups, in the dictionary's order. */
  function GroupSizes(cards: seq<Card>): seq<nat>
  {
    CountsOver(cards, FirstSeen(cards))
  }

  function Sum(xs: seq<nat>): nat
  {
    if xs == [] then 0 else xs[0] + Sum(xs[1..])
  }

  lemma {:induction false} SumAppend(xs: seq<nat>, x: nat)
    ensures Sum(xs + [x]) == Sum(xs) + x
    decreases |xs|
  {
    if xs != [] {
      assert (xs + [x])[1..] == xs[1..] + [x];
      SumAppend(xs[1..], x);
    }
  }

  /** Adding card c to the hand adds one to the total size of the groups of
      a duplicate-free list of keys exactly when c's value is one of them. */
  lemma {:induction false} SumCountsAppend(cards: seq<Card>, c: Card, L: seq<Value>)
    requires Distinct(L)
    ensures Sum(CountsOver(cards + [c], L)) == Sum(CountsOver(cards, L)) + (if c.value in L then 1 else 0)
    decreases |L|
  {
    if L != [] {
      CountAppend(cards, c, L[0]);
      assert CountsOver(cards + [c], L)[1..] == CountsOver(cards + [c], L[1..]);
      assert CountsOver(cards, L)[1..] == CountsOver(cards, L[1..]);
      assert c.value in L <==> c.value == L[0] || c.value in L[1..] by {
        assert L == [L[0]] + L[1..];
      }
      assert L[0] !in L[1..];
      SumCountsAppend(cards, c, L[1..]);
    }
  }

  /** Every card lands in exactly one group: the group sizes add up to the
      number of cards. */
  lemma {:induction false} SizesSum(cards: seq<Card>)
    ensures Sum(GroupSizes(cards)) == |cards|
    decreases |cards|
  {
    if cards != [] {
      var init, last := cards[..|cards| - 1], cards[|cards| - 1];
      assert cards == init + [last];
      SizesSum(init);
      FirstSeenKeys(init);
      var L := FirstSeen(init);
      SumCountsAppend(init, last, L);
      if last.value !in L {
        assert CountsOver(cards, L + [last.value]) == CountsOver(cards, L) + [Count(cards, last.value)];
        SumAppend(CountsOver(cards, L), Count(cards, last.value));
        CountAppend(init, last, last.value);
      }
    }
  }

  /** Every entry of a list of sizes is at least one when it is a group size. */
  lemma GroupSizesPositive(cards: seq<Card>)
    ensures forall k :: 0 <= k < |GroupSizes(cards)| ==> GroupSizes(cards)[k] >= 1
  {
    var L := FirstSeen(cards);
    FirstSeenKeys(cards);
    forall k | 0 <= k < |L| ensures Count(cards, L[k]) >= 1 {
      assert L[k] in L;
    }
  }

  /** A sum of positive entries is at least one entry plus one for each of
      the others. */
  lemma {:induction false} SumAtLeastOne(xs: seq<nat>, p: nat)
    requires p < |xs| && forall k :: 0 <= k < |xs| ==> xs[k] >= 1
    ensures Sum(xs) >= xs[p] + |xs| - 1
    decreases |xs|
  {
    if p == 0 {
      SumAtLeastLength(xs[1..]);
    } else {
      SumAtLeastOne(xs[1..], p - 1);
    }
  }

  lemma {:induction false} SumAtLeastLength(xs: seq<nat>)
    requires forall k :: 0 <= k < |xs| ==> xs[k] >= 1
    ensures Sum(xs) >= |xs|
    decreases |xs|
  {
    if xs != [] {
      SumAtLeastLength(xs[1..]);
    }
  }

  /** Two different positive entries plus one for each of the others. */
  lemma {:induction false} SumAtLeastTwo(xs: seq<nat>, p: nat, q: nat)
    requires p < |xs| && q < |xs| && p != q
    requires forall k :: 0 <= k < |xs| ==> xs[k] >= 1
    ensures Sum(xs) >= xs[p] + xs[q] + |xs| - 2
    decreases |xs|
  {
    if p == 0 {
      SumAtLeastOne(xs[1..], q - 1);
    } else if q == 0 {
      SumAtLeastOne(xs[1..], p - 1);
    } else {
      SumAtLeastTwo(xs[1..], p - 1, q - 1);
    }
  }

  /** Five cards whose sorted group sizes are [2, 3] are exactly a triple of
      one value and a pair of another. */
  lemma FullHouseShape(cards: seq<Card>)
    requires |cards| == 5
    ensures multiset(GroupSizes(cards)) == multiset{2, 3} <==>
            exists v, w :: v != w && Count(cards, v) == 3 && Count(cards, w) == 2
  {
    if multiset(GroupSizes(cards)) == multiset{2, 3} {
      FullHouseHasTripleAndPair(cards);
    }
    if exists v, w :: v != w && Count(cards, v) == 3 && Count(cards, w) == 2 {
      var v, w :| v != w && Count(cards, v) == 3 && Count(cards, w) == 2;
      TripleAndPairIsFullHouse(cards, v, w);
    }
  }

  lemma FullHouseHasTripleAndPair(cards: seq<Card>)
    requires |cards| == 5 && multiset(GroupSizes(cards)) == multiset{2, 3}
    ensures exists v, w :: v != w && Count(cards, v) == 3 && Count(cards, w) == 2
  {
    var L := FirstSeen(cards);
    var G := GroupSizes(cards);
    FirstSeenKeys(cards);
    assert |G| == |multiset(G)| == 2;
    assert G[0] in multiset(G) && G[1] in multiset(G);
    if G[0] == 3 {
      assert L[0] != L[1] && Count(cards, L[0]) == 3 && Count(cards, L[1]) == 2;
    } else {
      assert L[1] != L[0] && Count(cards, L[1]) == 3 && Count(cards, L[0]) == 2;
    }
  }

  lemma TripleAndPairIsFullHouse(cards: seq<Card>, v: Value, w: Value)
    requires |cards| == 5 && v != w && Count(cards, v) == 3 && Count(cards, w) == 2
    ensures multiset(GroupSizes(cards)) == multiset{2, 3}
  {
    var L := FirstSeen(cards);
    var G := GroupSizes(cards);
    SizesSum(cards);
    FirstSeenKeys(cards);
    GroupSizesPositive(cards);
    var p :| 0 <= p < |L| && L[p] == v;
    var q :| 0 <= q < |L| && L[q] == w;
    SumAtLeastTwo(G, p, q);
    assert |G| == 2;
    if p == 0 {
      assert G == [3, 2];
    } else {
      assert G == [2, 3];
    }
  }

  /** Five cards whose sorted group sizes are [1, 4] are exactly four of one
      value and one other card. */
  lemma FourOfAKindShape(cards: seq<Card>)
    requires |cards| == 5
    ensures multiset(GroupSizes(cards)) == multiset{1, 4} <==> exists v :: Count(cards, v) == 4
  {
    if multiset(GroupSizes(cards)) == multiset{1, 4} {
      FourOfAKindHasQuad(cards);
    }
    if exists v :: Count(cards, v) == 4 {
      var v :| Count(cards, v) == 4;
      QuadIsFourOfAKind(cards, v);
    }
  }

  lemma FourOfAKindHasQuad(cards: seq<Card>)
    requires |cards| == 5 && multiset(GroupSizes(cards)) == multiset{1, 4}
    ensures exists v :: Count(cards, v) == 4
  {
    var L := FirstSeen(cards);
    var G := GroupSizes(cards);
    FirstSeenKeys(cards);
    assert 4 in multiset(G);
    var k :| 0 <= k < |G| && G[k] == 4;
    assert Count(cards, L[k]) == 4;
  }

  lemma QuadIsFourOfAKind(cards: seq<Card>, v: Value)
    requires |cards| == 5 && Count(cards, v) == 4
    ensures multiset(GroupSizes(cards)) == multiset{1, 4}
  {
    var L := FirstSeen(cards);
    var G := GroupSizes(cards);
    SizesSum(cards);
    FirstSeenKeys(cards);
    GroupSizesPositive(cards);
    var p :| 0 <= p < |L| && L[p] == v;
    SumAtLeastOne(G, p);
    assert |G| == 2;
    assert Sum(G) == G[0] + G[1];
    if p == 0 {
      assert G == [4, 1];
    } else {
      assert G == [1, 4];
    }
  }

  /** card.py `group_value`: a dictionary from each value present to the
      cards of that value, in input order.  Python dictionaries remember the
      order of their keys; `order` gives that order. */
  method GroupValue(cards: seq<Card>) returns (groups: map<Value, seq<Card>>, order: seq<Value>)
    ensures forall v :: v in groups <==> Count(cards, v) > 0
    ensures forall v :: v in groups ==> groups[v] == OfValue(cards, v)
    ensures order == FirstSeen(cards)
    ensures forall v :: v in order <==> v in groups
  {
    groups, order := map[], [];
    assert cards[..0] == [];
    for i := 0 to |cards|
      invariant Grouped(groups, order, cards[..i])
    {
      PrefixStep(cards, i);
      var c := cards[i];
      if c.value in groups {
        GroupedJoin(groups, order, cards[..i], c);
        groups := groups[c.value := groups[c.value] + [c]];
      } else {
        GroupedOpen(groups, order, cards[..i], c);
        groups := groups[c.value := [c]];
        order := order + [c.value];
      }
    }
    assert cards[..|cards|] == cards;
  }

  /** The state of group_value's dictionary after the cards s. */
  ghost predicate Grouped(groups: map<Value, seq<Card>>, order: seq<Value>, s: seq<Card>)
  {
    && order == FirstSeen(s)
    && (forall v :: v in groups <==> v in order)
    && (forall v :: v in groups <==> Count(s, v) > 0)
    && (forall v :: v in groups ==> groups[v] == OfValue(s, v))
  }

  /** One `setdefault(card.value, []).append(card)` step, for a value that
      already has its list. */
  lemma GroupedJoin(groups: map<Value, seq<Card>>, order: seq<Value>, s: seq<Card>, c: Card)
    requires Grouped(groups, order, s) && c.value in groups
    ensures Grouped(groups[c.value := groups[c.value] + [c]], order, s + [c])
  {
    GroupStep(s, c);
  }

  /** The same step for a value seen for the first time. */
  lemma GroupedOpen(groups: map<Value, seq<Card>>, order: seq<Value>, s: seq<Card>, c: Card)
    requires Grouped(groups, order, s) && c.value !in groups
    ensures Grouped(groups[c.value := [c]], order + [c.value], s + [c])
  {
    GroupStep(s, c);
  }

  lemma PrefixStep<T>(s: seq<T>, i: nat)
    requires i < |s|
    ensures s[..i + 1] == s[..i] + [s[i]]
  {
  }

  /** What appending one card does to the counts, the groups and the keys. */
  lemma GroupStep(prefix: seq<Card>, c: Card)
    ensures forall v :: Count(prefix + [c], v) == Count(prefix, v) + (if c.value == v then 1 else 0)
    ensures forall v :: OfValue(prefix + [c], v) == OfValue(prefix, v) + (if c.value == v then [c] else [])
    ensures FirstSeen(prefix + [c]) ==
            if c.value in FirstSeen(prefix) then FirstSeen(prefix) else FirstSeen(prefix) + [c.value]
  {
    assert (prefix + [c])[..|prefix|] == prefix;
    forall v ensures Count(prefix + [c], v) == Count(prefix, v) + (if c.value == v then 1 else 0) {
      CountAppend(prefix, c, v);
    }
  }

  /** card.py `frequency_counter` with `func=card_func_key`: the size of the
      card's value group, followed by the card's card_func_key. */
  function FrequencyKey(c: Card, groups: map<Value, seq<Card>>, sk: SortKey): (r: seq<int>)
    requires c.value in groups
    ensures |r| == 3 && r[0] == |groups[c.value]|
  {
    var k := KeyOf(c, sk);
    [|groups[c.value]|, k.0, k.1]
  }

  /** Sorting by frequency_counter orders cards by the size of their value
      group first and by card_func_key second: in a full house the triple
      sorts after the pair, in four of a kind the quad after the single. */
  lemma FrequencyKeyOrder(a: Card, b: Card, groups: map<Value, seq<Card>>, sk: SortKey)
    requires a.value in groups && b.value in groups
    ensures ListLess(FrequencyKey(a, groups, sk), FrequencyKey(b, groups, sk)) <==>
            |groups[a.value]| < |groups[b.value]| ||
            (|groups[a.value]| == |groups[b.value]| && KeyLess(KeyOf(a, sk), KeyOf(b, sk)))
  {
    var x, y := FrequencyKey(a, groups, sk), FrequencyKey(b, groups, sk);
    assert ListLess(x[2..], y[2..]) <==> x[2] < y[2] by {
      assert x[2..][1..] == [] && y[2..][1..] == [];
    }
    assert ListLess(x[1..], y[1..]) <==> x[1] < y[1] || (x[1] == y[1] && ListLess(x[2..], y[2..])) by {
      assert x[1..][1..] == x[2..] && y[1..][1..] == y[2..];
    }
  }
}
