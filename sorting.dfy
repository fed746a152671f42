// Sorting cards by a card_func_key key, as `sorted(...)` and `list.sort(...)`
// do in card.py, validation.py, pusoy_dos.py and player.py, together with
// the facts about sorted card lists that the straight detectors rely on.

module CardSort {
  import opened Cards

  /** The keyword arguments a sort passes to card_func_key. */
  datatype SortKey = SortKey(valueby: ValueBy, suitPriority: bool)

  const RankOrder: SortKey := SortKey(ByRank, false)        // valueby='rank'
  const NumberOrder: SortKey := SortKey(ByNumber, false)    // the default
  const DealOrder: SortKey := SortKey(ByNumber, true)       // suit_priority=True

  function KeyOf(c: Card, sk: SortKey): Key
  {
    CardFuncKey(c, sk.valueby, sk.suitPriority)
  }

  predicate KeyLeq(k: Key, l: Key)
  {
    !KeyLess(l, k)
  }

  /** Ascending by the key, as Python's sort leaves a list. */
  predicate SortedBy(s: seq<Card>, sk: SortKey)
  {
    forall i, j :: 0 <= i < j < |s| ==> KeyLeq(KeyOf(s[i], sk), KeyOf(s[j], sk))
  }

  /** Inserts c into an already sorted list. */
  function Insert(c: Card, s: seq<Card>, sk: SortKey): (r: seq<Card>)
    requires SortedBy(s, sk)
    ensures SortedBy(r, sk)
    ensures multiset(r) == multiset(s) + multiset{c}
  {
    if s == [] then [c]
    else if KeyLeq(KeyOf(c, sk), KeyOf(s[0], sk)) then [c] + s
    else
      var rest := Insert(c, s[1..], sk);
      assert s == [s[0]] + s[1..];
      HeadBelowRest(c, s, rest, sk);
      [s[0]] + rest
  }

  /** The head of a sorted list stays below everything once c, which goes
      after it, is inserted into its tail. */
  lemma HeadBelowRest(c: Card, s: seq<Card>, rest: seq<Card>, sk: SortKey)
    requires SortedBy(s, sk) && s != [] && !KeyLeq(KeyOf(c, sk), KeyOf(s[0], sk))
    requires multiset(rest) == multiset(s[1..]) + multiset{c}
    ensures forall j :: 0 <= j < |rest| ==> KeyLeq(KeyOf(s[0], sk), KeyOf(rest[j], sk))
  {
    forall j | 0 <= j < |rest|
      ensures KeyLeq(KeyOf(s[0], sk), KeyOf(rest[j], sk))
    {
      assert rest[j] in multiset(rest);
      if rest[j] != c {
        assert rest[j] in multiset(s[1..]);
        var m :| 0 <= m < |s[1..]| && s[1..][m] == rest[j];
        assert s[m + 1] == rest[j];
      }
    }
  }

  /** `sorted(s, key=...)`: the same cards, in ascending key order. */
  function Sort(s: seq<Card>, sk: SortKey): (r: seq<Card>)
    ensures SortedBy(r, sk)
    ensures multiset(r) == multiset(s)
    ensures |r| == |s|
  {
    if s == [] then []
    else
      assert s == [s[0]] + s[1..];
      Insert(s[0], Sort(s[1..], sk), sk)
  }

  /** After an ascending sort by the 'rank' key, the last card beats every
      other card of the list under `Card.__gt__` (is_higher reads cards[-1]). */
  lemma {:induction false} SortedByRankMaxLast(s: seq<Card>)
    requires SortedBy(s, RankOrder) && |s| > 0
    ensures forall i :: 0 <= i < |s| - 1 && s[i] != s[|s| - 1] ==> Greater(s[|s| - 1], s[i])
  {
    forall i | 0 <= i < |s| - 1 && s[i] != s[|s| - 1]
      ensures Greater(s[|s| - 1], s[i])
    {
      assert KeyLeq(KeyOf(s[i], RankOrder), KeyOf(s[|s| - 1], RankOrder));
      if KeyOf(s[i], RankOrder) == KeyOf(s[|s| - 1], RankOrder) {
        CardFuncKeyInjective(s[i], s[|s| - 1], ByRank, false);
      }
      RankKeyMatchesGreater(s[|s| - 1], s[i]);
    }
  }

  // ---------------------------------------------------------------------
  // The values of a list of cards

  /** `map(lambda c: c.value, cards)`. */
  function ValuesOf(s: seq<Card>): (r: seq<Value>)
    ensures |r| == |s|
    ensures forall i :: 0 <= i < |s| ==> r[i] == s[i].value
  {
    seq(|s|, i requires 0 <= i < |s| => s[i].value)
  }

  /** How often a value occurs among the values of s: the number of cards of
      s, over all four suits, that carry it. */
  lemma {:induction false} ValueCount(s: seq<Card>, v: Value)
    ensures multiset(ValuesOf(s))[v] ==
            multiset(s)[Card(Diamonds, v)] + multiset(s)[Card(Hearts, v)] +
            multiset(s)[Card(Spades, v)] + multiset(s)[Card(Clubs, v)]
    decreases |s|
  {
    if s != [] {
      var init := s[..|s| - 1];
      var last := s[|s| - 1];
      ValueCount(init, v);
      assert s == init + [last];
      assert ValuesOf(s) == ValuesOf(init) + [last.value];
      assert multiset(ValuesOf(s)) == multiset(ValuesOf(init)) + multiset{last.value};
      var m, mi := multiset(s), multiset(init);
      assert m == mi + multiset{last};
      if last.value == v {
        assert multiset(ValuesOf(s))[v] == multiset(ValuesOf(init))[v] + 1;
        match last.suit
        case Diamonds => assert m[Card(Diamonds, v)] == mi[Card(Diamonds, v)] + 1;
        case Hearts => assert m[Card(Hearts, v)] == mi[Card(Hearts, v)] + 1;
        case Spades => assert m[Card(Spades, v)] == mi[Card(Spades, v)] + 1;
        case Clubs => assert m[Card(Clubs, v)] == mi[Card(Clubs, v)] + 1;
      } else {
        assert multiset(ValuesOf(s))[v] == multiset(ValuesOf(init))[v];
      }
    }
  }

  /** Rearranging the cards rearranges their values. */
  lemma ValuesOfPermutation(a: seq<Card>, b: seq<Card>)
    requires multiset(a) == multiset(b)
    ensures multiset(ValuesOf(a)) == multiset(ValuesOf(b))
  {
    forall v ensures multiset(ValuesOf(a))[v] == multiset(ValuesOf(b))[v] {
      ValueCount(a, v);
      ValueCount(b, v);
    }
  }

  /** Two lists of values ascending under the same one-to-one measure f that
      hold the same values are the same list.  This is what lets a search
      for a straight compare a sorted hand with a window of a ladder. */
  lemma {:induction false} SortedValuesUnique(a: seq<Value>, b: seq<Value>, f: Value -> int)
    requires forall v, w :: f(v) == f(w) ==> v == w
    requires Ascending(a, f) && Ascending(b, f)
    requires multiset(a) == multiset(b)
    ensures a == b
    decreases |a|
  {
    assert |a| == |multiset(a)| == |multiset(b)| == |b|;
    if |a| > 0 {
      SameFirst(a, b, f);
      TailBagsAgree(a, b);
      AscendingTail(a, f);
      AscendingTail(b, f);
      SortedValuesUnique(a[1..], b[1..], f);
      assert a == [a[0]] + a[1..] && b == [b[0]] + b[1..];
    }
  }

  /** Two lists with the same bag and the same head have tails with the
      same bag. */
  lemma TailBagsAgree(a: seq<Value>, b: seq<Value>)
    requires multiset(a) == multiset(b) && |a| > 0 && |b| > 0 && a[0] == b[0]
    ensures multiset(a[1..]) == multiset(b[1..])
  {
    assert a == [a[0]] + a[1..] && b == [b[0]] + b[1..];
    assert multiset(a[1..]) == multiset(a) - multiset{a[0]};
    assert multiset(b[1..]) == multiset(b) - multiset{b[0]};
  }

  lemma AscendingTail(a: seq<Value>, f: Value -> int)
    requires Ascending(a, f) && |a| > 0
    ensures Ascending(a[1..], f)
  {
    var a' := a[1..];
    forall i, j | 0 <= i < j < |a'| ensures f(a'[i]) <= f(a'[j]) {
      assert a'[i] == a[i + 1] && a'[j] == a[j + 1];
    }
  }

  predicate Ascending(a: seq<Value>, f: Value -> int)
  {
    forall i, j :: 0 <= i < j < |a| ==> f(a[i]) <= f(a[j])
  }

  /** The head of an ascending list is its least element. */
  lemma SameFirst(a: seq<Value>, b: seq<Value>, f: Value -> int)
    requires forall v, w :: f(v) == f(w) ==> v == w
    requires Ascending(a, f) && Ascending(b, f)
    requires multiset(a) == multiset(b) && |a| > 0 && |b| > 0
    ensures a[0] == b[0]
  {
    assert a[0] in multiset(b) && b[0] in multiset(a);
    var k :| 0 <= k < |b| && b[k] == a[0];
    var m :| 0 <= m < |a| && a[m] == b[0];
    assert f(a[0]) <= f(a[m]);
    assert f(b[0]) <= f(b[k]);
  }

  /** Sorting by the 'rank' key sorts the values along CARD_RANKS. */
  lemma RankSortedValues(s: seq<Card>)
    requires SortedBy(s, RankOrder)
    ensures forall i, j :: 0 <= i < j < |s| ==> Index(ValuesOf(s)[i]) <= Index(ValuesOf(s)[j])
  {
  }

  /** Sorting by the default key sorts the values with the Ace low. */
  lemma NumberSortedValues(s: seq<Card>)
    requires SortedBy(s, NumberOrder)
    ensures forall i, j :: 0 <= i < j < |s| ==>
              NumericalIndex(ValuesOf(s)[i]) <= NumericalIndex(ValuesOf(s)[j])
  {
  }

  // ---------------------------------------------------------------------
  // Lists without repetitions

  ghost predicate NoRepeats<T>(s: seq<T>)
  {
    forall i, j :: 0 <= i < j < |s| ==> s[i] != s[j]
  }

  /** In a list without repetitions every element occurs exactly once. */
  lemma {:induction false} NoRepeatsCount<T>(s: seq<T>, x: T)
    requires NoRepeats(s)
    ensures multiset(s)[x] == if x in s then 1 else 0
    decreases |s|
  {
    if s != [] {
      var init, last := s[..|s| - 1], s[|s| - 1];
      assert s == init + [last];
      assert NoRepeats(init);
      NoRepeatsCount(init, x);
      assert last !in init;
      assert x in s <==> x in init || x == last;
    }
  }

  /** The bag of a five-entry list, entry by entry. */
  lemma BagOfFive<T>(a: T, b: T, c: T, d: T, e: T)
    ensures multiset([a, b, c, d, e]) == multiset{a} + multiset{b} + multiset{c} + multiset{d} + multiset{e}
  {
    assert [a, b, c, d, e] == [a, b, c, d] + [e];
    assert [a, b, c, d] == [a, b, c] + [d];
    assert [a, b, c] == [a, b] + [c];
    assert [a, b] == [a] + [b];
  }
}
