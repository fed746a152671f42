// The older rules of pusoy_dos.py.  They differ from validation.py only in
// `is_straight`: the cards are sorted with the Ace low, the Ace is moved
// behind the King when both are present, and the values are looked up in the
// ladder Ace, 2, 3, ..., King, Ace.  `is_straight_flush` and
// `verify_combination` are rebuilt on that test; the other rules, `Card`,
// `CardPlay`, `Player` and `is_higher` are the same code as card.py,
// validation.py and player.py and are modelled there.

module PusoyDos {
  import opened Wrappers
  import opened Cards
  import opened CardSort
  import opened Grouping
  import Validation

  /** `possible_straight`: the ladder with the Ace at both ends. */
  const AceLadder: seq<Value> :=
    [Ace, Two, Three, Four, Five, Six, Seven, Eight, Nine, Ten, Jack, Queen, King, Ace]

  /** possible_straight[i:i+5]. */
  function AceWindow(i: nat): seq<Value>
    requires i <= 9
  {
    AceLadder[i..i + 5]
  }

  /** What this `is_straight` accepts: the values of the cards are, as a
      bag, one of the ten windows A-2-3-4-5 up to 10-J-Q-K-A. */
  ghost predicate AceStraight(cards: seq<Card>)
  {
    exists i :: 0 <= i <= 9 && multiset(ValuesOf(cards)) == multiset(AceWindow(i))
  }

  /** The rebinding of card_values: when a King and an Ace are both present,
      the first value moves to the end. */
  function Rotated(values: seq<Value>): (r: seq<Value>)
    ensures multiset(r) == multiset(values)
    ensures |r| == |values|
  {
    if King in values && Ace in values then
      assert values == values[..1] + values[1..];
      values[1..] + values[..1]
    else values
  }

  lemma AceLadderPositions(k: int)
    requires 0 <= k < |AceLadder|
    ensures k <= 12 ==> NumericalIndex(AceLadder[k]) == k
    ensures AceLadder[k] == Ace ==> k == 0 || k == 13
    ensures AceLadder[k] == King ==> k == 12
    ensures AceLadder[k] == Two ==> k == 1
    ensures AceLadder[k] == Jack ==> k == 10
  {
  }

  lemma AceLadderEntriesDiffer(k: int, m: int)
    requires 0 <= k < m < |AceLadder| && m - k < 5
    ensures AceLadder[k] != AceLadder[m]
  {
    AceLadderPositions(k);
    if m <= 12 {
      AceLadderPositions(m);
    } else {
      assert AceLadder[m] == Ace;
    }
  }

  /** A value of a window sits inside the window's stretch of the ladder. */
  lemma InWindow(i: nat, v: Value) returns (k: int)
    requires i <= 9 && v in multiset(AceWindow(i))
    ensures i <= k < i + 5 && AceLadder[k] == v
  {
    var m :| 0 <= m < 5 && AceWindow(i)[m] == v;
    k := i + m;
  }

  /** Only the top window holds both a King and an Ace. */
  lemma KingAndAceOnlyAtTop(i: nat)
    requires i <= 9
    ensures King in multiset(AceWindow(i)) && Ace in multiset(AceWindow(i)) <==> i == 9
  {
    if King in multiset(AceWindow(i)) && Ace in multiset(AceWindow(i)) {
      var k := InWindow(i, King);
      var a := InWindow(i, Ace);
      AceLadderPositions(k);
      AceLadderPositions(a);
    }
    if i == 9 {
      assert AceWindow(9)[3] == King && AceWindow(9)[4] == Ace;
    }
  }

  /** Cards sorted Ace-low whose values make up a window as a bag show,
      after the rotation, exactly that window. */
  lemma SortedMatchesAceWindow(cards: seq<Card>, sorted: seq<Card>, i: nat)
    requires i <= 9
    requires SortedBy(sorted, NumberOrder) && multiset(sorted) == multiset(cards)
    ensures multiset(ValuesOf(cards)) == multiset(AceWindow(i)) ==> Rotated(ValuesOf(sorted)) == AceWindow(i)
  {
    var values := ValuesOf(sorted);
    if multiset(ValuesOf(cards)) == multiset(AceWindow(i)) {
      ValuesOfPermutation(sorted, cards);
      NumberSortedValues(sorted);
      assert Ascending(values, v => NumericalIndex(v));
      KingAndAceOnlyAtTop(i);
      if i <= 8 {
        LowWindowAscending(i);
        SortedValuesUnique(values, AceWindow(i), v => NumericalIndex(v));
      } else {
        TopWindowSortedAceLow(values);
      }
    }
  }

  lemma LowWindowAscending(i: nat)
    requires i <= 8
    ensures Ascending(AceWindow(i), v => NumericalIndex(v))
  {
    forall a, b | 0 <= a < b < 5
      ensures NumericalIndex(AceWindow(i)[a]) <= NumericalIndex(AceWindow(i)[b])
    {
      AceLadderPositions(i + a);
      AceLadderPositions(i + b);
    }
  }

  /** The values of the top window, sorted with the Ace low, read
      A-10-J-Q-K; the rotation turns them into the window. */
  lemma TopWindowSortedAceLow(values: seq<Value>)
    requires Ascending(values, v => NumericalIndex(v))
    requires multiset(values) == multiset(AceWindow(9))
    ensures Rotated(values) == AceWindow(9)
  {
    AceFirstFacts();
    SortedValuesUnique(values, [Ace, Ten, Jack, Queen, King], v => NumericalIndex(v));
  }

  lemma AceFirstFacts()
    ensures Ascending([Ace, Ten, Jack, Queen, King], v => NumericalIndex(v))
    ensures multiset([Ace, Ten, Jack, Queen, King]) == multiset(AceWindow(9))
    ensures Rotated([Ace, Ten, Jack, Queen, King]) == AceWindow(9)
  {
    AceFirstAscending();
    AceFirstBag();
    AceFirstRotation();
  }

  lemma AceFirstAscending()
    ensures Ascending([Ace, Ten, Jack, Queen, King], v => NumericalIndex(v))
  {
    assert NumericalIndex(Ace) == 0;
    assert NumericalIndex(Ten) == 9;
    assert NumericalIndex(Jack) == 10;
    assert NumericalIndex(Queen) == 11;
    assert NumericalIndex(King) == 12;
  }

  lemma AceFirstBag()
    ensures multiset([Ace, Ten, Jack, Queen, King]) == multiset(AceWindow(9))
  {
    assert AceWindow(9) == [Ten, Jack, Queen, King, Ace];
    BagOfFive(Ace, Ten, Jack, Queen, King);
    BagOfFive(Ten, Jack, Queen, King, Ace);
  }

  lemma AceFirstRotation()
    ensures Rotated([Ace, Ten, Jack, Queen, King]) == AceWindow(9)
  {
    var aceFirst := [Ace, Ten, Jack, Queen, King];
    assert aceFirst[4] == King && aceFirst[0] == Ace;
    assert aceFirst[1..] + aceFirst[..1] == [Ten, Jack, Queen, King, Ace];
    assert AceWindow(9) == [Ten, Jack, Queen, King, Ace];
  }

  /** pusoy_dos.py `is_straight`. */
  method IsStraight(cards: seq<Card>) returns (valid: bool)
    ensures valid <==> AceStraight(cards)
  {
    if |cards| < 5 {
      TooFewNoStraight(cards);
      return false;
    }
    var sorted := Sort(cards, NumberOrder);
    var i := FindWindow(Rotated(ValuesOf(sorted)));
    if i.Some? {
      WindowMatchIsStraight(cards, sorted, i.value);
      return true;
    }
    NoWindowNoStraight(cards, sorted);
    return false;
  }

  /** The loop of `is_straight`: the first window of possible_straight that
      the value list equals, if any. */
  method FindWindow(values: seq<Value>) returns (found: Option<nat>)
    ensures found.Some? ==> found.value <= 9 && values == AceWindow(found.value)
    ensures found.None? ==> forall k :: 0 <= k <= 9 ==> values != AceWindow(k)
  {
    for i := 0 to |AceLadder| - 4
      invariant forall k :: 0 <= k < i ==> values != AceWindow(k)
    {
      if values == AceWindow(i) {
        return Some(i);
      }
    }
    return None;
  }

  lemma TooFewNoStraight(cards: seq<Card>)
    requires |cards| < 5
    ensures !AceStraight(cards)
  {
    forall i | 0 <= i <= 9 ensures multiset(ValuesOf(cards)) != multiset(AceWindow(i)) {
      assert |multiset(ValuesOf(cards))| == |cards|;
      assert |multiset(AceWindow(i))| == 5;
    }
  }

  lemma WindowMatchIsStraight(cards: seq<Card>, sorted: seq<Card>, i: nat)
    requires i <= 9 && multiset(sorted) == multiset(cards)
    requires Rotated(ValuesOf(sorted)) == AceWindow(i)
    ensures AceStraight(cards)
  {
    ValuesOfPermutation(sorted, cards);
    assert multiset(ValuesOf(cards)) == multiset(AceWindow(i));
  }

  lemma NoWindowNoStraight(cards: seq<Card>, sorted: seq<Card>)
    requires SortedBy(sorted, NumberOrder) && multiset(sorted) == multiset(cards)
    requires forall k :: 0 <= k <= 9 ==> Rotated(ValuesOf(sorted)) != AceWindow(k)
    ensures !AceStraight(cards)
  {
    forall k | 0 <= k <= 9
      ensures multiset(ValuesOf(cards)) != multiset(AceWindow(k))
    {
      SortedMatchesAceWindow(cards, sorted, k);
    }
  }

  /** A straight here has five cards and never two of the same value. */
  lemma AceStraightHasNoRepeats(cards: seq<Card>)
    requires AceStraight(cards)
    ensures |cards| == 5
    ensures forall v :: Count(cards, v) <= 1
  {
    var i :| 0 <= i <= 9 && multiset(ValuesOf(cards)) == multiset(AceWindow(i));
    assert |multiset(ValuesOf(cards))| == |ValuesOf(cards)| == |cards|;
    AceWindowNoRepeats(i);
    forall v ensures Count(cards, v) <= 1 {
      NoRepeatsCount(AceWindow(i), v);
    }
  }

  /** No value appears twice in a window of the Ace-low ladder. */
  lemma AceWindowNoRepeats(i: int)
    requires 0 <= i <= 9
    ensures NoRepeats(AceWindow(i))
  {
    forall a, b | 0 <= a < b < 5 ensures AceWindow(i)[a] != AceWindow(i)[b] {
      AceLadderEntriesDiffer(i + a, i + b);
    }
  }

  /** A-2-3-4-5 is a straight here but not under validation.py, where the
      Ace sits between King and 2 and nothing wraps round to the 3. */
  lemma LowStraightOnlyHere(s1: Suit, s2: Suit, s3: Suit, s4: Suit, s5: Suit)
    ensures AceStraight([Card(s1, Ace), Card(s2, Two), Card(s3, Three), Card(s4, Four), Card(s5, Five)])
    ensures !Validation.LadderStraight([Card(s1, Ace), Card(s2, Two), Card(s3, Three), Card(s4, Four), Card(s5, Five)])
  {
    var low := [Card(s1, Ace), Card(s2, Two), Card(s3, Three), Card(s4, Four), Card(s5, Five)];
    assert ValuesOf(low) == [Ace, Two, Three, Four, Five] == AceWindow(0);
    forall i | 0 <= i <= 8 ensures multiset(ValuesOf(low)) != multiset(Validation.Window(i)) {
      Validation.NotBothInWindow(i, Three, Ace);
      assert Three in multiset(ValuesOf(low)) && Ace in multiset(ValuesOf(low));
    }
  }

  /** J-Q-K-A-2 is not a straight here (validation.py accepts it, see
      Validation.TopWindowIsStraight). */
  lemma NoWrapPastAce(s1: Suit, s2: Suit, s3: Suit, s4: Suit, s5: Suit)
    ensures !AceStraight([Card(s1, Jack), Card(s2, Queen), Card(s3, King), Card(s4, Ace), Card(s5, Two)])
  {
    var high := [Card(s1, Jack), Card(s2, Queen), Card(s3, King), Card(s4, Ace), Card(s5, Two)];
    assert ValuesOf(high) == [Jack, Queen, King, Ace, Two];
    forall i | 0 <= i <= 9 ensures multiset(ValuesOf(high)) != multiset(AceWindow(i)) {
      if Two in multiset(AceWindow(i)) && Jack in multiset(AceWindow(i)) {
        var t := InWindow(i, Two);
        var j := InWindow(i, Jack);
        AceLadderPositions(t);
        AceLadderPositions(j);
      }
      assert Two in multiset(ValuesOf(high)) && Jack in multiset(ValuesOf(high));
    }
  }

  /** Queen, Jack, 10, King, Ace in that order is a straight: sorted Ace-low
      they read A-10-J-Q-K, and moving the Ace behind the King gives the
      top window. */
  lemma TopStraightThroughRotation(s1: Suit, s2: Suit, s3: Suit, s4: Suit, s5: Suit)
    ensures AceStraight([Card(s1, Queen), Card(s2, Jack), Card(s3, Ten), Card(s4, King), Card(s5, Ace)])
  {
    var cards := [Card(s1, Queen), Card(s2, Jack), Card(s3, Ten), Card(s4, King), Card(s5, Ace)];
    assert ValuesOf(cards) == [Queen, Jack, Ten, King, Ace];
    TopWindowShuffled();
  }

  lemma TopWindowShuffled()
    ensures multiset([Queen, Jack, Ten, King, Ace]) == multiset(AceWindow(9))
  {
    assert AceWindow(9) == [Ten, Jack, Queen, King, Ace];
    BagOfFive(Queen, Jack, Ten, King, Ace);
    BagOfFive(Ten, Jack, Queen, King, Ace);
  }

  /** pusoy_dos.py `is_straight_flush`, on this straight test. */
  method IsStraightFlush(cards: seq<Card>) returns (valid: bool)
    ensures valid <==> |cards| == 5 && AceStraight(cards) && Validation.IsFlush(cards)
  {
    var straight := IsStraight(cards);
    var flush := Validation.IsFlush(cards);
    valid := |cards| == 5 && straight && flush;
  }

  /** One step of this file's cascade. */
  method ApplyRule(r: Validation.Rule, cards: seq<Card>) returns (valid: bool)
    ensures valid <==> Validation.Holds(r, cards, AceStraight(cards))
  {
    match r
    case SingleRule => valid := Validation.IsSingle(cards);
    case PairRule => valid := Validation.IsPair(cards);
    case ThreeOfAKindRule => valid := Validation.IsThreeOfAKind(cards);
    case StraightFlushRule => valid := IsStraightFlush(cards);
    case StraightRule => valid := IsStraight(cards);
    case FlushRule => valid := Validation.IsFlush(cards);
    case FullHouseRule => valid := Validation.IsFullHouse(cards);
    case FourOfAKindRule => valid := Validation.IsFourOfAKind(cards);
  }

  /** pusoy_dos.py `verify_combination`: the same order of rules, with this
      file's straight test. */
  method VerifyCombination(cards: seq<Card>) returns (valid: bool, name: Option<string>)
    ensures name == Validation.FirstMatch(Validation.Cascade, cards, AceStraight(cards))
    ensures valid <==> name.Some?
  {
    for k := 0 to |Validation.Cascade|
      invariant forall j :: 0 <= j < k ==> !Validation.Holds(Validation.Cascade[j], cards, AceStraight(cards))
    {
      var ok := ApplyRule(Validation.Cascade[k], cards);
      if ok {
        Validation.FirstMatchAt(Validation.Cascade, cards, AceStraight(cards), k);
        return true, Some(Validation.Cascade[k].Name());
      }
    }
    Validation.NoRuleNoMatch(Validation.Cascade, cards, AceStraight(cards));
    return false, None;
  }
}
