// The combination rules of validation.py and the cascade
// `verify_combination` that names the first rule a list of cards satisfies.
// Every rule there answers a pair (valid, name) whose name is fixed; here a
// rule answers `valid` and `Rule.Name()` gives the name.

module Validation {
  import opened Wrappers
  import opened Cards
  import opened CardSort
  import opened Grouping

  /** `is_single`: exactly one card. */
  function IsSingle(cards: seq<Card>): (r: bool)
    ensures r <==> exists c :: cards == [c]
  {
    if |cards| == 1 then assert cards == [cards[0]]; true else false
  }

  /** `is_pair`: two cards of one value. */
  function IsPair(cards: seq<Card>): (r: bool)
    ensures r <==> |cards| == 2 && exists v :: Count(cards, v) == 2
  {
    if |cards| == 2 then
      assert ValuesOf(cards) == [cards[0].value, cards[1].value];
      assert Count(cards, cards[0].value) >= 1;
      cards[0].value == cards[1].value
    else false
  }

  /** `is_three_of_a_kind`: three cards of one value. */
  function IsThreeOfAKind(cards: seq<Card>): (r: bool)
    ensures r <==> |cards| == 3 && exists v :: Count(cards, v) == 3
  {
    if |cards| == 3 then
      assert ValuesOf(cards) == [cards[0].value, cards[1].value, cards[2].value];
      assert Count(cards, cards[0].value) >= 1;
      cards[0].value == cards[1].value == cards[2].value
    else false
  }

  /** `is_flush`: five cards of one suit. */
  function IsFlush(cards: seq<Card>): (r: bool)
    ensures r <==> |cards| == 5 && exists s :: OfOneSuit(cards, s)
  {
    assert |cards| == 5 ==> (OfOneSuit(cards, cards[0].suit) <==> forall c :: c in cards ==> c.suit == cards[0].suit);
    |cards| == 5 && forall c :: c in cards ==> c.suit == cards[0].suit
  }

  predicate OfOneSuit(cards: seq<Card>, s: Suit)
  {
    forall c :: c in cards ==> c.suit == s
  }

  // ---------------------------------------------------------------------
  // is_straight

  /** CARD_RANKS[i:i+5], the window `is_straight` compares against. */
  function Window(i: nat): seq<Value>
    requires i <= 8
  {
    CardRanks[i..i + 5]
  }

  /** What `is_straight` accepts: the values of the cards are, as a bag,
      five consecutive entries of CARD_RANKS, from 3-4-5-6-7 up to
      J-Q-K-A-2 (there is no wrap-around past the 2). */
  ghost predicate LadderStraight(cards: seq<Card>)
  {
    exists i :: 0 <= i <= 8 && multiset(ValuesOf(cards)) == multiset(Window(i))
  }

  lemma WindowAscending(i: nat)
    requires i <= 8
    ensures Ascending(Window(i), v => Index(v))
  {
    forall a, b | 0 <= a < b < 5 ensures Index(Window(i)[a]) <= Index(Window(i)[b]) {
      IndexOfLadder(i + a);
      IndexOfLadder(i + b);
    }
  }

  /** Cards sorted by the 'rank' key whose values make up a window as a
      bag show exactly that window. */
  lemma SortedMatchesWindow(cards: seq<Card>, sorted: seq<Card>, i: nat)
    requires i <= 8
    requires SortedBy(sorted, RankOrder) && multiset(sorted) == multiset(cards)
    ensures multiset(ValuesOf(cards)) == multiset(Window(i)) ==> ValuesOf(sorted) == Window(i)
  {
    if multiset(ValuesOf(cards)) == multiset(Window(i)) {
      ValuesOfPermutation(sorted, cards);
      RankSortedValues(sorted);
      WindowAscending(i);
      SortedValuesUnique(ValuesOf(sorted), Window(i), v => Index(v));
    }
  }

  /** `is_straight`: sort by the 'rank' key and look for the values among
      the nine windows of CARD_RANKS. */
  method IsStraight(cards: seq<Card>) returns (valid: bool)
    ensures valid <==> LadderStraight(cards)
  {
    if |cards| < 5 {
      assert forall i :: 0 <= i <= 8 ==> |multiset(Window(i))| == 5;
      return false;
    }
    var sorted := Sort(cards, RankOrder);
    var values := ValuesOf(sorted);
    for i := 0 to |CardRanks| - 4
      invariant forall k :: 0 <= k < i ==> values != Window(k)
    {
      if values == CardRanks[i..i + 5] {
        ValuesOfPermutation(sorted, cards);
        assert multiset(ValuesOf(cards)) == multiset(Window(i));
        return true;
      }
    }
    forall k | 0 <= k <= 8
      ensures multiset(ValuesOf(cards)) != multiset(Window(k))
    {
      SortedMatchesWindow(cards, sorted, k);
    }
    return false;
  }

  /** Two values whose places on the ladder are five or more apart never
      share a window. */
  lemma NotBothInWindow(i: nat, v: Value, w: Value)
    requires i <= 8 && (Index(w) - Index(v) >= 5 || Index(v) - Index(w) >= 5)
    ensures !(v in multiset(Window(i)) && w in multiset(Window(i)))
  {
    if v in multiset(Window(i)) && w in multiset(Window(i)) {
      var a :| 0 <= a < 5 && Window(i)[a] == v;
      var b :| 0 <= b < 5 && Window(i)[b] == w;
      IndexOfLadder(i + a);
      IndexOfLadder(i + b);
    }
  }

  /** A straight has five cards and never two of the same value. */
  lemma StraightHasNoRepeats(cards: seq<Card>)
    requires LadderStraight(cards)
    ensures |cards| == 5
    ensures forall v :: Count(cards, v) <= 1
  {
    var i :| 0 <= i <= 8 && multiset(ValuesOf(cards)) == multiset(Window(i));
    assert |multiset(ValuesOf(cards))| == |ValuesOf(cards)| == |cards|;
    assert NoRepeats(Window(i)) by {
      forall a, b | 0 <= a < b < 5 ensures Window(i)[a] != Window(i)[b] {
        IndexOfLadder(i + a);
        IndexOfLadder(i + b);
      }
    }
    forall v ensures Count(cards, v) <= 1 {
      NoRepeatsCount(Window(i), v);
    }
  }

  /** Jack, Queen, King, Ace and 2 form a straight (the top window), in any
      order and whatever the suits. */
  lemma TopWindowIsStraight(s1: Suit, s2: Suit, s3: Suit, s4: Suit, s5: Suit)
    ensures LadderStraight([Card(s1, Two), Card(s2, Jack), Card(s3, Ace), Card(s4, Queen), Card(s5, King)])
  {
    var cards := [Card(s1, Two), Card(s2, Jack), Card(s3, Ace), Card(s4, Queen), Card(s5, King)];
    assert ValuesOf(cards) == [Two, Jack, Ace, Queen, King];
    TopWindowBag();
    assert multiset(ValuesOf(cards)) == multiset(Window(8));
  }

  lemma TopWindowBag()
    ensures multiset(Window(8)) == multiset([Two, Jack, Ace, Queen, King])
  {
    assert Window(8) == [Jack, Queen, King, Ace, Two];
    BagOfFive(Jack, Queen, King, Ace, Two);
    BagOfFive(Two, Jack, Ace, Queen, King);
  }

  // ---------------------------------------------------------------------
  // is_full_house and is_four_of_a_kind

  /** `sorted(xs) == [lo, hi]` for two different numbers lo < hi. */
  function SortsTo(xs: seq<nat>, lo: nat, hi: nat): (r: bool)
    requires lo < hi
    ensures r <==> multiset(xs) == multiset{lo, hi}
  {
    if |xs| == 2 then
      assert xs == [xs[0], xs[1]];
      (xs[0] == lo && xs[1] == hi) || (xs[0] == hi && xs[1] == lo)
    else
      assert |multiset(xs)| == |xs|;
      false
  }

  /** What `is_full_house` accepts: at least five cards whose group sizes,
      sorted, are [2, 3]. */
  ghost predicate FullHouse(cards: seq<Card>)
  {
    |cards| >= 5 && multiset(GroupSizes(cards)) == multiset{2, 3}
  }

  /** What `is_four_of_a_kind` accepts: at least five cards whose group
      sizes, sorted, are [1, 4]. */
  ghost predicate FourOfAKind(cards: seq<Card>)
  {
    |cards| >= 5 && multiset(GroupSizes(cards)) == multiset{1, 4}
  }

  /** `map(len, card_groups.values())`, read off the dictionary that the
      grouping loop builds. */
  method GroupSizesOf(cards: seq<Card>) returns (sizes: seq<nat>)
    ensures sizes == GroupSizes(cards)
  {
    var groups, order := GroupValue(cards);
    sizes := seq(|order|, k requires 0 <= k < |order| => |groups[order[k]]|);
  }

  /** `is_full_house`. */
  method IsFullHouse(cards: seq<Card>) returns (valid: bool)
    ensures valid <==> FullHouse(cards)
  {
    if |cards| < 5 {
      return false;
    }
    var sizes := GroupSizesOf(cards);
    valid := SortsTo(sizes, 2, 3);
  }

  /** `is_four_of_a_kind`. */
  method IsFourOfAKind(cards: seq<Card>) returns (valid: bool)
    ensures valid <==> FourOfAKind(cards)
  {
    if |cards| < 5 {
      return false;
    }
    var sizes := GroupSizesOf(cards);
    valid := SortsTo(sizes, 1, 4);
  }

  lemma SumOfTwo(xs: seq<nat>, a: nat, b: nat)
    requires multiset(xs) == multiset{a, b}
    ensures Sum(xs) == a + b
  {
    assert |xs| == |multiset(xs)| == 2;
    assert xs == [xs[0]] + [xs[1]];
    assert xs[1..][1..] == [];
    assert Sum(xs[1..]) == xs[1] + Sum(xs[1..][1..]);
    assert Sum(xs) == xs[0] + xs[1];
    assert multiset(xs) == multiset{xs[0], xs[1]};
    assert xs[0] in multiset{a, b};
    if xs[0] == a {
      assert multiset{xs[1]} == multiset{b};
    } else {
      assert multiset{xs[1]} == multiset{a};
    }
  }

  /** A full house is exactly five cards: three of one value and two of
      another. */
  lemma FullHouseMeaning(cards: seq<Card>)
    ensures FullHouse(cards) <==>
            |cards| == 5 && exists v, w :: v != w && Count(cards, v) == 3 && Count(cards, w) == 2
  {
    if FullHouse(cards) {
      SizesSum(cards);
      SumOfTwo(GroupSizes(cards), 2, 3);
    }
    if |cards| == 5 {
      FullHouseShape(cards);
    }
  }

  /** Four of a kind is exactly five cards, four of them of one value; it
      is never a full house as well. */
  lemma FourOfAKindMeaning(cards: seq<Card>)
    ensures FourOfAKind(cards) <==> |cards| == 5 && exists v :: Count(cards, v) == 4
    ensures !(FourOfAKind(cards) && FullHouse(cards))
  {
    if FourOfAKind(cards) {
      SizesSum(cards);
      SumOfTwo(GroupSizes(cards), 1, 4);
    }
    if |cards| == 5 {
      FourOfAKindShape(cards);
    }
  }

  // ---------------------------------------------------------------------
  // is_straight_flush and the cascade

  /** `is_straight_flush`: five cards that are a straight and a flush. */
  method IsStraightFlush(cards: seq<Card>) returns (valid: bool)
    ensures valid <==> |cards| == 5 && LadderStraight(cards) && IsFlush(cards)
  {
    var straight := IsStraight(cards);
    var flush := IsFlush(cards);
    valid := |cards| == 5 && straight && flush;
  }

  /** The rules of verify_combination, each with the name it answers. */
  datatype Rule = SingleRule | PairRule | ThreeOfAKindRule | StraightFlushRule
                | StraightRule | FlushRule | FullHouseRule | FourOfAKindRule
  {
    function Name(): string
    {
      match this
      case SingleRule => "Single"
      case PairRule => "Pair"
      case ThreeOfAKindRule => "Three of a kind"
      case StraightFlushRule => "Straight flush"
      case StraightRule => "Straight"
      case FlushRule => "Flush"
      case FullHouseRule => "Full house"
      case FourOfAKindRule => "Four of a kind"
    }
  }

  /** The order in which verify_combination tries the rules. */
  const Cascade: seq<Rule> :=
    [SingleRule, PairRule, ThreeOfAKindRule, StraightFlushRule,
     StraightRule, FlushRule, FullHouseRule, FourOfAKindRule]

  /** Whether rule r accepts the cards, where `straight` is the verdict of
      the is_straight in use (validation.py and pusoy_dos.py differ only
      there). */
  ghost predicate Holds(r: Rule, cards: seq<Card>, straight: bool)
  {
    match r
    case SingleRule => IsSingle(cards)
    case PairRule => IsPair(cards)
    case ThreeOfAKindRule => IsThreeOfAKind(cards)
    case StraightFlushRule => |cards| == 5 && straight && IsFlush(cards)
    case StraightRule => straight
    case FlushRule => IsFlush(cards)
    case FullHouseRule => FullHouse(cards)
    case FourOfAKindRule => FourOfAKind(cards)
  }

  /** The name of the first of the rules that accepts the cards, if any. */
  ghost function FirstMatch(rules: seq<Rule>, cards: seq<Card>, straight: bool): Option<string>
  {
    if rules == [] then None
    else if Holds(rules[0], cards, straight) then Some(rules[0].Name())
    else FirstMatch(rules[1..], cards, straight)
  }

  /** When rule k is the first to accept, its name is the answer. */
  lemma {:induction false} FirstMatchAt(rules: seq<Rule>, cards: seq<Card>, straight: bool, k: nat)
    requires k < |rules| && Holds(rules[k], cards, straight)
    requires forall j :: 0 <= j < k ==> !Holds(rules[j], cards, straight)
    ensures FirstMatch(rules, cards, straight) == Some(rules[k].Name())
    decreases k
  {
    if k > 0 {
      FirstMatchAt(rules[1..], cards, straight, k - 1);
    }
  }

  /** One step of the cascade: `rule(cards)`. */
  method ApplyRule(r: Rule, cards: seq<Card>) returns (valid: bool)
    ensures valid <==> Holds(r, cards, LadderStraight(cards))
  {
    match r
    case SingleRule => valid := IsSingle(cards);
    case PairRule => valid := IsPair(cards);
    case ThreeOfAKindRule => valid := IsThreeOfAKind(cards);
    case StraightFlushRule => valid := IsStraightFlush(cards);
    case StraightRule => valid := IsStraight(cards);
    case FlushRule => valid := IsFlush(cards);
    case FullHouseRule => valid := IsFullHouse(cards);
    case FourOfAKindRule => valid := IsFourOfAKind(cards);
  }

  /** `verify_combination`: (True, name) for the first rule that accepts the
      cards, (False, None) when none does. */
  method VerifyCombination(cards: seq<Card>) returns (valid: bool, name: Option<string>)
    ensures name == FirstMatch(Cascade, cards, LadderStraight(cards))
    ensures valid <==> name.Some?
  {
    for k := 0 to |Cascade|
      invariant forall j :: 0 <= j < k ==> !Holds(Cascade[j], cards, LadderStraight(cards))
    {
      var ok := ApplyRule(Cascade[k], cards);
      if ok {
        FirstMatchAt(Cascade, cards, LadderStraight(cards), k);
        return true, Some(Cascade[k].Name());
      }
    }
    NoRuleNoMatch(Cascade, cards, LadderStraight(cards));
    return false, None;
  }

  // ---------------------------------------------------------------------
  // What the cascade answers

  /** One, two and three cards are a single, a pair or a triple or
      nothing; any number of cards other than 1, 2, 3 and 5 is never a
      valid combination. */
  lemma ShortHands(cards: seq<Card>, straight: bool)
    requires straight ==> |cards| == 5
    ensures |cards| == 1 ==> FirstMatch(Cascade, cards, straight) == Some("Single")
    ensures |cards| == 2 ==> FirstMatch(Cascade, cards, straight) == if IsPair(cards) then Some("Pair") else None
    ensures |cards| == 3 ==>
              (FirstMatch(Cascade, cards, straight) == if IsThreeOfAKind(cards) then Some("Three of a kind") else None)
    ensures |cards| !in {1, 2, 3, 5} ==> FirstMatch(Cascade, cards, straight) == None
  {
    FullHouseMeaning(cards);
    FourOfAKindMeaning(cards);
    if |cards| == 1 {
      FirstMatchAt(Cascade, cards, straight, 0);
    } else if |cards| == 2 && IsPair(cards) {
      FirstMatchAt(Cascade, cards, straight, 1);
    } else if |cards| == 3 && IsThreeOfAKind(cards) {
      FirstMatchAt(Cascade, cards, straight, 2);
    } else if |cards| != 5 {
      NoRuleNoMatch(Cascade, cards, straight);
    }
  }

  /** Five cards: a straight of one suit is a straight flush (never a mere
      straight or flush); then straight, flush, full house, four of a kind
      in that order. */
  lemma FiveCardHands(cards: seq<Card>, straight: bool)
    requires |cards| == 5
    ensures FirstMatch(Cascade, cards, straight) ==
              if straight && IsFlush(cards) then Some("Straight flush")
              else if straight then Some("Straight")
              else if IsFlush(cards) then Some("Flush")
              else if FullHouse(cards) then Some("Full house")
              else if FourOfAKind(cards) then Some("Four of a kind")
              else None
  {
    if straight {
      StraightHands(cards);
    } else {
      OtherFiveCardHands(cards);
    }
  }

  lemma StraightHands(cards: seq<Card>)
    requires |cards| == 5
    ensures FirstMatch(Cascade, cards, true) == if IsFlush(cards) then Some("Straight flush") else Some("Straight")
  {
    if IsFlush(cards) {
      FirstMatchAt(Cascade, cards, true, 3);
    } else {
      FirstMatchAt(Cascade, cards, true, 4);
    }
  }

  lemma OtherFiveCardHands(cards: seq<Card>)
    requires |cards| == 5
    ensures FirstMatch(Cascade, cards, false) ==
              if IsFlush(cards) then Some("Flush")
              else if FullHouse(cards) then Some("Full house")
              else if FourOfAKind(cards) then Some("Four of a kind")
              else None
  {
    if IsFlush(cards) {
      FirstMatchAt(Cascade, cards, false, 5);
    } else {
      GroupedHands(cards, FullHouse(cards), FourOfAKind(cards));
    }
  }

  lemma GroupedHands(cards: seq<Card>, fullHouse: bool, fourOfAKind: bool)
    requires |cards| == 5 && !IsFlush(cards)
    requires fullHouse == FullHouse(cards) && fourOfAKind == FourOfAKind(cards)
    ensures FirstMatch(Cascade, cards, false) ==
              if fullHouse then Some("Full house") else if fourOfAKind then Some("Four of a kind") else None
  {
    if fullHouse {
      FirstMatchAt(Cascade, cards, false, 6);
    } else {
      LastRules(cards, fourOfAKind);
    }
  }

  lemma LastRules(cards: seq<Card>, fourOfAKind: bool)
    requires |cards| == 5 && !IsFlush(cards) && !FullHouse(cards)
    requires fourOfAKind == FourOfAKind(cards)
    ensures FirstMatch(Cascade, cards, false) == if fourOfAKind then Some("Four of a kind") else None
  {
    if fourOfAKind {
      FirstMatchAt(Cascade, cards, false, 7);
    } else {
      NoRuleNoMatch(Cascade, cards, false);
    }
  }

  /** When no rule accepts, the answer is None. */
  lemma {:induction false} NoRuleNoMatch(rules: seq<Rule>, cards: seq<Card>, straight: bool)
    requires forall k :: 0 <= k < |rules| ==> !Holds(rules[k], cards, straight)
    ensures FirstMatch(rules, cards, straight) == None
  {
    if rules != [] {
      assert forall k :: 0 <= k < |rules| - 1 ==> rules[1..][k] == rules[k + 1];
      NoRuleNoMatch(rules[1..], cards, straight);
    }
  }
}
