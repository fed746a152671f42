// The card model of card.py: suits with their priority rank, the value
// ladder CARD_RANKS, cards, the strict order `Card.__gt__` and the sort keys
// of `card_func_key`.  pusoy_dos.py carries an identical copy of all of these.

module Cards {

  /** The four suits.  `Rank()` is SUIT[name].rank: a LOWER number is a
      STRONGER suit. */
  datatype Suit = Diamonds | Hearts | Spades | Clubs
  {
    function Rank(): (r: int)
      ensures 1 <= r <= 4
    {
      match this
      case Diamonds => 1
      case Hearts => 2
      case Spades => 3
      case Clubs => 4
    }

    function Name(): string
    {
      match this
      case Diamonds => "Diamonds"
      case Hearts => "Hearts"
      case Spades => "Spades"
      case Clubs => "Clubs"
    }
  }

  /** The keys of the SUIT dictionary, in the order they were inserted. */
  const SuitOrder: seq<Suit> := [Diamonds, Hearts, Spades, Clubs]

  /** Position of a suit in SuitOrder; it coincides with Rank() - 1. */
  function SuitPosition(s: Suit): (i: nat)
    ensures i < |SuitOrder| && SuitOrder[i] == s
    ensures i == s.Rank() - 1
  {
    s.Rank() - 1
  }

  /** A card value.  Python keeps values as strings; `Name()` gives that
      string back, because is_higher compares those strings directly. */
  datatype Value = Three | Four | Five | Six | Seven | Eight | Nine | Ten
                 | Jack | Queen | King | Ace | Two
  {
    function Name(): string
    {
      match this
      case Three => "3"
      case Four => "4"
      case Five => "5"
      case Six => "6"
      case Seven => "7"
      case Eight => "8"
      case Nine => "9"
      case Ten => "10"
      case Jack => "Jack"
      case Queen => "Queen"
      case King => "King"
      case Ace => "Ace"
      case Two => "2"
    }
  }

  /** CARD_RANKS: the value ladder from weakest (3) to strongest (2). */
  const CardRanks: seq<Value> :=
    [Three, Four, Five, Six, Seven, Eight, Nine, Ten, Jack, Queen, King, Ace, Two]

  /** CARD_RANKS.index(v). */
  function Index(v: Value): (i: nat)
    ensures i < |CardRanks| && CardRanks[i] == v
  {
    match v
    case Three => 0
    case Four => 1
    case Five => 2
    case Six => 3
    case Seven => 4
    case Eight => 5
    case Nine => 6
    case Ten => 7
    case Jack => 8
    case Queen => 9
    case King => 10
    case Ace => 11
    case Two => 12
  }

  /** Reading CARD_RANKS at k and asking for the index gives k back. */
  lemma IndexOfLadder(k: int)
    requires 0 <= k < |CardRanks|
    ensures Index(CardRanks[k]) == k
  {
    assert CardRanks[Index(CardRanks[k])] == CardRanks[k];
    LadderEntriesDiffer(k, Index(CardRanks[k]));
  }

  lemma LadderEntriesDiffer(k: int, m: int)
    requires 0 <= k < |CardRanks| && 0 <= m < |CardRanks| && CardRanks[k] == CardRanks[m]
    ensures k == m
  {
  }

  /** The same for the suits and SuitOrder. */
  lemma PositionOfSuitOrder(k: int)
    requires 0 <= k < |SuitOrder|
    ensures SuitPosition(SuitOrder[k]) == k
  {
  }

  /** Every value sits at exactly one place of the ladder, and the string
      names are pairwise different, so comparing names (as the source does
      for card values) agrees with comparing values. */
  lemma LadderIsOneToOne(v: Value, w: Value)
    ensures Index(v) == Index(w) <==> v == w
    ensures v.Name() == w.Name() <==> v == w
  {
  }

  /** A card.  Two cards are equal (`Card.__eq__`) exactly when suit and
      value are equal, which is Dafny's equality on this datatype. */
  datatype Card = Card(suit: Suit, value: Value)

  /** `Card.__gt__`: a higher value wins; on equal values the suit with the
      lower rank number wins. */
  predicate Greater(a: Card, b: Card)
  {
    if a.value == b.value then a.suit.Rank() < b.suit.Rank()
    else Index(a.value) > Index(b.value)
  }

  /** `Card.__gt__` is a strict total order on the 52 cards. */
  lemma GreaterIsStrictTotalOrder(a: Card, b: Card, c: Card)
    ensures !Greater(a, a)
    ensures Greater(a, b) ==> !Greater(b, a)
    ensures a != b ==> Greater(a, b) || Greater(b, a)
    ensures Greater(a, b) && Greater(b, c) ==> Greater(a, c)
  {
  }

  /** Among cards of equal value the suit decides: Diamonds > Hearts >
      Spades > Clubs. */
  lemma SuitBreaksTies(v: Value)
    ensures Greater(Card(Diamonds, v), Card(Hearts, v))
    ensures Greater(Card(Hearts, v), Card(Spades, v))
    ensures Greater(Card(Spades, v), Card(Clubs, v))
    ensures forall s, t: Suit :: Greater(Card(s, v), Card(t, v)) <==> s.Rank() < t.Rank()
  {
  }

  /** Between different values the ladder decides, whatever the suits: a 2
      beats every other value and a 3 loses to every other value. */
  lemma LadderDecidesValues(a: Card, b: Card)
    requires a.value != b.value
    ensures Greater(a, b) <==> Index(a.value) > Index(b.value)
    ensures a.value == Two ==> Greater(a, b)
    ensures a.value == Three ==> Greater(b, a)
  {
  }

  // ---------------------------------------------------------------------
  // Sort keys (card_func_key)

  /** The `valueby` argument of card_func_key: 'rank' or anything else
      (the numerical order, where Ace is low). */
  datatype ValueBy = ByRank | ByNumber

  /** CARD_RANKS[11:] + CARD_RANKS[:11]: Ace, 2, 3, ..., King. */
  const NumericalOrder: seq<Value> := CardRanks[11..] + CardRanks[..11]

  /** `numerical.index(v)`: the place of v when Ace counts as one. */
  function NumericalIndex(v: Value): (i: nat)
    ensures i < |NumericalOrder| && NumericalOrder[i] == v
  {
    (Index(v) + 2) % 13
  }

  /** A key of card_func_key; Python compares such tuples lexicographically. */
  type Key = (int, int)

  predicate KeyLess(k: Key, l: Key)
  {
    k.0 < l.0 || (k.0 == l.0 && k.1 < l.1)
  }

  /** card_func_key(card, valueby, suit_priority). */
  function CardFuncKey(c: Card, valueby: ValueBy, suitPriority: bool): Key
  {
    if valueby == ByRank then (Index(c.value), -c.suit.Rank())
    else if suitPriority then (-c.suit.Rank(), NumericalIndex(c.value))
    else (NumericalIndex(c.value), -c.suit.Rank())
  }

  /** Every key mode tells the 52 cards apart, so a sort by any of them has
      one possible outcome and stability plays no part. */
  lemma CardFuncKeyInjective(a: Card, b: Card, valueby: ValueBy, suitPriority: bool)
    requires CardFuncKey(a, valueby, suitPriority) == CardFuncKey(b, valueby, suitPriority)
    ensures a == b
  {
    assert a.suit.Rank() == b.suit.Rank();
    if valueby == ByNumber {
      assert NumericalIndex(a.value) == NumericalIndex(b.value);
      assert NumericalOrder[NumericalIndex(a.value)] == a.value;
    }
  }

  /** The 'rank' key orders cards exactly as `Card.__gt__` does, so an
      ascending sort by it puts the strongest card last. */
  lemma RankKeyMatchesGreater(a: Card, b: Card)
    ensures Greater(a, b) <==> KeyLess(CardFuncKey(b, ByRank, false), CardFuncKey(a, ByRank, false))
  {
  }

  /** In numerical mode the Ace is lowest, then 2, 3, ... up to the King;
      with suit priority the suit comes first and Clubs sort first. */
  lemma NumericalKeyOrder(a: Card, b: Card)
    ensures NumericalIndex(Ace) == 0 && NumericalIndex(Two) == 1 && NumericalIndex(King) == 12
    ensures a.value == Ace && b.value != Ace ==>
              KeyLess(CardFuncKey(a, ByNumber, false), CardFuncKey(b, ByNumber, false))
    ensures a.suit == Clubs && b.suit != Clubs ==>
              KeyLess(CardFuncKey(a, ByNumber, true), CardFuncKey(b, ByNumber, true))
    ensures a.suit == b.suit ==>
              (KeyLess(CardFuncKey(a, ByNumber, true), CardFuncKey(b, ByNumber, true))
               <==> NumericalIndex(a.value) < NumericalIndex(b.value))
  {
  }
}
