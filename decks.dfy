// The 52-card `Deck` of card.py (repeated in pusoy_dos.py): a list of cards
// that `build` fills and sorts, `shuffle` permutes by swaps and `draw_card`
// pops from the end.

module Decks {
  import opened Cards
  import opened CardSort

  /** The order in which build appends the cards: suit by suit along the
      keys of SUIT, and within a suit along CARD_RANKS. */
  function AppendOrder(): (r: seq<Card>)
    ensures |r| == 52
  {
    seq(52, k requires 0 <= k < 52 => Card(SuitOrder[k / 13], CardRanks[k % 13]))
  }

  lemma Position(si: int, vi: int)
    requires 0 <= si < 4 && 0 <= vi < 13
    ensures (13 * si + vi) / 13 == si && (13 * si + vi) % 13 == vi
  {
  }

  /** build appends every card exactly once. */
  lemma EveryCardOnce()
    ensures forall c :: multiset(AppendOrder())[c] == 1
  {
    var s := AppendOrder();
    assert NoRepeats(s) by {
      forall i, j | 0 <= i < j < 52
        ensures s[i] != s[j]
      {
        IndexOfLadder(i % 13);
        IndexOfLadder(j % 13);
        PositionOfSuitOrder(i / 13);
        PositionOfSuitOrder(j / 13);
      }
    }
    forall c ensures multiset(s)[c] == 1 {
      var si, vi := SuitPosition(c.suit), Index(c.value);
      Position(si, vi);
      assert s[13 * si + vi] == c;
      NoRepeatsCount(s, c);
    }
  }

  /** After build, the deck is sorted with the suit first (Clubs first) and
      the Ace low inside a suit: draw_card deals the King of Diamonds first,
      and the Ace of Clubs lies at the bottom. */
  lemma DealOrderEnds(s: seq<Card>)
    requires |s| == 52 && (forall c :: multiset(s)[c] == 1) && SortedBy(s, DealOrder)
    ensures s[51] == Card(Diamonds, King)
    ensures s[0] == Card(Clubs, Ace)
  {
    var top, bottom := Card(Diamonds, King), Card(Clubs, Ace);
    assert multiset(s)[top] == 1 && multiset(s)[bottom] == 1;
    DealOrderExtremes();
    LargestKeyLast(s, top);
    SmallestKeyFirst(s, bottom);
  }

  /** Under the suit-priority key the King of Diamonds is the largest card
      and the Ace of Clubs the smallest. */
  lemma DealOrderExtremes()
    ensures forall d :: KeyLeq(KeyOf(d, DealOrder), KeyOf(Card(Diamonds, King), DealOrder))
    ensures forall d :: KeyLeq(KeyOf(Card(Clubs, Ace), DealOrder), KeyOf(d, DealOrder))
  {
  }

  lemma LargestKeyLast(s: seq<Card>, top: Card)
    requires SortedBy(s, DealOrder) && top in s
    requires forall d :: KeyLeq(KeyOf(d, DealOrder), KeyOf(top, DealOrder))
    ensures s[|s| - 1] == top
  {
    var m :| 0 <= m < |s| && s[m] == top;
    if m < |s| - 1 {
      assert KeyLeq(KeyOf(top, DealOrder), KeyOf(s[|s| - 1], DealOrder));
      CardFuncKeyInjective(top, s[|s| - 1], ByNumber, true);
    }
  }

  lemma SmallestKeyFirst(s: seq<Card>, bottom: Card)
    requires SortedBy(s, DealOrder) && bottom in s
    requires forall d :: KeyLeq(KeyOf(bottom, DealOrder), KeyOf(d, DealOrder))
    ensures s[0] == bottom
  {
    var n :| 0 <= n < |s| && s[n] == bottom;
    if n > 0 {
      assert KeyLeq(KeyOf(s[0], DealOrder), KeyOf(bottom, DealOrder));
      CardFuncKeyInjective(bottom, s[0], ByNumber, true);
    }
  }

  class Deck {
    var cards: seq<Card>

    /** A new deck is built at once. */
    constructor ()
      ensures |cards| == 52
      ensures forall c :: multiset(cards)[c] == 1
      ensures SortedBy(cards, DealOrder)
    {
      cards := [];
      new;
      Build();
    }

    /** `build`: all 52 cards, each once, sorted by the suit-priority key. */
    method Build()
      modifies this
      ensures |cards| == 52
      ensures forall c :: multiset(cards)[c] == 1
      ensures SortedBy(cards, DealOrder)
    {
      cards := [];
      for si := 0 to |SuitOrder|
        invariant cards == AppendOrder()[..13 * si]
      {
        AppendSuit(si);
      }
      assert cards == AppendOrder();
      EveryCardOnce();
      cards := Sort(cards, DealOrder);
    }

    /** The inner loop of `build`: the thirteen cards of one suit, in
        CARD_RANKS order. */
    method AppendSuit(si: int)
      requires 0 <= si < |SuitOrder| && cards == AppendOrder()[..13 * si]
      modifies this
      ensures cards == AppendOrder()[..13 * (si + 1)]
    {
      for vi := 0 to |CardRanks|
        invariant cards == AppendOrder()[..13 * si + vi]
      {
        Position(si, vi);
        assert AppendOrder()[..13 * si + vi + 1] == AppendOrder()[..13 * si + vi] + [AppendOrder()[13 * si + vi]];
        cards := cards + [Card(SuitOrder[si], CardRanks[vi])];
      }
    }

    /** `shuffle` (Fisher-Yates).  The source draws r = floor(random() * (i+1))
        for i from the top down to 1; here picks[i] is that r, so it lies in
        0..i.  The deck ends up a rearrangement of itself. */
    method Shuffle(picks: seq<int>)
      requires |picks| == |cards|
      requires forall i :: 0 < i < |picks| ==> 0 <= picks[i] <= i
      modifies this
      ensures multiset(cards) == old(multiset(cards))
      ensures |cards| == old(|cards|)
    {
      var i := |cards| - 1;
      while i > 0
        invariant i < |cards| == |picks|
        invariant multiset(cards) == old(multiset(cards))
      {
        var r := picks[i];
        cards := cards[i := cards[r]][r := cards[i]];
        i := i - 1;
      }
    }

    /** `draw_card`: removes the last card and returns it.  Python's pop
        raises on an empty list, so a card must be left. */
    method DrawCard() returns (c: Card)
      requires |cards| > 0
      modifies this
      ensures old(cards) == cards + [c]
    {
      c := cards[|cards| - 1];
      cards := cards[..|cards| - 1];
    }

    /** `not_empty`: whether a card can still be drawn. */
    function NotEmpty(): (r: bool)
      reads this
      ensures r <==> cards != []
    {
      |cards| > 0
    }
  }
}
