// `is_higher` of validation.py (pusoy_dos.py has an identical copy): whether
// one play beats another.  Plays of different categories never beat each
// other; within a category the last card of each play decides, except that
// different five-card combinations are ranked by five_card_group and that
// flushes compare the suit of their last card before its value, the value
// being compared as a Python string.

module Comparator {
  import opened Cards
  import opened CardPlays
  import opened PyText

  /** `cards[-1]`: the card that represents a play. */
  function Top(p: CardPlay): (c: Card)
    requires p.cards != []
    ensures c in p.cards
  {
    p.cards[|p.cards| - 1]
  }

  /** The combinations whose last cards are compared with `Card.__gt__`. */
  predicate ByTopCard(combotype: string)
  {
    combotype == "Full house" || combotype == "Four of a kind" || combotype == "Straight"
  }

  /** What is_higher needs to run without an IndexError or a KeyError: the
      last cards it reads exist, and the combotypes it looks up in
      five_card_group are keys of it. */
  predicate Comparable(a: CardPlay, b: CardPlay)
  {
    a.category == b.category ==>
      if a.category != "five-card" || a.combotype == b.combotype then a.cards != [] && b.cards != []
      else a.combotype in FiveCardGroup && b.combotype in FiveCardGroup
  }

  /** validation.py `is_higher(self, other)`, as written: on two flushes (or
      straight flushes) whose last cards share a suit, the values are
      compared as strings. */
  function IsHigher(a: CardPlay, b: CardPlay): bool
    requires Comparable(a, b)
  {
    if a.category != b.category then false
    else if a.category != "five-card" then Greater(Top(a), Top(b))
    else if a.combotype != b.combotype then FiveCardGroup[a.combotype] > FiveCardGroup[b.combotype]
    else if ByTopCard(a.combotype) then Greater(Top(a), Top(b))
    else if Top(a).suit == Top(b).suit then StrLess(Top(b).value.Name(), Top(a).value.Name())
    else Top(a).suit.Rank() < Top(b).suit.Rank()
  }

  /** The case where `is_higher` compares value strings. */
  predicate ComparesValueNames(a: CardPlay, b: CardPlay)
    requires Comparable(a, b)
  {
    a.category == b.category == "five-card" && a.combotype == b.combotype
    && !ByTopCard(a.combotype) && Top(a).suit == Top(b).suit
  }

  /** Plays of different categories never beat each other, in either
      direction. */
  lemma DifferentCategoriesNeverHigher(a: CardPlay, b: CardPlay)
    requires Comparable(a, b) && Comparable(b, a)
    requires a.category != b.category
    ensures !IsHigher(a, b) && !IsHigher(b, a)
  {
  }

  /** No play beats itself. */
  lemma IsHigherIrreflexive(a: CardPlay)
    requires Comparable(a, a)
    ensures !IsHigher(a, a)
  {
    if a.cards != [] {
      GreaterIsStrictTotalOrder(Top(a), Top(a), Top(a));
      StrLessIrreflexive(Top(a).value.Name());
    }
  }

  /** Two plays never beat each other both ways. */
  lemma IsHigherAsymmetric(a: CardPlay, b: CardPlay)
    requires Comparable(a, b) && Comparable(b, a)
    ensures IsHigher(a, b) ==> !IsHigher(b, a)
  {
    if a.category == b.category && a.cards != [] && b.cards != [] {
      GreaterIsStrictTotalOrder(Top(a), Top(b), Top(a));
      StrLessAsymmetric(Top(b).value.Name(), Top(a).value.Name());
    }
  }

  /** Within one category, two plays whose last cards differ (or that are
      different five-card combinations) are ordered one way or the other. */
  lemma IsHigherTotal(a: CardPlay, b: CardPlay)
    requires Comparable(a, b) && Comparable(b, a)
    requires a.category == b.category
    requires (a.category == "five-card" && a.combotype != b.combotype) || Top(a) != Top(b)
    ensures IsHigher(a, b) || IsHigher(b, a)
  {
    if a.category == "five-card" && a.combotype != b.combotype {
      FiveCardStrengths();
    } else {
      GreaterIsStrictTotalOrder(Top(a), Top(b), Top(a));
      if Top(a).suit == Top(b).suit {
        LadderIsOneToOne(Top(a).value, Top(b).value);
        StrLessTotal(Top(a).value.Name(), Top(b).value.Name());
      }
    }
  }

  /** Different five-card combinations are decided by the strength table
      alone: Straight < Flush < Full house < Four of a kind < Straight
      flush, whatever the cards. */
  lemma StrengthTableDecides(a: CardPlay, b: CardPlay)
    requires Comparable(a, b)
    requires a.category == b.category == "five-card" && a.combotype != b.combotype
    ensures IsHigher(a, b) <==> FiveCardGroup[a.combotype] > FiveCardGroup[b.combotype]
    ensures a.combotype == "Straight flush" ==> IsHigher(a, b)
    ensures a.combotype == "Straight" ==> !IsHigher(a, b)
  {
    FiveCardStrengths();
  }

  /** Singles, pairs, triples and any other non-five-card category, and
      full houses, fours of a kind and straights against their own kind,
      are decided by `Card.__gt__` on the last cards. */
  lemma TopCardDecides(a: CardPlay, b: CardPlay)
    requires Comparable(a, b)
    requires a.category == b.category
    requires a.category != "five-card" || (a.combotype == b.combotype && ByTopCard(a.combotype))
    ensures IsHigher(a, b) <==> Greater(Top(a), Top(b))
  {
  }

  /** Flushes and straight flushes against their own kind: the suit of the
      last card is compared first, the stronger (lower-ranked) suit
      winning; only on equal suits do the value strings decide. */
  lemma FlushComparesSuitFirst(a: CardPlay, b: CardPlay)
    requires Comparable(a, b)
    requires a.category == b.category == "five-card" && a.combotype == b.combotype
    requires a.combotype == "Flush" || a.combotype == "Straight flush"
    ensures Top(a).suit != Top(b).suit ==> (IsHigher(a, b) <==> Top(a).suit.Rank() < Top(b).suit.Rank())
    ensures Top(a).suit == Top(b).suit ==> (IsHigher(a, b) <==> StrLess(Top(b).value.Name(), Top(a).value.Name()))
  {
  }

  /** A play named 'Straight Flush' (capital F) is not a five-card
      combination: its category is 'straight flush' and it is compared like
      a single, by its last card. */
  lemma MisspelledStraightFlush(c1: seq<Card>, c2: seq<Card>)
    requires c1 != [] && c2 != []
    ensures Comparable(NewCardPlay("Straight Flush", c1), NewCardPlay("Straight Flush", c2))
    ensures IsHigher(NewCardPlay("Straight Flush", c1), NewCardPlay("Straight Flush", c2))
            <==> Greater(c1[|c1| - 1], c2[|c2| - 1])
  {
    CategoryOfNames(c1);
    CategoryOfNames(c2);
  }

  // ---------------------------------------------------------------------
  // The value strings of line 85

  /** Two heart flushes, one topped by the Nine and one by the Ten (or the
      King and the Ace): the weaker card wins, because '10' < '9' and
      'Ace' < 'King' as strings. */
  lemma ValueStringsMisorderFlushes()
    ensures var nine := NewCardPlay("Flush", [Card(Hearts, Three), Card(Hearts, Four), Card(Hearts, Five), Card(Hearts, Seven), Card(Hearts, Nine)]);
            var ten := NewCardPlay("Flush", [Card(Hearts, Three), Card(Hearts, Four), Card(Hearts, Five), Card(Hearts, Seven), Card(Hearts, Ten)]);
            Comparable(nine, ten) && Comparable(ten, nine)
            && Greater(Top(ten), Top(nine)) && IsHigher(nine, ten) && !IsHigher(ten, nine)
    ensures var king := NewCardPlay("Flush", [Card(Hearts, Three), Card(Hearts, Four), Card(Hearts, Five), Card(Hearts, Seven), Card(Hearts, King)]);
            var ace := NewCardPlay("Flush", [Card(Hearts, Three), Card(Hearts, Four), Card(Hearts, Five), Card(Hearts, Seven), Card(Hearts, Ace)]);
            Comparable(king, ace) && Comparable(ace, king)
            && Greater(Top(ace), Top(king)) && IsHigher(king, ace) && !IsHigher(ace, king)
  {
    assert StrLess("10", "9");
    assert StrLess("Ace", "King");
  }

  /** `is_higher` with the values of line 85 compared along CARD_RANKS, as
      Card.__gt__ does; every other case is unchanged. */
  function IsHigherRanked(a: CardPlay, b: CardPlay): bool
    requires Comparable(a, b)
  {
    if ComparesValueNames(a, b) then Index(Top(a).value) > Index(Top(b).value)
    else IsHigher(a, b)
  }

  /** With the values compared along the ladder, flushes of the same kind
      are ordered exactly as their last cards are by `Card.__gt__` when the
      suits agree, and the order stays irreflexive, asymmetric and total. */
  lemma RankedFlushesFollowCards(a: CardPlay, b: CardPlay)
    requires Comparable(a, b) && Comparable(b, a)
    ensures ComparesValueNames(a, b) ==> (IsHigherRanked(a, b) <==> Greater(Top(a), Top(b)))
    ensures !ComparesValueNames(a, b) ==> IsHigherRanked(a, b) == IsHigher(a, b)
    ensures Comparable(a, a) ==> !IsHigherRanked(a, a)
    ensures IsHigherRanked(a, b) ==> !IsHigherRanked(b, a)
    ensures a.category == b.category && ((a.category == "five-card" && a.combotype != b.combotype) || Top(a) != Top(b))
            ==> IsHigherRanked(a, b) || IsHigherRanked(b, a)
  {
    if Comparable(a, a) {
      IsHigherIrreflexive(a);
    }
    IsHigherAsymmetric(a, b);
    if a.category == b.category && ((a.category == "five-card" && a.combotype != b.combotype) || Top(a) != Top(b)) {
      IsHigherTotal(a, b);
      if ComparesValueNames(a, b) {
        LadderIsOneToOne(Top(a).value, Top(b).value);
      }
    }
  }
}
