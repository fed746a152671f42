// `CardPlay` of card.py (repeated in pusoy_dos.py): the cards a player puts
// down, the name of their combination, and the category derived from it.

module CardPlays {
  import opened Cards
  import opened PyText

  /** `CardPlay.five_card_group`: the strength of each five-card combination. */
  const FiveCardGroup: map<string, int> :=
    map["Straight" := 1, "Flush" := 2, "Full house" := 3, "Four of a kind" := 4, "Straight flush" := 5]

  /** A play.  `category` is derived from `combotype` when the play is made;
      plays of different categories cannot be compared. */
  datatype CardPlay = CardPlay(combotype: string, cards: seq<Card>, category: string)

  /** `CardPlay(combotype, cards)`: a five-card combination gets the category
      'five-card', any other name its own lower-case form. */
  function NewCardPlay(combotype: string, cards: seq<Card>): (p: CardPlay)
    ensures p.combotype == combotype && p.cards == cards
    ensures combotype in FiveCardGroup ==> p.category == "five-card"
    ensures combotype !in FiveCardGroup ==> p.category == Lower(combotype)
  {
    CardPlay(combotype, cards, if combotype !in FiveCardGroup then Lower(combotype) else "five-card")
  }

  /** A category is always in lower case. */
  lemma CategoryIsLowerCase(combotype: string, cards: seq<Card>)
    ensures Lower(NewCardPlay(combotype, cards).category) == NewCardPlay(combotype, cards).category
  {
    if combotype in FiveCardGroup {
      assert Lower("five-card") == "five-card";
    } else {
      LowerIdempotent(combotype);
    }
  }

  /** The category of each name the combination classifier hands out, and of
      the spelling 'Straight Flush' (upper-case F), which is not a key of
      five_card_group and so becomes a category of its own. */
  lemma CategoryOfNames(cards: seq<Card>)
    ensures NewCardPlay("Single", cards).category == "single"
    ensures NewCardPlay("Pair", cards).category == "pair"
    ensures NewCardPlay("Three of a kind", cards).category == "three of a kind"
    ensures forall name :: name in FiveCardGroup ==> NewCardPlay(name, cards).category == "five-card"
    ensures NewCardPlay("Straight Flush", cards).category == "straight flush"
  {
    assert Lower("Single") == "single";
    assert Lower("Pair") == "pair";
    assert Lower("Three of a kind") == "three of a kind";
    assert "Straight Flush" !in FiveCardGroup;
    assert Lower("Straight Flush") == "straight flush";
  }

  /** The strengths are 1..5 in the order Straight, Flush, Full house,
      Four of a kind, Straight flush. */
  lemma FiveCardStrengths()
    ensures FiveCardGroup["Straight"] < FiveCardGroup["Flush"] < FiveCardGroup["Full house"]
            < FiveCardGroup["Four of a kind"] < FiveCardGroup["Straight flush"]
    ensures forall name :: name in FiveCardGroup ==> 1 <= FiveCardGroup[name] <= 5
    ensures forall n, m :: n in FiveCardGroup && m in FiveCardGroup && FiveCardGroup[n] == FiveCardGroup[m] ==> n == m
  {
  }
}
