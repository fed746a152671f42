# Pusoy Dos rules engine, modelled in Dafny

Pusoy Dos, or Filipino Poker, is a shedding card game. This project models the rules engine of a Python implementation of the game:

- the cards and their order: `Card.__gt__`, the `card_func_key` sort keys, `frequency_counter` and `group_value` (card.py);
- the 52-card `Deck`: `build`, the Fisher-Yates `shuffle`, `draw_card` and `not_empty`;
- `CardPlay`: its category and the `five_card_group` strength table;
- the combination rules and the first-match cascade `verify_combination` (validation.py), plus the older copy in pusoy_dos.py, whose straight test lets the Ace play low;
- `is_higher`, which decides whether one play beats another;
- the `Player` hand operations and the two linked lists of players: the list that can be open or closed (player.py) and the ring that is always closed (player_nodes.py).

## Files

- pytext.dfy (modules `Wrappers`, `PyText`): an `Option` type. It also writes out the Python semantics that the rules rely on: `str` `<`, `list` `<` and ASCII `str.lower()`.
- cards.dfy (`Cards`):
  - suits, with the SUIT rank, where a lower number is a stronger suit;
  - values along CARD_RANKS;
  - `Card.__gt__` as the predicate `Greater`;
  - `card_func_key` as a tuple key with the tuple order `KeyLess`.
- sorting.dfy (`CardSort`): `sorted`/`list.sort` by a key, modelled as an insertion sort, together with the facts about sorted card lists that the straight tests use.
- grouping.dfy (`Grouping`):
  - `group_value` as an imperative loop over a map;
  - the group sizes that `is_full_house`/`is_four_of_a_kind` sort;
  - `frequency_counter`.
- decks.dfy (`Decks`): the `Deck` class.
- card_play.dfy (`CardPlays`): `CardPlay` and `five_card_group`.
- validation.dfy (`Validation`): the rules and the cascade of validation.py.
- pusoy_dos.dfy (`PusoyDos`): the Ace-low `is_straight` of pusoy_dos.py and the cascade built on it.
- comparator.dfy (`Comparator`): `is_higher`, as written and corrected (see Findings).
- player.dfy (`Players`): `Player`, `Node` and the player.py `ActivePlayer`.
- player_nodes.dfy (`PlayerNodes`): the player_nodes.py `ActivePlayer`.

pusoy_dos.py repeats `Card`, `Deck`, `CardPlay`, `Player`, `card_func_key`, `group_value`, the rules and `is_higher`, differing only in comments, whitespace and the unused class attribute `Player.lock`. Those are modelled once. Only its different `is_straight` and what is built on it get their own module.

Python's integers, strings and lists become Dafny's unbounded `int`, `seq<char>` and `seq`. The lists and fields that the source changes in place are class fields:

- `Deck._cards`;
- `Player.hand`;
- the `first`/`last`/`turn` and `head`/`tail`/`turn` pointers;
- each `Node.next`.

The methods that change them are proved against ghost state: the ghost sequence of nodes of each list, and the set of nodes it has made.

## Model

| member | source | states |
|---|---|---|
| PyText.StrLess | validation.py:85 | Python's `<` on `str`: the first differing character decides by code point, and a proper prefix is smaller (a definition; its order properties are the four lemmas below) |
| PyText.StrLessIrreflexive | validation.py:85 | Python string `<` never holds between a string and itself |
| PyText.StrLessAsymmetric | validation.py:85 | string `<` never holds both ways |
| PyText.StrLessTotal | validation.py:85 | of two different strings, one is `<` the other |
| PyText.StrLessTransitive | validation.py:85 | string `<` is transitive |
| PyText.LowerChar | card.py:107 | upper-case ASCII letters map to lower-case letters; every other character is kept |
| PyText.Lower | card.py:107 | `lower()` keeps the length and lowers each character in place |
| PyText.LowerIdempotent | card.py:107 | lowering twice is the same as lowering once |
| Cards.Suit.Rank | card.py:8-12 | each suit's rank lies in 1..4 |
| Cards.SuitPosition | card.py:14-17 | each suit has a place in the key order of SUIT, equal to its rank minus one |
| Cards.PositionOfSuitOrder | card.py:14-17 | the position of the k-th SUIT key is k |
| Cards.Index | card.py:19 | `CARD_RANKS.index(v)` finds v on the ladder |
| Cards.IndexOfLadder | card.py:19 | the index of the k-th ladder entry is k |
| Cards.LadderEntriesDiffer | card.py:19 | no value appears twice on CARD_RANKS |
| Cards.LadderIsOneToOne | card.py:19 | two values have the same index, or the same name, exactly when they are equal |
| Cards.Greater | card.py:42-45 | `Card.__gt__`: the higher CARD_RANKS index wins, and on equal values the lower suit rank (a definition; the three lemmas below state its order) |
| Cards.GreaterIsStrictTotalOrder | card.py:42-45 | `Card.__gt__` is irreflexive, asymmetric, transitive and total on distinct cards |
| Cards.SuitBreaksTies | card.py:42-44 | on equal values Diamonds > Hearts > Spades > Clubs, i.e. the lower suit rank wins |
| Cards.LadderDecidesValues | card.py:45 | on different values the higher ladder index wins; a 2 beats everything, a 3 loses to everything |
| Cards.NumericalIndex | card.py:124 | each value has a place on the Ace-first ladder |
| Cards.CardFuncKey | card.py:120-131 | `card_func_key`: (rank index, minus suit rank) for `valueby='rank'`; (minus suit rank, Ace-first index) with suit priority; (Ace-first index, minus suit rank) otherwise (a definition; its properties are the three lemmas below) |
| Cards.CardFuncKeyInjective | card.py:120-131 | every `card_func_key` variant tells all cards apart |
| Cards.RankKeyMatchesGreater | card.py:120-122 | the `valueby='rank'` key orders cards exactly as `Card.__gt__` |
| Cards.NumericalKeyOrder | card.py:123-131 | the numerical ladder starts Ace, 2 and ends at King, and under the default key an Ace sorts before any other value; the suit-priority key puts Clubs first and, within a suit, orders by that ladder |
| CardSort.Insert | card.py:74 | inserting into a sorted list gives a sorted list holding one more copy of the card |
| CardSort.Sort | card.py:74 | the result is sorted by the key and is a permutation of the input |
| CardSort.SortedByRankMaxLast | player.py:176-177 | after sorting by the rank key, the last card beats every other card |
| CardSort.ValuesOf | validation.py:38 | the values of the cards, position by position |
| CardSort.ValuesOfPermutation | validation.py:37-38 | permuting the cards permutes their values |
| CardSort.SortedValuesUnique | validation.py:37-40 | two lists that are ascending by an injective measure and have the same bag are equal |
| CardSort.RankSortedValues | validation.py:37-38 | sorting by the rank key makes the values ascend along CARD_RANKS |
| CardSort.NumberSortedValues | pusoy_dos.py:233-234 | sorting by the default key makes the values ascend along the Ace-first ladder |
| Grouping.OfValue | card.py:144 | the group of value v holds only cards of value v, as many as there are |
| Grouping.OfValueExact | card.py:144 | the group of v holds each card of value v as often as the hand does, and nothing else |
| Grouping.FirstSeenKeys | card.py:141-145 | the dict keys are distinct and are exactly the values that occur |
| Grouping.SizesSum | validation.py:52-55 | the group sizes add up to the number of cards |
| Grouping.GroupSizesPositive | validation.py:52-55 | every group is non-empty |
| Grouping.FullHouseShape | validation.py:49-55 | five cards have group sizes {2,3} exactly when some value occurs three times and another twice |
| Grouping.FullHouseHasTripleAndPair | validation.py:55 | sizes {2,3} give a triple and a pair of different values |
| Grouping.TripleAndPairIsFullHouse | validation.py:55 | a triple plus a pair of another value gives sizes {2,3} |
| Grouping.FourOfAKindShape | validation.py:58-64 | five cards have group sizes {1,4} exactly when some value occurs four times |
| Grouping.FourOfAKindHasQuad | validation.py:64 | sizes {1,4} give a value occurring four times |
| Grouping.QuadIsFourOfAKind | validation.py:64 | a value occurring four times in five cards gives sizes {1,4} |
| Grouping.GroupValue | card.py:141-145 | the loop builds a map whose keys are the values present; each key maps to that value's cards in input order, and the keys are kept in first-seen order |
| Grouping.FrequencyKey | card.py:136-137 | the key starts with the size of the card's group, followed by the card_func_key |
| Grouping.FrequencyKeyOrder | card.py:136-137 | a card from a smaller group sorts first; within equal group sizes the card key decides |
| Decks.AppendOrder | card.py:70-73 | build appends 52 cards |
| Decks.EveryCardOnce | card.py:70-73 | the append order holds every card exactly once |
| Decks.DealOrderEnds | card.py:74 | after the suit-priority sort the deck ends with the King of Diamonds and starts with the Ace of Clubs |
| Decks.DealOrderExtremes | card.py:125-128 | the King of Diamonds has the largest suit-priority key and the Ace of Clubs the smallest |
| Decks.Deck.constructor | card.py:62-64 | a new deck holds the 52 cards once each, sorted by the suit-priority key |
| Decks.Deck.Build | card.py:69-74 | the nested loops and the sort leave 52 distinct cards sorted by the suit-priority key |
| Decks.Deck.AppendSuit | card.py:72-73 | one pass of the inner loop appends the 13 cards of the next suit |
| Decks.Deck.Shuffle | card.py:76-80 | the swaps keep the same cards, i.e. a permutation |
| Decks.Deck.DrawCard | card.py:87-88 | the last card is removed and returned |
| Decks.Deck.NotEmpty | card.py:90-92 | true exactly when cards remain |
| CardPlays.NewCardPlay | card.py:104-108 | the category is "five-card" for combotypes in the strength table and the lowered combotype otherwise |
| CardPlays.CategoryIsLowerCase | card.py:107 | every category is already lower case |
| CardPlays.CategoryOfNames | card.py:104-108 | Single, Pair and Three of a kind give their lower-case names; the five table names give "five-card"; "Straight Flush" gives "straight flush" |
| CardPlays.FiveCardStrengths | card.py:98-102 | Straight < Flush < Full house < Four of a kind < Straight flush, the strengths being distinct and in 1..5 |
| Validation.IsSingle | validation.py:22-23 | holds exactly for a one-card list |
| Validation.IsPair | validation.py:26-27 | holds exactly for two cards of one value |
| Validation.IsThreeOfAKind | validation.py:30-31 | holds exactly for three cards of one value |
| Validation.IsFlush | validation.py:45-46 | holds exactly for five cards of one suit |
| Validation.LadderStraight | validation.py:34-42 | the meaning of a straight: the values of the cards are, as a bag, one of the nine five-entry windows of CARD_RANKS (a definition; Validation.IsStraight is proved equal to it) |
| Validation.WindowAscending | validation.py:39-40 | each five-value window of CARD_RANKS ascends |
| Validation.SortedMatchesWindow | validation.py:37-40 | when the cards' values form a window as a bag, the rank-sorted values equal that window |
| Validation.IsStraight | validation.py:34-42 | true exactly when the values of the cards are, as a bag, five consecutive CARD_RANKS entries (3 up to 2) |
| Validation.NotBothInWindow | validation.py:39-40 | values five or more steps apart never share a window |
| Validation.StraightHasNoRepeats | validation.py:34-42 | a straight has five cards of five different values |
| Validation.TopWindowIsStraight | validation.py:34-42 | J-Q-K-A-2, in any order, is a straight |
| Validation.SortsTo | validation.py:55 | `[lo, hi] == sorted(xs)` holds exactly when xs is lo and hi as a bag |
| Validation.GroupSizesOf | validation.py:52-55 | the loop yields the group sizes in first-seen order |
| Validation.IsFullHouse | validation.py:49-55 | true exactly for five or more cards whose group sizes are {2,3} |
| Validation.IsFourOfAKind | validation.py:58-64 | true exactly for five or more cards whose group sizes are {1,4} |
| Validation.FullHouseMeaning | validation.py:49-55 | full house holds exactly for five cards made of a triple and a pair |
| Validation.FourOfAKindMeaning | validation.py:49-64 | four of a kind holds exactly for five cards with a value four times, and never together with full house |
| Validation.IsStraightFlush | validation.py:67-70 | true exactly for five cards that are both a straight and a flush |
| Validation.ApplyRule | validation.py:8-16 | running a rule answers whether it holds |
| Validation.VerifyCombination | validation.py:7-19 | the name is that of the first rule in cascade order that holds, or None; valid is true exactly when there is a name |
| Validation.FirstMatch | validation.py:16-19 | the name of the first rule in the list that holds, or None (a definition; the two lemmas below characterise it) |
| Validation.FirstMatchAt | validation.py:16-18 | when rule k holds and none before it does, the cascade answers rule k's name |
| Validation.NoRuleNoMatch | validation.py:19 | when no rule holds, the cascade answers None |
| Validation.ShortHands | validation.py:7-31 | one card is a Single; two or three cards are a Pair or Three of a kind, or else invalid; no cards, four cards or six or more are invalid |
| Validation.FiveCardHands | validation.py:7-19 | five cards are classified, in priority order, as Straight flush, Straight, Flush, Full house, Four of a kind, or invalid |
| Validation.StraightHands | validation.py:11-12 | a five-card straight is a Straight flush when it is a flush and a Straight otherwise |
| Validation.OtherFiveCardHands | validation.py:13-19 | five cards that are not a straight are a Flush, else a Full house, else Four of a kind, else invalid |
| Validation.GroupedHands | validation.py:14-15 | five non-straight, non-flush cards are a Full house when grouped 2+3 |
| Validation.LastRules | validation.py:15-19 | what is left is Four of a kind when grouped 1+4, and invalid otherwise |
| PusoyDos.AceStraight | pusoy_dos.py:230-242 | the meaning of this straight: the values are, as a bag, one of the ten windows of Ace, 2, ..., King, Ace (a definition; PusoyDos.IsStraight is proved equal to it) |
| PusoyDos.Rotated | pusoy_dos.py:235-237 | moving the Ace behind the King keeps the values as a bag |
| PusoyDos.AceLadderPositions | pusoy_dos.py:238 | the ladder Ace, 2, ..., King, Ace agrees with the Ace-first order; Ace sits only at its two ends |
| PusoyDos.AceLadderEntriesDiffer | pusoy_dos.py:238-240 | no value repeats within five steps of that ladder |
| PusoyDos.InWindow | pusoy_dos.py:239-240 | a value in a window sits at one of its five places |
| PusoyDos.KingAndAceOnlyAtTop | pusoy_dos.py:236-240 | only the top window (10 to Ace) holds both King and Ace |
| PusoyDos.SortedMatchesAceWindow | pusoy_dos.py:233-240 | when the values form a window as a bag, the sorted and rotated values equal that window |
| PusoyDos.LowWindowAscending | pusoy_dos.py:238-240 | every window but the top one ascends on the Ace-first ladder |
| PusoyDos.TopWindowSortedAceLow | pusoy_dos.py:235-237 | sorted 10-to-Ace values become 10, J, Q, K, A after the rotation |
| PusoyDos.AceFirstFacts | pusoy_dos.py:233-237 | Ace, 10, J, Q, K is how the top window sorts, and the rotation turns it into the window |
| PusoyDos.IsStraight | pusoy_dos.py:230-242 | true exactly when the values are, as a bag, five consecutive entries of Ace, 2, ..., King, Ace |
| PusoyDos.FindWindow | pusoy_dos.py:239-242 | the loop finds a window equal to the values, or none exists |
| PusoyDos.TooFewNoStraight | pusoy_dos.py:231-232 | fewer than five cards are never a straight |
| PusoyDos.WindowMatchIsStraight | pusoy_dos.py:239-241 | a match found by the loop means a straight |
| PusoyDos.NoWindowNoStraight | pusoy_dos.py:239-242 | no match found by the loop means no straight |
| PusoyDos.AceStraightHasNoRepeats | pusoy_dos.py:230-242 | a straight has five cards of five different values |
| PusoyDos.AceWindowNoRepeats | pusoy_dos.py:238 | no window repeats a value |
| PusoyDos.LowStraightOnlyHere | pusoy_dos.py:238-240 | A-2-3-4-5 is a straight here but not under validation.py |
| PusoyDos.NoWrapPastAce | pusoy_dos.py:238-240 | J-Q-K-A-2 is not a straight here, though it is under validation.py |
| PusoyDos.TopStraightThroughRotation | pusoy_dos.py:235-241 | 10-J-Q-K-A in any order is a straight |
| PusoyDos.IsStraightFlush | pusoy_dos.py:267-270 | true exactly for five cards that are a straight here and a flush |
| PusoyDos.ApplyRule | pusoy_dos.py:204-212 | running a rule answers whether it holds, with this straight test |
| PusoyDos.VerifyCombination | pusoy_dos.py:203-215 | the first rule in cascade order that holds, or None, with this straight test |
| Comparator.IsHigher | validation.py:73-91 | `is_higher` as written, under the requirement Comparable that the source raises without (a definition; the lemmas below state its order and its cases) |
| Comparator.Top | validation.py:77 | the card a play is represented by belongs to it |
| Comparator.DifferentCategoriesNeverHigher | validation.py:75 | plays of different categories beat each other in neither direction |
| Comparator.IsHigherIrreflexive | validation.py:73-91 | no play beats itself |
| Comparator.IsHigherAsymmetric | validation.py:73-91 | no two plays beat each other both ways |
| Comparator.IsHigherTotal | validation.py:73-91 | in one category, plays with different last cards, or different five-card types, are ordered one way or the other |
| Comparator.StrengthTableDecides | validation.py:87-88 | different five-card types are decided by the strength table alone: a Straight flush beats them all, a Straight none |
| Comparator.TopCardDecides | validation.py:75-82 | non-five-card plays, and full houses, fours of a kind and straights against their own type, are decided by `Card.__gt__` on the last cards |
| Comparator.FlushComparesSuitFirst | validation.py:83-86 | flushes and straight flushes compare the suit rank of their last cards first, and only on equal suits their value strings |
| Comparator.MisspelledStraightFlush | validation.py:75-77 | a play named "Straight Flush" gets its own category and is compared by its last card alone |
| Comparator.ValueStringsMisorderFlushes | validation.py:84-85 | the heart flush topped by the 9 beats the one topped by the 10, and the one topped by the King beats the one topped by the Ace, although `Card.__gt__` says the opposite |
| Comparator.IsHigherRanked | validation.py:84-85 | `is_higher` with the values of same-suit flushes compared along CARD_RANKS instead of as strings (a definition; Comparator.RankedFlushesFollowCards states its properties) |
| Comparator.RankedFlushesFollowCards | validation.py:84-85 | with values compared along CARD_RANKS, same-suit flushes follow `Card.__gt__`; elsewhere nothing changes, and the order stays irreflexive, asymmetric and total |
| Players.IndexOf | player.py:169 | `hand.index(card)` is the first position holding the card |
| Players.PopFirst | player.py:169 | `hand.pop(hand.index(card))` removes exactly one copy of the card, so the hand has one card fewer |
| Players.PopFirstTakesFirstCopy | player.py:172-174 | the copy removed is the first one, and the other cards keep their order |
| Players.PopEach | player.py:166-170 | popping the play's cards one by one, in order, removes exactly the play's cards as a bag |
| Players.PopEachStep | player.py:168-169 | while playing, each next card of the play is still in the hand, and popping it leaves the rest of the play to pop |
| Players.Player.constructor | player.py:145-148 | a new player has the given name and an empty hand |
| Players.Player.Draw | player.py:156-158 | the top card of a non-empty deck moves to the end of the hand; an empty deck changes nothing; no card is lost or created |
| Players.Player.Play | player.py:166-170 | the new hand is the old one with the first copy of each played card popped in turn (PopEach), so exactly the played cards leave it; the play is returned |
| Players.Player.Discard | player.py:172-174 | the first copy of the card is removed if the hand holds it, else nothing changes |
| Players.Player.SortHand | player.py:176-177 | the hand is sorted by the rank key and keeps the same cards |
| Players.Node.constructor | player.py:8-10 | a node holds its player and points nowhere |
| Players.FindName | player.py:99-108 | the first position whose player has the name (players are equal by name) |
| Players.DataOf | player.py:43-44 | the players of the nodes, in order |
| Players.ActivePlayer.constructor | player.py:32-37 | the list holds the given players in order, nobody's turn, open |
| Players.ActivePlayer.Set | player.py:68-78 | the players are appended in order, the old nodes stay in front, and the list is open; of the old nodes only the old last one gets a new `next` |
| Players.ActivePlayer.Append | player.py:70-77 | one new last node with the player, pointing nowhere; of the old nodes only the old last one gets a new `next` |
| Players.ActivePlayer.StartWith | player.py:74-77 | on an empty list the new node is first and last |
| Players.ActivePlayer.LinkAfterLast | player.py:72-77 | otherwise the old last node points at the new one, which becomes last |
| Players.ActivePlayer.Add | player.py:80-85 | the player becomes last and the list is closed into a ring; of the old nodes only the old last one gets a new `next` |
| Players.ActivePlayer.CloseRing | player.py:83 | the last node points back at the first |
| Players.ActivePlayer.NextTurn | player.py:87-93 | the turn moves to the next node, or to the first when there is no turn or no next; the player returned is the one whose turn it now is |
| Players.ActivePlayer.Successor | player.py:87-93 | moving on from the k-th player reaches the (k+1)-th, wrapping round to the first |
| Players.ActivePlayer.Search | player.py:99-108 | the node of the first player with that name |
| Players.ActivePlayer.AssignControl | player.py:95-97 | the turn is set on that node and its player is returned |
| Players.ActivePlayer.Remove | player.py:110-130 | the first node with that name leaves the list, the others keep their order; removing the first player closes the ring; the answer is true; only the node linked past the removed one (the one before it, or the last node) gets a new `next`, so the removed node still points at its old successor, and if the turn was on it the next `next_turn` gives the player after it |
| Players.ActivePlayer.Locate | player.py:113-122 | the node to remove and the one before it, if any |
| Players.ActivePlayer.UnlinkFirst | player.py:123-125 | the second node becomes first and the last points at it; no other node changes its `next` |
| Players.ActivePlayer.UnlinkAfter | player.py:126-129 | the previous node skips the removed one and becomes last if that one was last; no other node changes its `next`, and the removed node still leads to the player after it |
| Players.ActivePlayer.Iter | player.py:55-57 | iteration restarts with no turn set |
| Players.ActivePlayer.Next | player.py:59-66 | the first player, then each next one; None (StopIteration) past the end of an open list |
| Players.ActivePlayer.GetSize | player.py:132-133 | the size is the number of players in the list |
| PlayerNodes.ActivePlayer.constructor | player_nodes.py:30-34 | the ring holds the given players in order, with nobody's turn |
| PlayerNodes.ActivePlayer.Set | player_nodes.py:36-45 | the players are appended after the tail in order and the ring is closed; of the old nodes only the old tail gets a new `next` |
| PlayerNodes.ActivePlayer.Append | player_nodes.py:37-44 | one new tail node holding the player; of the old nodes only the old tail gets a new `next` |
| PlayerNodes.ActivePlayer.StartWith | player_nodes.py:42-44 | on an empty chain the new node is head and tail |
| PlayerNodes.ActivePlayer.LinkAfterTail | player_nodes.py:39-41 | otherwise the old tail points at the new tail |
| PlayerNodes.ActivePlayer.CloseRing | player_nodes.py:45 | the tail points back at the head |
| PlayerNodes.ActivePlayer.NextTurn | player_nodes.py:47-52 | the turn moves to the head when unset, else to the next node; its player is returned |
| PlayerNodes.ActivePlayer.UpperHand | player_nodes.py:54-56 | the turn is set on the first node holding a player of that name |
| PlayerNodes.ActivePlayer.Search | player_nodes.py:58-66 | the first node from the head holding a player of that name |
| PlayerNodes.ActivePlayer.Remove | player_nodes.py:68-84 | the first node of that name leaves the ring, the others keep their order and the ring stays closed; a ring of one is left as it is; only the node linked past the removed one (the one before it, or the tail) gets a new `next`, and if the turn was on the removed node the next `next_turn` gives the player after it |
| PlayerNodes.ActivePlayer.Locate | player_nodes.py:69-77 | the node to remove and the one before it, if any |
| PlayerNodes.ActivePlayer.UnlinkHead | player_nodes.py:78-80 | the head's next becomes the head and the tail points at it; no other node changes its `next` |
| PlayerNodes.ActivePlayer.UnlinkAfter | player_nodes.py:81-84 | the previous node skips the removed one and becomes the tail if that one was the tail; no other node changes its `next`, and the removed node still leads to the player after it |
| PlayerNodes.ActivePlayer.Follow | player_nodes.py:47-52 | every node reached from the head along `next` belongs to the ring |
| PlayerNodes.ActivePlayer.RingOrder | player_nodes.py:47-52 | walking from the head passes the players in order and is back at the head after as many steps as there are players |
| PlayerNodes.ActivePlayer.RingRepeats | player_nodes.py:47-52 | so successive `next_turn` calls cycle through the players with period equal to their number |

## Left out

- main.py, the `show`/`show_hand`/`__str__`/`__repr__` display code, colorama colours and `print` calls are left out. They only produce output.
- `upper_hand` prints the player it chose. The model keeps only the change of turn.
- The player_nodes.py `show_head` and `show_tail` are left out. They only print.
- `random()` in `shuffle` is not modelled. The model takes each draw `r = floor(random() * (i+1))` as a parameter `picks[i]`, which must lie in 0..i as that expression guarantees.
- `Player.count`, the class-level counter of constructed players, is left out, and so is `Player.lock`. No rule reads either.
- `card_count`, `has_empty_hand`, `get_first`, `get_last`, `Deck.__len__` and the `Node` getters and setters are used as field reads and writes. They get no members of their own.
- Python's `str.lower()` is modelled on ASCII letters only. Every combotype the source uses is ASCII.
- Decks.Deck.NotEmpty: the source returns None, not False, for an empty deck. The model returns a boolean, because None is falsy wherever the source uses it.
- Validation.ApplyRule: each rule in the source returns a pair (valid, name) whose name is fixed per rule. The model returns `valid`, and the name comes from `Rule.Name()`.
- Validation.IsFullHouse and Validation.IsFourOfAKind: `[2, 3] == sorted(sizes)` is stated as "the sizes are 2 and 3 as a bag". The two are equivalent.
- Python's `sorted` and `list.sort` are library calls. The model uses an insertion sort by the same key. Every key tells cards apart (Cards.CardFuncKeyInjective), so the stability of Python's sort makes no difference.
- The dict inlined in `is_full_house`/`is_four_of_a_kind` is the same loop as `group_value`. It is modelled once, by Grouping.GroupValue and Validation.GroupSizesOf.
- pusoy_dos.py copies `Card`, `Deck`, `CardPlay`, `Player`, `card_func_key`, `frequency_counter`, `group_value`, the non-straight rules and `is_higher`, differing only in comments, whitespace and `Player.lock`. The copies are not modelled again.
- player_nodes.py defines its own `Node`, identical to player.py's. PlayerNodes reuses Players.Node.
- Players.ActivePlayer.Remove: requires at least two players. Removing the only player leaves that node in place with the size at 0, a state the model's invariant excludes.
- Players.ActivePlayer.Remove, Players.ActivePlayer.Search and Players.ActivePlayer.AssignControl: require a player with that name in the list. Otherwise the source loops round the ring for ever, or fails on `None` at the end of an open list.
- PlayerNodes.ActivePlayer.Remove, PlayerNodes.ActivePlayer.Search and PlayerNodes.ActivePlayer.UpperHand: the same requirement, for the same reason.
- Players.ActivePlayer.Next: requires a turn or at least one player. On an empty list the source fails on `None`.
- Players.ActivePlayer.NextTurn: the same requirement, for the same reason.
- PlayerNodes.ActivePlayer.constructor: requires at least one player. `set` ends by reading the tail, so with no players it fails on `None`.
- PlayerNodes.ActivePlayer.Set: requires that the ring or the new players be non-empty, for the same reason.
- Players.ActivePlayer.Add: requires a non-empty list, because `add` reads `_last`.
- Players.Player.Play: requires every played card to be in the hand, as often as it is played. Otherwise `list.index` raises.
- Comparator.IsHigher: requires Comparable(a, b). Without it the source raises: `cards[-1]` on an empty play is an IndexError (validation.py:77, 82, 84-86), and two five-card plays of different combotypes that are not both keys of five_card_group give a KeyError (validation.py:88). Every play the game compares comes out of `verify_combination`, so it has one to five cards and a combotype of the table. Comparator.IsHigherRanked has the same requirement.
- Decks.Deck.DrawCard: requires a non-empty deck. Otherwise `pop` raises; `draw` checks `not_empty` first.
- Flush comparisons: the source's own comments describe a flush as "Ranked by suits of each Flush" (main.py:16, pusoy_dos.py:303), and validation.py:84-86 compares the suits of the last cards first and their values only on equal suits. The model follows that code (Comparator.FlushComparesSuitFirst).
- Aliasing between players is not modelled: a `Player` is held by reference in the nodes, and nothing here depends on sharing.

## Findings

| source | as written | input that shows it | evidently intended | confidence | as-written member | corrected member |
|---|---|---|---|---|---|---|
| validation.py:85 (and pusoy_dos.py:285) | two flushes (or straight flushes) whose last cards share a suit compare their values as strings, so "10" < "9" and "Ace" < "King" | heart flushes 3-4-5-7-9 and 3-4-5-7-10: the one topped by the 9 is higher; likewise the King-topped flush beats the Ace-topped one | compare the values along CARD_RANKS, as `Card.__gt__` does | not executed | Comparator.ValueStringsMisorderFlushes | Comparator.RankedFlushesFollowCards |
