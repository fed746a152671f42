// player.py: a `Player` with a hand of cards, and `ActivePlayer`, the
// players of a game kept in a singly linked list of `Node`s.  The list is
// open (the last node points nowhere) after `set`, and closed into a ring by
// `add` and by removing the first player; `next_turn` wraps round either way.

module Players {
  import opened Wrappers
  import opened Cards
  import opened CardSort
  import opened CardPlays
  import Decks

  // ---------------------------------------------------------------------
  // Hands

  /** `hand.index(card)`: the first place where the card lies. */
  function IndexOf(s: seq<Card>, c: Card): (i: nat)
    requires c in s
    ensures i < |s| && s[i] == c
    ensures c !in s[..i]
  {
    if s[0] == c then 0
    else
      assert s == [s[0]] + s[1..];
      IndexOf(s[1..], c) + 1
  }

  /** `hand.pop(hand.index(card))`: the hand without the first copy of c. */
  function PopFirst(s: seq<Card>, c: Card): (r: seq<Card>)
    requires c in s
    ensures multiset(r) == multiset(s) - multiset{c}
    ensures |r| == |s| - 1
  {
    var i := IndexOf(s, c);
    assert s == s[..i] + [c] + s[i + 1..];
    s[..i] + s[i + 1..]
  }

  /** The copy popped is the first one, and the rest keep their order. */
  lemma PopFirstTakesFirstCopy(s: seq<Card>, c: Card)
    requires c in s
    ensures exists i :: 0 <= i < |s| && s[i] == c && c !in s[..i] && PopFirst(s, c) == s[..i] + s[i + 1..]
  {
    var i := IndexOf(s, c);
  }

  /** The loop of `play` as a value: the hand after popping the first copy
      of each card of the play, in the play's order.  Every card popped is
      still there when its turn comes, and the play's cards are exactly what
      leaves the hand. */
  function PopEach(h: seq<Card>, cards: seq<Card>): (r: seq<Card>)
    requires multiset(cards) <= multiset(h)
    ensures multiset(r) + multiset(cards) == multiset(h)
    ensures |r| == |h| - |cards|
    decreases |cards|
  {
    if cards == [] then h
    else
      assert cards == [cards[0]] + cards[1..];
      assert cards[0] in multiset(h);
      PopEach(PopFirst(h, cards[0]), cards[1..])
  }

  /** One round of `play`'s loop: the first card of the play is in the
      hand, and popping it leaves the rest of the play to pop. */
  lemma PopEachStep(h: seq<Card>, cards: seq<Card>)
    requires cards != [] && multiset(cards) <= multiset(h)
    ensures cards[0] in h && multiset(cards[1..]) <= multiset(PopFirst(h, cards[0]))
    ensures PopEach(h, cards) == PopEach(PopFirst(h, cards[0]), cards[1..])
  {
    assert cards == [cards[0]] + cards[1..];
    assert cards[0] in multiset(h);
  }

  class Player {
    const name: string
    var hand: seq<Card>

    /** `Player(name)`: an empty hand. */
    constructor (name: string)
      ensures this.name == name && hand == []
    {
      this.name := name;
      hand := [];
    }

    /** `draw`: takes the top card of the deck if the deck still has one.
        No card is lost or made up on the way. */
    method Draw(deck: Decks.Deck)
      modifies this, deck
      ensures old(deck.cards) == [] ==> hand == old(hand) && deck.cards == []
      ensures old(deck.cards) != [] ==>
                deck.cards == old(deck.cards)[..|old(deck.cards)| - 1]
                && hand == old(hand) + [old(deck.cards)[|old(deck.cards)| - 1]]
      ensures multiset(deck.cards) + multiset(hand) == old(multiset(deck.cards) + multiset(hand))
    {
      if deck.NotEmpty() {
        var c := deck.DrawCard();
        hand := hand + [c];
      }
    }

    /** `play`: takes one copy of each played card out of the hand and hands
        the play back.  `index` raises when a card is missing, so every card
        of the play must be in the hand, with its multiplicity. */
    method Play(play: CardPlay) returns (r: CardPlay)
      requires multiset(play.cards) <= multiset(hand)
      modifies this
      ensures r == play
      ensures hand == PopEach(old(hand), play.cards)
      ensures multiset(hand) + multiset(play.cards) == old(multiset(hand))
      ensures |hand| == old(|hand|) - |play.cards|
    {
      for j := 0 to |play.cards|
        invariant multiset(play.cards[j..]) <= multiset(hand)
        invariant PopEach(hand, play.cards[j..]) == PopEach(old(hand), play.cards)
      {
        var card := play.cards[j];
        PopEachStep(hand, play.cards[j..]);
        assert play.cards[j..][1..] == play.cards[j + 1..];
        hand := PopFirst(hand, card);
      }
      assert play.cards[|play.cards|..] == [];
      return play;
    }

    /** `discard`: drops the first copy of the card if there is one. */
    method Discard(c: Card)
      modifies this
      ensures c in old(hand) ==> hand == PopFirst(old(hand), c)
      ensures c !in old(hand) ==> hand == old(hand)
    {
      if c in hand {
        hand := PopFirst(hand, c);
      }
    }

    /** `sort_hand`: the same cards, ascending by the 'rank' key, so the
        strongest card comes last (CardSort.SortedByRankMaxLast). */
    method SortHand()
      modifies this
      ensures SortedBy(hand, RankOrder)
      ensures multiset(hand) == old(multiset(hand))
    {
      hand := Sort(hand, RankOrder);
    }
  }

  // ---------------------------------------------------------------------
  // The list of players

  class Node {
    const data: Player
    var next: Node?

    constructor (data: Player)
      ensures this.data == data && next == null
    {
      this.data := data;
      next := null;
    }
  }

  /** Whether a player equal to one named `name` (`Player.__eq__` compares
      names) is among the players. */
  predicate HasName(ps: seq<Player>, name: string)
  {
    exists i :: 0 <= i < |ps| && ps[i].name == name
  }

  /** The place of the first player with that name: where a walk from the
      front stops. */
  function FindName(ps: seq<Player>, name: string): (k: nat)
    requires HasName(ps, name)
    ensures k < |ps| && ps[k].name == name
    ensures forall j :: 0 <= j < k ==> ps[j].name != name
  {
    if ps[0].name == name then 0
    else
      assert HasName(ps[1..], name) by {
        var i :| 0 <= i < |ps| && ps[i].name == name;
        assert ps[1..][i - 1] == ps[i];
      }
      FindName(ps[1..], name) + 1
  }

  /** The players held by a run of nodes. */
  function DataOf(ns: seq<Node>): (r: seq<Player>)
    ensures |r| == |ns|
    ensures forall i :: 0 <= i < |ns| ==> r[i] == ns[i].data
  {
    if ns == [] then [] else [ns[0].data] + DataOf(ns[1..])
  }

  /** A node appended to a run adds its player at the end. */
  lemma DataOfAppend(ns: seq<Node>, n: Node)
    ensures DataOf(ns + [n]) == DataOf(ns) + [n.data]
  {
  }

  class ActivePlayer {
    var first: Node?
    var last: Node?
    var turn: Node?
    var size: int
    /** The nodes from `first` on, in list order. */
    ghost var nodes: seq<Node>
    /** Whether the last node points back at the first. */
    ghost var closed: bool
    /** Every node this list has made, removed ones included: a turn may
        still rest on a removed node. */
    ghost var Repr: set<Node>

    ghost predicate Valid()
      reads this, Repr
    {
      size == |nodes|
      && (forall i :: 0 <= i < |nodes| ==> nodes[i] in Repr)
      && (forall i, j :: 0 <= i < j < |nodes| ==> nodes[i] != nodes[j])
      && (nodes == [] ==> first == null && last == null && turn == null && !closed)
      && (nodes != [] ==> first == nodes[0] && last == nodes[|nodes| - 1]
                          && last.next == (if closed then first else null))
      && (forall i :: 0 <= i < |nodes| - 1 ==> nodes[i].next == nodes[i + 1])
      && (forall n :: n in Repr ==> n.next == null || n.next in Repr)
      && (turn == null || turn in Repr)
    }

    /** The players in list order. */
    ghost function Players(): seq<Player>
      reads this
    {
      DataOf(nodes)
    }

    /** `ActivePlayer(*players)`: the players in argument order, nobody's
        turn yet. */
    constructor (players: seq<Player>)
      ensures Valid() && fresh(Repr)
      ensures Players() == players
      ensures turn == null && !closed
    {
      first, last, turn, size := null, null, null, 0;
      nodes, closed, Repr := [], false, {};
      new;
      Set(players);
    }

    /** `set(*players)`: appends the players at the end; with at least one
        of them the list ends open, even if it was a ring. */
    method Set(players: seq<Player>)
      requires Valid()
      modifies this, Repr
      ensures Valid() && fresh(Repr - old(Repr))
      ensures Players() == old(Players()) + players
      ensures nodes[..old(|nodes|)] == old(nodes)
      ensures closed == (old(closed) && players == [])
      ensures turn == old(turn)
      ensures forall n :: n in old(Repr) && n != old(last) ==> n.next == old(n.next)
    {
      for k := 0 to |players|
        invariant Valid() && fresh(Repr - old(Repr))
        invariant forall n :: n in old(Repr) && n != old(last) ==> n.next == old(n.next)
        invariant last == old(last) || last !in old(Repr)
        invariant Players() == old(Players()) + players[..k]
        invariant nodes[..old(|nodes|)] == old(nodes)
        invariant closed == (old(closed) && k == 0)
        invariant turn == old(turn)
      {
        assert players[..k + 1] == players[..k] + [players[k]];
        Append(players[k]);
      }
      assert players[..|players|] == players;
    }

    /** One round of the loop of `set`: a new last node, pointing nowhere. */
    method Append(player: Player)
      requires Valid()
      modifies this, Repr
      ensures Valid() && fresh(Repr - old(Repr))
      ensures |nodes| == old(|nodes|) + 1 && nodes[..|nodes| - 1] == old(nodes)
      ensures Players() == old(Players()) + [player]
      ensures !closed && turn == old(turn)
      ensures last !in old(Repr)
      ensures forall n :: n in old(Repr) && n != old(last) ==> n.next == old(n.next)
    {
      var node := new Node(player);
      if last != null {
        LinkAfterLast(node);
      } else {
        StartWith(node);
      }
      DataOfAppend(old(nodes), node);
    }

    /** `append` on an empty list: the node is first and last. */
    method StartWith(node: Node)
      requires Valid() && nodes == [] && node !in Repr && node.next == null
      modifies this
      ensures Valid() && Repr == old(Repr) + {node} && nodes == [node]
      ensures !closed && turn == old(turn)
    {
      first, last := node, node;
      size := size + 1;
      nodes := nodes + [node];
      closed := false;
      Repr := Repr + {node};
    }

    /** `append` after the last node, which then points at the new one. */
    method LinkAfterLast(node: Node)
      requires Valid() && nodes != [] && node !in Repr && node.next == null
      modifies this, last
      ensures Valid() && Repr == old(Repr) + {node} && nodes == old(nodes) + [node]
      ensures !closed && turn == old(turn)
    {
      last.next := node;
      last := node;
      size := size + 1;
      nodes := nodes + [node];
      closed := false;
      Repr := Repr + {node};
    }

    /** `add(player)`: the player becomes last and the list is closed into
        a ring.  The source reads `_last`, so the list must not be empty. */
    method Add(player: Player)
      requires Valid() && nodes != []
      modifies this, Repr
      ensures Valid() && fresh(Repr - old(Repr))
      ensures Players() == old(Players()) + [player]
      ensures nodes[..old(|nodes|)] == old(nodes)
      ensures closed && turn == old(turn)
      ensures forall n :: n in old(Repr) && n != old(last) ==> n.next == old(n.next)
    {
      Append(player);
      CloseRing();
    }

    /** The second half of `add`: the new last node points back at the
        first. */
    method CloseRing()
      requires Valid() && nodes != [] && !closed
      modifies this, last
      ensures Valid() && closed
      ensures nodes == old(nodes) && Repr == old(Repr) && turn == old(turn)
    {
      last.next := first;
      closed := true;
    }

    /** `next_turn`: the first player when no turn is set, otherwise the
        next one, wrapping from the last back to the first whether or not
        the list is a ring. */
    method NextTurn() returns (p: Player)
      requires Valid() && nodes != []
      modifies this
      ensures Valid()
      ensures nodes == old(nodes) && closed == old(closed) && Repr == old(Repr)
      ensures first == old(first) && last == old(last) && size == old(size)
      ensures old(turn) == null ==> turn == first
      ensures old(turn) != null ==> turn == if old(turn.next) == null then first else old(turn.next)
      ensures turn != null && p == turn.data
    {
      if turn != null {
        var t := turn.next;
        turn := if t != null then t else first;
      } else {
        turn := first;
      }
      p := turn.data;
    }

    /** `search(player)`: the first node, from the front, holding a player
        of that name.  The walk never stops when there is none, so one must
        be there. */
    method Search(player: Player) returns (n: Node)
      requires Valid() && HasName(Players(), player.name)
      ensures n == nodes[FindName(Players(), player.name)]
    {
      ghost var k := FindName(Players(), player.name);
      var current := first;
      ghost var i := 0;
      var found := false;
      while !found
        invariant 0 <= i <= k && current == nodes[i]
        invariant found ==> i == k
        decreases k - i + (if found then 0 else 1)
      {
        if current.data.name == player.name {
          found := true;
        } else {
          current := current.next;
          i := i + 1;
        }
      }
      return current;
    }

    /** `assign_control(player)`: the turn moves to that player's node, and
        that player is returned. */
    method AssignControl(player: Player) returns (p: Player)
      requires Valid() && HasName(Players(), player.name)
      modifies this
      ensures Valid()
      ensures nodes == old(nodes) && closed == old(closed) && Repr == old(Repr)
      ensures first == old(first) && last == old(last) && size == old(size)
      ensures turn == nodes[FindName(Players(), player.name)]
      ensures p == turn.data && p.name == player.name
    {
      turn := Search(player);
      p := turn.data;
    }

    /** `remove(player)`: unlinks the first node of that name; the others
        keep their order.  Removing the first player links the last one to
        the new first, closing the ring; the turn is left where it was.
        There must be a player of that name (the walk has no other way to
        stop), and at least one other player: on a list of one, the source
        would leave the size at 0 with the node still in place. */
    method Remove(player: Player) returns (found: bool)
      requires Valid() && |nodes| >= 2 && HasName(Players(), player.name)
      modifies this, Repr
      ensures Valid() && Repr == old(Repr) && turn == old(turn)
      ensures var k := old(FindName(Players(), player.name));
              nodes == old(nodes[..k] + nodes[k + 1..]) && closed == (old(closed) || k == 0)
      ensures found
      ensures var k := old(FindName(Players(), player.name));
              forall n :: n in old(Repr) && n != (if k == 0 then old(last) else old(nodes[k - 1])) ==> n.next == old(n.next)
      ensures var k := old(FindName(Players(), player.name));
              old(turn) == old(nodes[k]) ==>
                turn != null && (if turn.next == null then first else turn.next) == (if k < |nodes| then nodes[k] else first)
    {
      ghost var k := FindName(Players(), player.name);
      var previous, current;
      previous, current, found := Locate(player);
      if previous == null {
        UnlinkFirst();
      } else {
        UnlinkAfter(previous, current, k);
      }
    }

    /** The walk of `remove`: the node to unlink and the one before it. */
    method Locate(player: Player) returns (previous: Node?, current: Node, found: bool)
      requires Valid() && HasName(Players(), player.name)
      ensures var k := FindName(Players(), player.name);
              current == nodes[k] && previous == (if k == 0 then null else nodes[k - 1])
      ensures found
    {
      ghost var k := FindName(Players(), player.name);
      current := first;
      previous := null;
      ghost var i := 0;
      found := false;
      while !found
        invariant 0 <= i <= k && current == nodes[i]
        invariant previous == if i == 0 then null else nodes[i - 1]
        invariant found ==> i == k
        decreases k - i + (if found then 0 else 1)
      {
        if current.data.name == player.name {
          found := true;
        } else {
          previous := current;
          assert current.next == nodes[i + 1];
          current := current.next;
          i := i + 1;
        }
      }
    }

    /** The first branch of the unlinking in `remove`: the second node
        becomes first and the last node is linked to it. */
    method UnlinkFirst()
      requires Valid() && |nodes| >= 2
      modifies this, last
      ensures Valid() && Repr == old(Repr) && turn == old(turn)
      ensures nodes == old(nodes[1..]) && closed
      ensures forall n :: n in old(Repr) && n != old(last) ==> n.next == old(n.next)
      ensures old(nodes[0]).next == nodes[0]
    {
      size := size - 1;
      first := first.next;
      last.next := first;
      nodes := nodes[1..];
      closed := true;
    }

    /** The second branch: the node before the removed one skips it, and
        takes over as last if the removed node was last. */
    method UnlinkAfter(previous: Node, current: Node, ghost k: int)
      requires Valid() && 0 < k < |nodes| && previous == nodes[k - 1] && current == nodes[k]
      modifies this, previous
      ensures Valid() && Repr == old(Repr) && turn == old(turn)
      ensures nodes == old(nodes[..k] + nodes[k + 1..]) && closed == old(closed)
      ensures forall n :: n in old(Repr) && n != previous ==> n.next == old(n.next)
      ensures current.next == if k < |nodes| then nodes[k] else if closed then first else null
    {
      Successor(k);
      size := size - 1;
      if last == current {
        last := previous;
      }
      previous.next := current.next;
      nodes := nodes[..k] + nodes[k + 1..];
    }

    /** `__iter__`: iteration starts over from the first player. */
    method Iter()
      requires Valid()
      modifies this
      ensures Valid() && turn == null
      ensures nodes == old(nodes) && closed == old(closed) && Repr == old(Repr)
      ensures first == old(first) && last == old(last) && size == old(size)
    {
      turn := null;
    }

    /** `__next__`: the first player, then each next one; past the end of
        an open list the turn is cleared and iteration stops (None stands
        for StopIteration).  On a ring it goes round for ever. */
    method Next() returns (p: Option<Player>)
      requires Valid() && (turn != null || nodes != [])
      modifies this
      ensures Valid()
      ensures nodes == old(nodes) && closed == old(closed) && Repr == old(Repr)
      ensures first == old(first) && last == old(last) && size == old(size)
      ensures old(turn) == null ==> turn == first
      ensures old(turn) != null ==> turn == old(turn.next)
      ensures p == if turn == null then None else Some(turn.data)
    {
      if turn != null {
        turn := turn.next;
        if turn == null {
          return None;
        }
      } else {
        turn := first;
      }
      return Some(turn.data);
    }

    /** What follows the k-th node: the next node in list order; after the
        last one, the first on a ring and nothing on an open list.  So
        `next_turn` moves from the k-th player to player (k + 1) mod size. */
    lemma Successor(k: int)
      requires Valid() && 0 <= k < |nodes|
      ensures nodes[k].next == if k + 1 < |nodes| then nodes[k + 1] else if closed then first else null
      ensures (if nodes[k].next == null then first else nodes[k].next) == nodes[(k + 1) % |nodes|]
    {
    }

    /** `get_size`: the number of players in the list. */
    function GetSize(): (r: int)
      reads this, Repr
      requires Valid()
      ensures r == |nodes|
    {
      size
    }
  }
}
