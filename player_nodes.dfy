// player_nodes.py: the players of a game kept in a ring of nodes that is
// always closed (the tail points back at the head).  Its `Node` is the same
// class as player.py's, and its players are player.py's `Player`s.

module PlayerNodes {
  import opened Players

  class ActivePlayer {
    var head: Node?
    var tail: Node?
    var turn: Node?
    /** The nodes from `head` to `tail`, in ring order. */
    ghost var nodes: seq<Node>
    /** Every node this ring has made, removed ones included: a turn may
        still rest on a removed node, whose next keeps pointing into the
        ring's nodes. */
    ghost var Repr: set<Node>

    /** The links from head to tail are in place; the tail may point
        anywhere among Repr, or nowhere, as while `set` is appending. */
    ghost predicate Chain()
      reads this, Repr
    {
      (forall i :: 0 <= i < |nodes| ==> nodes[i] in Repr)
      && (forall i, j :: 0 <= i < j < |nodes| ==> nodes[i] != nodes[j])
      && (nodes == [] ==> head == null && tail == null && turn == null)
      && (nodes != [] ==> head == nodes[0] && tail == nodes[|nodes| - 1]
                          && (tail.next == null || tail.next in Repr))
      && (forall i :: 0 <= i < |nodes| - 1 ==> nodes[i].next == nodes[i + 1])
      && (forall n :: n in Repr && n != tail ==> n.next != null && n.next in Repr)
      && (turn == null || turn in Repr)
    }

    /** A closed ring of at least one node. */
    ghost predicate Valid()
      reads this, Repr
    {
      Chain() && nodes != [] && tail.next == head
    }

    /** The players in ring order, from the head. */
    ghost function Players(): seq<Player>
      reads this
    {
      DataOf(nodes)
    }

    /** `ActivePlayer(*players)`.  `set` ends by reading the tail, so there
        must be at least one player. */
    constructor (players: seq<Player>)
      requires players != []
      ensures Valid() && fresh(Repr)
      ensures Players() == players && turn == null
    {
      head, tail, turn := null, null, null;
      nodes, Repr := [], {};
      new;
      Set(players);
    }

    /** `set(*players)`: appends the players after the tail and closes the
        ring again. */
    method Set(players: seq<Player>)
      requires Chain() && (nodes != [] || players != [])
      modifies this, Repr
      ensures Valid() && fresh(Repr - old(Repr))
      ensures Players() == old(Players()) + players
      ensures nodes[..old(|nodes|)] == old(nodes)
      ensures turn == old(turn)
      ensures forall n :: n in old(Repr) && n != old(tail) ==> n.next == old(n.next)
    {
      for k := 0 to |players|
        invariant Chain() && fresh(Repr - old(Repr))
        invariant forall n :: n in old(Repr) && n != old(tail) ==> n.next == old(n.next)
        invariant tail == old(tail) || tail !in old(Repr)
        invariant |nodes| == old(|nodes|) + k
        invariant Players() == old(Players()) + players[..k]
        invariant nodes[..old(|nodes|)] == old(nodes)
        invariant turn == old(turn)
      {
        assert players[..k + 1] == players[..k] + [players[k]];
        Append(players[k]);
      }
      assert players[..|players|] == players;
      CloseRing();
    }

    /** The last statement of `set`: the tail points back at the head. */
    method CloseRing()
      requires Chain() && nodes != []
      modifies tail
      ensures Valid()
    {
      tail.next := head;
    }

    /** One round of the loop of `set`: a new tail, pointing nowhere yet. */
    method Append(player: Player)
      requires Chain()
      modifies this, Repr
      ensures Chain() && fresh(Repr - old(Repr))
      ensures |nodes| == old(|nodes|) + 1 && nodes[..|nodes| - 1] == old(nodes)
      ensures Players() == old(Players()) + [player]
      ensures turn == old(turn)
      ensures tail !in old(Repr)
      ensures forall n :: n in old(Repr) && n != old(tail) ==> n.next == old(n.next)
    {
      var node := new Node(player);
      if tail != null {
        LinkAfterTail(node);
      } else {
        StartWith(node);
      }
      DataOfAppend(old(nodes), node);
    }

    /** The first node appended to an empty chain is its head and tail. */
    method StartWith(node: Node)
      requires Chain() && nodes == [] && node !in Repr && node.next == null
      modifies this
      ensures Chain() && Repr == old(Repr) + {node} && nodes == [node]
      ensures turn == old(turn)
    {
      head, tail := node, node;
      nodes := nodes + [node];
      Repr := Repr + {node};
    }

    /** Any later node goes after the tail, which then points at it. */
    method LinkAfterTail(node: Node)
      requires Chain() && nodes != [] && node !in Repr && node.next == null
      modifies this, tail
      ensures Chain() && Repr == old(Repr) + {node} && nodes == old(nodes) + [node]
      ensures turn == old(turn)
    {
      tail.next := node;
      tail := node;
      nodes := nodes + [node];
      Repr := Repr + {node};
    }

    /** `next_turn`: the head's player when no turn is set, otherwise the
        player of the next node. */
    method NextTurn() returns (p: Player)
      requires Valid()
      modifies this
      ensures Valid()
      ensures nodes == old(nodes) && Repr == old(Repr) && head == old(head) && tail == old(tail)
      ensures turn == if old(turn) == null then head else old(turn.next)
      ensures turn != null && p == turn.data
    {
      if turn != null {
        turn := turn.next;
      } else {
        turn := head;
      }
      p := turn.data;
    }

    /** `upper_hand(player)` without its message: the turn moves to that
        player's node, so the next `next_turn` gives the player after it. */
    method UpperHand(player: Player)
      requires Valid() && HasName(Players(), player.name)
      modifies this
      ensures Valid()
      ensures nodes == old(nodes) && Repr == old(Repr) && head == old(head) && tail == old(tail)
      ensures turn == nodes[FindName(Players(), player.name)]
    {
      turn := Search(player);
    }

    /** `search(player)`: the first node from the head holding a player of
        that name.  The walk goes round for ever when there is none. */
    method Search(player: Player) returns (n: Node)
      requires Valid() && HasName(Players(), player.name)
      ensures n == nodes[FindName(Players(), player.name)]
    {
      ghost var k := FindName(Players(), player.name);
      var current := head;
      ghost var i := 0;
      var found := false;
      while !found
        invariant 0 <= i <= k && current == nodes[i]
        invariant found ==> i == k
        decreases k - i + (if found then 0 else 1)
      {
        if current.data.name == player.name {
          found := true;
        } else {
          current := current.next;
          i := i + 1;
        }
      }
      return current;
    }

    /** `remove(player)`: unlinks the first node of that name and keeps the
        ring closed, the others in order; the turn is left where it was.  On
        a ring of one, the head's next is the head itself, so nothing
        changes. */
    method Remove(player: Player)
      requires Valid() && HasName(Players(), player.name)
      modifies this, Repr
      ensures Valid() && Repr == old(Repr) && turn == old(turn)
      ensures var k := old(FindName(Players(), player.name));
              nodes == if old(|nodes|) == 1 then old(nodes) else old(nodes[..k] + nodes[k + 1..])
      ensures var k := old(FindName(Players(), player.name));
              forall n :: n in old(Repr) && n != (if k == 0 then old(tail) else old(nodes[k - 1])) ==> n.next == old(n.next)
      ensures var k := old(FindName(Players(), player.name));
              old(turn) == old(nodes[k]) ==> turn != null && turn.next == (if k < |nodes| then nodes[k] else head)
    {
      ghost var k := FindName(Players(), player.name);
      var previous, current := Locate(player);
      if previous == null {
        UnlinkHead();
      } else {
        UnlinkAfter(previous, current, k);
      }
    }

    /** The walk of `remove`: the node to unlink and the one before it. */
    method Locate(player: Player) returns (previous: Node?, current: Node)
      requires Valid() && HasName(Players(), player.name)
      ensures var k := FindName(Players(), player.name);
              current == nodes[k] && previous == (if k == 0 then null else nodes[k - 1])
    {
      ghost var k := FindName(Players(), player.name);
      current := head;
      previous := null;
      ghost var i := 0;
      var found := false;
      while !found
        invariant 0 <= i <= k && current == nodes[i]
        invariant previous == if i == 0 then null else nodes[i - 1]
        invariant found ==> i == k
        decreases k - i + (if found then 0 else 1)
      {
        if current.data.name == player.name {
          found := true;
        } else {
          previous := current;
          assert current.next == nodes[i + 1];
          current := current.next;
          i := i + 1;
        }
      }
    }

    /** The first branch of the unlinking: the head's next becomes the head
        and the tail is linked to it. */
    method UnlinkHead()
      requires Valid()
      modifies this, tail
      ensures Valid() && Repr == old(Repr) && turn == old(turn)
      ensures nodes == if old(|nodes|) == 1 then old(nodes) else old(nodes[1..])
      ensures forall n :: n in old(Repr) && n != old(tail) ==> n.next == old(n.next)
      ensures old(nodes[0]).next == nodes[0]
    {
      head := head.next;
      tail.next := head;
      if |nodes| > 1 {
        nodes := nodes[1..];
      }
    }

    /** The second branch: the node before the removed one skips it, and
        becomes the tail if the removed node was the tail. */
    method UnlinkAfter(previous: Node, current: Node, ghost k: int)
      requires Valid() && 0 < k < |nodes| && previous == nodes[k - 1] && current == nodes[k]
      modifies this, previous
      ensures Valid() && Repr == old(Repr) && turn == old(turn)
      ensures nodes == old(nodes[..k] + nodes[k + 1..])
      ensures forall n :: n in old(Repr) && n != previous ==> n.next == old(n.next)
      ensures current.next == if k < |nodes| then nodes[k] else head
    {
      if tail == current {
        tail := previous;
      }
      previous.next := current.next;
      nodes := nodes[..k] + nodes[k + 1..];
    }

    /** The node reached from the head after m steps along `next`. */
    ghost function Follow(m: nat): (n: Node)
      reads this, Repr
      requires Valid()
      ensures n in Repr
    {
      if m == 0 then head else Follow(m - 1).next
    }

    /** Walking the ring from the head passes the players in order and
        comes back to the head after as many steps as there are players:
        `next_turn` called from no turn gives the head's player, then each
        next one, and the call after the last player gives the head's
        player again. */
    lemma {:induction false} RingOrder(m: nat)
      requires Valid() && m <= |nodes|
      ensures m < |nodes| ==> Follow(m) == nodes[m]
      ensures m == |nodes| ==> Follow(m) == head
    {
      if m > 0 {
        RingOrder(m - 1);
      }
    }

    /** So the walk repeats itself every |nodes| steps. */
    lemma {:induction false} RingRepeats(m: nat)
      requires Valid()
      ensures Follow(m + |nodes|) == Follow(m)
    {
      if m == 0 {
        RingOrder(|nodes|);
      } else {
        RingRepeats(m - 1);
      }
    }
  }
}
