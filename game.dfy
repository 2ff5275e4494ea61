/**
 * The game state machine: four players, the board and the bank, a turn
 * counter with a seven-call setup phase, the dice and the open trade offer.
 * Every action is dispatched on its tag and reports success or failure; a
 * path on which the engine panics is reported as `Panicked`.
 */
module Games {
  import opened Types
  import opened Elements
  import opened Players
  import opened Banks
  import opened Boards
  import opened Production
  import Shuffle
  import DevelopmentCards

  /** The tags of the trade actions. */
  predicate TradeTag(t: ActionType) {
    t.AcceptTrade? || t.DeclineTrade? || t.OfferTrade? || t.Discard?
  }

  /** The tags of the build actions. */
  predicate BuildTag(t: ActionType) {
    t.PlayCity? || t.PlayRoad? || t.PlaySettlement? || t.DrawDevelopmentCard?
  }

  /** The tags of the turn actions. */
  predicate TurnTag(t: ActionType) {
    t.RollDice? || t.PlaceRobber? || t.PlayDevelopmentCard? || t.EndTurn?
  }

  /** Success or failure of an action, or a panic of the engine. */
  datatype Outcome = Done(success: bool) | Panicked

  const SettlementCost: Request := map[Lumber := 1, Brick := 1, Wheat := 1, Sheep := 1]
  const RoadCost: Request := map[Lumber := 1, Brick := 1]
  const CityCost: Request := map[Ore := 3, Wheat := 2]
  const DevelopmentCardCost: Request := map[Ore := 1, Wheat := 1, Sheep := 1]

  /** The cards held after playing `card` with this outcome: one fewer of it exactly on success. */
  function Spent(held: map<DevelopmentCard, int>, card: DevelopmentCard, outcome: Outcome): map<DevelopmentCard, int>
    requires card in held
  {
    if outcome == Done(true) then held[card := held[card] - 1] else held
  }

  /** A settlement or a city of the player. */
  predicate Holds(b: Option<Building>, player: nat) {
    b.Some? && !b.value.Road? && b.value.owner == player
  }

  /** The hands after the victim loses one card of `kind`. */
  function Debited(hands: seq<Hand>, victim: nat, kind: ResourceCard): (r: seq<Hand>)
    requires victim < |hands| && kind in hands[victim]
    ensures |r| == |hands|
  {
    hands[victim := hands[victim][kind := hands[victim][kind] - 1]]
  }

  /** The hands after one card of `kind` moves from `victim` to `thief`. */
  function Moved(hands: seq<Hand>, victim: nat, thief: nat, kind: ResourceCard): (r: seq<Hand>)
    requires victim < |hands| && kind in hands[victim]
    ensures |r| == |hands|
  {
    Credited(Debited(hands, victim, kind), Gain(thief, kind, 1))
  }

  /** The sum of the counts of `kind` over the first n hands, leaving out the hand `skip`. */
  function OthersTotal(hands: seq<Hand>, skip: nat, kind: ResourceCard, n: nat): (r: int)
    requires n <= |hands| && forall p :: 0 <= p < |hands| ==> FullHand(hands[p]) && NonNegative(hands[p])
    ensures r >= 0
    ensures forall p :: 0 <= p < n && p != skip && kind in hands[p] ==> r >= hands[p][kind]
  {
    if n == 0 then 0
    else OthersTotal(hands, skip, kind, n - 1) + (if n - 1 == skip then 0 else hands[n - 1][kind])
  }

  /** A gain changes only its owner's hand, whose card count rises by the gain's amount. */
  lemma CreditedTotals(hands: seq<Hand>, g: Gain)
    requires g.owner < |hands| && FullHand(hands[g.owner])
    ensures FullHand(Credited(hands, g)[g.owner])
    ensures TotalCards(Credited(hands, g)[g.owner]) == TotalCards(hands[g.owner]) + g.amount
    ensures forall p :: 0 <= p < |hands| && p != g.owner ==> Credited(hands, g)[p] == hands[p]
  {
    TotalAfterRaise(hands[g.owner], g.kind, g.amount);
  }

  /**
   * A stolen card leaves the victim and reaches the thief: the victim's count
   * drops by one, the thief's rises by one, and no other hand changes. A
   * player robbing themself ends with the hand they had.
   */
  lemma MovedTotals(hands: seq<Hand>, victim: nat, thief: nat, kind: ResourceCard)
    requires victim < |hands| && thief < |hands| && FullHand(hands[victim]) && FullHand(hands[thief])
    ensures victim == thief ==> Moved(hands, victim, thief, kind) == hands
    ensures victim != thief ==>
      && TotalCards(Moved(hands, victim, thief, kind)[victim]) == TotalCards(hands[victim]) - 1
      && TotalCards(Moved(hands, victim, thief, kind)[thief]) == TotalCards(hands[thief]) + 1
    ensures forall p :: 0 <= p < |hands| && p != victim && p != thief ==> Moved(hands, victim, thief, kind)[p] == hands[p]
  {
    var debited := Debited(hands, victim, kind);
    TotalAfterRaise(hands[victim], kind, -1);
    CreditedTotals(debited, Gain(thief, kind, 1));
    if victim == thief {
      assert debited[victim][kind := debited[victim][kind] + 1] == hands[victim];
    }
  }

  /** Four distinct valid players, the one at seat i with id i. */
  ghost predicate Seated(ps: seq<Player>)
    reads ps
  {
    && |ps| == 4
    && (forall i, j :: 0 <= i < j < 4 ==> ps[i] != ps[j])
    && (forall i :: 0 <= i < 4 ==> ps[i].Valid() && ps[i].id == i)
  }

  /** Everything an action can change, for stating that an action changed nothing. */
  datatype Snapshot = Snapshot(
    hands: seq<Hand>,
    developmentHands: seq<map<DevelopmentCard, int>>,
    nodes: seq<Node>,
    edges: seq<Edge>,
    tiles: seq<Tile>,
    drawn: nat,
    turnNumber: int,
    currentPlayerId: nat,
    currentTradeOffer: Option<TradeOffer>,
    rolledDiceThisTurn: bool,
    previousDiceRoll: nat,
    playersAcceptedTradeOffer: seq<nat>)

  class Game {
    const players: seq<Player>
    const board: Board
    const bank: Bank
    var turnNumber: int
    var currentPlayerId: nat
    var currentTradeOffer: Option<TradeOffer>
    var rolledDiceThisTurn: bool
    var previousDiceRoll: nat
    var playersAcceptedTradeOffer: seq<nat>

    /**
     * Four distinct valid players numbered by seat, a valid board whose
     * buildings all belong to a seat, and a valid bank.
     */
    ghost predicate Sound()
      reads players, board, board.nodes, board.edges, board.tiles, bank
    {
      Seated(players) && board.Valid() && board.OwnersBelow(4) && bank.Valid()
    }

    /** A sound game whose counters are in range. */
    ghost predicate Valid()
      reads this, players, board, board.nodes, board.edges, board.tiles, bank
    {
      && Sound()
      && currentPlayerId < 4 && turnNumber >= 0 && previousDiceRoll <= 10
      && |playersAcceptedTradeOffer| == 4
    }

    /** The four resource hands, by seat. */
    ghost function Hands(): (r: seq<Hand>)
      reads players
      requires |players| == 4
      ensures |r| == 4
    {
      [players[0].resourceCards, players[1].resourceCards, players[2].resourceCards, players[3].resourceCards]
    }

    /** The whole observable state of the game. */
    ghost function State(): Snapshot
      reads this, players, board, board.nodes, board.edges, board.tiles, bank
      requires |players| == 4
    {
      Snapshot(Hands(),
        [players[0].developmentCards, players[1].developmentCards, players[2].developmentCards, players[3].developmentCards],
        board.nodes[..], board.edges[..], board.tiles[..], bank.developmentCardPointer,
        turnNumber, currentPlayerId, currentTradeOffer, rolledDiceThisTurn, previousDiceRoll, playersAcceptedTradeOffer)
    }

    /**
     * A new game: four fresh players, a board and a bank dealt by the given
     * picks, turn 0, seat 0 to move, no offer and no roll yet.
     */
    constructor (topology: Topology, tilePicks: seq<nat>, portPicks: seq<nat>, deckPicks: seq<nat>)
      requires topology.WellFormed()
      requires Shuffle.ValidPicks(tilePicks, TileCount) && Shuffle.ValidPicks(portPicks, PortCount)
      requires Shuffle.ValidPicks(deckPicks, 25)
      ensures Valid()
      ensures turnNumber == 0 && currentPlayerId == 0 && currentTradeOffer == None
      ensures !rolledDiceThisTurn && previousDiceRoll == 0 && playersAcceptedTradeOffer == [0, 0, 0, 0]
      ensures forall i :: 0 <= i < 4 ==> forall k: ResourceCard :: players[i].resourceCards[k] == 0
      ensures forall i :: 0 <= i < NodeCount ==> !HasBuilding(board.nodes[i])
      ensures forall i :: 0 <= i < EdgeCount ==> !HasRoad(board.edges[i])
      ensures board.topology == topology && board.ExactlyOneRobber()
      ensures forall k: ResourceCard :: bank.resourceCards[k] == 19
      ensures multiset(bank.developmentCards[..]) == DeckMultiset() && bank.developmentCardPointer == 0
    {
      var ps := NewSeats();
      var b := NewBoard(topology, tilePicks, portPicks);
      var k := NewBank(deckPicks);
      players := ps;
      board := b;
      bank := k;
      turnNumber := 0;
      currentPlayerId := 0;
      currentTradeOffer := None;
      rolledDiceThisTurn := false;
      previousDiceRoll := 0;
      playersAcceptedTradeOffer := [0, 0, 0, 0];
    }

    /** Four fresh players with empty hands, seated by id. */
    static method NewSeats() returns (ps: seq<Player>)
      ensures Seated(ps) && fresh(ps[0]) && fresh(ps[1]) && fresh(ps[2]) && fresh(ps[3])
      ensures forall i :: 0 <= i < 4 ==> forall k: ResourceCard :: ps[i].resourceCards[k] == 0
    {
      var p0 := new Player(0);
      var p1 := new Player(1);
      var p2 := new Player(2);
      var p3 := new Player(3);
      ps := [p0, p1, p2, p3];
    }

    /** A fresh empty board dealt by the picks, with the robber on the desert alone. */
    static method NewBoard(topology: Topology, tilePicks: seq<nat>, portPicks: seq<nat>) returns (b: Board)
      requires topology.WellFormed()
      requires Shuffle.ValidPicks(tilePicks, TileCount) && Shuffle.ValidPicks(portPicks, PortCount)
      ensures fresh(b) && fresh(b.nodes) && fresh(b.edges) && fresh(b.tiles)
      ensures b.Valid() && b.OwnersBelow(4)
      ensures forall i :: 0 <= i < NodeCount ==> !HasBuilding(b.nodes[i])
      ensures forall i :: 0 <= i < EdgeCount ==> !HasRoad(b.edges[i])
      ensures b.topology == topology && b.ExactlyOneRobber()
    {
      b := new Board(topology, tilePicks, portPicks);
      DealtTilesFacts(topology, tilePicks);
    }

    /** A fresh bank with its deck dealt by the picks. */
    static method NewBank(deckPicks: seq<nat>) returns (k: Bank)
      requires Shuffle.ValidPicks(deckPicks, 25)
      ensures fresh(k) && k.Valid()
      ensures forall c: ResourceCard :: k.resourceCards[c] == 19
      ensures multiset(k.developmentCards[..]) == DeckMultiset() && k.developmentCardPointer == 0
    {
      k := new Bank(deckPicks);
    }

    /** Passes the turn to the next seat and forgets the roll. */
    method EndTurn() returns (ok: bool)
      requires Valid()
      modifies this`currentPlayerId, this`rolledDiceThisTurn
      ensures Valid()
      ensures ok && currentPlayerId == (old(currentPlayerId) + 1) % 4 && !rolledDiceThisTurn
      ensures State() == old(State()).(currentPlayerId := currentPlayerId, rolledDiceThisTurn := rolledDiceThisTurn)
    {
      currentPlayerId := (currentPlayerId + 1) % 4;
      rolledDiceThisTurn := false;
      return true;
    }

    /** Passes the turn to the next seat when an offer is open. */
    method DeclineTrade() returns (ok: bool)
      requires Valid()
      modifies this`currentPlayerId
      ensures Valid()
      ensures ok == currentTradeOffer.Some?
      ensures currentPlayerId == if ok then (old(currentPlayerId) + 1) % 4 else old(currentPlayerId)
    {
      if currentTradeOffer.None? {
        return false;
      }
      currentPlayerId := (currentPlayerId + 1) % 4;
      return true;
    }

    /**
     * The offer is opened exactly when the player holds what is offered; it
     * records the player, what is asked and what is offered, and the turn
     * passes on. No card moves.
     */
    twostate predicate OfferOpened(action: Action, playerId: nat, ok: bool)
      requires old(Sound()) && Sound() && playerId < 4
      reads this, players, board, board.nodes, board.edges, board.tiles, bank
    {
      && ok == Covers(old(Hands())[playerId], RequestAt(action.metadata, 0))
      && currentTradeOffer ==
           (if ok then Some(TradeOffer(playerId, RequestAt(action.metadata, 5), RequestAt(action.metadata, 0)))
            else old(currentTradeOffer))
      && currentPlayerId == (if ok then (old(currentPlayerId) + 1) % 4 else old(currentPlayerId))
      && Hands() == old(Hands())
    }

    /**
     * Opens an offer of the first five metadata entries for the last five,
     * when the player holds what is offered, and passes the turn on.
     */
    method OfferTrade(action: Action, playerId: nat) returns (ok: bool)
      requires Valid() && playerId < 4
      modifies this`currentTradeOffer, this`currentPlayerId
      ensures Valid()
      ensures OfferOpened(action, playerId, ok)
      ensures State() == old(State()).(currentTradeOffer := currentTradeOffer, currentPlayerId := currentPlayerId)
    {
      var giving := RequestAt(action.metadata, 0);
      var receiving := RequestAt(action.metadata, 5);
      var has := CanAfford(playerId, giving);
      if !has {
        return false;
      }
      OpenOffer(TradeOffer(playerId, receiving, giving));
      return true;
    }

    /** Records the offer and passes the turn to the next seat. */
    method OpenOffer(offer: TradeOffer)
      requires Valid()
      modifies this`currentTradeOffer, this`currentPlayerId
      ensures Valid()
      ensures currentTradeOffer == Some(offer) && currentPlayerId == (old(currentPlayerId) + 1) % 4
    {
      currentTradeOffer := Some(offer);
      currentPlayerId := (currentPlayerId + 1) % 4;
    }

    /**
     * The discard check, made on a copy of the mover's hand. The amount to
     * discard is compared with a constant 0 while the hand size also counts
     * the discarded amounts, so the check never passes.
     */
    method Discard(action: Action) returns (ok: bool)
      requires Valid()
      ensures !ok
    {
      var removedCards := RequestAt(action.metadata, 0);
      var currentPlayer := new Player.Clone(players[currentPlayerId]);
      var has := currentPlayer.HasResourceCards(removedCards);
      if !has {
        return false;
      }
      var numCards := 0;
      var i := 0;
      while i < |Kinds|
        invariant 0 <= i <= |Kinds| && numCards >= 0
      {
        numCards := numCards + currentPlayer.resourceCards[Kinds[i]];
        i := i + 1;
      }
      var numDiscardedCards := 0;
      i := 0;
      while i < |Kinds|
        invariant 0 <= i <= |Kinds| && numCards >= 0
      {
        numCards := numCards + removedCards[Kinds[i]];
        i := i + 1;
      }
      if previousDiceRoll != 7 || numCards < 8 || numCards / 2 != numDiscardedCards {
        return false;
      }
      assert false;
    }

    /**
     * A card is drawn exactly when the mover holds the price and a card is
     * left; then only the bank's cursor moves, by one.
     */
    twostate predicate CardDrawn(ok: bool)
      requires old(Valid()) && Sound()
      reads this, players, board, board.nodes, board.edges, board.tiles, bank
    {
      && ok == (Covers(old(Hands())[old(currentPlayerId)], DevelopmentCardCost) && old(bank.developmentCardPointer) < 25)
      && bank.developmentCardPointer == old(bank.developmentCardPointer) + (if ok then 1 else 0)
      && Hands() == old(Hands())
    }

    /**
     * Draws a card for the mover when a copy of their hand holds the price.
     * The price is paid and the card kept on that copy, so only the bank's
     * cursor moves.
     */
    method DrawDevelopmentCard() returns (ok: bool)
      requires Valid()
      modifies bank`developmentCardPointer
      ensures Valid()
      ensures CardDrawn(ok)
      ensures State() == old(State()).(drawn := bank.developmentCardPointer)
    {
      var currentPlayer, has := CopyCovers(currentPlayerId, DevelopmentCardCost);
      if !has {
        return false;
      }
      ok := DrawFor(currentPlayer);
    }

    /** A copy of the seat's player, and whether the copy's hand covers the cost. */
    method CopyCovers(seat: nat, cost: Request) returns (copy: Player, has: bool)
      requires Valid() && seat < 4
      ensures Valid() && State() == old(State())
      ensures fresh(copy) && copy.Valid() && copy.resourceCards == Hands()[seat]
      ensures has == Covers(Hands()[seat], cost)
    {
      copy := new Player.Clone(players[seat]);
      has := copy.HasResourceCards(cost);
    }

    /** Draws a card from the bank for p, which pays for it and keeps it. */
    method DrawFor(p: Player) returns (ok: bool)
      requires bank.Valid() && p.Valid() && Covers(p.resourceCards, DevelopmentCardCost)
      requires |players| == 4 && p !in players
      modifies p, bank`developmentCardPointer
      ensures bank.Valid()
      ensures State() == old(State()).(drawn := bank.developmentCardPointer)
      ensures ok == (old(bank.developmentCardPointer) < 25)
      ensures bank.developmentCardPointer == old(bank.developmentCardPointer) + if ok then 1 else 0
    {
      var drawn := bank.DrawDevelopmentCard();
      if drawn.None? {
        return false;
      }
      var paid := p.RemoveCardsFromHand(DevelopmentCardCost);
      p.AddDevelopmentCard(drawn.value);
      return true;
    }

    /** Credits one gain to its owner's hand. */
    method CreditGain(g: Gain)
      requires Seated(players) && g.owner < 4
      modifies (players[0] as Player)`resourceCards, (players[1] as Player)`resourceCards,
        (players[2] as Player)`resourceCards, (players[3] as Player)`resourceCards
      ensures Seated(players)
      ensures Hands() == Credited(old(Hands()), g)
    {
      CreditOne(players[g.owner].resourceCards, g.kind, g.amount);
      players[g.owner].AddResourceCards(map[g.kind := g.amount]);
    }

    /** Credits the owner of building b with what it earns from the tile. */
    method ProduceNode(tile: Tile, b: Option<Building>)
      requires Seated(players) && (b.Some? ==> b.value.owner < 4)
      modifies (players[0] as Player)`resourceCards, (players[1] as Player)`resourceCards,
        (players[2] as Player)`resourceCards, (players[3] as Player)`resourceCards
      ensures Seated(players)
      ensures Hands() == Apply(old(Hands()), Yield(tile, b))
    {
      ApplyStep(old(Hands()), [], Yield(tile, b));
      assert Apply(old(Hands()), []) == old(Hands());
      if b.Some? && !b.value.Road? {
        var kind := TerrainResource(tile.terrain);
        if kind.Some? {
          var amount := if b.value.City? then 2 else 1;
          CreditGain(Gain(b.value.owner, kind.value, amount));
        }
      }
    }

    /** Credits every built node around the tile with one card of its resource, two for a city. */
    method ProduceTile(tile: Tile, ns: seq<Node>)
      requires Seated(players) && AllBelow(tile.adjacentNodes, |ns|) && NodesOwnedBelow(ns, 4)
      modifies (players[0] as Player)`resourceCards, (players[1] as Player)`resourceCards,
        (players[2] as Player)`resourceCards, (players[3] as Player)`resourceCards
      ensures Seated(players)
      ensures Hands() == Apply(old(Hands()), TileGains(tile, ns, |tile.adjacentNodes|))
    {
      ghost var h0 := Hands();
      var j := 0;
      while j < |tile.adjacentNodes|
        invariant 0 <= j <= |tile.adjacentNodes|
        invariant Seated(players)
        invariant Hands() == Apply(h0, TileGains(tile, ns, j))
      {
        ProduceAt(tile, ns, j, h0);
        j := j + 1;
      }
    }

    /** Credits node j of the tile: the credits for nodes below j become those for nodes up to j. */
    method ProduceAt(tile: Tile, ns: seq<Node>, j: nat, ghost h0: seq<Hand>)
      requires Seated(players) && j < |tile.adjacentNodes| && AllBelow(tile.adjacentNodes, |ns|) && NodesOwnedBelow(ns, 4)
      requires Hands() == Apply(h0, TileGains(tile, ns, j))
      modifies (players[0] as Player)`resourceCards, (players[1] as Player)`resourceCards,
        (players[2] as Player)`resourceCards, (players[3] as Player)`resourceCards
      ensures Seated(players)
      ensures Hands() == Apply(h0, TileGains(tile, ns, j + 1))
    {
      ProduceNode(tile, ns[tile.adjacentNodes[j]].building);
      TileStep(h0, tile, ns, j);
    }

    /** Credits the production of every tile of ts whose chit equals the roll, tile by tile. */
    method ProduceTiles(ts: seq<Tile>, ns: seq<Node>, roll: nat)
      requires Seated(players) && NodesInRange(ts, |ns|) && NodesOwnedBelow(ns, 4)
      modifies (players[0] as Player)`resourceCards, (players[1] as Player)`resourceCards,
        (players[2] as Player)`resourceCards, (players[3] as Player)`resourceCards
      ensures Seated(players)
      ensures Hands() == Apply(old(Hands()), RollGains(ts, ns, roll, |ts|))
    {
      ghost var h0 := Hands();
      var i := 0;
      while i < |ts|
        invariant 0 <= i <= |ts|
        invariant Seated(players)
        invariant Hands() == Apply(h0, RollGains(ts, ns, roll, i))
      {
        ProduceIfRolled(ts, ns, roll, i, h0);
        i := i + 1;
      }
    }

    /** Credits tile i when its chit is the roll: the credits for tiles below i become those for tiles up to i. */
    method ProduceIfRolled(ts: seq<Tile>, ns: seq<Node>, roll: nat, i: nat, ghost h0: seq<Hand>)
      requires Seated(players) && i < |ts| && NodesInRange(ts, |ns|) && NodesOwnedBelow(ns, 4)
      requires Hands() == Apply(h0, RollGains(ts, ns, roll, i))
      modifies (players[0] as Player)`resourceCards, (players[1] as Player)`resourceCards,
        (players[2] as Player)`resourceCards, (players[3] as Player)`resourceCards
      ensures Seated(players)
      ensures Hands() == Apply(h0, RollGains(ts, ns, roll, i + 1))
    {
      RollStep(h0, ts, ns, roll, i);
      if ts[i].chit == roll {
        ProduceTile(ts[i], ns);
      }
    }

    /**
     * Credits what a roll produces. Tiles and nodes are only read while the
     * hands change, so the loop reads a copy of them.
     */
    method ProduceDiceRoll(roll: nat)
      requires Valid()
      modifies (players[0] as Player)`resourceCards, (players[1] as Player)`resourceCards,
        (players[2] as Player)`resourceCards, (players[3] as Player)`resourceCards
      ensures Valid()
      ensures Hands() == Apply(old(Hands()), RollGains(old(board.tiles[..]), old(board.nodes[..]), roll, TileCount))
      ensures State() == old(State()).(hands := Hands())
    {
      var ts := board.tiles[..];
      var ns := board.nodes[..];
      BoardInRange();
      ProduceTiles(ts, ns, roll);
    }

    /** The tiles name nodes of the board, and every building on a node belongs to a seat. */
    lemma BoardInRange()
      requires Sound()
      ensures NodesInRange(board.tiles[..], |board.nodes[..]|) && NodesOwnedBelow(board.nodes[..], 4)
    {
    }

    /** Every node around tile t holds a building. */
    ghost predicate Surrounded(t: nat)
      reads players, board, board.nodes, board.edges, board.tiles, bank
      requires Sound() && t < TileCount
    {
      forall m :: 0 <= m < |board.tiles[t].adjacentNodes| ==> HasBuilding(board.nodes[board.tiles[t].adjacentNodes[m]])
    }

    /** Some node around tile t holds a settlement or city of the victim. */
    ghost predicate VictimNear(t: nat, victim: nat)
      reads players, board, board.nodes, board.edges, board.tiles, bank
      requires Sound() && t < TileCount
    {
      exists m :: 0 <= m < |board.tiles[t].adjacentNodes| && Holds(board.nodes[board.tiles[t].adjacentNodes[m]].building, victim)
    }

    /**
     * Looks at every node around tile t for a building of the victim. A node
     * without a building makes the engine panic, reported as None.
     */
    method ScanRobberTile(t: nat, victim: nat) returns (r: Option<bool>)
      requires Sound() && t < TileCount
      ensures r.None? <==> !Surrounded(t)
      ensures r.Some? ==> (r.value <==> VictimNear(t, victim))
    {
      var adjacent := board.tiles[t].adjacentNodes;
      var found := false;
      var k := 0;
      while k < |adjacent|
        invariant 0 <= k <= |adjacent|
        invariant forall m :: 0 <= m < k ==> HasBuilding(board.nodes[adjacent[m]])
        invariant found <==> exists m :: 0 <= m < k && Holds(board.nodes[adjacent[m]].building, victim)
      {
        var node := board.nodes[adjacent[k]];
        if !HasBuilding(node) {
          return None;
        }
        match node.building.value {
          case Settlement(_, owner) =>
            found := found || owner == victim;
          case City(_, owner) =>
            found := found || owner == victim;
          case Road(_, _) =>
        }
        k := k + 1;
      }
      return Some(found);
    }

    /** Takes one card of some kind the victim holds out of their hand. */
    method TakeCard(victim: nat) returns (kind: ResourceCard)
      requires Seated(players) && victim < 4 && TotalCards(Hands()[victim]) > 0
      modifies (players[0] as Player)`resourceCards, (players[1] as Player)`resourceCards,
        (players[2] as Player)`resourceCards, (players[3] as Player)`resourceCards
      ensures Seated(players)
      ensures old(Hands())[victim][kind] > 0 && Hands() == Debited(old(Hands()), victim, kind)
    {
      kind := players[victim].StealCard();
    }

    /**
     * Moves one card of some kind the victim holds to the thief. An empty
     * hand makes the engine panic.
     */
    method StealFor(victim: nat, thief: nat) returns (outcome: Outcome)
      requires Sound() && victim < 4 && thief < 4
      modifies (players[0] as Player)`resourceCards, (players[1] as Player)`resourceCards,
        (players[2] as Player)`resourceCards, (players[3] as Player)`resourceCards
      ensures Sound()
      ensures outcome.Panicked? <==> TotalCards(old(Hands())[victim]) == 0
      ensures outcome.Panicked? ==> Hands() == old(Hands())
      ensures outcome.Done? ==> outcome.success && exists k: ResourceCard ::
        old(Hands())[victim][k] > 0 && Hands() == Moved(old(Hands()), victim, thief, k)
    {
      if TotalCards(players[victim].resourceCards) == 0 {
        return Panicked;
      }
      SumOverNonNegative(players[victim].resourceCards, Kinds);
      var stolen := TakeCard(victim);
      CreditGain(Gain(thief, stolen, 1));
      return Done(true);
    }

    /** Puts the robber on tile t; no other tile is touched. */
    method RobTile(t: nat)
      requires Sound() && t < TileCount
      modifies board.tiles
      ensures Sound()
      ensures board.tiles[..] == old(board.tiles[..])[t := old(board.tiles[t]).(hasRobber := true)]
    {
      board.tiles[t] := board.tiles[t].(hasRobber := true);
    }

    /**
     * What moving the robber does. Tile `check` must exist, be free of the
     * robber and have a settlement or city of `owner` around it, or nothing
     * happens; a node around it without a building is a panic. Otherwise the
     * robber is put on tile `robbed` and one card the victim held moves to the
     * thief; a victim that is not a seat or has an empty hand is a panic.
     */
    twostate predicate RobberMoved(check: nat, owner: nat, robbed: nat, victim: nat, thief: nat, outcome: Outcome,
                                   hands: seq<Hand>, tiles: seq<Tile>)
      requires old(Sound()) && thief < 4
    {
      if check >= TileCount || old(board.tiles[check].hasRobber) || (old(Surrounded(check)) && !old(VictimNear(check, owner))) then
        outcome == Done(false) && tiles == old(board.tiles[..]) && hands == old(Hands())
      else if !old(Surrounded(check)) then
        outcome == Panicked && tiles == old(board.tiles[..]) && hands == old(Hands())
      else
        && robbed < TileCount
        && tiles == old(board.tiles[..])[robbed := old(board.tiles[robbed]).(hasRobber := true)]
        && (outcome.Panicked? <==> victim >= 4 || TotalCards(old(Hands())[victim]) == 0)
        && (outcome.Panicked? ==> hands == old(Hands()))
        && (outcome.Done? ==> victim < 4 && outcome.success && exists k: ResourceCard ::
              old(Hands())[victim][k] > 0 && hands == Moved(old(Hands()), victim, thief, k))
    }

    /**
     * Moves the robber onto tile md[0] and steals for the player from md[1].
     * It fails on an out-of-range tile or one already holding the robber, and
     * when no settlement or city of md[1] stands around the tile; an empty
     * node around the tile or an empty hand makes the engine panic. The
     * robber is not taken off the tile it stood on.
     */
    method PlaceRobber(action: Action, playerId: nat) returns (outcome: Outcome)
      requires Valid() && playerId < 4
      modifies board.tiles, (players[0] as Player)`resourceCards, (players[1] as Player)`resourceCards,
        (players[2] as Player)`resourceCards, (players[3] as Player)`resourceCards
      ensures Valid()
      ensures RobberMoved(action.metadata[0], action.metadata[1], action.metadata[0], action.metadata[1], playerId, outcome,
                          Hands(), board.tiles[..])
      ensures State() == old(State()).(hands := Hands(), tiles := board.tiles[..])
    {
      var t, victim := action.metadata[0], action.metadata[1];
      if t >= board.tiles.Length {
        return Done(false);
      }
      if board.tiles[t].hasRobber {
        return Done(false);
      }
      var scan := ScanRobberTile(t, victim);
      if scan.None? {
        return Panicked;
      }
      if !scan.value {
        return Done(false);
      }
      OwnerOfNearIsSeated(t, victim);
      outcome := RobAndSteal(t, victim, playerId);
    }

    /** Puts the robber on tile t and moves one card from the victim to the thief. */
    method RobAndSteal(t: nat, victim: nat, thief: nat) returns (outcome: Outcome)
      requires Sound() && t < TileCount && victim < 4 && thief < 4
      modifies board.tiles, (players[0] as Player)`resourceCards, (players[1] as Player)`resourceCards,
        (players[2] as Player)`resourceCards, (players[3] as Player)`resourceCards
      ensures Sound()
      ensures board.tiles[..] == old(board.tiles[..])[t := old(board.tiles[t]).(hasRobber := true)]
      ensures outcome.Panicked? <==> TotalCards(old(Hands())[victim]) == 0
      ensures outcome.Panicked? ==> Hands() == old(Hands())
      ensures outcome.Done? ==> outcome.success && exists k: ResourceCard ::
        old(Hands())[victim][k] > 0 && Hands() == Moved(old(Hands()), victim, thief, k)
      ensures State() == old(State()).(hands := Hands(), tiles := board.tiles[..])
    {
      RobTile(t);
      outcome := StealFor(victim, thief);
    }

    /** The victim found near a tile owns a building, so it is a seat. */
    lemma OwnerOfNearIsSeated(t: nat, victim: nat)
      requires Sound() && t < TileCount && VictimNear(t, victim)
      ensures victim < 4
    {
      var m :| 0 <= m < |board.tiles[t].adjacentNodes| && Holds(board.nodes[board.tiles[t].adjacentNodes[m]].building, victim);
      assert board.tiles[t].adjacentNodes[m] < NodeCount;
    }

    /** Whether the player's hand covers the cost. */
    method CanAfford(playerId: nat, cost: Request) returns (r: bool)
      requires Sound() && playerId < 4
      ensures r == Covers(Hands()[playerId], cost)
      ensures State() == old(State())
    {
      r := players[playerId].HasResourceCards(cost);
    }

    /** Takes the cost out of the player's hand; the player holds it. */
    method Pay(playerId: nat, cost: Request)
      requires Sound() && playerId < 4 && Covers(Hands()[playerId], cost)
      modifies (players[0] as Player)`resourceCards, (players[1] as Player)`resourceCards,
        (players[2] as Player)`resourceCards, (players[3] as Player)`resourceCards
      ensures Sound()
      ensures Hands() == old(Hands())[playerId := Deduct(old(Hands())[playerId], cost)]
      ensures State() == old(State()).(hands := Hands())
    {
      var paid := players[playerId].RemoveCardsFromHand(cost);
    }

    /**
     * A city of the player to move on node md[0] is built exactly when the
     * node exists, the payer covers the price and the node is empty or holds
     * a settlement; the payer is charged, and an empty node stays empty.
     */
    twostate predicate CityBuilt(action: Action, playerId: nat, ok: bool)
      requires old(Valid()) && Sound() && playerId < 4
      reads this, players, board, board.nodes, board.edges, board.tiles, bank
    {
      var p := action.metadata[0];
      && ok == (p < NodeCount && Covers(old(Hands())[playerId], CityCost) &&
                (old(board.nodes[p].building).None? || old(board.nodes[p].building.value).Settlement?))
      && Hands() == (if ok then old(Hands())[playerId := Deduct(old(Hands())[playerId], CityCost)] else old(Hands()))
      && board.nodes[..] == (if ok && old(HasBuilding(board.nodes[p]))
                             then SetNode(old(board.nodes[..]), p, Some(City(p, old(currentPlayerId))))
                             else old(board.nodes[..]))
    }

    /**
     * Builds a city of the player to move on node md[0], paid by playerId.
     * A settlement of any owner is replaced; an empty node is reported as
     * built, is charged for, and stays empty.
     */
    method PlayCity(action: Action, playerId: nat) returns (ok: bool)
      requires Valid() && playerId < 4
      modifies board.nodes, (players[0] as Player)`resourceCards, (players[1] as Player)`resourceCards,
        (players[2] as Player)`resourceCards, (players[3] as Player)`resourceCards
      ensures Valid()
      ensures CityBuilt(action, playerId, ok)
      ensures State() == old(State()).(hands := Hands(), nodes := board.nodes[..])
    {
      var p := action.metadata[0];
      if p >= board.nodes.Length {
        return false;
      }
      var has := CanAfford(playerId, CityCost);
      if !has {
        return false;
      }
      ok := BuildCity(p, currentPlayerId, playerId);
    }

    /** Places the city of `owner` on node p and, when that succeeds, charges `payer`. */
    method BuildCity(p: nat, owner: nat, payer: nat) returns (ok: bool)
      requires Sound() && p < NodeCount && owner < 4 && payer < 4
      requires Covers(Hands()[payer], CityCost)
      modifies board.nodes, (players[0] as Player)`resourceCards, (players[1] as Player)`resourceCards,
        (players[2] as Player)`resourceCards, (players[3] as Player)`resourceCards
      ensures Sound()
      ensures ok == (old(board.nodes[p].building).None? || old(board.nodes[p].building.value).Settlement?)
      ensures Hands() == if ok then old(Hands())[payer := Deduct(old(Hands())[payer], CityCost)]
                         else old(Hands())
      ensures board.nodes[..] == if ok && old(HasBuilding(board.nodes[p]))
                                 then SetNode(old(board.nodes[..]), p, Some(City(p, owner)))
                                 else old(board.nodes[..])
      ensures State() == old(State()).(hands := Hands(), nodes := board.nodes[..])
    {
      ghost var ns := board.nodes[..];
      ok := board.PlaceCity(City(p, owner));
      if !ok {
        return false;
      }
      SetNodeOwned(ns, p, Some(City(p, owner)), 4);
      assert board.OwnersBelow(4);
      Pay(payer, CityCost);
    }

    /**
     * A settlement of the player to move on node md[0] is built exactly when
     * the node exists and is empty, the payer covers the price, no node one
     * edge away is built on and a road of the player to move touches it.
     */
    twostate predicate SettlementBuilt(action: Action, playerId: nat, ok: bool)
      requires old(Valid()) && Sound() && playerId < 4
      reads this, players, board, board.nodes, board.edges, board.tiles, bank
    {
      var p := action.metadata[0];
      && ok == (p < NodeCount && Covers(old(Hands())[playerId], SettlementCost) &&
                old(!HasBuilding(board.nodes[p]) && board.NeighboursEmpty(p) && board.RoadAt(p, currentPlayerId)))
      && Hands() == (if ok then old(Hands())[playerId := Deduct(old(Hands())[playerId], SettlementCost)] else old(Hands()))
      && board.nodes[..] == (if ok then SetNode(old(board.nodes[..]), p, Some(Settlement(p, old(currentPlayerId))))
                             else old(board.nodes[..]))
    }

    /** Builds a settlement of the player to move on node md[0], paid by playerId. */
    method PlaySettlement(action: Action, playerId: nat) returns (ok: bool)
      requires Valid() && playerId < 4
      modifies board.nodes, (players[0] as Player)`resourceCards, (players[1] as Player)`resourceCards,
        (players[2] as Player)`resourceCards, (players[3] as Player)`resourceCards
      ensures Valid()
      ensures SettlementBuilt(action, playerId, ok)
      ensures State() == old(State()).(hands := Hands(), nodes := board.nodes[..])
    {
      var p := action.metadata[0];
      if p >= board.nodes.Length {
        return false;
      }
      var has := CanAfford(playerId, SettlementCost);
      if !has {
        return false;
      }
      ok := BuildSettlement(p, currentPlayerId, playerId);
    }

    /** Places the settlement of `owner` on node p and, when that succeeds, charges `payer`. */
    method BuildSettlement(p: nat, owner: nat, payer: nat) returns (ok: bool)
      requires Sound() && p < NodeCount && owner < 4 && payer < 4
      requires Covers(Hands()[payer], SettlementCost)
      modifies board.nodes, (players[0] as Player)`resourceCards, (players[1] as Player)`resourceCards,
        (players[2] as Player)`resourceCards, (players[3] as Player)`resourceCards
      ensures Sound()
      ensures ok == old(!HasBuilding(board.nodes[p]) && board.NeighboursEmpty(p) && board.RoadAt(p, owner))
      ensures Hands() == if ok then old(Hands())[payer := Deduct(old(Hands())[payer], SettlementCost)]
                         else old(Hands())
      ensures board.nodes[..] == if ok then SetNode(old(board.nodes[..]), p, Some(Settlement(p, owner)))
                                 else old(board.nodes[..])
      ensures State() == old(State()).(hands := Hands(), nodes := board.nodes[..])
    {
      ghost var ns := board.nodes[..];
      ok := board.PlaceSettlement(Settlement(p, owner));
      if !ok {
        return false;
      }
      SetNodeOwned(ns, p, Some(Settlement(p, owner)), 4);
      assert board.OwnersBelow(4);
      Pay(payer, SettlementCost);
    }

    /**
     * A road of the player to move on edge md[0] is built exactly when the
     * edge exists and is empty, the payer covers the price and another edge
     * at one of its nodes holds a road of the player to move.
     */
    twostate predicate RoadBuilt(action: Action, playerId: nat, ok: bool)
      requires old(Valid()) && Sound() && playerId < 4
      reads this, players, board, board.nodes, board.edges, board.tiles, bank
    {
      var p := action.metadata[0];
      && ok == (p < EdgeCount && Covers(old(Hands())[playerId], RoadCost) &&
                old(!HasRoad(board.edges[p]) && board.RoadConnected(p, currentPlayerId)))
      && Hands() == (if ok then old(Hands())[playerId := Deduct(old(Hands())[playerId], RoadCost)] else old(Hands()))
      && board.edges[..] == (if ok then SetEdge(old(board.edges[..]), p, Some(Road(p, old(currentPlayerId))))
                             else old(board.edges[..]))
    }

    /** Builds a road of the player to move on edge md[0], paid by playerId. */
    method PlayRoad(action: Action, playerId: nat) returns (ok: bool)
      requires Valid() && playerId < 4
      modifies board.edges, (players[0] as Player)`resourceCards, (players[1] as Player)`resourceCards,
        (players[2] as Player)`resourceCards, (players[3] as Player)`resourceCards
      ensures Valid()
      ensures RoadBuilt(action, playerId, ok)
      ensures State() == old(State()).(hands := Hands(), edges := board.edges[..])
    {
      var p := action.metadata[0];
      if p >= board.edges.Length {
        return false;
      }
      var has := CanAfford(playerId, RoadCost);
      if !has {
        return false;
      }
      assert board.RoadConnected(p, currentPlayerId) == old(board.RoadConnected(p, currentPlayerId));
      ok := BuildRoad(p, currentPlayerId, playerId);
    }

    /** Places the road of `owner` on edge p and, when that succeeds, charges `payer`. */
    method BuildRoad(p: nat, owner: nat, payer: nat) returns (ok: bool)
      requires Sound() && p < EdgeCount && owner < 4 && payer < 4
      requires Covers(Hands()[payer], RoadCost)
      modifies board.edges, (players[0] as Player)`resourceCards, (players[1] as Player)`resourceCards,
        (players[2] as Player)`resourceCards, (players[3] as Player)`resourceCards
      ensures Sound()
      ensures ok == old(!HasRoad(board.edges[p]) && board.RoadConnected(p, owner))
      ensures Hands() == if ok then old(Hands())[payer := Deduct(old(Hands())[payer], RoadCost)]
                         else old(Hands())
      ensures board.edges[..] == if ok then SetEdge(old(board.edges[..]), p, Some(Road(p, owner)))
                                 else old(board.edges[..])
      ensures State() == old(State()).(hands := Hands(), edges := board.edges[..])
    {
      ghost var es := board.edges[..];
      var placed, _ := board.PlaceRoad(Road(p, owner));
      if !placed {
        return false;
      }
      SetEdgeOwned(es, p, Some(Road(p, owner)), 4);
      assert board.OwnersBelow(4);
      Pay(payer, RoadCost);
      return true;
    }

    /**
     * The knight. Tile md[1] is checked, as for the robber, for a settlement or
     * city of md[2]; the robber is then put on tile md[0], which is tile 0 since
     * md[0] selected the knight, and the card is stolen from the seat md[1].
     * A tile number that is not a seat makes the engine panic.
     */
    method PlayKnight(action: Action, playerId: nat) returns (outcome: Outcome)
      requires Sound() && playerId < 4 && action.metadata[0] == 0
      modifies board.tiles, (players[0] as Player)`resourceCards, (players[1] as Player)`resourceCards,
        (players[2] as Player)`resourceCards, (players[3] as Player)`resourceCards
      ensures Sound()
      ensures RobberMoved(action.metadata[1], action.metadata[2], action.metadata[0], action.metadata[1], playerId, outcome,
                          Hands(), board.tiles[..])
      ensures State() == old(State()).(hands := Hands(), tiles := board.tiles[..])
    {
      var t, owner := action.metadata[1], action.metadata[2];
      if t >= board.tiles.Length {
        return Done(false);
      }
      if board.tiles[t].hasRobber {
        return Done(false);
      }
      var scan := ScanRobberTile(t, owner);
      if scan.None? {
        return Panicked;
      }
      if !scan.value {
        return Done(false);
      }
      if t >= |players| {
        RobTile(action.metadata[0]);
        return Panicked;
      }
      outcome := RobAndSteal(action.metadata[0], t, playerId);
    }

    /** The number of cards of `kind` the other players hold, counted on copies of them. */
    method CountOthers(kind: ResourceCard, playerId: nat) returns (total: nat)
      requires Seated(players)
      ensures total == OthersTotal(Hands(), playerId, kind, 4)
    {
      ghost var hs := Hands();
      assert forall p :: 0 <= p < |hs| ==> FullHand(hs[p]) && NonNegative(hs[p]);
      total := 0;
      var i := 0;
      while i < |players|
        invariant 0 <= i <= 4
        invariant total == OthersTotal(hs, playerId, kind, i)
      {
        var amount := TakeAllFromCopy(i, kind, playerId, hs);
        total := total + amount;
        i := i + 1;
      }
    }

    /** Empties `kind` on a copy of seat i, skipping the player themself; the seat keeps its cards. */
    method TakeAllFromCopy(i: nat, kind: ResourceCard, playerId: nat, ghost hs: seq<Hand>) returns (amount: nat)
      requires Seated(players) && i < 4 && hs == Hands()
      ensures amount == if i == playerId then 0 else hs[i][kind]
    {
      var player := new Player.Clone(players[i]);
      if player.id == playerId {
        return 0;
      }
      amount := player.RemoveAllResourcesFromHand(kind);
    }

    /**
     * Monopoly succeeds exactly when md[1] names a kind; the player then gains
     * as many cards of that kind as the others held, and no one loses any.
     */
    twostate predicate MonopolyPlayed(action: Action, playerId: nat, ok: bool, hands: seq<Hand>)
      requires old(Sound()) && playerId < 4
    {
      && ok == (action.metadata[1] < 5)
      && hands == (if ok then Credited(old(Hands()), Gain(playerId, Kinds[action.metadata[1]],
                                                            OthersTotal(old(Hands()), playerId, Kinds[action.metadata[1]], 4)))
                     else old(Hands()))
    }

    /**
     * Monopoly on the kind md[1]: the player gains as many cards of it as the
     * others hold. The others' cards are taken from copies, so they keep them.
     */
    method PlayMonopoly(action: Action, playerId: nat) returns (ok: bool)
      requires Sound() && playerId < 4
      modifies (players[0] as Player)`resourceCards, (players[1] as Player)`resourceCards,
        (players[2] as Player)`resourceCards, (players[3] as Player)`resourceCards
      ensures Sound()
      ensures MonopolyPlayed(action, playerId, ok, Hands())
      ensures State() == old(State()).(hands := Hands())
    {
      if action.metadata[1] >= 5 {
        return false;
      }
      var kind := ResourceOfIndex(action.metadata[1]);
      var total := CountOthers(kind, playerId);
      CreditGain(Gain(playerId, kind, total));
      return true;
    }

    /**
     * Road building succeeds exactly when edges md[1] and md[2] are two
     * different empty edges, the first next to a road of the player and the
     * second next to one or to the first; both roads are then on the board.
     */
    twostate predicate RoadBuildingPlayed(action: Action, playerId: nat, ok: bool, edges: seq<Edge>)
      requires old(Sound())
    {
      var a, b := action.metadata[1], action.metadata[2];
      && ok == (a < EdgeCount && b < EdgeCount && a != b &&
                old(!HasRoad(board.edges[a]) && board.RoadConnected(a, playerId) && !HasRoad(board.edges[b]) &&
                    (board.RoadConnected(b, playerId) || board.Adjoins(b, a))))
      && edges == (if ok then SetEdge(SetEdge(old(board.edges[..]), a, Some(Road(a, playerId))), b, Some(Road(b, playerId)))
                             else old(board.edges[..]))
    }

    /**
     * Road building: roads of the player on edges md[1] and md[2], each placed
     * as an ordinary road. If either fails, each road whose edge was not
     * already occupied is cleared, which leaves the edges as they were.
     */
    method PlayRoadBuilding(action: Action, playerId: nat) returns (ok: bool)
      requires Sound() && playerId < 4
      modifies board.edges
      ensures Sound()
      ensures RoadBuildingPlayed(action, playerId, ok, board.edges[..])
      ensures State() == old(State()).(edges := board.edges[..])
    {
      var a, b := action.metadata[1], action.metadata[2];
      if a >= board.edges.Length || b >= board.edges.Length {
        return false;
      }
      var road1, road2 := Road(a, playerId), Road(b, playerId);
      ghost var e0 := board.edges[..];
      var placed1, already1 := PlaceFirstRoad(road1, b);
      ghost var e1 := board.edges[..];
      var placed2, already2 := board.PlaceRoad(road2);
      if !placed1 || !placed2 {
        UndoRoads(road1, road2, already1, already2, e0, e1);
        return false;
      }
      SetEdgeOwned(e0, a, Some(road1), 4);
      SetEdgeOwned(e1, b, Some(road2), 4);
      assert board.OwnersBelow(4);
      return true;
    }

    /**
     * Places the first road of road building. Once it is placed, edge b is
     * connected to a road of the owner exactly when it was before or it
     * shares a node with the new road.
     */
    method PlaceFirstRoad(road: Building, b: nat) returns (placed: bool, occupied: bool)
      requires Sound() && road.Road? && road.pos < EdgeCount && road.owner < 4 && b < EdgeCount
      modifies board.edges
      ensures Sound()
      ensures occupied == HasRoad(old(board.edges[road.pos]))
      ensures placed == (!occupied && old(board.RoadConnected(road.pos, road.owner)))
      ensures board.edges[..] == if placed then SetEdge(old(board.edges[..]), road.pos, Some(road)) else old(board.edges[..])
      ensures placed ==>
        (board.RoadConnected(b, road.owner) <==> old(board.RoadConnected(b, road.owner)) || old(board.Adjoins(b, road.pos)))
      ensures State() == old(State()).(edges := board.edges[..])
    {
      ghost var e0 := board.edges[..];
      board.ConnectedByTable(b, road.owner);
      board.AdjoinsByTable(b, road.pos);
      placed, occupied := board.PlaceRoad(road);
      board.ConnectedByTable(b, road.owner);
      if placed {
        PlacedRoadConnects(board.topology, e0, road.pos, b, road.owner);
        SetEdgeOwned(e0, road.pos, Some(road), 4);
      }
    }

    /**
     * Clears road1's edge unless it was already occupied, then road2's. When
     * the two placements before it did not both succeed, this gives back the
     * edges e0 they started from.
     */
    method UndoRoads(road1: Building, road2: Building, already1: bool, already2: bool, ghost e0: seq<Edge>, ghost e1: seq<Edge>)
      requires Sound() && road1.Road? && road2.Road? && road1.pos < EdgeCount && road2.pos < EdgeCount
      requires |e0| == EdgeCount && |e1| == EdgeCount && EdgesOwnedBelow(e0, 4)
      requires already1 == HasRoad(e0[road1.pos]) && already2 == HasRoad(e1[road2.pos])
      requires e1 == e0 || (!already1 && e1 == SetEdge(e0, road1.pos, Some(road1)))
      requires board.edges[..] == e1 || (!already2 && board.edges[..] == SetEdge(e1, road2.pos, Some(road2)))
      requires e1 == e0 || board.edges[..] == e1
      modifies board.edges
      ensures Sound()
      ensures board.edges[..] == e0
    {
      if !already1 {
        var _ := board.RemoveRoad(road1);
      }
      if !already2 {
        var _ := board.RemoveRoad(road2);
      }
      forall i | 0 <= i < EdgeCount
        ensures board.edges[i] == e0[i]
      {
      }
      assert board.edges[..] == e0;
    }

    /**
     * Year of plenty succeeds exactly when md[1] and md[2] name kinds; the
     * player then gains one card of each.
     */
    twostate predicate YearOfPlentyPlayed(action: Action, playerId: nat, ok: bool, hands: seq<Hand>)
      requires old(Sound()) && playerId < 4
    {
      && ok == (action.metadata[1] < 5 && action.metadata[2] < 5)
      && hands == (if ok then Credited(Credited(old(Hands()), Gain(playerId, Kinds[action.metadata[1]], 1)),
                                         Gain(playerId, Kinds[action.metadata[2]], 1))
                     else old(Hands()))
    }

    /** Year of plenty: one card of kind md[1] and one of kind md[2]. */
    method PlayYearOfPlenty(action: Action, playerId: nat) returns (ok: bool)
      requires Sound() && playerId < 4
      modifies (players[0] as Player)`resourceCards, (players[1] as Player)`resourceCards,
        (players[2] as Player)`resourceCards, (players[3] as Player)`resourceCards
      ensures Sound()
      ensures YearOfPlentyPlayed(action, playerId, ok, Hands())
      ensures State() == old(State()).(hands := Hands())
    {
      if action.metadata[1] >= 5 || action.metadata[2] >= 5 {
        return false;
      }
      CreditGain(Gain(playerId, ResourceOfIndex(action.metadata[1]), 1));
      ghost var s1 := State();
      assert s1 == old(State()).(hands := Hands());
      CreditGain(Gain(playerId, ResourceOfIndex(action.metadata[2]), 1));
      assert State() == s1.(hands := Hands());
      return true;
    }

    /**
     * What the card coded by md[0] does: 0 the knight, robbing tile md[0] for
     * the check made on tile md[1] and seat md[2] and stealing from seat md[1];
     * 1 monopoly; 2 road building; 4 year of plenty; any other code fails.
     * Each card touches only what it is about, and a failure leaves hands,
     * tiles and edges as they were.
     */
    twostate predicate DevelopmentEffect(action: Action, playerId: nat, outcome: Outcome,
                                         hands: seq<Hand>, tiles: seq<Tile>, edges: seq<Edge>)
      requires old(Sound()) && playerId < 4
    {
      var tag := action.metadata[0];
      && (outcome == Done(false) ==>
            hands == old(Hands()) && tiles == old(board.tiles[..]) && edges == old(board.edges[..]))
      && (outcome.Panicked? ==> tag == 0)
      && (tag == 0 ==>
            RobberMoved(action.metadata[1], action.metadata[2], tag, action.metadata[1], playerId, outcome, hands, tiles)
            && edges == old(board.edges[..]))
      && (tag == 1 ==>
            outcome.Done? && MonopolyPlayed(action, playerId, outcome.success, hands)
            && tiles == old(board.tiles[..]) && edges == old(board.edges[..]))
      && (tag == 2 ==>
            outcome.Done? && RoadBuildingPlayed(action, playerId, outcome.success, edges)
            && hands == old(Hands()) && tiles == old(board.tiles[..]))
      && (tag == 4 ==>
            outcome.Done? && YearOfPlentyPlayed(action, playerId, outcome.success, hands)
            && tiles == old(board.tiles[..]) && edges == old(board.edges[..]))
      && (tag !in {0, 1, 2, 4} ==> outcome == Done(false))
    }

    /**
     * Carries out the card coded by md[0]: 0 the knight, 1 monopoly, 2 road
     * building, 4 year of plenty. Code 3, the victory point, and any other
     * code do nothing and fail. A failed card leaves hands, tiles and edges
     * as they were.
     */
    method HandleDevelopmentCard(action: Action, playerId: nat) returns (outcome: Outcome)
      requires Sound() && playerId < 4
      modifies board.tiles, board.edges, (players[0] as Player)`resourceCards, (players[1] as Player)`resourceCards,
        (players[2] as Player)`resourceCards, (players[3] as Player)`resourceCards
      ensures Sound()
      ensures DevelopmentEffect(action, playerId, outcome, Hands(), board.tiles[..], board.edges[..])
      ensures State() == old(State()).(hands := Hands(), tiles := board.tiles[..], edges := board.edges[..])
    {
      var ok := false;
      match action.metadata[0] {
        case 0 =>
          outcome := PlayKnight(action, playerId);
          return;
        case 1 =>
          ok := PlayMonopoly(action, playerId);
        case 2 =>
          ok := PlayRoadBuilding(action, playerId);
        case 3 =>
          ok := false;
        case 4 =>
          ok := PlayYearOfPlenty(action, playerId);
        case _ =>
          ok := false;
      }
      outcome := Done(ok);
    }

    /**
     * Playing the card coded by md[0]: a code above 5, a victory point or a
     * card the player does not hold fails and changes nothing. Otherwise the
     * card takes its effect, and the player gives it up exactly when that
     * succeeds.
     */
    twostate predicate DevelopmentCardPlayed(action: Action, playerId: nat, outcome: Outcome,
                                             hands: seq<Hand>, tiles: seq<Tile>, edges: seq<Edge>,
                                             cards: map<DevelopmentCard, int>)
      requires old(Sound()) && playerId < 4
    {
      var card := DevelopmentCards.CardOfTag(action.metadata[0]);
      var held := old(players[playerId].developmentCards);
      if action.metadata[0] > 5 || card == VictoryPoint || held[card] <= 0 then
        && outcome == Done(false) && cards == held
        && hands == old(Hands()) && tiles == old(board.tiles[..]) && edges == old(board.edges[..])
      else
        && DevelopmentEffect(action, playerId, outcome, hands, tiles, edges)
        && cards == Spent(held, card, outcome)
    }

    /**
     * Plays the card coded by md[0], codes above 4 reading as a victory point,
     * when the player holds one. Victory points cannot be played. One card is
     * given up only once its effect has succeeded; a failure changes nothing.
     */
    method PlayDevelopmentCard(action: Action, playerId: nat) returns (outcome: Outcome)
      requires Sound() && playerId < 4
      modifies board.tiles, board.edges, (players[0] as Player)`resourceCards, (players[1] as Player)`resourceCards,
        (players[2] as Player)`resourceCards, (players[3] as Player)`resourceCards,
        (players[playerId] as Player)`developmentCards
      ensures Sound()
      ensures DevelopmentCardPlayed(action, playerId, outcome, Hands(), board.tiles[..], board.edges[..],
                                    players[playerId].developmentCards)
      ensures State() == old(State()).(hands := Hands(), tiles := board.tiles[..], edges := board.edges[..],
                                       developmentHands := old(State()).developmentHands[playerId := players[playerId].developmentCards])
    {
      if action.metadata[0] > 5 {
        return Done(false);
      }
      var card := DevelopmentCards.CardOfTag(action.metadata[0]);
      if card == VictoryPoint {
        return Done(false);
      }
      if !players[playerId].HasDevelopmentCard(card) {
        return Done(false);
      }
      outcome := PlayHeld(action, playerId, card);
    }

    /** Plays a held card and, once its effect has succeeded, gives it up. */
    method PlayHeld(action: Action, playerId: nat, card: DevelopmentCard) returns (outcome: Outcome)
      requires Sound() && playerId < 4 && card == DevelopmentCards.CardOfTag(action.metadata[0])
      modifies board.tiles, board.edges, (players[0] as Player)`resourceCards, (players[1] as Player)`resourceCards,
        (players[2] as Player)`resourceCards, (players[3] as Player)`resourceCards,
        (players[playerId] as Player)`developmentCards
      ensures Sound()
      ensures DevelopmentEffect(action, playerId, outcome, Hands(), board.tiles[..], board.edges[..])
      ensures players[playerId].developmentCards == Spent(old(players[playerId].developmentCards), card, outcome)
      ensures State() == old(State()).(hands := Hands(), tiles := board.tiles[..], edges := board.edges[..],
                                       developmentHands := old(State()).developmentHands[playerId := players[playerId].developmentCards])
    {
      outcome := HandleDevelopmentCard(action, playerId);
      GiveUpCard(playerId, card, outcome);
    }

    /** The player gives up one card of the kind; nothing else changes. */
    method GiveUpCard(playerId: nat, card: DevelopmentCard, outcome: Outcome)
      requires Sound() && playerId < 4
      modifies (players[playerId] as Player)`developmentCards
      ensures Sound()
      ensures Hands() == old(Hands()) && board.tiles[..] == old(board.tiles[..]) && board.edges[..] == old(board.edges[..])
      ensures players[playerId].developmentCards == Spent(old(players[playerId].developmentCards), card, outcome)
      ensures State() == old(State()).(developmentHands := old(State()).developmentHands[playerId := players[playerId].developmentCards])
    {
      if outcome == Done(true) {
        players[playerId].RemoveDevelopmentCard(card);
      }
    }

    /**
     * The dice roll once a turn: the sum is recorded and, unless it is 7,
     * every tile whose chit is the sum produces for the buildings around it.
     */
    twostate predicate DiceRolled(d1: nat, d2: nat, ok: bool)
      requires old(Sound()) && Sound()
      reads this, players, board, board.nodes, board.edges, board.tiles, bank
    {
      && ok == !old(rolledDiceThisTurn) && rolledDiceThisTurn
      && previousDiceRoll == (if ok then d1 + d2 else old(previousDiceRoll))
      && Hands() == (if ok && d1 + d2 != 7
                     then Apply(old(Hands()), RollGains(old(board.tiles[..]), old(board.nodes[..]), d1 + d2, TileCount))
                     else old(Hands()))
    }

    /**
     * Rolls the dice once a turn: each die is a number from 1 to 5, the range
     * the engine draws from. The sum is recorded and, unless it is 7, every
     * tile with that chit produces. The dice are parameters here.
     */
    method RollDice(d1: nat, d2: nat) returns (ok: bool)
      requires Valid() && 1 <= d1 <= 5 && 1 <= d2 <= 5
      modifies this`previousDiceRoll, this`rolledDiceThisTurn,
        (players[0] as Player)`resourceCards, (players[1] as Player)`resourceCards,
        (players[2] as Player)`resourceCards, (players[3] as Player)`resourceCards
      ensures Valid()
      ensures DiceRolled(d1, d2, ok)
      ensures State() == old(State()).(hands := Hands(), rolledDiceThisTurn := rolledDiceThisTurn,
                                       previousDiceRoll := previousDiceRoll)
    {
      if rolledDiceThisTurn {
        return false;
      }
      RecordRoll(d1 + d2);
      if previousDiceRoll == 7 {
        return true;
      }
      ProduceDiceRoll(previousDiceRoll);
      return true;
    }

    /** Records the sum of the dice and that they were rolled this turn. */
    method RecordRoll(sum: nat)
      requires Valid() && sum <= 10
      modifies this`previousDiceRoll, this`rolledDiceThisTurn
      ensures Valid()
      ensures previousDiceRoll == sum && rolledDiceThisTurn && Hands() == old(Hands())
      ensures State() == old(State()).(rolledDiceThisTurn := true, previousDiceRoll := sum)
    {
      previousDiceRoll := sum;
      rolledDiceThisTurn := true;
    }

    /** Rolls the dice as an action; since no tile produces, no hand changes. */
    method RollForTurn(d1: nat, d2: nat) returns (outcome: Outcome)
      requires Valid() && 1 <= d1 <= 5 && 1 <= d2 <= 5
      modifies this`previousDiceRoll, this`rolledDiceThisTurn,
        (players[0] as Player)`resourceCards, (players[1] as Player)`resourceCards,
        (players[2] as Player)`resourceCards, (players[3] as Player)`resourceCards
      ensures Valid()
      ensures outcome.Done? && DiceRolled(d1, d2, outcome.success)
      ensures outcome == Done(!old(rolledDiceThisTurn)) && Hands() == old(Hands())
      ensures State() == old(State()).(rolledDiceThisTurn := rolledDiceThisTurn, previousDiceRoll := previousDiceRoll)
    {
      RollYieldsNothing(d1 + d2);
      var ok := RollDice(d1, d2);
      outcome := Done(ok);
    }

    /**
     * No tile of a valid board has a chit other than the 0 it was built with,
     * so no roll of two dice produces anything.
     */
    lemma RollYieldsNothing(roll: nat)
      requires Sound() && 2 <= roll
      ensures RollGains(board.tiles[..], board.nodes[..], roll, TileCount) == []
    {
      BoardInRange();
      OffChitYieldsNothing(board.tiles[..], board.nodes[..], roll, TileCount);
    }

    /** Takes the cost out of the payer's hand when it is covered, and otherwise changes nothing. */
    method TryPay(payer: nat, cost: Request) returns (ok: bool)
      requires Sound() && payer < 4
      modifies (players[0] as Player)`resourceCards, (players[1] as Player)`resourceCards,
        (players[2] as Player)`resourceCards, (players[3] as Player)`resourceCards
      ensures Sound()
      ensures ok == Covers(old(Hands())[payer], cost)
      ensures Hands() == if ok then old(Hands())[payer := Deduct(old(Hands())[payer], cost)] else old(Hands())
    {
      ok := players[payer].RemoveCardsFromHand(cost);
    }

    /** Hands back a payment just taken, which restores the hand. */
    method Refund(payer: nat, cost: Request, ghost before: Hand)
      requires Sound() && payer < 4 && Hands()[payer] == Deduct(before, cost)
      modifies (players[0] as Player)`resourceCards, (players[1] as Player)`resourceCards,
        (players[2] as Player)`resourceCards, (players[3] as Player)`resourceCards
      ensures Sound()
      ensures Hands() == old(Hands())[payer := before]
    {
      DeductThenCredit(before, cost);
      players[payer].AddResourceCards(cost);
    }

    /**
     * The offerer pays what they offered, then the chosen seat pays what was
     * asked; if the second payment fails the first is handed back. Neither
     * side receives what the other paid.
     */
    method SettleTrade(offerer: nat, partner: nat, offer: TradeOffer) returns (ok: bool)
      requires Sound() && offerer < 4 && partner < 4
      modifies (players[0] as Player)`resourceCards, (players[1] as Player)`resourceCards,
        (players[2] as Player)`resourceCards, (players[3] as Player)`resourceCards
      ensures Sound()
      ensures var h := old(Hands());
        var paid := h[offerer := Deduct(h[offerer], offer.givingResources)];
        && ok == (Covers(h[offerer], offer.givingResources) && Covers(paid[partner], offer.receivingResources))
        && Hands() == if ok then paid[partner := Deduct(paid[partner], offer.receivingResources)] else h
    {
      ghost var before := Hands()[offerer];
      var paid := TryPay(offerer, offer.givingResources);
      if !paid {
        return false;
      }
      var taken := TryPay(partner, offer.receivingResources);
      if !taken {
        Refund(offerer, offer.givingResources, before);
        return false;
      }
      return true;
    }

    /**
     * Accepting the open offer. A seat other than the offerer that holds what
     * is asked is recorded as accepting, under its own number, and the turn
     * passes on; the offerer then settles with the seat md[0], which must have
     * been recorded. Seat 0 is recorded as 0, the mark of a seat that has not
     * accepted, so the offerer can never settle with seat 0. A seat number
     * above 3 makes the engine panic.
     */
    method AcceptTrade(action: Action, playerId: nat) returns (outcome: Outcome)
      requires Valid() && playerId < 4
      modifies this`currentPlayerId, this`playersAcceptedTradeOffer,
        (players[0] as Player)`resourceCards, (players[1] as Player)`resourceCards,
        (players[2] as Player)`resourceCards, (players[3] as Player)`resourceCards
      ensures Valid()
      ensures old(currentTradeOffer).None? || !Covers(old(Hands())[playerId], old(currentTradeOffer).value.receivingResources) ==>
        outcome == Done(false) && State() == old(State())
      ensures old(currentTradeOffer).Some? && Covers(old(Hands())[playerId], old(currentTradeOffer).value.receivingResources) ==>
        var offer, partner := old(currentTradeOffer).value, action.metadata[0];
        if offer.playerOffererId != playerId then
          && outcome == Done(true) && Hands() == old(Hands())
          && currentPlayerId == (old(currentPlayerId) + 1) % 4
          && playersAcceptedTradeOffer == old(playersAcceptedTradeOffer)[playerId := playerId]
        else if partner >= 4 then
          outcome == Panicked && State() == old(State())
        else if old(playersAcceptedTradeOffer)[partner] == 0 then
          outcome == Done(false) && State() == old(State())
        else
          var h := old(Hands());
          var paid := h[playerId := Deduct(h[playerId], offer.givingResources)];
          && currentPlayerId == old(currentPlayerId) && playersAcceptedTradeOffer == old(playersAcceptedTradeOffer)
          && outcome.Done?
          && outcome.success == (Covers(h[playerId], offer.givingResources) && Covers(paid[partner], offer.receivingResources))
          && Hands() == if outcome.success then paid[partner := Deduct(paid[partner], offer.receivingResources)] else h
    {
      if currentTradeOffer.None? {
        return Done(false);
      }
      var offer := currentTradeOffer.value;
      var has := players[playerId].HasResourceCards(offer.receivingResources);
      if !has {
        return Done(false);
      }
      if offer.playerOffererId != playerId {
        currentPlayerId := (currentPlayerId + 1) % 4;
        playersAcceptedTradeOffer := playersAcceptedTradeOffer[playerId := playerId];
        return Done(true);
      }
      var partner := action.metadata[0];
      if partner >= |playersAcceptedTradeOffer| {
        return Panicked;
      }
      if playersAcceptedTradeOffer[partner] == 0 {
        return Done(false);
      }
      var ok := SettleTrade(playerId, partner, offer);
      return Done(ok);
    }

    /**
     * A setup move. A settlement of the player on node md[0] is placed without
     * needing a road and, when placed, counts one more turn. A road request is
     * passed to the board as a settlement, which it never places as a road.
     */
    method HandleInitialTurn(action: Action, playerId: nat) returns (ok: bool)
      requires Valid() && playerId < 4
      modifies this`turnNumber, this`currentPlayerId, board.nodes, board.edges
      ensures Valid()
      ensures ok == (action.actionType.PlaySettlement? && action.metadata[0] < NodeCount &&
                     old(!HasBuilding(board.nodes[action.metadata[0]]) && board.NeighboursEmpty(action.metadata[0])))
      ensures turnNumber == old(turnNumber) + if ok then 1 else 0
      ensures currentPlayerId == old(currentPlayerId)
      ensures board.nodes[..] == if ok then SetNode(old(board.nodes[..]), action.metadata[0], Some(Settlement(action.metadata[0], playerId)))
                                 else old(board.nodes[..])
      ensures board.edges[..] == old(board.edges[..])
      ensures State() == old(State()).(turnNumber := turnNumber, nodes := board.nodes[..])
    {
      match action.actionType {
        case PlaySettlement =>
          ok := InitialSettlement(action.metadata[0], playerId);
          if ok {
            CountTurn();
          }
        case PlayRoad =>
          var placed := board.PlaceInitialRoad(Settlement(action.metadata[0], playerId));
          if placed {
            assert false;
          }
          ok := false;
        case _ =>
          ok := false;
      }
    }

    /** A setup move, counted as a turn before it is tried. */
    method SetupTurn(action: Action, playerId: nat) returns (outcome: Outcome)
      requires Valid() && playerId < 4
      modifies this`turnNumber, this`currentPlayerId, board.nodes, board.edges
      ensures Valid()
      ensures SetupTaken(action, playerId, outcome)
    {
      CountTurn();
      var ok := HandleInitialTurn(action, playerId);
      outcome := Done(ok);
    }

    /** Counts one more turn. */
    method CountTurn()
      requires Valid()
      modifies this`turnNumber
      ensures Valid()
      ensures turnNumber == old(turnNumber) + 1 && Hands() == old(Hands())
      ensures State() == old(State()).(turnNumber := old(turnNumber) + 1)
    {
      turnNumber := turnNumber + 1;
    }

    /** Places a starting settlement of the player on node p. */
    method InitialSettlement(p: nat, playerId: nat) returns (ok: bool)
      requires Sound() && playerId < 4
      modifies board.nodes
      ensures Sound()
      ensures ok == (p < NodeCount && old(!HasBuilding(board.nodes[p]) && board.NeighboursEmpty(p)))
      ensures board.nodes[..] == if ok then SetNode(old(board.nodes[..]), p, Some(Settlement(p, playerId))) else old(board.nodes[..])
      ensures State() == old(State()).(nodes := board.nodes[..])
    {
      ghost var ns := board.nodes[..];
      ok := board.PlaceInitialSettlement(Settlement(p, playerId));
      if ok {
        SetNodeOwned(ns, p, Some(Settlement(p, playerId)), 4);
        assert board.OwnersBelow(4);
      }
    }

    /**
     * A setup move: one turn is counted, and one more when a settlement of
     * the player goes on a free node with no built neighbour. That settlement
     * is the only other change.
     */
    twostate predicate SetupTaken(action: Action, playerId: nat, outcome: Outcome)
      requires old(Valid()) && Valid() && playerId < 4
      reads this, players, board, board.nodes, board.edges, board.tiles, bank
    {
      var p := action.metadata[0];
      var ok := action.actionType.PlaySettlement? && p < NodeCount &&
                old(!HasBuilding(board.nodes[p]) && board.NeighboursEmpty(p));
      && outcome == Done(ok)
      && State() == old(State()).(turnNumber := old(turnNumber) + (if ok then 2 else 1),
                                  nodes := if ok then SetNode(old(board.nodes[..]), p, Some(Settlement(p, playerId)))
                                           else old(board.nodes[..]))
    }

    /**
     * What an action of the main phase does, by its tag, once no offer is
     * open: a trade action, a build action or a turn action.
     */
    twostate predicate ActionTaken(action: Action, playerId: nat, d1: nat, d2: nat, outcome: Outcome)
      requires old(Valid()) && Valid() && playerId < 4
      reads this, players, board, board.nodes, board.edges, board.tiles, bank
    {
      if TradeTag(action.actionType) then TradeTaken(action, playerId, outcome)
      else if BuildTag(action.actionType) then BuildTaken(action, playerId, outcome)
      else TurnTaken(action, playerId, d1, d2, outcome)
    }

    /**
     * A trade action while no offer is open: an offer is opened when the
     * player holds what is offered; accepting, declining and discarding fail
     * and change nothing.
     */
    twostate predicate TradeTaken(action: Action, playerId: nat, outcome: Outcome)
      requires old(Valid()) && Valid() && playerId < 4
      reads this, players, board, board.nodes, board.edges, board.tiles, bank
    {
      if action.actionType.OfferTrade? then
        && outcome.Done? && OfferOpened(action, playerId, outcome.success)
        && State() == old(State()).(currentTradeOffer := currentTradeOffer, currentPlayerId := currentPlayerId)
      else outcome == Done(false) && State() == old(State())
    }

    /** A build action: a city, a road or a settlement is built, or a card is drawn. */
    twostate predicate BuildTaken(action: Action, playerId: nat, outcome: Outcome)
      requires old(Valid()) && Valid() && playerId < 4
      reads this, players, board, board.nodes, board.edges, board.tiles, bank
    {
      match action.actionType
      case PlayCity =>
        && outcome.Done? && CityBuilt(action, playerId, outcome.success)
        && State() == old(State()).(hands := Hands(), nodes := board.nodes[..])
      case PlayRoad =>
        && outcome.Done? && RoadBuilt(action, playerId, outcome.success)
        && State() == old(State()).(hands := Hands(), edges := board.edges[..])
      case PlaySettlement =>
        && outcome.Done? && SettlementBuilt(action, playerId, outcome.success)
        && State() == old(State()).(hands := Hands(), nodes := board.nodes[..])
      case DrawDevelopmentCard =>
        && outcome.Done? && CardDrawn(outcome.success)
        && State() == old(State()).(drawn := bank.developmentCardPointer)
      case _ => false
    }

    /**
     * A turn action: the dice are rolled, the robber is moved, a development
     * card is played, or the turn passes to the next seat and the roll is
     * forgotten.
     */
    twostate predicate TurnTaken(action: Action, playerId: nat, d1: nat, d2: nat, outcome: Outcome)
      requires old(Valid()) && Valid() && playerId < 4
      reads this, players, board, board.nodes, board.edges, board.tiles, bank
    {
      match action.actionType
      case RollDice =>
        && outcome.Done? && DiceRolled(d1, d2, outcome.success)
        && State() == old(State()).(rolledDiceThisTurn := rolledDiceThisTurn, previousDiceRoll := previousDiceRoll)
      case PlaceRobber =>
        && RobberMoved(action.metadata[0], action.metadata[1], action.metadata[0], action.metadata[1], playerId, outcome,
                       Hands(), board.tiles[..])
        && State() == old(State()).(hands := Hands(), tiles := board.tiles[..])
      case PlayDevelopmentCard =>
        && DevelopmentCardPlayed(action, playerId, outcome, Hands(), board.tiles[..], board.edges[..],
                                 players[playerId].developmentCards)
        && State() == old(State()).(hands := Hands(), tiles := board.tiles[..], edges := board.edges[..],
                                    developmentHands := old(State()).developmentHands[playerId := players[playerId].developmentCards])
      case EndTurn =>
        && outcome == Done(true) && currentPlayerId == (old(currentPlayerId) + 1) % 4 && !rolledDiceThisTurn
        && State() == old(State()).(currentPlayerId := currentPlayerId, rolledDiceThisTurn := rolledDiceThisTurn)
      case _ => false
    }

    /**
     * One action from seat playerId. The first seven calls are setup moves,
     * each counting one turn. Afterwards the dice must be rolled before
     * anything else, and while an offer is open every action fails: the guard
     * meant to let only acceptances and refusals through rejects them too, so
     * an open offer is never closed. The dice are parameters here.
     */
    method TakeAction(action: Action, playerId: nat, d1: nat, d2: nat) returns (outcome: Outcome)
      requires Valid() && playerId < 4 && 1 <= d1 <= 5 && 1 <= d2 <= 5
      modifies this, board.nodes, board.edges, board.tiles, bank`developmentCardPointer,
        (players[0] as Player)`resourceCards, (players[1] as Player)`resourceCards,
        (players[2] as Player)`resourceCards, (players[3] as Player)`resourceCards,
        (players[playerId] as Player)`developmentCards
      ensures Valid()
      ensures old(turnNumber) < 7 ==>
        && outcome.Done? && turnNumber == old(turnNumber) + (if outcome.success then 2 else 1)
        && currentPlayerId == old(currentPlayerId) && Hands() == old(Hands())
        && (outcome.success ==> action.actionType.PlaySettlement?)
      ensures old(turnNumber) < 7 ==> SetupTaken(action, playerId, outcome)
      ensures old(turnNumber) >= 7 ==> turnNumber == old(turnNumber)
      ensures old(turnNumber) >= 7 && old(currentTradeOffer).None? && (old(rolledDiceThisTurn) || action.actionType.RollDice?) ==>
        ActionTaken(action, playerId, d1, d2, outcome)
      ensures old(turnNumber) >= 7 && (old(currentTradeOffer).Some? || (!old(rolledDiceThisTurn) && !action.actionType.RollDice?)) ==>
        outcome == Done(false) && State() == old(State())
      ensures action.actionType.AcceptTrade? || action.actionType.DeclineTrade? || action.actionType.Discard? ==>
        outcome == Done(false)
      ensures outcome.Panicked? ==>
        old(turnNumber) >= 7 && (action.actionType.PlaceRobber? || action.actionType.PlayDevelopmentCard?)
      ensures currentTradeOffer != old(currentTradeOffer) ==> action.actionType.OfferTrade? && outcome == Done(true)
    {
      if turnNumber < 7 {
        outcome := SetupTurn(action, playerId);
        return;
      }
      if !rolledDiceThisTurn && action.actionType != ActionType.RollDice {
        return Done(false);
      }
      if currentTradeOffer.Some? &&
         (action.actionType != ActionType.AcceptTrade || action.actionType != ActionType.DeclineTrade) {
        return Done(false);
      }
      outcome := Dispatch(action, playerId, d1, d2);
    }

    /**
     * The action, by its tag, once the setup is over, the dice are rolled (or
     * being rolled) and no offer is open.
     */
    method Dispatch(action: Action, playerId: nat, d1: nat, d2: nat) returns (outcome: Outcome)
      requires Valid() && playerId < 4 && 1 <= d1 <= 5 && 1 <= d2 <= 5
      requires currentTradeOffer.None? && (rolledDiceThisTurn || action.actionType.RollDice?)
      modifies this`currentPlayerId, this`currentTradeOffer, this`rolledDiceThisTurn, this`previousDiceRoll,
        this`playersAcceptedTradeOffer, board.nodes, board.edges, board.tiles, bank`developmentCardPointer,
        (players[0] as Player)`resourceCards, (players[1] as Player)`resourceCards,
        (players[2] as Player)`resourceCards, (players[3] as Player)`resourceCards,
        (players[playerId] as Player)`developmentCards
      ensures Valid()
      ensures ActionTaken(action, playerId, d1, d2, outcome)
      ensures outcome.Panicked? ==> action.actionType.PlaceRobber? || action.actionType.PlayDevelopmentCard?
      ensures currentTradeOffer.Some? ==> action.actionType.OfferTrade? && outcome == Done(true)
      ensures action.actionType.RollDice? ==> outcome == Done(!old(rolledDiceThisTurn)) && Hands() == old(Hands())
    {
      if TradeTag(action.actionType) {
        outcome := TradeAction(action, playerId);
      } else if BuildTag(action.actionType) {
        outcome := BuildAction(action, playerId);
      } else {
        outcome := TurnAction(action, playerId, d1, d2);
      }
    }

    /** Offering, accepting and declining trades, and discarding; only an offer can succeed. */
    method TradeAction(action: Action, playerId: nat) returns (outcome: Outcome)
      requires Valid() && playerId < 4 && currentTradeOffer.None?
      requires TradeTag(action.actionType)
      modifies this`currentPlayerId, this`currentTradeOffer, this`playersAcceptedTradeOffer, (players[0] as Player)`resourceCards, (players[1] as Player)`resourceCards,
        (players[2] as Player)`resourceCards, (players[3] as Player)`resourceCards
      ensures Valid() && outcome.Done?
      ensures !action.actionType.OfferTrade? ==> outcome == Done(false) && State() == old(State())
      ensures TradeTaken(action, playerId, outcome)
      ensures currentTradeOffer.Some? ==> action.actionType.OfferTrade? && outcome == Done(true)
    {
      var ok := false;
      match action.actionType {
        case AcceptTrade =>
          outcome := AcceptTrade(action, playerId);
          return;
        case DeclineTrade =>
          ok := DeclineTrade();
        case OfferTrade =>
          ok := OfferTrade(action, playerId);
        case Discard =>
          ok := Discard(action);
      }
      outcome := Done(ok);
    }

    /** Building a city, a road or a settlement, and drawing a development card. */
    method BuildAction(action: Action, playerId: nat) returns (outcome: Outcome)
      requires Valid() && playerId < 4
      requires BuildTag(action.actionType)
      modifies board.nodes, board.edges, bank`developmentCardPointer, (players[0] as Player)`resourceCards, (players[1] as Player)`resourceCards,
        (players[2] as Player)`resourceCards, (players[3] as Player)`resourceCards
      ensures Valid() && outcome.Done?
      ensures BuildTaken(action, playerId, outcome)
    {
      var ok := false;
      match action.actionType {
        case PlayCity =>
          ok := PlayCity(action, playerId);
        case PlayRoad =>
          ok := PlayRoad(action, playerId);
        case PlaySettlement =>
          ok := PlaySettlement(action, playerId);
        case DrawDevelopmentCard =>
          ok := DrawDevelopmentCard();
      }
      outcome := Done(ok);
    }

    /** Rolling the dice, moving the robber, playing a development card and ending the turn. */
    method TurnAction(action: Action, playerId: nat, d1: nat, d2: nat) returns (outcome: Outcome)
      requires Valid() && playerId < 4 && 1 <= d1 <= 5 && 1 <= d2 <= 5
      requires TurnTag(action.actionType)
      modifies this`currentPlayerId, this`rolledDiceThisTurn, this`previousDiceRoll, board.tiles, board.edges, (players[0] as Player)`resourceCards, (players[1] as Player)`resourceCards,
        (players[2] as Player)`resourceCards, (players[3] as Player)`resourceCards,
        (players[playerId] as Player)`developmentCards
      ensures Valid()
      ensures TurnTaken(action, playerId, d1, d2, outcome)
      ensures outcome.Panicked? ==> action.actionType.PlaceRobber? || action.actionType.PlayDevelopmentCard?
      ensures action.actionType.RollDice? ==> outcome == Done(!old(rolledDiceThisTurn)) && Hands() == old(Hands())
    {
      match action.actionType {
        case RollDice =>
          outcome := RollForTurn(d1, d2);
        case PlaceRobber =>
          outcome := PlaceRobber(action, playerId);
        case PlayDevelopmentCard =>
          outcome := PlayDevelopmentCard(action, playerId);
        case EndTurn =>
          var ok := EndTurn();
          outcome := Done(ok);
      }
    }
  }
}
