# Catan rules engine in Dafny

This project models the in-memory rules engine of a four-player Settlers of
Catan server (`catan-game-api/src/game/`). The engine holds four stateful
parts:

- the **board**: 54 nodes, 72 edges, 19 tiles and 9 ports, with settlements,
  cities and roads placed on nodes and edges;
- the **bank**: 19 cards of each resource and a shuffled 25-card
  development deck with a draw cursor;
- four **players**: resource and development-card hands;
- the **game**: a state machine. It runs the setup phase while the turn
  number is below 7, then the main phase, where `takeAction` dispatches on
  the twelve action types.

The model follows the code as written, including where it does not do what
its comments say. Those behaviours are stated in contracts and were not
corrected:

- Setup roads always fail, because the setup phase builds a settlement
  value for them.
- The trade-offer guard is always true, so an open offer freezes the main
  phase.
- Discard never passes its check.
- Drawing a development card only moves the bank's cursor; the price and
  the card go to a copy of the player.
- Monopoly takes the others' cards from copies, so the victims keep them.
- The knight validates md[1] and md[2], but robs tile md[0] and steals
  from player md[1].
- The old robber is never cleared.
- Build payments are not returned to the bank.
- `placeCity` on an empty node reports success and changes nothing.
- Every tile's chit is 0, so no dice roll produces anything.

Module layout, one file each:

| file | module | models |
|---|---|---|
| `types.dfy` | `Types` | resources, terrains, ports, buildings, actions, trade offers |
| `development.dfy` | `DevelopmentCards` | `value` and the tag table used when playing a card |
| `elements.dfy` | `Elements` | `Node`, `Edge`, `Tile` and their constructors and queries |
| `shuffle.dfy` | `Shuffle` | the Fisher–Yates shuffle, driven by a sequence of picks |
| `bank.dfy` | `Banks` | class `Bank` |
| `player.dfy` | `Players` | hands as maps, class `Player` |
| `board.dfy` | `Boards` | class `Board` over arrays, with the adjacency table as a parameter |
| `production.dfy` | `Production` | what a dice roll yields, as a list of gains |
| `game.dfy` | `Games` | class `Game`: `takeAction` and its helpers |

How the model is stated:

- A stateful operation is a method with a `modifies` clause. Its `ensures`
  give the new state by a function of the old one, for example
  `Hands() == Apply(old(Hands()), RollGains(...))`.
- A failing call is shown to change nothing.
- A panic in the source (an `unwrap` on an empty node or an empty hand, or
  an out-of-range index) becomes the `Panicked` outcome of the action.
- Where a panic cannot happen in a well-formed state, the model carries
  the invariant instead: edges hold only roads, and hands hold all five
  kinds.

## Model

| member | source | states |
|---|---|---|
| Types.RequestAt | catan-game-api/src/game/game.rs:188-201 | the request read from five metadata entries has all five kinds, entry i giving the count of the i-th kind in the order Ore, Wheat, Sheep, Brick, Lumber |
| Types.ResourceOfIndex | catan-game-api/src/game/game.rs:441-446 | metadata index i selects the i-th kind of that same order |
| DevelopmentCards.Value | catan-game-api/src/game/development.rs:13-21 | Knight 0, Monopoly 1, RoadBuilding 2, VictoryPoint 3, YearOfPlenty 4, each value below 5, each as an if-and-only-if |
| DevelopmentCards.ValueInjective | catan-game-api/src/game/development.rs:14-20 | different cards have different values |
| DevelopmentCards.CardOfTag | catan-game-api/src/game/game.rs:270-277 | every tag above 4 decodes as VictoryPoint |
| DevelopmentCards.DecodeValue | catan-game-api/src/game/game.rs:270-277 | decoding a card's value with the play table gives the card back |
| DevelopmentCards.ValueOfDecode | catan-game-api/src/game/development.rs:13-21 | the other direction of the round trip, for tags 0 to 4 |
| Elements.NewNode | catan-game-api/src/game/node.rs:20-27 | a new node keeps its position, has no building and has empty adjacency lists |
| Elements.HasBuilding | catan-game-api/src/game/node.rs:30-35 | true exactly when some building is there, whatever its kind |
| Elements.NewEdge | catan-game-api/src/game/edge.rs:17-23 | a new edge keeps its position, has no road and no adjacent nodes |
| Elements.HasRoad | catan-game-api/src/game/edge.rs:25-30 | true exactly when some building is there |
| Elements.HasRoadIgnoresVariant | catan-game-api/src/game/edge.rs:25-30 | any building on an edge, road or not, counts as a road; an empty edge never does |
| Elements.NewTile | catan-game-api/src/game/tile.rs:17-34 | index, terrain and chit are stored; no adjacent nodes; the robber starts on a tile exactly when it is the desert |
| Shuffle.ShuffleInPlace | catan-game-api/src/game/bank.rs:44 | the in-place swap loop leaves the array equal to the shuffle function of its old contents, and a permutation of them |
| Shuffle.ShuffledPermutes | catan-game-api/src/game/bank.rs:44 | a shuffle keeps the length and the multiset of the elements |
| Shuffle.ShuffledMap | catan-game-api/src/game/board.rs:93 | shuffling commutes with mapping a function over the elements, so the shuffled tiles' terrains are the shuffled terrains |
| Banks.DepositUndoesWithdraw | catan-game-api/src/game/bank.rs:65-85 | returning the cards just drawn restores the pool |
| Banks.UnshuffledDeckContents | catan-game-api/src/game/bank.rs:29-41 | the unshuffled deck is 13 Knight, 3 RoadBuilding, 2 YearOfPlenty, 2 Monopoly and 5 VictoryPoint |
| Banks.DealtDeck | catan-game-api/src/game/bank.rs:29-44 | the shuffled deck has 25 cards with that same multiset |
| Banks.Bank.constructor | catan-game-api/src/game/bank.rs:18-51 | 19 cards of every kind, the cursor at 0, the deck the shuffled deck |
| Banks.Bank.DrawDevelopmentCard | catan-game-api/src/game/bank.rs:54-61 | no card and no change at cursor 25; otherwise the card under the cursor, and the cursor moves up by one and stays at most 25 |
| Banks.Bank.DrawNumberOfResourceCards | catan-game-api/src/game/bank.rs:65-77 | succeeds exactly when the pool holds the amount, and only then takes it |
| Banks.Bank.ReplaceResourceCard | catan-game-api/src/game/bank.rs:80-85 | adds the amount to a kind in the pool; a missing kind is ignored |
| Banks.Bank.AmountOfResource | catan-game-api/src/game/bank.rs:87-89 | returns the stored count |
| Players.SumOverPositive | catan-game-api/src/game/player.rs:110-122 | a hand with a positive count of some kind has a positive total, so a non-empty hand always has a card to steal |
| Players.DeductKeepsNonNegative | catan-game-api/src/game/player.rs:60-71 | deducting a request the hand covers leaves every count non-negative and the set of kinds unchanged |
| Players.CreditThenDeduct | catan-game-api/src/game/player.rs:104-108 | after adding a request the hand covers it, and removing it restores the hand |
| Players.DeductThenCredit | catan-game-api/src/game/game.rs:110-113 | adding back a removed request restores the hand, as the trade refund does |
| Players.Player.constructor | catan-game-api/src/game/player.rs:26-55 | 4 cities, 5 settlements and 15 roads unplaced; every resource and card count 0; flags false; histories empty |
| Players.Player.Clone | catan-game-api/src/game/player.rs:9-23 | a copy with every field equal to the original's |
| Players.Player.HasResourceCards | catan-game-api/src/game/player.rs:80-88 | true exactly when every requested amount is at most the held count |
| Players.Player.RemoveCardsFromHand | catan-game-api/src/game/player.rs:58-73 | succeeds exactly when the hand covers the request; then each listed kind drops by its amount; otherwise the hand is unchanged |
| Players.Player.AddResourceCards | catan-game-api/src/game/player.rs:104-108 | each listed kind rises by its amount |
| Players.Player.HasDevelopmentCard | catan-game-api/src/game/player.rs:75-78 | true exactly when the card's count is positive |
| Players.Player.AddDevelopmentCard | catan-game-api/src/game/player.rs:90-95 | that one count rises by one |
| Players.Player.RemoveDevelopmentCard | catan-game-api/src/game/player.rs:97-102 | that one count drops by one |
| Players.Player.StealCard | catan-game-api/src/game/player.rs:110-122 | on a non-empty hand, returns a kind the player held and lowers exactly that kind by one |
| Players.Player.RemoveAllResourcesFromHand | catan-game-api/src/game/player.rs:124-128 | returns the prior count of the kind and leaves it at 0 |
| Boards.RemoveUndoesPlace | catan-game-api/src/game/board.rs:299-307 | clearing an edge that was empty before a road was placed on it restores the edges |
| Boards.UnshuffledContents | catan-game-api/src/game/board.rs:58-91 | before shuffling, the tiles are 4 Forest, 4 Plains, 4 Fields, 3 Mountains, 3 Hills and 1 Desert, the robber only on the desert, and the ports are 4 three-to-one plus one of each resource |
| Boards.ShuffledTiles | catan-game-api/src/game/board.rs:93 | shuffling keeps each tile's start state and the terrain multiset, and leaves exactly one robber, on the desert |
| Boards.DealtTiles | catan-game-api/src/game/board.rs:78-116 | the dealt tiles are numbered by array index and take their adjacent nodes from the table |
| Boards.Numbered | catan-game-api/src/game/board.rs:94-96 | renumbering sets each tile's index to its position and leaves the rest alone |
| Boards.DealtFrom | catan-game-api/src/game/board.rs:78-96 | shuffling then renumbering keeps the start state, the terrain multiset and the single robber |
| Boards.DealtChitsZero | catan-game-api/src/game/board.rs:78-90 | every dealt tile's chit is 0 |
| Boards.DealtTilesFacts | catan-game-api/src/game/board.rs:78-96 | the dealt tiles have the standard terrain multiset and exactly one robber, on the desert |
| Boards.DealtPorts | catan-game-api/src/game/board.rs:58-75 | the dealt ports have the standard port multiset |
| Boards.Board.constructor | catan-game-api/src/game/board.rs:26-137 | 54 empty nodes and 72 empty edges, positions equal to indices, adjacency from the table, the dealt tiles and ports, the fixed port-node mapping |
| Boards.PlacedRoadConnects | catan-game-api/src/game/board.rs:148-166 | after a road of the player is put on edge a, edge b touches a road of the player exactly when it did before or b shares a node with a |
| Boards.Board.AdjoinsByTable | catan-game-api/src/game/board.rs:148-157 | two edges share a node exactly when the node–edge table links them |
| Boards.Board.ConnectedByTable | catan-game-api/src/game/board.rs:148-166 | an edge touches a road of the player exactly when a table-linked edge holds one |
| Boards.Board.MakeNodes | catan-game-api/src/game/board.rs:30-32 | 54 empty nodes, each at its own index, with the edges and tiles the table lists for it |
| Boards.Board.MakeEdges | catan-game-api/src/game/board.rs:33-35 | 72 empty edges, each at its own index, with the nodes the table lists for it |
| Boards.Board.MakePorts | catan-game-api/src/game/board.rs:58-75 | the nine ports, shuffled in place, are the dealt ports |
| Boards.Board.MakeTiles | catan-game-api/src/game/board.rs:78-96 | the nineteen tiles, shuffled in place and renumbered, are the dealt tiles |
| Boards.Board.NumberTiles | catan-game-api/src/game/board.rs:94-96 | the loop gives every tile its array index and its nodes from the table and changes nothing else about it |
| Boards.Board.PlaceRoad | catan-game-api/src/game/board.rs:141-177 | a non-road gives (false, false); an occupied edge gives (false, true); an empty edge is built exactly when another edge sharing one of its nodes holds a road of the same player; nothing else changes |
| Boards.Board.NeighbourEdges | catan-game-api/src/game/board.rs:148-157 | the list gathered by the loop holds exactly the other edges sharing a node with the edge |
| Boards.Board.PlaceSettlement | catan-game-api/src/game/board.rs:180-213 | succeeds exactly for a settlement on an empty node whose one-edge neighbours are all empty and which touches a road of the player; then only that node changes |
| Boards.Board.PlaceCity | catan-game-api/src/game/board.rs:216-234 | a non-city fails; an empty node reports success and stays empty; a city or road fails; a settlement is replaced unless both its position and its owner differ |
| Boards.Board.PlaceInitialSettlement | catan-game-api/src/game/board.rs:237-265 | succeeds exactly for a settlement on an empty, in-range node with no built neighbour, and needs no road |
| Boards.Board.PlaceInitialRoad | catan-game-api/src/game/board.rs:268-295 | succeeds exactly for a road on an empty edge next to a settlement, not a city, of the same player; the nodes never change |
| Boards.Board.RemoveRoad | catan-game-api/src/game/board.rs:299-307 | a road clears its edge and succeeds; anything else fails and changes nothing |
| Production.TerrainResource | catan-game-api/src/game/game.rs:373-389 | each terrain's resource; only the desert gives none |
| Production.NodeGains | catan-game-api/src/game/game.rs:370-391 | a city earns 2 and a settlement 1 for its owner; an empty node or a road earns nothing |
| Production.Yield | catan-game-api/src/game/game.rs:363-391 | a node next to a producing tile earns nothing exactly when the tile is the desert or the node holds no settlement or city |
| Production.TileGainsShape | catan-game-api/src/game/game.rs:362-392 | every gain from a tile is 1 or 2 cards of its resource for the owner of a building around it |
| Production.OffChitYieldsNothing | catan-game-api/src/game/game.rs:360 | when no tile's chit equals the roll, the roll yields nothing |
| Production.RollStep | catan-game-api/src/game/game.rs:360-362 | one more tile adds its gains exactly when its chit equals the roll |
| Production.TileStep | catan-game-api/src/game/game.rs:363-367 | one more node of a tile adds what that node yields |
| Production.ApplyKeepsHands | catan-game-api/src/game/player.rs:104-108 | gains never lower a count, and keep hands full and non-negative |
| Production.CreditOne | catan-game-api/src/game/player.rs:104-108 | adding a one-kind request raises that one count |
| Games.OthersTotal | catan-game-api/src/game/game.rs:436-449 | the monopoly total is non-negative and at least each other player's count |
| Games.CreditedTotals | catan-game-api/src/game/game.rs:428 | a gain raises its owner's card total by its amount and leaves the other hands alone |
| Games.MovedTotals | catan-game-api/src/game/game.rs:244-245 | a steal takes one card from the victim and gives it to the thief, changing no other hand; from oneself it changes nothing |
| Games.Game.constructor | catan-game-api/src/game/game.rs:37-60 | turn 0, seat 0 to move, no offer, dice not rolled, empty hands, an empty board with one robber, a full bank and a full deck |
| Games.Game.NewSeats | catan-game-api/src/game/game.rs:38-44 | four fresh, distinct players seated by id, with empty hands |
| Games.Game.NewBoard | catan-game-api/src/game/game.rs:46 | a fresh valid board with no buildings and no roads, the given adjacency, and exactly one robber |
| Games.Game.NewBank | catan-game-api/src/game/game.rs:47 | a fresh bank with 19 of every resource, the full deck multiset and the cursor at 0 |
| Games.Game.EndTurn | catan-game-api/src/game/game.rs:182-186 | always succeeds, passes the turn to the next seat modulo 4 and clears the dice flag; nothing else changes |
| Games.Game.DeclineTrade | catan-game-api/src/game/game.rs:118-125 | succeeds exactly when an offer is open, and then passes the turn |
| Games.Game.OfferTrade | catan-game-api/src/game/game.rs:187-214 | succeeds exactly when the offerer holds the giving side (md[0] to md[4]); then records the offer of those cards for md[5] to md[9] and passes the turn to the next seat; no hand changes, and on failure nothing changes; only the offer and the seat to move can change |
| Games.Game.OpenOffer | catan-game-api/src/game/game.rs:207-212 | the offer is recorded and the turn passes to the next seat |
| Games.Game.Discard | catan-game-api/src/game/game.rs:126-161 | never succeeds, because the discarded amount is compared with a constant 0 |
| Games.Game.DrawDevelopmentCard | catan-game-api/src/game/game.rs:162-181 | succeeds exactly when the mover holds the price and a card is left; only the bank's cursor moves, by one |
| Games.Game.CopyCovers | catan-game-api/src/game/game.rs:163-169 | the copy of the mover has the mover's hand, reports whether it covers the price, and the game does not change |
| Games.Game.DrawFor | catan-game-api/src/game/game.rs:172-179 | the draw from the bank succeeds exactly while cards are left, and then moves the cursor by one |
| Games.Game.CreditGain | catan-game-api/src/game/game.rs:428 | the hands after crediting one gain |
| Games.Game.ProduceNode | catan-game-api/src/game/game.rs:370-391 | the hands after one node's yield |
| Games.Game.ProduceTile | catan-game-api/src/game/game.rs:363-392 | the loop over a tile's nodes credits exactly the tile's gains |
| Games.Game.ProduceAt | catan-game-api/src/game/game.rs:369-391 | one step of that loop credits one more node's yield |
| Games.Game.ProduceTiles | catan-game-api/src/game/game.rs:360-393 | the loop over the tiles credits exactly the roll's gains |
| Games.Game.ProduceIfRolled | catan-game-api/src/game/game.rs:360-363 | one step of that loop adds a tile's gains when its chit equals the roll |
| Games.Game.ProduceDiceRoll | catan-game-api/src/game/game.rs:359-394 | the hands after a roll are the old hands with every gain of the roll applied; nothing but the hands changes |
| Games.Game.ScanRobberTile | catan-game-api/src/game/game.rs:225-236 | panics when a node around the tile is empty; otherwise reports whether a settlement or city of the victim stands there |
| Games.Game.TakeCard | catan-game-api/src/game/game.rs:244 | takes one card of a kind the victim held out of the victim's hand |
| Games.Game.StealFor | catan-game-api/src/game/game.rs:244-245 | panics exactly on an empty hand; otherwise moves one held card from victim to thief |
| Games.Game.RobTile | catan-game-api/src/game/game.rs:243 | sets the robber on that one tile only, leaving any old robber in place |
| Games.Game.RobAndSteal | catan-game-api/src/game/game.rs:243-245 | robs the tile, then steals as StealFor does; only hands and tiles change |
| Games.Game.PlaceRobber | catan-game-api/src/game/game.rs:215-247 | fails with no change on a bad or robbed tile or no building of the victim around it; panics on an empty node; otherwise robs the tile and steals one card, panicking on an empty hand; only hands and tiles can change |
| Games.Game.CanAfford | catan-game-api/src/game/game.rs:254 | whether the player's hand covers a cost; the game does not change |
| Games.Game.Pay | catan-game-api/src/game/game.rs:261 | the payer's hand loses the cost, and no other hand changes; nothing but the hands changes |
| Games.Game.PlayCity | catan-game-api/src/game/game.rs:248-264 | succeeds exactly on an in-range node that the player can pay for and that PlaceCity accepts; then the player pays 3 Ore and 2 Wheat; only hands and nodes can change, and on failure nothing changes |
| Games.Game.BuildCity | catan-game-api/src/game/game.rs:258-263 | the city placement and the charge that follows it; only hands and nodes can change |
| Games.Game.PlaySettlement | catan-game-api/src/game/game.rs:314-338 | succeeds exactly when the node is in range, the player can pay and PlaceSettlement accepts; then the player pays 1 each of Lumber, Brick, Wheat and Sheep; only hands and nodes can change, and on failure nothing changes |
| Games.Game.BuildSettlement | catan-game-api/src/game/game.rs:332-337 | the settlement placement and the charge that follows it; only hands and nodes can change |
| Games.Game.PlayRoad | catan-game-api/src/game/game.rs:293-313 | succeeds exactly when the edge is in range, the player can pay and PlaceRoad builds; then the player pays 1 Lumber and 1 Brick; only hands and edges can change, and on failure nothing changes |
| Games.Game.BuildRoad | catan-game-api/src/game/game.rs:306-312 | the road placement and the charge that follows it; only hands and edges can change |
| Games.Game.PlayKnight | catan-game-api/src/game/game.rs:398-430 | checks tile md[1] for a building of md[2], then robs tile md[0] (tile 0), and steals from player md[1], panicking when md[1] is not a seat or the hand is empty; only hands and tiles can change |
| Games.Game.CountOthers | catan-game-api/src/game/game.rs:436-449 | the loop sums the kind over every seat but the player |
| Games.Game.TakeAllFromCopy | catan-game-api/src/game/game.rs:437-448 | a copy of a seat yields its whole count of the kind, or 0 for the player, and the seat keeps its cards |
| Games.Game.PlayMonopoly | catan-game-api/src/game/game.rs:431-463 | fails with no change for a kind index of 5 or more; otherwise the player gains the others' total and every other hand is unchanged; only hands can change |
| Games.Game.PlayRoadBuilding | catan-game-api/src/game/game.rs:464-486 | succeeds exactly when md[1] and md[2] are two different empty edges, the first next to a road of the player and the second next to one or sharing a node with the first; then exactly those two edges hold roads of the player; on failure the edges are exactly as before; only edges can change |
| Games.Game.PlaceFirstRoad | catan-game-api/src/game/game.rs:472 | the first road is placed exactly when its edge was empty and next to a road of the player; once it is, the second edge is connected exactly when it was before or it shares a node with the first; only edges can change |
| Games.Game.UndoRoads | catan-game-api/src/game/game.rs:475-482 | clearing each road whose edge was empty before restores the edges |
| Games.Game.PlayYearOfPlenty | catan-game-api/src/game/game.rs:490-512 | fails with no change when either index is 5 or more; otherwise the player gains one card of each named kind; only hands can change |
| Games.Game.HandleDevelopmentCard | catan-game-api/src/game/game.rs:396-515 | by code md[0]: 0 moves the robber and steals exactly as PlaceRobber does for check tile md[1], owner md[2], robbed tile md[0] and victim md[1], with the edges unchanged; 1, 2 and 4 have exactly the monopoly, road-building and year-of-plenty effects of their rows, touching nothing else; 3 and codes above 4 fail; a failure leaves hands, tiles and edges unchanged; only the knight can panic; nothing outside hands, tiles and edges changes |
| Games.Game.PlayDevelopmentCard | catan-game-api/src/game/game.rs:265-292 | a code above 5, a victory point or a card not held fails and changes no hand, tile, edge or card count; otherwise hands, tiles and edges change exactly as HandleDevelopmentCard states for that code, and one card of the kind is given up exactly when that succeeds; nothing outside hands, tiles, edges and the player's cards changes |
| Games.Game.PlayHeld | catan-game-api/src/game/game.rs:287-291 | the held card takes exactly the effect HandleDevelopmentCard states, and one card of it is given up exactly when that succeeds; nothing outside hands, tiles, edges and the player's cards changes |
| Games.Game.RollDice | catan-game-api/src/game/game.rs:339-355 | succeeds exactly when the dice were not yet rolled this turn; the flag is then set; on success the sum is recorded and the hands become the old hands with every gain of that roll applied, unless the sum is 7; on failure the roll and the hands are unchanged; nothing else changes |
| Games.Game.GiveUpCard | catan-game-api/src/game/game.rs:290 | one card of the kind is given up exactly when the play succeeded; hands, tiles and edges do not change; nothing else changes |
| Games.Game.RecordRoll | catan-game-api/src/game/game.rs:349-350 | the sum is recorded and the dice flag set, and nothing else changes |
| Games.Game.RollForTurn | catan-game-api/src/game/game.rs:339-355 | the roll action succeeds exactly when the dice were not yet rolled this turn, has the effect RollDice states, and changes no hand; nothing but the roll and the dice flag changes |
| Games.Game.RollYieldsNothing | catan-game-api/src/game/game.rs:360 | on a board as dealt, every roll of 2 or more yields nothing, because every chit is 0 |
| Games.Game.TryPay | catan-game-api/src/game/game.rs:106-108 | the payer pays exactly when the hand covers the cost, and otherwise nothing changes |
| Games.Game.Refund | catan-game-api/src/game/game.rs:110-113 | adding the cost back restores the payer's hand |
| Games.Game.SettleTrade | catan-game-api/src/game/game.rs:105-116 | both sides are paid, or nothing changes; the offerer is refunded when the partner cannot pay |
| Games.Game.AcceptTrade | catan-game-api/src/game/game.rs:81-117 | no offer or an uncovered request fails with no change; a non-offerer is recorded under its own number and passes the turn; the offerer panics on a bad partner index, fails on a partner recorded as 0, or settles the trade |
| Games.Game.HandleInitialTurn | catan-game-api/src/game/game.rs:517-546 | succeeds exactly for PlaySettlement on a free node with no built neighbour, and then adds one turn; setup roads always fail; the current player never changes; only the turn count and nodes can change |
| Games.Game.SetupTurn | catan-game-api/src/game/game.rs:65-67 | one turn is counted and one more when a settlement of the player goes on a free node with no built neighbour; that node is the only other change |
| Games.Game.CountTurn | catan-game-api/src/game/game.rs:66 | the turn count rises by one and nothing else changes |
| Games.Game.InitialSettlement | catan-game-api/src/game/game.rs:519-530 | the setup settlement goes in exactly when PlaceInitialSettlement accepts it; only nodes can change |
| Games.Game.TakeAction | catan-game-api/src/game/game.rs:63-80 | setup counts 1 turn, or 2 for a settlement of the player on a free node with no built neighbour, and changes nothing but the turn count and that node; in the main phase an open offer, or an action other than RollDice before rolling, fails with no change; otherwise the action has exactly the effect of its arm (see Dispatch), and every part of the game outside that arm stays as it was; AcceptTrade, DeclineTrade and Discard never succeed; only the robber and development cards can panic; only a successful OfferTrade opens an offer |
| Games.Game.Dispatch | catan-game-api/src/game/game.rs:80-356 | with no offer open, each tag has exactly its arm's effect and changes nothing outside it: OfferTrade as OfferTrade states; Accept, Decline and Discard fail with no change; the builds and the draw as PlayCity, PlayRoad, PlaySettlement and DrawDevelopmentCard state; RollDice, PlaceRobber, PlayDevelopmentCard and EndTurn as their rows state; RollDice succeeds exactly when not yet rolled and changes no hand; only the robber and cards can panic |
| Games.Game.TradeAction | catan-game-api/src/game/game.rs:81-214 | with no offer open, OfferTrade has exactly the effect OfferTrade states and changes only the offer and the seat to move; Accept, Decline and Discard fail and change nothing; only a successful offer leaves one open |
| Games.Game.BuildAction | catan-game-api/src/game/game.rs:162-338 | each build or draw arm has exactly the effect stated for PlayCity, PlayRoad, PlaySettlement or DrawDevelopmentCard and changes nothing else: a city or settlement touches only hands and nodes, a road only hands and edges, a draw only the bank's cursor; none panics |
| Games.Game.TurnAction | catan-game-api/src/game/game.rs:182-355 | RollDice as RollDice states, changing only the roll, the dice flag and no hand; PlaceRobber as PlaceRobber states, changing only hands and tiles; PlayDevelopmentCard as PlayDevelopmentCard states, changing only hands, tiles, edges and the player's cards; EndTurn succeeds, passes the turn to the next seat, clears the dice flag and changes nothing else; only the robber and cards can panic |

## Left out

- Locking: the `Arc<Mutex<…>>` wrappers are gone. Nodes, edges and tiles are plain array slots.
  - As written, `placeRoad` locks the edge it is trying and locks it again while scanning the neighbouring edges (board.rs:145, 154).
  - `placeSettlement` does the same with the node's edges and nodes (board.rs:184, 191, 198).
  - Either would block or panic at run time. `Boards.Board.PlaceRoad` and `Boards.Board.PlaceSettlement` model the check the code expresses instead.
  - `placeInitialSettlement` skips nodes it cannot lock. The model skips the node being settled, which is the only one already locked.
- File reading: the node–edge and node–tile tables come from files (board.rs:37-55, 98-116, 314-317). They are a `Topology` parameter, required to be well formed: the right sizes, and every entry in range.
- Randomness becomes parameters:
  - the tile, port and deck shuffles (board.rs:75, 93; bank.rs:44) take a sequence of Fisher–Yates picks;
  - the dice of `takeAction` are the arguments `d1` and `d2`, each from 1 to 5, as `gen_range(1..6)` draws;
  - `stealCard`'s choice is any kind the victim holds, so `Players.Player.StealCard` states only that the kind was held.
- Integer widths: `usize` and `i32` are unbounded integers here; overflow of a hand count is not modelled.
- Players.Player.HasResourceCards: compares the held count with the requested amount as integers. The source casts the `usize` amount with `as i32` (player.rs:83), so an amount of 2^31 or more wraps to a negative number and always passes the check.
- Players.Player.RemoveCardsFromHand: same cast in the check and in the subtraction (player.rs:61, 69). In the source a wrapped amount passes the check and then raises the count instead of lowering it.
- Players.Player.AddResourceCards: same cast (player.rs:106). In the source a wrapped amount lowers the count instead of raising it.
- Players.Player.AddResourceCards, Players.Player.RemoveCardsFromHand: a count pushed past the range of `i32` would wrap, or panic in a debug build; the model's counts are unbounded.
- Games.Game.OfferTrade: inherits the `Players.Player.HasResourceCards` gap through `hasResourceCards` (game.rs:203). In the source an offer with md[0] = 4294967295 is opened even by a player with an empty hand; the model's offer succeeds only when the hand covers the full amount.
- Games.Game.Discard: the discarded amounts are summed with the same cast (game.rs:150). Any sum still fails the check, which compares half of it with a constant 0. A sum beyond the range of `i32` would panic in a debug build; the model reports a failure instead.
- HashMap iteration order is replaced by the fixed order Ore, Wheat, Sheep, Brick, Lumber. No modelled result depends on it.
- Panics that a valid state rules out are invariants rather than outcomes:
  - edges hold only roads, so the panic at board.rs:193 cannot occur;
  - hands hold all five kinds, so every `unwrap` on a hand lookup succeeds.
- Games.Game.AcceptTrade: modelled in full, but the guard at game.rs:76 rejects every action while an offer is open, so `Games.Game.TakeAction` never reaches it. Dispatch with no open offer sends it to the no-offer failure.
- Games.Game.TakeAction: requires `playerId < 4`, because the server always passes the current player's seat (main.rs:85-86).
- Games.Game.constructor: states the fresh state by its observable parts: counters, hands, empty board, one robber, bank pool and deck multiset. The identity of the dealt tiles is stated by `Boards.Board.constructor`.
- Serialisation (serde derives), the WebSocket server and `reset()` in main.rs, and the Python agent are not part of this model.
- Rules the engine does not implement are not invented here: longest road, largest army, port and bank trades, victory points, placement counters and bank conservation.
