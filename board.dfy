/**
 * The board: 54 nodes, 72 edges, 19 tiles and 9 ports held in arrays indexed
 * by position, with the node/edge and node/tile adjacency given as a table.
 */
module Boards {
  import opened Types
  import opened Elements
  import Shuffle

  const NodeCount: nat := 54
  const EdgeCount: nat := 72
  const TileCount: nat := 19
  const PortCount: nat := 9

  /**
   * The adjacency tables, in both directions: the edges and tiles of each node,
   * the nodes of each edge and the nodes of each tile.
   */
  datatype Topology = Topology(
    nodeEdges: seq<seq<nat>>,
    edgeNodes: seq<seq<nat>>,
    tileNodes: seq<seq<nat>>,
    nodeTiles: seq<seq<nat>>)
  {
    /** The right number of rows and every entry in range. */
    predicate WellFormed() {
      && |nodeEdges| == NodeCount && |edgeNodes| == EdgeCount
      && |tileNodes| == TileCount && |nodeTiles| == NodeCount
      && (forall n :: 0 <= n < NodeCount ==> AllBelow(nodeEdges[n], EdgeCount) && AllBelow(nodeTiles[n], TileCount))
      && (forall e :: 0 <= e < EdgeCount ==> AllBelow(edgeNodes[e], NodeCount))
      && (forall t :: 0 <= t < TileCount ==> AllBelow(tileNodes[t], NodeCount))
    }
  }

  predicate AllBelow(s: seq<nat>, bound: nat) {
    forall k :: 0 <= k < |s| ==> s[k] < bound
  }

  /** A node holds nothing, or a settlement or city recorded at that node. */
  predicate NodeBuildingOk(b: Option<Building>, i: nat) {
    b.None? || (!b.value.Road? && b.value.pos == i)
  }

  /** An edge holds nothing, or a road recorded at that edge. */
  predicate EdgeBuildingOk(b: Option<Building>, i: nat) {
    b.None? || (b.value.Road? && b.value.pos == i)
  }

  predicate OwnsRoad(b: Option<Building>, player: nat) {
    b.Some? && b.value.Road? && b.value.owner == player
  }

  predicate OwnsSettlement(b: Option<Building>, player: nat) {
    b.Some? && b.value.Settlement? && b.value.owner == player
  }

  /** Every building on the nodes belongs to a player below n. */
  predicate NodesOwnedBelow(ns: seq<Node>, n: nat) {
    forall i :: 0 <= i < |ns| && ns[i].building.Some? ==> ns[i].building.value.owner < n
  }

  /** Every road on the edges belongs to a player below n. */
  predicate EdgesOwnedBelow(es: seq<Edge>, n: nat) {
    forall i :: 0 <= i < |es| && es[i].building.Some? ==> es[i].building.value.owner < n
  }

  /** A placement for a player below n keeps every owner below n. */
  lemma SetNodeOwned(ns: seq<Node>, p: nat, b: Option<Building>, n: nat)
    requires p < |ns| && NodesOwnedBelow(ns, n) && (b.Some? ==> b.value.owner < n)
    ensures NodesOwnedBelow(SetNode(ns, p, b), n)
  {
  }

  lemma SetEdgeOwned(es: seq<Edge>, p: nat, b: Option<Building>, n: nat)
    requires p < |es| && EdgesOwnedBelow(es, n) && (b.Some? ==> b.value.owner < n)
    ensures EdgesOwnedBelow(SetEdge(es, p, b), n)
  {
  }

  function SetEdge(es: seq<Edge>, p: nat, b: Option<Building>): (r: seq<Edge>)
    requires p < |es|
    ensures |r| == |es| && r[p].building == b
    ensures forall i :: 0 <= i < |es| && i != p ==> r[i] == es[i]
  {
    es[p := es[p].(building := b)]
  }

  function SetNode(ns: seq<Node>, p: nat, b: Option<Building>): (r: seq<Node>)
    requires p < |ns|
    ensures |r| == |ns| && r[p].building == b
    ensures forall i :: 0 <= i < |ns| && i != p ==> r[i] == ns[i]
  {
    ns[p := ns[p].(building := b)]
  }

  /** Edge x shares a node of the table with edge e and is not e itself. */
  ghost predicate Linked(t: Topology, e: nat, x: nat)
    requires t.WellFormed() && e < EdgeCount
  {
    exists k: nat :: k < |t.edgeNodes[e]| && x in t.nodeEdges[t.edgeNodes[e][k]] && x != e
  }

  /** Some edge linked to e holds a road of the player. */
  ghost predicate ConnectedIn(t: Topology, es: seq<Edge>, e: nat, player: nat)
    requires t.WellFormed() && e < EdgeCount
  {
    exists x: nat :: x < |es| && Linked(t, e, x) && OwnsRoad(es[x].building, player)
  }

  /**
   * Once the player's road is put on edge a, edge b is connected to a road
   * of the player exactly when it was before or it is linked to a.
   */
  lemma PlacedRoadConnects(t: Topology, es: seq<Edge>, a: nat, b: nat, player: nat)
    requires t.WellFormed() && a < |es| && b < EdgeCount
    ensures ConnectedIn(t, SetEdge(es, a, Some(Road(a, player))), b, player)
        <==> ConnectedIn(t, es, b, player) || Linked(t, b, a)
  {
    var es1 := SetEdge(es, a, Some(Road(a, player)));
    if ConnectedIn(t, es1, b, player) {
      var x: nat :| x < |es1| && Linked(t, b, x) && OwnsRoad(es1[x].building, player);
      if x != a {
        assert OwnsRoad(es[x].building, player);
      }
    }
    if ConnectedIn(t, es, b, player) {
      var x: nat :| x < |es| && Linked(t, b, x) && OwnsRoad(es[x].building, player);
      assert OwnsRoad(es1[x].building, player);
    }
    if Linked(t, b, a) {
      assert OwnsRoad(es1[a].building, player);
    }
  }

  /** Clearing an edge that a placement just filled gives back the edges as they were. */
  lemma RemoveUndoesPlace(es: seq<Edge>, p: nat, road: Building)
    requires p < |es| && es[p].building == None
    ensures SetEdge(SetEdge(es, p, Some(road)), p, None) == es
  {
    assert SetEdge(SetEdge(es, p, Some(road)), p, None)[p] == es[p];
  }

  /** The terrain of each tile before shuffling: 4 Forest, 4 Plains, 4 Fields, 3 Mountains, 3 Hills, 1 Desert. */
  function UnshuffledTerrain(i: nat): Terrain {
    if i < 4 then Forest
    else if i < 8 then Plains
    else if i < 12 then Fields
    else if i < 15 then Mountains
    else if i < 18 then Hills
    else Desert
  }

  /** The ports before shuffling: 4 generic ports and one for each resource. */
  function UnshuffledPort(i: nat): Port {
    if i < 4 then ThreeToOne
    else if i < 5 then LumberPort
    else if i < 6 then OrePort
    else if i < 7 then WheatPort
    else if i < 8 then SheepPort
    else if i < 9 then BrickPort
    else ThreeToOne
  }

  function TileMultiset(): multiset<Terrain> {
    multiset{}[Forest := 4][Plains := 4][Fields := 4][Mountains := 3][Hills := 3][Desert := 1]
  }

  function PortMultiset(): multiset<Port> {
    multiset{}[ThreeToOne := 4][LumberPort := 1][OrePort := 1][WheatPort := 1][SheepPort := 1][BrickPort := 1]
  }

  function Terrains(ts: seq<Tile>): (r: seq<Terrain>)
    ensures |r| == |ts| && forall i :: 0 <= i < |ts| ==> r[i] == ts[i].terrain
  {
    Shuffle.MapSeq((t: Tile) => t.terrain, ts)
  }

  /** The tiles before shuffling, unnumbered and without adjacency. */
  function UnshuffledTiles(): (r: seq<Tile>)
    ensures |r| == TileCount
  {
    seq(TileCount, i requires 0 <= i => NewTile(0, UnshuffledTerrain(i), 0))
  }

  function UnshuffledPorts(): (r: seq<Port>)
    ensures |r| == PortCount
  {
    seq(PortCount, i requires 0 <= i => UnshuffledPort(i))
  }

  /** Only the desert holds the robber, and the chit is still the 0 it was built with. */
  predicate TileStartsOk(t: Tile) {
    (t.hasRobber <==> t.terrain == Desert) && t.chit == 0
  }

  /** The unshuffled tiles and ports are a standard set, the desert alone with the robber. */
  lemma UnshuffledContents()
    ensures forall k :: 0 <= k < TileCount ==> TileStartsOk(UnshuffledTiles()[k])
    ensures multiset(Terrains(UnshuffledTiles())) == TileMultiset()
    ensures multiset(UnshuffledPorts()) == PortMultiset()
  {
    assert Terrains(UnshuffledTiles()) == Shuffle.Repeat(Forest, 4) + Shuffle.Repeat(Plains, 4)
      + Shuffle.Repeat(Fields, 4) + Shuffle.Repeat(Mountains, 3) + Shuffle.Repeat(Hills, 3) + [Desert];
    Shuffle.RepeatMultiset(Forest, 4);
    Shuffle.RepeatMultiset(Plains, 4);
    Shuffle.RepeatMultiset(Fields, 4);
    Shuffle.RepeatMultiset(Mountains, 3);
    Shuffle.RepeatMultiset(Hills, 3);
    assert UnshuffledPorts() == Shuffle.Repeat(ThreeToOne, 4) + [LumberPort, OrePort, WheatPort, SheepPort, BrickPort];
    Shuffle.RepeatMultiset(ThreeToOne, 4);
  }

  /** Exactly one tile holds the robber, and it is the desert. */
  ghost predicate OneRobber(ts: seq<Tile>) {
    exists i :: 0 <= i < |ts| && ts[i].hasRobber && ts[i].terrain == Desert
      && forall j :: 0 <= j < |ts| && ts[j].hasRobber ==> j == i
  }

  /** A shuffle keeps every per-tile fact and the terrains, so a single desert stays the single robber. */
  lemma ShuffledTiles(u: seq<Tile>, picks: seq<nat>)
    requires Shuffle.ValidPicks(picks, |u|)
    requires forall k :: 0 <= k < |u| ==> TileStartsOk(u[k])
    requires multiset(Terrains(u))[Desert] == 1
    ensures forall k :: 0 <= k < |u| ==> TileStartsOk(Shuffle.Shuffled(u, picks)[k])
    ensures multiset(Terrains(Shuffle.Shuffled(u, picks))) == multiset(Terrains(u))
    ensures OneRobber(Shuffle.Shuffled(u, picks))
  {
    var sh := Shuffle.Shuffled(u, picks);
    Shuffle.ShuffledPermutes(u, picks);
    Shuffle.ShuffledMap((t: Tile) => t.terrain, u, picks);
    Shuffle.ShuffledPermutes(Terrains(u), picks);
    forall k | 0 <= k < |u|
      ensures TileStartsOk(sh[k])
    {
      assert sh[k] in multiset(u);
      var j :| 0 <= j < |u| && u[j] == sh[k];
    }
    Shuffle.OccursOnce(Terrains(sh), Desert);
  }

  /** Renumbering tiles and giving them nodes keeps their terrains and the single robber. */
  lemma SameTerrainAndRobber(a: seq<Tile>, b: seq<Tile>)
    requires |a| == |b|
    requires forall k :: 0 <= k < |a| ==> b[k].terrain == a[k].terrain && b[k].hasRobber == a[k].hasRobber
    ensures Terrains(a) == Terrains(b)
    ensures OneRobber(a) ==> OneRobber(b)
  {
    if OneRobber(a) {
      var i :| 0 <= i < |a| && a[i].hasRobber && a[i].terrain == Desert
        && forall j :: 0 <= j < |a| && a[j].hasRobber ==> j == i;
      assert b[i].hasRobber;
    }
  }

  /**
   * The tiles of a fresh board: the unshuffled tiles shuffled by the picks,
   * then each numbered by its position and given the nodes the table lists.
   */
  function DealtTiles(topology: Topology, picks: seq<nat>): (r: seq<Tile>)
    requires topology.WellFormed() && Shuffle.ValidPicks(picks, TileCount)
    ensures |r| == TileCount
    ensures forall k :: 0 <= k < TileCount ==> r[k].index == k && r[k].adjacentNodes == topology.tileNodes[k]
  {
    Numbered(Shuffle.Shuffled(UnshuffledTiles(), picks), topology)
  }

  /** The tiles numbered by position, each given the nodes the table lists for it. */
  function Numbered(ts: seq<Tile>, topology: Topology): (r: seq<Tile>)
    requires topology.WellFormed() && |ts| == TileCount
    ensures |r| == TileCount
    ensures forall k :: 0 <= k < TileCount ==>
      r[k] == ts[k].(index := k, adjacentNodes := topology.tileNodes[k])
  {
    seq(TileCount, k requires 0 <= k < TileCount => ts[k].(index := k, adjacentNodes := topology.tileNodes[k]))
  }

  /** The ports of a fresh board: the unshuffled ports shuffled by the picks. */
  function DealtPorts(picks: seq<nat>): (r: seq<Port>)
    requires Shuffle.ValidPicks(picks, PortCount)
    ensures multiset(r) == PortMultiset()
  {
    UnshuffledContents();
    Shuffle.ShuffledPermutes(UnshuffledPorts(), picks);
    Shuffle.Shuffled(UnshuffledPorts(), picks)
  }

  /** Shuffling and then numbering tiles keeps the per-tile facts, the terrains and a single robber. */
  lemma {:induction false} DealtFrom(u: seq<Tile>, topology: Topology, picks: seq<nat>)
    requires topology.WellFormed() && |u| == TileCount && Shuffle.ValidPicks(picks, TileCount)
    requires forall k :: 0 <= k < TileCount ==> TileStartsOk(u[k])
    requires multiset(Terrains(u))[Desert] == 1
    ensures forall k :: 0 <= k < TileCount ==> TileStartsOk(Numbered(Shuffle.Shuffled(u, picks), topology)[k])
    ensures multiset(Terrains(Numbered(Shuffle.Shuffled(u, picks), topology))) == multiset(Terrains(u))
    ensures OneRobber(Numbered(Shuffle.Shuffled(u, picks), topology))
  {
    ShuffledTiles(u, picks);
    var sh := Shuffle.Shuffled(u, picks);
    SameTerrainAndRobber(sh, Numbered(sh, topology));
  }

  /** Every dealt tile keeps the chit 0 it was built with. */
  lemma DealtChitsZero(topology: Topology, picks: seq<nat>)
    requires topology.WellFormed() && Shuffle.ValidPicks(picks, TileCount)
    ensures forall k :: 0 <= k < TileCount ==> DealtTiles(topology, picks)[k].chit == 0
  {
    DealtTilesFacts(topology, picks);
  }

  /** A dealt board has a standard set of terrains and exactly one robber, on the desert. */
  lemma DealtTilesFacts(topology: Topology, picks: seq<nat>)
    requires topology.WellFormed() && Shuffle.ValidPicks(picks, TileCount)
    ensures forall k :: 0 <= k < TileCount ==> TileStartsOk(DealtTiles(topology, picks)[k])
    ensures multiset(Terrains(DealtTiles(topology, picks))) == TileMultiset()
    ensures OneRobber(DealtTiles(topology, picks))
  {
    UnshuffledContents();
    DealtFrom(UnshuffledTiles(), topology, picks);
  }

  /** The port number-th port is reached from these two nodes. */
  const PortNodeMapping: seq<(nat, nat)> :=
    [(0, 3), (1, 5), (10, 15), (11, 16), (26, 32), (33, 38), (42, 46), (47, 51), (49, 52)]

  class Board {
    const topology: Topology
    const ports: array<Port>
    const tiles: array<Tile>
    const nodes: array<Node>
    const edges: array<Edge>
    const portNodeMapping: seq<(nat, nat)>

    /**
     * Sizes, positions equal to indices, adjacency as in the table, every tile's
     * chit as constructed, and only settlements and cities on nodes, only roads on edges.
     */
    ghost predicate Valid()
      reads this, nodes, edges, tiles
    {
      && topology.WellFormed()
      && nodes.Length == NodeCount && edges.Length == EdgeCount
      && tiles.Length == TileCount && ports.Length == PortCount
      && (forall i :: 0 <= i < NodeCount ==>
            nodes[i].position == i && nodes[i].adjacentEdges == topology.nodeEdges[i]
            && nodes[i].adjacentTiles == topology.nodeTiles[i] && NodeBuildingOk(nodes[i].building, i))
      && (forall i :: 0 <= i < EdgeCount ==>
            edges[i].position == i && edges[i].adjacentNodes == topology.edgeNodes[i]
            && EdgeBuildingOk(edges[i].building, i))
      && (forall i :: 0 <= i < TileCount ==>
            tiles[i].index == i && tiles[i].adjacentNodes == topology.tileNodes[i] && tiles[i].chit == 0)
    }

    /** Every building on the board belongs to a player below `n`. */
    ghost predicate OwnersBelow(n: nat)
      reads this, nodes, edges
    {
      NodesOwnedBelow(nodes[..], n) && EdgesOwnedBelow(edges[..], n)
    }

    /** Exactly one tile holds the robber, and it is the desert. */
    ghost predicate ExactlyOneRobber()
      reads this, tiles
    {
      OneRobber(tiles[..])
    }

    /** Some other edge sharing a node with edge e holds a road of the player. */
    ghost predicate RoadConnected(e: nat, player: nat)
      reads this, nodes, edges, tiles
      requires Valid() && e < EdgeCount
    {
      exists x: nat :: Adjoins(e, x) && OwnsRoad(edges[x].building, player)
    }

    /** No node one edge away from node p (p included) holds a building. */
    ghost predicate NeighboursEmpty(p: nat)
      reads this, nodes, edges, tiles
      requires Valid() && p < NodeCount
    {
      forall k, m :: 0 <= k < |nodes[p].adjacentEdges| && m in edges[nodes[p].adjacentEdges[k]].adjacentNodes
        ==> !HasBuilding(nodes[m])
    }

    /** Some edge at node p holds a road of the player. */
    ghost predicate RoadAt(p: nat, player: nat)
      reads this, nodes, edges, tiles
      requires Valid() && p < NodeCount
    {
      exists k :: 0 <= k < |nodes[p].adjacentEdges| && OwnsRoad(edges[nodes[p].adjacentEdges[k]].building, player)
    }

    /** Some node of edge e holds a settlement (not a city) of the player. */
    ghost predicate SettlementAt(e: nat, player: nat)
      reads this, nodes, edges, tiles
      requires Valid() && e < EdgeCount
    {
      exists k :: 0 <= k < |edges[e].adjacentNodes| && OwnsSettlement(nodes[edges[e].adjacentNodes[k]].building, player)
    }

    /**
     * A fresh board: empty nodes and edges, adjacency from the table, and the
     * ports and tiles dealt by the given picks.
     */
    constructor (topology: Topology, tilePicks: seq<nat>, portPicks: seq<nat>)
      requires topology.WellFormed()
      requires Shuffle.ValidPicks(tilePicks, TileCount) && Shuffle.ValidPicks(portPicks, PortCount)
      ensures Valid()
      ensures fresh(nodes) && fresh(edges) && fresh(tiles) && fresh(ports)
      ensures this.topology == topology
      ensures forall i :: 0 <= i < NodeCount ==> !HasBuilding(nodes[i])
      ensures forall i :: 0 <= i < EdgeCount ==> !HasRoad(edges[i])
      ensures tiles[..] == DealtTiles(topology, tilePicks)
      ensures ports[..] == DealtPorts(portPicks)
      ensures portNodeMapping == PortNodeMapping
    {
      this.topology := topology;
      var ns := MakeNodes(topology);
      var es := MakeEdges(topology);
      var ps := MakePorts(portPicks);
      var ts := MakeTiles(topology, tilePicks);
      DealtChitsZero(topology, tilePicks);
      nodes := ns;
      edges := es;
      ports := ps;
      tiles := ts;
      portNodeMapping := PortNodeMapping;
    }

    /** The 54 nodes, empty, with the edges and tiles the table lists for each. */
    static method MakeNodes(topology: Topology) returns (ns: array<Node>)
      requires topology.WellFormed()
      ensures fresh(ns) && ns.Length == NodeCount
      ensures forall i :: 0 <= i < NodeCount ==>
        ns[i] == Node(i, None, topology.nodeEdges[i], topology.nodeTiles[i])
    {
      ns := new Node[NodeCount](i requires 0 <= i < NodeCount =>
        NewNode(i).(adjacentEdges := topology.nodeEdges[i], adjacentTiles := topology.nodeTiles[i]));
    }

    /** The 72 edges, empty, with the nodes the table lists for each. */
    static method MakeEdges(topology: Topology) returns (es: array<Edge>)
      requires topology.WellFormed()
      ensures fresh(es) && es.Length == EdgeCount
      ensures forall i :: 0 <= i < EdgeCount ==> es[i] == Edge(i, None, topology.edgeNodes[i])
    {
      es := new Edge[EdgeCount](i requires 0 <= i < EdgeCount => NewEdge(i).(adjacentNodes := topology.edgeNodes[i]));
    }

    /** The nine ports, shuffled in place by the picks. */
    static method MakePorts(portPicks: seq<nat>) returns (ps: array<Port>)
      requires Shuffle.ValidPicks(portPicks, PortCount)
      ensures fresh(ps) && ps[..] == DealtPorts(portPicks)
    {
      ps := new Port[PortCount](i requires 0 <= i < PortCount => UnshuffledPorts()[i]);
      assert ps[..] == UnshuffledPorts();
      Shuffle.ShuffleInPlace(ps, portPicks);
    }

    /** The nineteen tiles, shuffled in place by the picks, then numbered by position and given their nodes. */
    static method MakeTiles(topology: Topology, tilePicks: seq<nat>) returns (ts: array<Tile>)
      requires topology.WellFormed()
      requires Shuffle.ValidPicks(tilePicks, TileCount)
      ensures fresh(ts) && ts[..] == DealtTiles(topology, tilePicks)
    {
      ts := new Tile[TileCount](i requires 0 <= i < TileCount => UnshuffledTiles()[i]);
      assert ts[..] == UnshuffledTiles();
      Shuffle.ShuffleInPlace(ts, tilePicks);
      NumberTiles(ts, topology);
      assert ts[..] == DealtTiles(topology, tilePicks);
    }

    /** Gives each tile its array index and the nodes the table lists for it. */
    static method NumberTiles(ts: array<Tile>, topology: Topology)
      requires topology.WellFormed() && ts.Length == TileCount
      modifies ts
      ensures forall k :: 0 <= k < TileCount ==>
        ts[k] == old(ts[k]).(index := k, adjacentNodes := topology.tileNodes[k])
    {
      var i := 0;
      while i < TileCount
        invariant 0 <= i <= TileCount
        invariant forall k :: 0 <= k < i ==> ts[k] == old(ts[k]).(index := k, adjacentNodes := topology.tileNodes[k])
        invariant forall k :: i <= k < TileCount ==> ts[k] == old(ts[k])
      {
        ts[i] := ts[i].(index := i, adjacentNodes := topology.tileNodes[i]);
        i := i + 1;
      }
    }

    /**
     * Places a road on an empty edge that touches, through one of its nodes, another
     * edge holding a road of the same player. Returns (placed, already occupied).
     */
    method PlaceRoad(road: Building) returns (placed: bool, occupied: bool)
      requires Valid()
      requires road.Road? ==> road.pos < EdgeCount
      modifies edges
      ensures Valid()
      ensures !road.Road? ==> !placed && !occupied
      ensures road.Road? ==> occupied == HasRoad(old(edges[road.pos]))
      ensures road.Road? ==> placed == (!occupied && old(RoadConnected(road.pos, road.owner)))
      ensures edges[..] == if placed then SetEdge(old(edges[..]), road.pos, Some(road)) else old(edges[..])
    {
      if !road.Road? {
        return false, false;
      }
      var position, player := road.pos, road.owner;
      var attempted := edges[position];
      if attempted.building.Some? {
        return false, true;
      }
      var currentEdges := NeighbourEdges(position);
      var k := 0;
      while k < |currentEdges|
        invariant 0 <= k <= |currentEdges|
        invariant forall m :: 0 <= m < k ==> !OwnsRoad(edges[currentEdges[m]].building, player)
      {
        var current := edges[currentEdges[k]].building;
        if current.Some? && current.value.Road? && current.value.owner == player {
          edges[position] := attempted.(building := Some(road));
          return true, false;
        }
        k := k + 1;
      }
      assert !RoadConnected(position, player);
      return false, false;
    }

    /** Edge x shares node k of edge e's list of nodes, and is not e itself. */
    ghost predicate Touches(e: nat, k: nat, x: nat)
      reads this, nodes, edges, tiles
      requires Valid() && e < EdgeCount
    {
      k < |edges[e].adjacentNodes| && x in nodes[edges[e].adjacentNodes[k]].adjacentEdges && x != e
    }

    /** Edge x shares a node with edge e and is not e itself. */
    ghost predicate Adjoins(e: nat, x: nat)
      reads this, nodes, edges, tiles
      requires Valid() && e < EdgeCount
    {
      exists k: nat :: Touches(e, k, x)
    }

    /** Adjoining edges are those the table links. */
    lemma AdjoinsByTable(e: nat, x: nat)
      requires Valid() && e < EdgeCount
      ensures Adjoins(e, x) <==> Linked(topology, e, x)
    {
      if Adjoins(e, x) {
        var k: nat :| Touches(e, k, x);
      }
      if Linked(topology, e, x) {
        var k: nat :| k < |topology.edgeNodes[e]| && x in topology.nodeEdges[topology.edgeNodes[e][k]] && x != e;
        assert Touches(e, k, x);
      }
    }

    /** Connection to a road depends only on the table and the edges' roads. */
    lemma ConnectedByTable(e: nat, player: nat)
      requires Valid() && e < EdgeCount
      ensures RoadConnected(e, player) <==> ConnectedIn(topology, edges[..], e, player)
    {
      if RoadConnected(e, player) {
        var x: nat :| Adjoins(e, x) && OwnsRoad(edges[x].building, player);
        AdjoinsByTable(e, x);
        var k: nat :| k < |topology.edgeNodes[e]| && x in topology.nodeEdges[topology.edgeNodes[e][k]] && x != e;
        assert x < EdgeCount;
      }
      if ConnectedIn(topology, edges[..], e, player) {
        var x: nat :| x < EdgeCount && Linked(topology, e, x) && OwnsRoad(edges[x].building, player);
        AdjoinsByTable(e, x);
      }
    }

    /** The edges sharing a node with edge e, other than e, in the order the nodes list them. */
    method NeighbourEdges(e: nat) returns (r: seq<nat>)
      requires Valid() && e < EdgeCount
      ensures forall m :: 0 <= m < |r| ==> r[m] < EdgeCount && Adjoins(e, r[m])
      ensures forall k: nat, x: nat :: Touches(e, k, x) ==> x in r
    {
      var currentNodes := edges[e].adjacentNodes;
      r := [];
      var i := 0;
      while i < |currentNodes|
        invariant 0 <= i <= |currentNodes|
        invariant forall m :: 0 <= m < |r| ==> r[m] < EdgeCount && Adjoins(e, r[m])
        invariant forall k: nat, x: nat :: k < i && Touches(e, k, x) ==> x in r
      {
        var adjacent := nodes[currentNodes[i]].adjacentEdges;
        var j := 0;
        while j < |adjacent|
          invariant 0 <= j <= |adjacent|
          invariant forall m :: 0 <= m < |r| ==> r[m] < EdgeCount && Adjoins(e, r[m])
          invariant forall k: nat, x: nat :: k < i && Touches(e, k, x) ==> x in r
          invariant forall x :: x in adjacent[..j] && x != e ==> x in r
        {
          if edges[adjacent[j]].position != edges[e].position {
            assert Touches(e, i, adjacent[j]);
            assert Adjoins(e, adjacent[j]);
            r := r + [adjacent[j]];
          }
          assert adjacent[..j + 1] == adjacent[..j] + [adjacent[j]];
          j := j + 1;
        }
        assert adjacent[..j] == adjacent;
        i := i + 1;
      }
    }

    /**
     * Places a settlement on an empty node when no node one edge away is built
     * on and an edge at the node holds a road of the same player.
     */
    method PlaceSettlement(settlement: Building) returns (ok: bool)
      requires Valid()
      requires settlement.Settlement? ==> settlement.pos < NodeCount
      modifies nodes
      ensures Valid()
      ensures ok == (settlement.Settlement? && old(!HasBuilding(nodes[settlement.pos])
        && NeighboursEmpty(settlement.pos) && RoadAt(settlement.pos, settlement.owner)))
      ensures nodes[..] == if ok then SetNode(old(nodes[..]), settlement.pos, Some(settlement)) else old(nodes[..])
    {
      if !settlement.Settlement? {
        return false;
      }
      var position, player := settlement.pos, settlement.owner;
      var attempted := nodes[position];
      if HasBuilding(attempted) {
        return false;
      }
      var hasNearbyRoad := false;
      var adjacentEdges := attempted.adjacentEdges;
      var i := 0;
      while i < |adjacentEdges|
        invariant 0 <= i <= |adjacentEdges|
        invariant hasNearbyRoad <==> exists k :: 0 <= k < i && OwnsRoad(edges[adjacentEdges[k]].building, player)
        invariant forall k, m :: 0 <= k < i && m in edges[adjacentEdges[k]].adjacentNodes ==> !HasBuilding(nodes[m])
      {
        var current := edges[adjacentEdges[i]];
        if HasRoad(current) {
          assert current.building.value.Road?;
          if player == current.building.value.owner {
            hasNearbyRoad := true;
          }
        }
        var neighbours := current.adjacentNodes;
        var j := 0;
        while j < |neighbours|
          invariant 0 <= j <= |neighbours|
          invariant forall m :: 0 <= m < j ==> !HasBuilding(nodes[neighbours[m]])
        {
          if HasBuilding(nodes[neighbours[j]]) {
            return false;
          }
          j := j + 1;
        }
        i := i + 1;
      }
      if !hasNearbyRoad {
        return false;
      }
      nodes[position] := attempted.(building := Some(settlement));
      return true;
    }

    /**
     * Replaces a settlement by the city. An empty node is reported as success
     * and left empty; the owner check is skipped unless the recorded position
     * also differs.
     */
    method PlaceCity(city: Building) returns (ok: bool)
      requires Valid()
      requires city.City? ==> city.pos < NodeCount
      modifies nodes
      ensures Valid()
      ensures !city.City? ==> !ok
      ensures city.City? && !HasBuilding(old(nodes[city.pos])) ==> ok
      ensures city.City? && HasBuilding(old(nodes[city.pos])) ==>
        ok == (old(nodes[city.pos].building.value).Settlement? &&
               !(old(nodes[city.pos].building.value.owner) != city.owner && old(nodes[city.pos].building.value.pos) != city.pos))
      ensures city.City? && old(nodes[city.pos].building).Some? && old(nodes[city.pos].building.value).Settlement? ==> ok
      ensures nodes[..] == if ok && HasBuilding(old(nodes[city.pos])) then SetNode(old(nodes[..]), city.pos, Some(city))
                           else old(nodes[..])
    {
      if !city.City? {
        return false;
      }
      var position, player := city.pos, city.owner;
      var current := nodes[position];
      if HasBuilding(current) {
        if !current.building.value.Settlement? {
          return false;
        }
        var pos, play := current.building.value.pos, current.building.value.owner;
        if pos != position && play != player {
          return false;
        }
        nodes[position] := current.(building := Some(city));
        return true;
      }
      return true;
    }

    /** A starting settlement: no road is needed, only an empty node with empty neighbours. */
    method PlaceInitialSettlement(settlement: Building) returns (ok: bool)
      requires Valid()
      modifies nodes
      ensures Valid()
      ensures ok == (settlement.Settlement? && settlement.pos < NodeCount
        && old(!HasBuilding(nodes[settlement.pos]) && NeighboursEmpty(settlement.pos)))
      ensures nodes[..] == if ok then SetNode(old(nodes[..]), settlement.pos, Some(settlement)) else old(nodes[..])
    {
      if !settlement.Settlement? {
        return false;
      }
      var position := settlement.pos;
      if position > 53 {
        return false;
      }
      var current := nodes[position];
      if HasBuilding(current) {
        return false;
      }
      var adjacentEdges := current.adjacentEdges;
      var i := 0;
      while i < |adjacentEdges|
        invariant 0 <= i <= |adjacentEdges|
        invariant forall k, m :: 0 <= k < i && m in edges[adjacentEdges[k]].adjacentNodes ==> !HasBuilding(nodes[m])
      {
        var neighbours := edges[adjacentEdges[i]].adjacentNodes;
        var j := 0;
        while j < |neighbours|
          invariant 0 <= j <= |neighbours|
          invariant forall m :: 0 <= m < j ==> !HasBuilding(nodes[neighbours[m]])
        {
          // The node being settled is locked while its neighbours are probed, so it is skipped.
          if neighbours[j] != position && HasBuilding(nodes[neighbours[j]]) {
            return false;
          }
          j := j + 1;
        }
        i := i + 1;
      }
      nodes[position] := current.(building := Some(settlement));
      return true;
    }

    /** A starting road: an empty edge with a settlement (not a city) of the player at one of its nodes. */
    method PlaceInitialRoad(road: Building) returns (ok: bool)
      requires Valid()
      requires road.Road? ==> road.pos < EdgeCount
      modifies edges
      ensures Valid()
      ensures ok == (road.Road? && old(!HasRoad(edges[road.pos]) && SettlementAt(road.pos, road.owner)))
      ensures nodes[..] == old(nodes[..])
      ensures edges[..] == if ok then SetEdge(old(edges[..]), road.pos, Some(road)) else old(edges[..])
    {
      if !road.Road? {
        return false;
      }
      var position, player := road.pos, road.owner;
      var current := edges[position];
      if HasRoad(current) {
        return false;
      }
      var adjacentNodeHasSettlement := false;
      var adjacentNodes := current.adjacentNodes;
      var i := 0;
      while i < |adjacentNodes|
        invariant 0 <= i <= |adjacentNodes|
        invariant adjacentNodeHasSettlement <==>
          exists k :: 0 <= k < i && OwnsSettlement(nodes[adjacentNodes[k]].building, player)
      {
        var node := nodes[adjacentNodes[i]];
        if HasBuilding(node) && node.building.value.Settlement? && node.building.value.owner == player {
          adjacentNodeHasSettlement := true;
        }
        i := i + 1;
      }
      if !adjacentNodeHasSettlement {
        return false;
      }
      edges[position] := current.(building := Some(road));
      return true;
    }

    /** Clears the edge named by a road, whatever it held. */
    method RemoveRoad(road: Building) returns (ok: bool)
      requires Valid()
      requires road.Road? ==> road.pos < EdgeCount
      modifies edges
      ensures Valid()
      ensures ok == road.Road?
      ensures edges[..] == if ok then SetEdge(old(edges[..]), road.pos, None) else old(edges[..])
    {
      if !road.Road? {
        return false;
      }
      edges[road.pos] := edges[road.pos].(building := None);
      return true;
    }
  }
}
