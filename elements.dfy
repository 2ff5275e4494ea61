/** The board's cells: nodes (settlement sites), edges (road sites) and tiles (hexes). */
module Elements {
  import opened Types

  datatype Node = Node(
    position: nat,
    building: Option<Building>,
    adjacentEdges: seq<nat>,
    adjacentTiles: seq<nat>)

  datatype Edge = Edge(
    position: nat,
    building: Option<Building>,
    adjacentNodes: seq<nat>)

  datatype Tile = Tile(
    index: nat,
    terrain: Terrain,
    chit: int,
    adjacentNodes: seq<nat>,
    hasRobber: bool)

  /** A fresh node: no building and no adjacency yet. */
  function NewNode(position: nat): (n: Node)
    ensures n.position == position
    ensures !HasBuilding(n)
    ensures n.adjacentEdges == [] && n.adjacentTiles == []
  {
    Node(position, None, [], [])
  }

  /** Whether any building, of any variant, stands on the node. */
  function HasBuilding(n: Node): (r: bool)
    ensures r <==> exists b :: n.building == Some(b)
  {
    match n.building
    case Some(_) => true
    case None => false
  }

  /** A fresh edge: no building and no adjacency yet. */
  function NewEdge(position: nat): (e: Edge)
    ensures e.position == position
    ensures !HasRoad(e)
    ensures e.adjacentNodes == []
  {
    Edge(position, None, [])
  }

  /** Whether the edge holds a building; the variant is not inspected. */
  function HasRoad(e: Edge): (r: bool)
    ensures r <==> exists b :: e.building == Some(b)
  {
    match e.building
    case Some(_) => true
    case None => false
  }

  /** A fresh tile; only a desert tile starts with the robber. */
  function NewTile(index: nat, terrain: Terrain, chit: int): (t: Tile)
    ensures t.index == index && t.terrain == terrain && t.chit == chit
    ensures t.adjacentNodes == []
    ensures t.hasRobber <==> terrain == Desert
  {
    if terrain == Desert then
      Tile(index, terrain, chit, [], true)
    else
      Tile(index, terrain, chit, [], false)
  }

  /** A road is reported present on an edge whatever building it holds. */
  lemma HasRoadIgnoresVariant(e: Edge, b: Building)
    ensures HasRoad(e.(building := Some(b)))
    ensures !HasRoad(e.(building := None))
  {
  }
}
