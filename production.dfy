/**
 * What a dice roll yields: every built node next to a tile whose chit equals
 * the roll earns that tile's resource, one card for a settlement and two for
 * a city. The yield is a list of gains, applied to the four hands in order.
 */
module Production {
  import opened Types
  import opened Elements
  import opened Players
  import Boards

  /** The resource a terrain produces; the desert produces none. */
  function TerrainResource(t: Terrain): (r: Option<ResourceCard>)
    ensures r.None? <==> t == Desert
  {
    match t
    case Fields => Some(Wheat)
    case Forest => Some(Lumber)
    case Hills => Some(Brick)
    case Plains => Some(Sheep)
    case Mountains => Some(Ore)
    case Desert => None
  }

  /** `amount` cards of `kind` for the player `owner`. */
  datatype Gain = Gain(owner: nat, kind: ResourceCard, amount: nat)

  /** What one node earns from a producing tile of the given resource. */
  function NodeGains(b: Option<Building>, kind: ResourceCard): (r: seq<Gain>)
    ensures |r| <= 1
    ensures |r| == 1 <==> b.Some? && !b.value.Road?
    ensures forall g :: g in r ==> g.owner == b.value.owner && g.kind == kind
    ensures forall g :: g in r ==> g.amount == if b.value.City? then 2 else 1
  {
    match b
    case Some(City(_, owner)) => [Gain(owner, kind, 2)]
    case Some(Settlement(_, owner)) => [Gain(owner, kind, 1)]
    case _ => []
  }

  /** What one node with building b earns from tile t: nothing on the desert. */
  function Yield(t: Tile, b: Option<Building>): (r: seq<Gain>)
    ensures |r| <= 1
    ensures r == [] <==> TerrainResource(t.terrain).None? || b.None? || b.value.Road?
    ensures |r| == 1 ==> r[0] == Gain(b.value.owner, TerrainResource(t.terrain).value, if b.value.City? then 2 else 1)
  {
    match TerrainResource(t.terrain)
    case None => []
    case Some(kind) => NodeGains(b, kind)
  }

  /** The gains from the first j nodes of a producing tile. */
  function TileGains(t: Tile, ns: seq<Node>, j: nat): seq<Gain>
    requires j <= |t.adjacentNodes| && Boards.AllBelow(t.adjacentNodes, |ns|)
    decreases j
  {
    if j == 0 then [] else TileGains(t, ns, j - 1) + Yield(t, ns[t.adjacentNodes[j - 1]].building)
  }

  predicate NodesInRange(ts: seq<Tile>, n: nat) {
    forall t :: 0 <= t < |ts| ==> Boards.AllBelow(ts[t].adjacentNodes, n)
  }

  /** The gains from the first i tiles for the given roll. */
  function RollGains(ts: seq<Tile>, ns: seq<Node>, roll: int, i: nat): seq<Gain>
    requires i <= |ts| && NodesInRange(ts, |ns|)
    decreases i
  {
    if i == 0 then []
    else
      RollGains(ts, ns, roll, i - 1) +
      if ts[i - 1].chit == roll then TileGains(ts[i - 1], ns, |ts[i - 1].adjacentNodes|) else []
  }

  /** The hands after one gain. */
  function Credited(hands: seq<Hand>, g: Gain): (r: seq<Hand>)
    ensures |r| == |hands|
  {
    if g.owner < |hands| && g.kind in hands[g.owner] then
      hands[g.owner := hands[g.owner][g.kind := hands[g.owner][g.kind] + g.amount]]
    else hands
  }

  /** The hands after the gains, applied first to last. */
  function Apply(hands: seq<Hand>, gs: seq<Gain>): (r: seq<Hand>)
    ensures |r| == |hands|
    decreases |gs|
  {
    if gs == [] then hands else Credited(Apply(hands, gs[..|gs| - 1]), gs[|gs| - 1])
  }

  /** Crediting a single kind raises that one count. */
  lemma CreditOne(h: Hand, kind: ResourceCard, amount: nat)
    requires kind in h
    ensures Credit(h, map[kind := amount]) == h[kind := h[kind] + amount]
  {
    assert Credit(h, map[kind := amount]).Keys == h[kind := h[kind] + amount].Keys;
  }

  /** One more gain at the end is one more credit. */
  lemma ApplySnoc(hands: seq<Hand>, gs: seq<Gain>, g: Gain)
    ensures Apply(hands, gs + [g]) == Credited(Apply(hands, gs), g)
  {
    assert (gs + [g])[..|gs|] == gs;
  }

  /** Adding at most one gain to the list adds at most one credit. */
  lemma ApplyStep(hands: seq<Hand>, gs: seq<Gain>, y: seq<Gain>)
    requires |y| <= 1
    ensures Apply(hands, gs + y) == if y == [] then Apply(hands, gs) else Credited(Apply(hands, gs), y[0])
  {
    if y == [] {
      assert gs + y == gs;
    } else {
      ApplySnoc(hands, gs, y[0]);
      assert y == [y[0]];
    }
  }

  /** Applying two lists of gains one after the other is applying their concatenation. */
  lemma {:induction false} ApplyAppend(hands: seq<Hand>, a: seq<Gain>, b: seq<Gain>)
    ensures Apply(hands, a + b) == Apply(Apply(hands, a), b)
    decreases |b|
  {
    if b == [] {
      assert a + b == a;
    } else {
      assert (a + b)[..|a + b| - 1] == a + b[..|b| - 1];
      ApplyAppend(hands, a, b[..|b| - 1]);
    }
  }

  /** Gains never lower a count, so applied to full, non-negative hands they keep them so. */
  lemma {:induction false} ApplyKeepsHands(hands: seq<Hand>, gs: seq<Gain>)
    requires forall p :: 0 <= p < |hands| ==> FullHand(hands[p]) && NonNegative(hands[p])
    ensures forall p :: 0 <= p < |hands| ==>
      var h := Apply(hands, gs)[p];
      FullHand(h) && NonNegative(h) && forall k: ResourceCard :: k in hands[p] ==> h[k] >= hands[p][k]
    decreases |gs|
  {
    if gs != [] {
      ApplyKeepsHands(hands, gs[..|gs| - 1]);
    }
  }

  /** One more node of a tile adds what that node yields. */
  lemma TileStep(hands: seq<Hand>, t: Tile, ns: seq<Node>, j: nat)
    requires j < |t.adjacentNodes| && Boards.AllBelow(t.adjacentNodes, |ns|)
    ensures Apply(hands, TileGains(t, ns, j + 1)) ==
      Apply(Apply(hands, TileGains(t, ns, j)), Yield(t, ns[t.adjacentNodes[j]].building))
  {
    ApplyAppend(hands, TileGains(t, ns, j), Yield(t, ns[t.adjacentNodes[j]].building));
  }

  /** One more tile adds its gains when its chit equals the roll, and nothing otherwise. */
  lemma RollStep(hands: seq<Hand>, ts: seq<Tile>, ns: seq<Node>, roll: int, i: nat)
    requires i < |ts| && NodesInRange(ts, |ns|)
    ensures Apply(hands, RollGains(ts, ns, roll, i + 1)) ==
      if ts[i].chit == roll then Apply(Apply(hands, RollGains(ts, ns, roll, i)), TileGains(ts[i], ns, |ts[i].adjacentNodes|))
      else Apply(hands, RollGains(ts, ns, roll, i))
  {
    if ts[i].chit == roll {
      ApplyAppend(hands, RollGains(ts, ns, roll, i), TileGains(ts[i], ns, |ts[i].adjacentNodes|));
    } else {
      assert RollGains(ts, ns, roll, i + 1) == RollGains(ts, ns, roll, i) + [];
      assert RollGains(ts, ns, roll, i) + [] == RollGains(ts, ns, roll, i);
    }
  }

  /** No tile whose chit differs from the roll yields anything. */
  lemma {:induction false} OffChitYieldsNothing(ts: seq<Tile>, ns: seq<Node>, roll: int, i: nat)
    requires i <= |ts| && NodesInRange(ts, |ns|)
    requires forall t :: 0 <= t < |ts| ==> ts[t].chit != roll
    ensures RollGains(ts, ns, roll, i) == []
    decreases i
  {
    if i > 0 {
      OffChitYieldsNothing(ts, ns, roll, i - 1);
    }
  }

  /** Every gain of a tile is one or two cards of its resource for the owner of a node around it. */
  lemma {:induction false} TileGainsShape(t: Tile, ns: seq<Node>, j: nat)
    requires j <= |t.adjacentNodes| && Boards.AllBelow(t.adjacentNodes, |ns|)
    ensures forall g :: g in TileGains(t, ns, j) ==>
      Some(g.kind) == TerrainResource(t.terrain) && 1 <= g.amount <= 2 &&
      exists m :: 0 <= m < j && ns[t.adjacentNodes[m]].building.Some? && ns[t.adjacentNodes[m]].building.value.owner == g.owner
    decreases j
  {
    if j > 0 {
      TileGainsShape(t, ns, j - 1);
      var last := Yield(t, ns[t.adjacentNodes[j - 1]].building);
      assert TileGains(t, ns, j) == TileGains(t, ns, j - 1) + last;
      forall g | g in TileGains(t, ns, j)
        ensures Some(g.kind) == TerrainResource(t.terrain) && 1 <= g.amount <= 2 &&
          exists m :: 0 <= m < j && ns[t.adjacentNodes[m]].building.Some? && ns[t.adjacentNodes[m]].building.value.owner == g.owner
      {
        if g in TileGains(t, ns, j - 1) {
          var m :| 0 <= m < j - 1 && ns[t.adjacentNodes[m]].building.Some? && ns[t.adjacentNodes[m]].building.value.owner == g.owner;
          assert 0 <= m < j;
        } else {
          assert g in last;
          assert ns[t.adjacentNodes[j - 1]].building.Some?;
        }
      }
    }
  }
}
