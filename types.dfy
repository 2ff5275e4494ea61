/** Small value types shared by the whole rules engine. */
module Types {

  datatype Option<T> = None | Some(value: T)

  /** The five resource kinds, in the order the engine's metadata tables use. */
  datatype ResourceCard = Ore | Wheat | Sheep | Brick | Lumber

  /** The kinds in metadata order: index 0 is Ore, ..., index 4 is Lumber. */
  const Kinds: seq<ResourceCard> := [Ore, Wheat, Sheep, Brick, Lumber]

  function ResourceOfIndex(i: nat): (k: ResourceCard)
    requires i < 5
    ensures Kinds[i] == k
  {
    Kinds[i]
  }

  /** The position of a kind in Kinds. */
  function Rank(k: ResourceCard): (i: nat)
    ensures i < 5 && Kinds[i] == k
    ensures forall j :: 0 <= j < 5 && Kinds[j] == k ==> j == i
  {
    match k
    case Ore => 0
    case Wheat => 1
    case Sheep => 2
    case Brick => 3
    case Lumber => 4
  }

  lemma KindsComplete(k: ResourceCard)
    ensures k in Kinds
  {
  }

  datatype Terrain = Plains | Forest | Mountains | Hills | Fields | Desert

  datatype Port = ThreeToOne | LumberPort | OrePort | WheatPort | SheepPort | BrickPort

  datatype DevelopmentCard = Knight | RoadBuilding | YearOfPlenty | Monopoly | VictoryPoint

  /** A building with its position (node or edge index) and its owner. */
  datatype Building = Settlement(pos: nat, owner: nat) | City(pos: nat, owner: nat) | Road(pos: nat, owner: nat)

  datatype ActionType =
    | RollDice
    | PlaceRobber
    | PlaySettlement
    | PlayRoad
    | PlayCity
    | OfferTrade
    | AcceptTrade
    | DeclineTrade
    | PlayDevelopmentCard
    | DrawDevelopmentCard
    | Discard
    | EndTurn

  /** The ten unsigned integers an action carries. */
  type Metadata = s: seq<nat> | |s| == 10 witness [0, 0, 0, 0, 0, 0, 0, 0, 0, 0]

  datatype Action = Action(actionType: ActionType, metadata: Metadata)

  datatype TradeOffer = TradeOffer(
    playerOffererId: nat,
    receivingResources: map<ResourceCard, nat>,
    givingResources: map<ResourceCard, nat>)

  /** A resource request built from five consecutive metadata entries, Ore first. */
  function RequestAt(md: Metadata, start: nat): (m: map<ResourceCard, nat>)
    requires start <= 5
    ensures m.Keys == {Ore, Wheat, Sheep, Brick, Lumber}
    ensures forall i :: 0 <= i < 5 ==> m[Kinds[i]] == md[start + i]
  {
    map[Ore := md[start], Wheat := md[start + 1], Sheep := md[start + 2],
        Brick := md[start + 3], Lumber := md[start + 4]]
  }
}
