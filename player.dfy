/**
 * One seat at the table: a resource hand and a development-card hand, both
 * keyed by kind, plus placement counters, score flags and placement histories.
 */
module Players {
  import opened Types

  type Hand = map<ResourceCard, int>
  type Request = map<ResourceCard, nat>

  /** Every kind the request names is held in at least the requested amount. */
  predicate Covers(hand: Hand, req: Request) {
    forall k :: k in req ==> k in hand && hand[k] >= req[k]
  }

  /** The hand with every requested kind lowered by its amount. */
  function Deduct(hand: Hand, req: Request): Hand {
    map k | k in hand :: if k in req then hand[k] - req[k] else hand[k]
  }

  /** The hand with every requested kind raised by its amount. */
  function Credit(hand: Hand, req: Request): Hand {
    map k | k in hand :: if k in req then hand[k] + req[k] else hand[k]
  }

  predicate FullHand(hand: Hand) {
    forall k: ResourceCard :: k in hand
  }

  predicate NonNegative(hand: Hand) {
    forall k :: k in hand ==> hand[k] >= 0
  }

  /** The sum of the counts of the listed kinds, taken from the last kind backwards. */
  function SumOver(hand: Hand, kinds: seq<ResourceCard>): int
    requires FullHand(hand)
  {
    if kinds == [] then 0 else SumOver(hand, kinds[..|kinds| - 1]) + hand[kinds[|kinds| - 1]]
  }

  /** The number of resource cards in a hand. */
  function TotalCards(hand: Hand): int
    requires FullHand(hand)
  {
    SumOver(hand, Kinds)
  }

  lemma {:induction false} SumOverNonNegative(hand: Hand, kinds: seq<ResourceCard>)
    requires FullHand(hand) && NonNegative(hand)
    ensures SumOver(hand, kinds) >= 0
    decreases |kinds|
  {
    if kinds != [] {
      SumOverNonNegative(hand, kinds[..|kinds| - 1]);
    }
  }

  /** A hand holding some card of a kind has a positive total. */
  lemma {:induction false} SumOverPositive(hand: Hand, kinds: seq<ResourceCard>, k: ResourceCard)
    requires FullHand(hand) && NonNegative(hand)
    requires k in kinds && hand[k] > 0
    ensures SumOver(hand, kinds) > 0
    decreases |kinds|
  {
    var last := kinds[|kinds| - 1];
    if last == k {
      SumOverNonNegative(hand, kinds[..|kinds| - 1]);
    } else {
      assert k in kinds[..|kinds| - 1] by {
        var i :| 0 <= i < |kinds| && kinds[i] == k;
        assert kinds[..|kinds| - 1][i] == k;
      }
      SumOverPositive(hand, kinds[..|kinds| - 1], k);
    }
  }

  /** One more lot of `amount`. */
  lemma OneMore(c: int, amount: int)
    ensures (c + 1) * amount == c * amount + amount
  {
  }

  /** Raising one count raises the sum by that amount for every time the kind is listed. */
  lemma {:induction false} SumOverRaise(hand: Hand, k: ResourceCard, amount: int, kinds: seq<ResourceCard>)
    requires FullHand(hand)
    ensures SumOver(hand[k := hand[k] + amount], kinds) == SumOver(hand, kinds) + multiset(kinds)[k] * amount
    decreases |kinds|
  {
    if kinds != [] {
      var init, last := kinds[..|kinds| - 1], kinds[|kinds| - 1];
      var raised := hand[k := hand[k] + amount];
      SumOverRaise(hand, k, amount, init);
      assert kinds == init + [last];
      var c := multiset(init)[k];
      assert SumOver(raised, kinds) == SumOver(raised, init) + raised[last];
      assert SumOver(hand, kinds) == SumOver(hand, init) + hand[last];
      if last == k {
        assert multiset(kinds)[k] == c + 1;
        OneMore(c, amount);
      } else {
        assert multiset(kinds)[k] == c;
      }
    }
  }

  /** Raising one count by `amount` raises the number of cards by `amount`. */
  lemma TotalAfterRaise(hand: Hand, k: ResourceCard, amount: int)
    requires FullHand(hand)
    ensures TotalCards(hand[k := hand[k] + amount]) == TotalCards(hand) + amount
  {
    SumOverRaise(hand, k, amount, Kinds);
    assert multiset(Kinds)[k] == 1 by {
      assert multiset(Kinds) == multiset{Ore, Wheat, Sheep, Brick, Lumber};
    }
  }

  /** Paying what was just received succeeds and gives back the original hand. */
  lemma CreditThenDeduct(hand: Hand, req: Request)
    requires FullHand(hand) && NonNegative(hand)
    ensures Covers(Credit(hand, req), req)
    ensures Deduct(Credit(hand, req), req) == hand
  {
    assert forall k :: k in hand ==> Deduct(Credit(hand, req), req)[k] == hand[k];
  }

  /** Handing back what was just paid restores the hand. */
  lemma DeductThenCredit(hand: Hand, req: Request)
    ensures Credit(Deduct(hand, req), req) == hand
  {
    assert forall k :: k in hand ==> Credit(Deduct(hand, req), req)[k] == hand[k];
  }

  /** A covered payment never drives a count below zero. */
  lemma DeductKeepsNonNegative(hand: Hand, req: Request)
    requires NonNegative(hand) && Covers(hand, req)
    ensures NonNegative(Deduct(hand, req))
    ensures Deduct(hand, req).Keys == hand.Keys
  {
  }

  class Player {
    var id: nat
    var numUnplacedCities: int
    var numUnplacedSettlements: int
    var numUnplacedRoads: int
    var resourceCards: Hand
    var developmentCards: map<DevelopmentCard, int>
    var longestRoad: bool
    var largestArmy: bool
    var settlementPlacements: seq<int>
    var roadPlacements: seq<int>
    var cityPlacements: seq<int>
    var actionQueue: seq<Action>

    /** Both hands list every kind, and no resource count is negative. */
    ghost predicate Valid()
      reads this
    {
      && FullHand(resourceCards)
      && NonNegative(resourceCards)
      && (forall c: DevelopmentCard :: c in developmentCards)
    }

    constructor (id: nat)
      ensures Valid()
      ensures this.id == id
      ensures numUnplacedCities == 4 && numUnplacedSettlements == 5 && numUnplacedRoads == 15
      ensures forall k: ResourceCard :: resourceCards[k] == 0
      ensures forall c: DevelopmentCard :: developmentCards[c] == 0
      ensures !longestRoad && !largestArmy
      ensures settlementPlacements == [] && roadPlacements == [] && cityPlacements == []
      ensures actionQueue == []
    {
      this.id := id;
      numUnplacedCities := 4;
      numUnplacedSettlements := 5;
      numUnplacedRoads := 15;
      resourceCards := map[Brick := 0, Lumber := 0, Ore := 0, Sheep := 0, Wheat := 0];
      developmentCards := map[Knight := 0, Monopoly := 0, RoadBuilding := 0, VictoryPoint := 0, YearOfPlenty := 0];
      longestRoad := false;
      largestArmy := false;
      settlementPlacements := [];
      roadPlacements := [];
      cityPlacements := [];
      actionQueue := [];
      new;
      forall k: ResourceCard ensures k in resourceCards && resourceCards[k] == 0 {
        KindsComplete(k);
      }
      forall c: DevelopmentCard ensures c in developmentCards && developmentCards[c] == 0 {
        assert c.Knight? || c.RoadBuilding? || c.YearOfPlenty? || c.Monopoly? || c.VictoryPoint?;
      }
    }

    /** A field-by-field copy, as the engine's `clone()` makes it. */
    constructor Clone(other: Player)
      requires other.Valid()
      ensures Valid()
      ensures id == other.id && resourceCards == other.resourceCards && developmentCards == other.developmentCards
      ensures numUnplacedCities == other.numUnplacedCities && numUnplacedSettlements == other.numUnplacedSettlements
      ensures numUnplacedRoads == other.numUnplacedRoads
      ensures longestRoad == other.longestRoad && largestArmy == other.largestArmy
      ensures settlementPlacements == other.settlementPlacements && roadPlacements == other.roadPlacements
      ensures cityPlacements == other.cityPlacements && actionQueue == other.actionQueue
    {
      id := other.id;
      numUnplacedCities := other.numUnplacedCities;
      numUnplacedSettlements := other.numUnplacedSettlements;
      numUnplacedRoads := other.numUnplacedRoads;
      resourceCards := other.resourceCards;
      developmentCards := other.developmentCards;
      longestRoad := other.longestRoad;
      largestArmy := other.largestArmy;
      settlementPlacements := other.settlementPlacements;
      roadPlacements := other.roadPlacements;
      cityPlacements := other.cityPlacements;
      actionQueue := other.actionQueue;
    }

    /** Whether every requested amount is held; reads the hand only. */
    method HasResourceCards(resources: Request) returns (r: bool)
      requires Valid()
      ensures r == Covers(resourceCards, resources)
    {
      var i := 0;
      while i < |Kinds|
        invariant 0 <= i <= |Kinds|
        invariant forall m :: 0 <= m < i && Kinds[m] in resources ==> resourceCards[Kinds[m]] >= resources[Kinds[m]]
      {
        var kind := Kinds[i];
        if kind in resources && !(resourceCards[kind] >= resources[kind]) {
          return false;
        }
        i := i + 1;
      }
      forall k | k in resources
        ensures resourceCards[k] >= resources[k]
      {
        KindsComplete(k);
      }
      return true;
    }

    /** All or nothing: either every requested kind drops by its amount, or the hand is untouched. */
    method RemoveCardsFromHand(resources: Request) returns (ok: bool)
      requires Valid()
      modifies this`resourceCards
      ensures Valid()
      ensures ok == Covers(old(resourceCards), resources)
      ensures resourceCards == if ok then Deduct(old(resourceCards), resources) else old(resourceCards)
    {
      ok := HasResourceCards(resources);
      if !ok {
        return;
      }
      ghost var before := resourceCards;
      var i := 0;
      while i < |Kinds|
        invariant 0 <= i <= |Kinds|
        invariant resourceCards.Keys == before.Keys
        invariant forall k :: k in before ==>
          resourceCards[k] == if k in resources && Rank(k) < i then before[k] - resources[k] else before[k]
      {
        var kind := Kinds[i];
        if kind in resources {
          resourceCards := resourceCards[kind := resourceCards[kind] - resources[kind]];
        }
        i := i + 1;
      }
      DeductKeepsNonNegative(before, resources);
    }

    /** Raises every requested kind by its amount. */
    method AddResourceCards(resources: Request)
      requires Valid()
      modifies this`resourceCards
      ensures Valid()
      ensures resourceCards == Credit(old(resourceCards), resources)
    {
      ghost var before := resourceCards;
      var i := 0;
      while i < |Kinds|
        invariant 0 <= i <= |Kinds|
        invariant resourceCards.Keys == before.Keys
        invariant forall k :: k in before ==>
          resourceCards[k] == if k in resources && Rank(k) < i then before[k] + resources[k] else before[k]
      {
        var kind := Kinds[i];
        if kind in resources {
          resourceCards := resourceCards[kind := resourceCards[kind] + resources[kind]];
        }
        i := i + 1;
      }
    }

    function HasDevelopmentCard(card: DevelopmentCard): (r: bool)
      reads this
      requires Valid()
      ensures r <==> developmentCards[card] > 0
    {
      card in developmentCards && developmentCards[card] > 0
    }

    method AddDevelopmentCard(card: DevelopmentCard)
      requires Valid()
      modifies this`developmentCards
      ensures Valid()
      ensures developmentCards == old(developmentCards)[card := old(developmentCards)[card] + 1]
    {
      developmentCards := developmentCards[card := developmentCards[card] + 1];
    }

    method RemoveDevelopmentCard(card: DevelopmentCard)
      requires Valid()
      modifies this`developmentCards
      ensures Valid()
      ensures developmentCards == old(developmentCards)[card := old(developmentCards)[card] - 1]
    {
      developmentCards := developmentCards[card := developmentCards[card] - 1];
    }

    /**
     * Removes one card picked among the individual cards held. The pick is
     * random in the engine; here it is any index of the list of held cards.
     */
    method StealCard() returns (stolen: ResourceCard)
      requires Valid() && TotalCards(resourceCards) > 0
      modifies this`resourceCards
      ensures Valid()
      ensures old(resourceCards)[stolen] > 0
      ensures resourceCards == old(resourceCards)[stolen := old(resourceCards)[stolen] - 1]
    {
      var available: seq<ResourceCard> := [];
      var i := 0;
      while i < |Kinds|
        invariant 0 <= i <= |Kinds|
        invariant |available| == SumOver(resourceCards, Kinds[..i])
        invariant forall x :: x in available ==> resourceCards[x] > 0
      {
        var kind := Kinds[i];
        var amount := resourceCards[kind];
        var j := 0;
        while j < amount
          invariant 0 <= j <= amount
          invariant |available| == SumOver(resourceCards, Kinds[..i]) + j
          invariant forall x :: x in available ==> resourceCards[x] > 0
        {
          available := available + [kind];
          j := j + 1;
        }
        assert Kinds[..i + 1][..i] == Kinds[..i];
        i := i + 1;
      }
      assert Kinds[..i] == Kinds;
      var idx :| 0 <= idx < |available|;
      stolen := available[idx];
      resourceCards := resourceCards[stolen := resourceCards[stolen] - 1];
    }

    /** Empties one kind and reports how many cards of it were held. */
    method RemoveAllResourcesFromHand(kind: ResourceCard) returns (amount: nat)
      requires Valid()
      modifies this`resourceCards
      ensures Valid()
      ensures amount == old(resourceCards)[kind]
      ensures resourceCards == old(resourceCards)[kind := 0]
    {
      amount := resourceCards[kind];
      resourceCards := resourceCards[kind := 0];
    }
  }
}
