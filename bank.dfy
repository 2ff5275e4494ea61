/** The shared pool of resource cards and the shuffled development-card deck with its draw cursor. */
module Banks {
  import opened Types
  import Shuffle

  type Pool = map<ResourceCard, nat>

  /** The pool after taking `amount` cards of `kind`, when it holds that many. */
  function Withdraw(pool: Pool, kind: ResourceCard, amount: nat): Pool
    requires kind in pool && pool[kind] >= amount
  {
    pool[kind := pool[kind] - amount]
  }

  /** The pool after returning `amount` cards of `kind`; a missing kind is ignored. */
  function Deposit(pool: Pool, kind: ResourceCard, amount: nat): Pool {
    if kind in pool then pool[kind := pool[kind] + amount] else pool
  }

  /** Returning what was just drawn restores the pool. */
  lemma DepositUndoesWithdraw(pool: Pool, kind: ResourceCard, amount: nat)
    requires kind in pool && pool[kind] >= amount
    ensures Deposit(Withdraw(pool, kind, amount), kind, amount) == pool
  {
  }

  /** The deck before shuffling: 13 Knight, 3 RoadBuilding, 2 YearOfPlenty, 2 Monopoly, 5 VictoryPoint. */
  function UnshuffledCard(i: nat): DevelopmentCard {
    if i < 13 then Knight
    else if i < 16 then RoadBuilding
    else if i < 18 then YearOfPlenty
    else if i < 20 then Monopoly
    else VictoryPoint
  }

  function DeckMultiset(): multiset<DevelopmentCard> {
    multiset{}[Knight := 13][RoadBuilding := 3][YearOfPlenty := 2][Monopoly := 2][VictoryPoint := 5]
  }

  function UnshuffledDeck(): (r: seq<DevelopmentCard>)
    ensures |r| == 25
  {
    seq(25, i requires 0 <= i => UnshuffledCard(i))
  }

  /** The deck of a fresh bank: the unshuffled deck shuffled by the picks. */
  function DealtDeck(picks: seq<nat>): (r: seq<DevelopmentCard>)
    requires Shuffle.ValidPicks(picks, 25)
    ensures |r| == 25
    ensures multiset(r) == DeckMultiset()
  {
    UnshuffledDeckContents();
    Shuffle.ShuffledPermutes(UnshuffledDeck(), picks);
    Shuffle.Shuffled(UnshuffledDeck(), picks)
  }

  lemma UnshuffledDeckContents()
    ensures multiset(UnshuffledDeck()) == DeckMultiset()
  {
    assert UnshuffledDeck() == Shuffle.Repeat(Knight, 13) + Shuffle.Repeat(RoadBuilding, 3)
      + Shuffle.Repeat(YearOfPlenty, 2) + Shuffle.Repeat(Monopoly, 2) + Shuffle.Repeat(VictoryPoint, 5);
    Shuffle.RepeatMultiset(Knight, 13);
    Shuffle.RepeatMultiset(RoadBuilding, 3);
    Shuffle.RepeatMultiset(YearOfPlenty, 2);
    Shuffle.RepeatMultiset(Monopoly, 2);
    Shuffle.RepeatMultiset(VictoryPoint, 5);
  }

  class Bank {
    var resourceCards: Pool
    const developmentCards: array<DevelopmentCard>
    var developmentCardPointer: nat

    ghost predicate Valid()
      reads this
    {
      && (forall k: ResourceCard :: k in resourceCards)
      && developmentCards.Length == 25
      && developmentCardPointer <= 25
    }

    /** 19 cards of every kind, and the 25-card deck shuffled by the given picks. */
    constructor (deckPicks: seq<nat>)
      requires Shuffle.ValidPicks(deckPicks, 25)
      ensures Valid()
      ensures forall k: ResourceCard :: resourceCards[k] == 19
      ensures developmentCardPointer == 0
      ensures developmentCards[..] == DealtDeck(deckPicks)
      ensures fresh(developmentCards)
    {
      developmentCardPointer := 0;
      resourceCards := map[Ore := 19, Wheat := 19, Sheep := 19, Brick := 19, Lumber := 19];
      var deck := new DevelopmentCard[25](i requires 0 <= i < 25 => UnshuffledDeck()[i]);
      assert deck[..] == UnshuffledDeck();
      Shuffle.ShuffleInPlace(deck, deckPicks);
      developmentCards := deck;
      new;
      forall k: ResourceCard ensures k in resourceCards && resourceCards[k] == 19 {
        KindsComplete(k);
      }
    }

    /** The card under the cursor, advancing the cursor; nothing once all 25 are drawn. */
    method DrawDevelopmentCard() returns (card: Option<DevelopmentCard>)
      requires Valid()
      modifies this`developmentCardPointer
      ensures Valid()
      ensures old(developmentCardPointer) == 25 ==> card == None && developmentCardPointer == 25
      ensures old(developmentCardPointer) < 25 ==>
        card == Some(developmentCards[old(developmentCardPointer)]) &&
        developmentCardPointer == old(developmentCardPointer) + 1
    {
      if developmentCardPointer == 25 {
        return None;
      }
      card := Some(developmentCards[developmentCardPointer]);
      developmentCardPointer := developmentCardPointer + 1;
    }

    /** Takes `amount` cards of `kind` when the pool holds that many; otherwise changes nothing. */
    method DrawNumberOfResourceCards(kind: ResourceCard, amount: nat) returns (ok: bool)
      requires Valid()
      modifies this`resourceCards
      ensures Valid()
      ensures ok <==> kind in old(resourceCards) && old(resourceCards)[kind] >= amount
      ensures resourceCards == if ok then Withdraw(old(resourceCards), kind, amount) else old(resourceCards)
    {
      if kind in resourceCards {
        var inPile := resourceCards[kind];
        if inPile >= amount {
          resourceCards := resourceCards[kind := inPile - amount];
          return true;
        }
        return false;
      }
      return false;
    }

    /** Returns `amount` cards of `kind` to the pool. */
    method ReplaceResourceCard(kind: ResourceCard, amount: nat)
      requires Valid()
      modifies this`resourceCards
      ensures Valid()
      ensures resourceCards == Deposit(old(resourceCards), kind, amount)
    {
      if kind in resourceCards {
        resourceCards := resourceCards[kind := resourceCards[kind] + amount];
      }
    }

    method AmountOfResource(kind: ResourceCard) returns (amount: nat)
      requires Valid()
      ensures amount == resourceCards[kind]
    {
      amount := resourceCards[kind];
    }
  }
}
