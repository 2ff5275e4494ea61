/** The numeric code of a development card, and the table that decodes it. */
module DevelopmentCards {
  import opened Types

  /** The code of a card: Knight 0, Monopoly 1, RoadBuilding 2, VictoryPoint 3, YearOfPlenty 4. */
  function Value(c: DevelopmentCard): (v: nat)
    ensures v < 5
    ensures v == 0 <==> c == Knight
    ensures v == 1 <==> c == Monopoly
    ensures v == 2 <==> c == RoadBuilding
    ensures v == 3 <==> c == VictoryPoint
    ensures v == 4 <==> c == YearOfPlenty
  {
    match c
    case Knight => 0
    case Monopoly => 1
    case RoadBuilding => 2
    case VictoryPoint => 3
    case YearOfPlenty => 4
  }

  /** The decoding table used when a card is played: codes above 4 read as VictoryPoint. */
  function CardOfTag(tag: nat): (c: DevelopmentCard)
    ensures tag > 4 ==> c == VictoryPoint
  {
    match tag
    case 0 => Knight
    case 1 => Monopoly
    case 2 => RoadBuilding
    case 3 => VictoryPoint
    case 4 => YearOfPlenty
    case _ => VictoryPoint
  }

  lemma ValueInjective(c1: DevelopmentCard, c2: DevelopmentCard)
    ensures Value(c1) == Value(c2) ==> c1 == c2
  {
  }

  lemma DecodeValue(c: DevelopmentCard)
    ensures CardOfTag(Value(c)) == c
  {
  }

  /** Every code below 5 is the code of the card it decodes to. */
  lemma ValueOfDecode(tag: nat)
    requires tag < 5
    ensures Value(CardOfTag(tag)) == tag
  {
  }
}
