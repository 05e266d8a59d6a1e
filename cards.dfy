/** A single playing card: a rank number 1..13 mapped to its blackjack value and rank name. */
module Cards {
  import opened Outcomes

  /** The rank name of a card; `Pip(n)` is the number card whose name is the decimal string of n. */
  datatype Rank = Ace | Pip(n: int) | Jack | Queen | King

  /** A card as the constructor leaves it. `value` is the `Value` property, which that
      constructor never assigns; `rank` is `None` where `Rank` stays null. */
  datatype Card = Card(value: int, blackJackValue: int, rank: Option<Rank>)

  /** The card constructor: a case split on the rank number. */
  function NewCard(v: int): Card {
    if v == 1 then Card(0, 11, Some(Ace))
    else if 1 < v <= 10 then Card(0, v, Some(Pip(v)))
    else if v == 11 then Card(0, 10, Some(Jack))
    else if v == 12 then Card(0, 10, Some(Queen))
    else if v == 13 then Card(0, 10, Some(King))
    else Card(0, 0, None)
  }

  /** What the constructor assigns for each rank number. */
  lemma NewCardCases(v: int)
    ensures NewCard(v).value == 0
    ensures NewCard(v).rank.Some? <==> 1 <= v <= 13
    ensures NewCard(v).rank == Some(Ace) <==> v == 1
    ensures NewCard(v).blackJackValue == 11 <==> v == 1
    ensures 2 <= v <= 10 ==> NewCard(v).blackJackValue == v && NewCard(v).rank == Some(Pip(v))
    ensures 11 <= v <= 13 ==> NewCard(v).blackJackValue == 10
    ensures v == 11 ==> NewCard(v).rank == Some(Jack)
    ensures v == 12 ==> NewCard(v).rank == Some(Queen)
    ensures v == 13 ==> NewCard(v).rank == Some(King)
    ensures !(1 <= v <= 13) ==> NewCard(v).blackJackValue == 0 && NewCard(v).rank == None
  {
  }

  /** The rank number a rank name stands for: the inverse of `NewCard` on 1..13. */
  function RankNumber(r: Rank): int {
    match r
    case Ace => 1
    case Pip(n) => n
    case Jack => 11
    case Queen => 12
    case King => 13
  }

  predicate IsAce(c: Card) {
    c.rank == Some(Ace)
  }

  /** A card built from a rank number in 1..13. */
  predicate Proper(c: Card) {
    && c.rank.Some?
    && 2 <= c.blackJackValue <= 11
    && (IsAce(c) <==> c.blackJackValue == 11)
  }

  /** Every card of `cs` is built from a rank number in 1..13. */
  predicate AllProper(cs: seq<Card>) {
    forall i :: 0 <= i < |cs| ==> Proper(cs[i])
  }

  /** The rank number can be read back from every card built from 1..13. */
  lemma RankRoundTrip(v: int)
    requires 1 <= v <= 13
    ensures NewCard(v).rank.Some? && RankNumber(NewCard(v).rank.value) == v
  {
  }

  /** Every card built from 1..13 is worth 2..11, and worth 11 exactly when it is the ace. */
  lemma NewCardProper(v: int)
    requires 1 <= v <= 13
    ensures Proper(NewCard(v))
  {
  }

  /** Distinct rank numbers give distinct cards. */
  lemma NewCardInjective(v: int, w: int)
    requires 1 <= v <= 13 && 1 <= w <= 13
    ensures NewCard(v) == NewCard(w) <==> v == w
  {
    if NewCard(v) == NewCard(w) {
      RankRoundTrip(v);
      RankRoundTrip(w);
    }
  }
}
