/** The player: a hand plus the two moves it makes itself, hit and stand. */
module Players {
  import opened Cards
  import opened Hands
  import opened Packs

  /** A hand together with what is left of the pack. */
  datatype HandAndPack = HandAndPack(hand: HandState, pack: seq<Card>)

  /** `Hit`: the front card of the pack goes to the end of the hand. */
  function HitHand(h: HandState, pack: seq<Card>): HandAndPack
    requires pack != []
  {
    HandAndPack(WithCard(h, pack[0]), pack[1..])
  }

  /** `Stand`: a soft hand above 21 is softened once; any other hand is left as it is. */
  function StandHand(h: HandState): HandState {
    if h.isSoft && h.value > 21 then Softened(h) else h
  }

  /** Standing never changes the cards, the soft flag or the shown value, and subtracts 10 from
      the value exactly when the hand is soft and above 21. */
  lemma StandSoftensOnlyBustSoft(h: HandState)
    ensures StandHand(h).cards == h.cards && StandHand(h).isSoft == h.isSoft
    ensures StandHand(h).dealerValue == h.dealerValue
    ensures StandHand(h).value == h.value - 10 <==> h.isSoft && h.value > 21
    ensures StandHand(h).value == h.value <==> !(h.isSoft && h.value > 21)
  {
  }

  /** Standing softens at most once, so a soft hand above 31 is still above 21 afterwards. */
  lemma StandCanStayAbove21(h: HandState)
    requires h.isSoft && h.value > 31
    ensures StandHand(h).value > 21
  {
  }

  /** Three aces: 33, soft; standing leaves 23. */
  lemma ThreeAcesStandOn23()
    ensures var aces := HandOf([NewCard(1), NewCard(1), NewCard(1)]);
            aces.value == 33 && aces.isSoft && StandHand(aces).value == 23
  {
    var ace := NewCard(1);
    assert [ace][..0] == [];
    assert [ace, ace][..1] == [ace];
    assert [ace, ace, ace][..2] == [ace, ace];
    assert HandOf([ace]) == WithCard(EmptyHand, ace);
    assert HandOf([ace, ace]) == WithCard(HandOf([ace]), ace);
    assert HandOf([ace, ace, ace]) == WithCard(HandOf([ace, ace]), ace);
  }

  class Player {
    const hand: Hand

    constructor ()
      ensures fresh(hand) && hand.Valid() && hand.Snapshot() == EmptyHand
    {
      hand := new Hand();
    }

    /** Draws the front card of the pack into the hand. */
    method Hit(pack: CardPack)
      requires hand.Valid() && pack.cards != []
      modifies hand, pack
      ensures hand.Valid()
      ensures HandAndPack(hand.Snapshot(), pack.cards) == HitHand(old(hand.Snapshot()), old(pack.cards))
    {
      var drawn := pack.DrawCard();
      hand.AddCard(drawn);
    }

    /** Takes no card; a soft hand above 21 is softened once. */
    method Stand()
      requires hand.Valid()
      modifies hand
      ensures hand.Valid()
      ensures hand.Snapshot() == StandHand(old(hand.Snapshot()))
    {
      if hand.isSoft && hand.value > 21 {
        hand.SoftenValue();
      }
    }
  }
}
