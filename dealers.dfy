/** The dealer: a hand plus the fixed policy it plays once the player is done. */
module Dealers {
  import opened Outcomes
  import opened Cards
  import opened Hands
  import opened Packs
  import opened Players

  /** The dealer stops drawing at this total (the loop guard `Value < 17`). */
  const DealerStop: int := 17

  /** The draw loop of `Play`: draw from the front while the value is below 17. */
  function DealerDraw(h: HandState, pack: seq<Card>): Result<HandAndPack>
    decreases |pack|
  {
    if h.value >= DealerStop then Ok(HandAndPack(h, pack))
    else if pack == [] then Err(EmptyDeck)
    else DealerDraw(WithCard(h, pack[0]), pack[1..])
  }

  /** The whole of `Play`: the draw loop, one more card on a soft 17, one softening of a soft
      hand above 21, then the reveal. */
  function DealerTurn(h: HandState, pack: seq<Card>): Result<HandAndPack> {
    var drawn :- DealerDraw(h, pack);
    if drawn.hand.isSoft then
      var hit :- if drawn.hand.value == DealerStop then
                   (if drawn.pack == [] then Err(EmptyDeck) else Ok(HitHand(drawn.hand, drawn.pack)))
                 else Ok(drawn);
      Ok(HandAndPack(Revealed(SoftenedIfBust(hit.hand)), hit.pack))
    else
      Ok(HandAndPack(Revealed(drawn.hand), drawn.pack))
  }

  /** The draw loop takes a prefix of the pack in order, leaves the rest, adds the prefix's total,
      draws only while the value is below 17 and stops at 17 or more. */
  lemma {:induction false} DealerDrawTakesPrefix(h: HandState, pack: seq<Card>)
    requires DealerDraw(h, pack).Ok?
    ensures var r := DealerDraw(h, pack).value;
            var m := |pack| - |r.pack|;
            && 0 <= m
            && r.pack == pack[m..]
            && r.hand.cards == h.cards + pack[..m]
            && r.hand.value == h.value + Total(pack[..m])
            && r.hand.value >= DealerStop
            && r.hand.isSoft == (h.isSoft || HasAce(pack[..m]))
            && (h.cards != [] ==> r.hand.dealerValue == h.dealerValue)
            && forall j :: 0 <= j < m ==> h.value + Total(pack[..j]) < DealerStop
    decreases |pack|
  {
    if h.value < DealerStop {
      var c, rest := pack[0], pack[1..];
      assert pack == [c] + rest;
      DealerDrawTakesPrefix(WithCard(h, c), rest);
      var r := DealerDraw(h, pack).value;
      var m' := |rest| - |r.pack|;
      PrefixCons(c, rest, m');
      forall j | 0 <= j < m' + 1
        ensures h.value + Total(pack[..j]) < DealerStop
      {
        if j > 0 {
          PrefixCons(c, rest, j - 1);
        } else {
          assert pack[..0] == [];
        }
      }
    } else {
      assert pack[..0] == [] && pack[0..] == pack;
    }
  }

  /** Cutting a prefix of a pack that starts with `c`. */
  lemma PrefixCons(c: Card, rest: seq<Card>, n: nat)
    requires n <= |rest|
    ensures ([c] + rest)[..n + 1] == [c] + rest[..n] && ([c] + rest)[n + 1..] == rest[n..]
    ensures Total([c] + rest[..n]) == c.blackJackValue + Total(rest[..n])
    ensures HasAce([c] + rest[..n]) == (IsAce(c) || HasAce(rest[..n]))
  {
    TotalAppend([c], rest[..n]);
    assert Total([c]) == c.blackJackValue by {
      assert [c][..0] == [];
    }
    HasAcePrepend(c, rest[..n]);
  }

  lemma HasAcePrepend(c: Card, s: seq<Card>)
    ensures HasAce([c] + s) == (IsAce(c) || HasAce(s))
  {
    HasAceAppend([c], s);
    assert [c][..0] == [];
  }

  lemma {:induction false} HasAceAppend(a: seq<Card>, b: seq<Card>)
    ensures HasAce(a + b) == (HasAce(a) || HasAce(b))
    decreases |b|
  {
    if b != [] {
      assert (a + b)[..|a + b| - 1] == a + b[..|b| - 1];
      HasAceAppend(a, b[..|b| - 1]);
    } else {
      assert a + b == a;
    }
  }

  /** After `Play` the dealer shows its whole value, the hand has gained a prefix of the pack
      in order, and the pack is what remains. */
  lemma DealerTurnReveals(h: HandState, pack: seq<Card>)
    requires DealerTurn(h, pack).Ok?
    ensures var r := DealerTurn(h, pack).value;
            var m := |pack| - |r.pack|;
            && r.hand.dealerValue == r.hand.value
            && 0 <= m
            && r.pack == pack[m..]
            && r.hand.cards == h.cards + pack[..m]
  {
    DealerDrawTakesPrefix(h, pack);
    var d := DealerDraw(h, pack).value;
    var k := |pack| - |d.pack|;
    if d.hand.isSoft && d.hand.value == DealerStop {
      assert pack[..k + 1] == pack[..k] + [pack[k]];
      assert d.pack[1..] == pack[k + 1..];
    }
  }

  /** A dealer that ends hard ends on 17 or more, and every card it drew was drawn below 17. */
  lemma DealerTurnHard(h: HandState, pack: seq<Card>)
    requires DealerTurn(h, pack).Ok? && !DealerTurn(h, pack).value.hand.isSoft
    ensures var r := DealerTurn(h, pack).value;
            var m := |pack| - |r.pack|;
            && 0 <= m
            && r.hand.value == h.value + Total(pack[..m]) >= DealerStop
            && forall j :: 0 <= j < m ==> h.value + Total(pack[..j]) < DealerStop
  {
    DealerDrawTakesPrefix(h, pack);
  }

  /** A hard hand already at 17 or more draws nothing and keeps its value. */
  lemma DealerStandsOnHard17(h: HandState, pack: seq<Card>)
    requires !h.isSoft && h.value >= DealerStop
    ensures DealerTurn(h, pack) == Ok(HandAndPack(Revealed(h), pack))
  {
  }

  /** A hand that is soft 17 after the draw loop takes exactly one more card. */
  lemma DealerHitsSoft17(h: HandState, pack: seq<Card>)
    requires DealerDraw(h, pack).Ok?
    requires var d := DealerDraw(h, pack).value; d.hand.isSoft && d.hand.value == DealerStop
    ensures var d := DealerDraw(h, pack).value;
            DealerTurn(h, pack) == if d.pack == [] then Err(EmptyDeck)
              else Ok(HandAndPack(Revealed(SoftenedIfBust(WithCard(d.hand, d.pack[0]))), d.pack[1..]))
  {
  }

  /** The softening step of `Play`: subtract 10 once from a hand above 21. */
  function SoftenedIfBust(h: HandState): HandState {
    if h.value > 21 then Softened(h) else h
  }

  /** With proper cards in the pack the dealer never ends below 12, so the revealed value is
      always a key of the quality table. */
  lemma DealerTurnAtLeast12(h: HandState, pack: seq<Card>)
    requires AllProper(pack) && DealerTurn(h, pack).Ok?
    ensures DealerTurn(h, pack).value.hand.value >= 12
  {
    DealerDrawTakesPrefix(h, pack);
    var d := DealerDraw(h, pack).value;
    var k := |pack| - |d.pack|;
    if d.hand.isSoft && d.hand.value == DealerStop && d.pack != [] {
      assert d.pack[0] == pack[k];
    }
  }

  /** The dealer can finish on 16: ace and 5 (soft 16) draw a 10, reach 26 and soften once. */
  lemma DealerCanEndOn16()
    ensures var h := HandOf([NewCard(1), NewCard(5)]);
            DealerTurn(h, [NewCard(10)]).Ok? && DealerTurn(h, [NewCard(10)]).value.hand.value == 16
  {
    var ace, five := NewCard(1), NewCard(5);
    assert [ace][..0] == [];
    assert [ace, five][..1] == [ace];
    assert HandOf([ace]) == WithCard(EmptyHand, ace);
    assert HandOf([ace, five]) == WithCard(HandOf([ace]), five);
  }

  class Dealer {
    const hand: Hand

    constructor ()
      ensures fresh(hand) && hand.Valid() && hand.Snapshot() == EmptyHand
    {
      hand := new Hand();
    }

    /** The fixed dealer policy, run when the player is done. */
    method Play(pack: CardPack)
      requires hand.Valid() && DealerTurn(hand.Snapshot(), pack.cards).Ok?
      modifies hand, pack
      ensures hand.Valid()
      ensures HandAndPack(hand.Snapshot(), pack.cards) == DealerTurn(old(hand.Snapshot()), old(pack.cards)).value
    {
      while hand.value < DealerStop
        invariant hand.Valid()
        invariant DealerDraw(hand.Snapshot(), pack.cards) == DealerDraw(old(hand.Snapshot()), old(pack.cards))
        decreases |pack.cards|
      {
        var drawn := pack.DrawCard();
        hand.AddCard(drawn);
      }
      if hand.isSoft {
        if hand.value == DealerStop {
          var drawn := pack.DrawCard();
          hand.AddCard(drawn);
        }
        if hand.value > 21 {
          hand.SoftenValue();
        }
      }
      hand.DealerEndGameValue();
    }
  }
}
