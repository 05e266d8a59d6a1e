/** A hand of cards: a running total in which every ace adds 11, a sticky soft flag, and the
    value the dealer shows (its first card until the end of the game). */
module Hands {
  import opened Cards

  /** The observable state of a hand: its fields `Cards`, `IsSoft`, `Value`, `DealerValue`. */
  datatype HandState = HandState(cards: seq<Card>, isSoft: bool, value: int, dealerValue: int)

  /** A new hand: no cards, value 0, hard; `DealerValue` keeps its default 0. */
  const EmptyHand: HandState := HandState([], false, 0, 0)

  /** The sum of the blackjack values of `cs`. */
  function Total(cs: seq<Card>): int {
    if cs == [] then 0 else Total(cs[..|cs| - 1]) + cs[|cs| - 1].blackJackValue
  }

  /** Some card of `cs` is an ace. */
  predicate HasAce(cs: seq<Card>) {
    cs != [] && (IsAce(cs[|cs| - 1]) || HasAce(cs[..|cs| - 1]))
  }

  lemma AppendLast(cs: seq<Card>, c: Card)
    ensures (cs + [c])[..|cs|] == cs && (cs + [c])[|cs|] == c
  {
  }

  /** Adding a card adds its value to the total, and an ace makes the cards hold an ace. */
  lemma AddLast(cs: seq<Card>, c: Card)
    ensures Total(cs + [c]) == Total(cs) + c.blackJackValue
    ensures HasAce(cs + [c]) == (HasAce(cs) || IsAce(c))
  {
    AppendLast(cs, c);
  }

  lemma {:induction false} TotalAppend(a: seq<Card>, b: seq<Card>)
    ensures Total(a + b) == Total(a) + Total(b)
    decreases |b|
  {
    if b != [] {
      var b' := b[..|b| - 1];
      assert (a + b)[..|a + b| - 1] == a + b';
      TotalAppend(a, b');
    } else {
      assert a + b == a;
    }
  }

  /** `AddCard`: append, add the blackjack value, capture the value when this is the first
      card, and become soft on an ace. */
  function WithCard(h: HandState, c: Card): HandState {
    var cards := h.cards + [c];
    var value := h.value + c.blackJackValue;
    HandState(cards, h.isSoft || IsAce(c), value, if |cards| == 1 then value else h.dealerValue)
  }

  /** `SoftenValue`: subtract 10 and change nothing else. */
  function Softened(h: HandState): HandState {
    h.(value := h.value - 10)
  }

  /** `DealerEndGameValue`: show the whole value. */
  function Revealed(h: HandState): HandState {
    h.(dealerValue := h.value)
  }

  /** The hand that receives the cards `cs` in order, starting empty. */
  function HandOf(cs: seq<Card>): HandState {
    if cs == [] then EmptyHand else WithCard(HandOf(cs[..|cs| - 1]), cs[|cs| - 1])
  }

  /** A hand built by adding cards only holds them, is worth their total, is soft exactly when
      one of them is an ace, and shows the value of its first card. */
  lemma {:induction false} HandOfAccounts(cs: seq<Card>)
    ensures HandOf(cs).cards == cs
    ensures HandOf(cs).value == Total(cs)
    ensures HandOf(cs).isSoft == HasAce(cs)
    ensures HandOf(cs).dealerValue == if cs == [] then 0 else cs[0].blackJackValue
  {
    if cs != [] {
      var init := cs[..|cs| - 1];
      HandOfAccounts(init);
      assert init + [cs[|cs| - 1]] == cs;
      if init != [] {
        assert init[0] == cs[0];
      }
    }
  }

  /** One call on a hand. */
  datatype HandOp = AddOp(card: Card) | SoftenOp | RevealOp

  /** The hand after the calls `ops`, in order, on a new hand. */
  function Replay(ops: seq<HandOp>): HandState {
    if ops == [] then EmptyHand
    else
      var h := Replay(ops[..|ops| - 1]);
      match ops[|ops| - 1]
      case AddOp(c) => WithCard(h, c)
      case SoftenOp => Softened(h)
      case RevealOp => Revealed(h)
  }

  /** The cards added by `ops`, in order. */
  function AddedCards(ops: seq<HandOp>): seq<Card> {
    if ops == [] then []
    else
      var before := AddedCards(ops[..|ops| - 1]);
      match ops[|ops| - 1]
      case AddOp(c) => before + [c]
      case _ => before
  }

  /** How many `SoftenValue` calls `ops` makes. */
  function Softenings(ops: seq<HandOp>): nat {
    if ops == [] then 0
    else Softenings(ops[..|ops| - 1]) + if ops[|ops| - 1] == SoftenOp then 1 else 0
  }

  /** Whatever calls are made, a hand holds exactly the cards added, its value is their total
      less 10 for every softening, and it is soft exactly when an ace was added: no call ever
      makes a soft hand hard again. */
  lemma {:induction false} ReplayAccounts(ops: seq<HandOp>)
    ensures Replay(ops).cards == AddedCards(ops)
    ensures Replay(ops).value == Total(AddedCards(ops)) - 10 * Softenings(ops)
    ensures Replay(ops).isSoft == HasAce(AddedCards(ops))
  {
    if ops != [] {
      var init := ops[..|ops| - 1];
      ReplayAccounts(init);
      match ops[|ops| - 1]
      case AddOp(c) =>
        AppendLast(AddedCards(init), c);
      case SoftenOp =>
      case RevealOp =>
    }
  }

  /** Ace, six, ace: every ace is added as 11 and nothing softens the hand on the way, so the
      total is 28, soft, until a caller softens it. */
  lemma AceSixAceIs28()
    ensures var h := HandOf([NewCard(1), NewCard(6), NewCard(1)]);
            h.value == 28 && h.isSoft && h.dealerValue == 11
  {
    var ace, six := NewCard(1), NewCard(6);
    assert [ace][..0] == [];
    assert [ace, six][..1] == [ace];
    assert [ace, six, ace][..2] == [ace, six];
    assert HandOf([ace]) == WithCard(EmptyHand, ace);
    assert HandOf([ace, six]) == WithCard(HandOf([ace]), six);
    assert HandOf([ace, six, ace]) == WithCard(HandOf([ace, six]), ace);
  }

  /** The hand as a mutable object. `softenings` counts the `SoftenValue` calls so far. */
  class Hand {
    var cards: seq<Card>
    var isSoft: bool
    var value: int
    var dealerValue: int
    ghost var softenings: nat

    /** The running total accounts for every card and every softening, and the hand is soft
        exactly when it holds an ace. */
    ghost predicate Valid()
      reads this
    {
      && value == Total(cards) - 10 * softenings
      && isSoft == HasAce(cards)
    }

    function Snapshot(): HandState
      reads this
    {
      HandState(cards, isSoft, value, dealerValue)
    }

    constructor ()
      ensures Valid() && Snapshot() == EmptyHand && softenings == 0
    {
      cards := [];
      isSoft := false;
      value := 0;
      dealerValue := 0;
      softenings := 0;
    }

    method AddCard(drawnCard: Card)
      requires Valid()
      modifies this
      ensures Valid() && softenings == old(softenings)
      ensures Snapshot() == WithCard(old(Snapshot()), drawnCard)
    {
      ghost var before := cards;
      AddLast(before, drawnCard);
      cards := cards + [drawnCard];
      value := value + drawnCard.blackJackValue;
      if |cards| == 1 {
        dealerValue := value;
      }
      if IsAce(drawnCard) && !isSoft {
        isSoft := true;
      }
      assert cards == before + [drawnCard];
    }

    method SoftenValue()
      requires Valid()
      modifies this
      ensures Valid() && softenings == old(softenings) + 1
      ensures Snapshot() == Softened(old(Snapshot()))
    {
      value := value - 10;
      softenings := softenings + 1;
    }

    method DealerEndGameValue()
      requires Valid()
      modifies this
      ensures Valid() && softenings == old(softenings)
      ensures Snapshot() == Revealed(old(Snapshot()))
    {
      dealerValue := value;
    }
  }
}
