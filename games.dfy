/** One game of blackjack played by the learning player: the deal, then the loop in which the
    player picks an action epsilon-greedily, the action is carried out, and the quality of the
    action in the state it was taken from is updated. */
module Games {
  import opened Outcomes
  import opened Cards
  import opened Packs
  import opened Hands
  import opened Players
  import opened Dealers
  import opened States
  import opened QualityTables

  const DeckCount: nat := 6
  const PackSize: nat := 312
  const ShufflePasses: nat := 20
  /** The stage reward of a double after a hit. */
  const IllegalMovePenalty: real := -10.0

  /** The deck and both hands. */
  datatype GameState = GameState(deck: seq<Card>, player: HandState, dealer: HandState)

  // ---------------------------------------------------------------------------------------
  // The deal

  /** The pack after the shuffle passes `passes`, the first pass first. */
  function ShuffledTimes(s: seq<Card>, passes: seq<seq<int>>): (t: seq<Card>)
    requires forall k :: 0 <= k < |passes| ==> ValidDraws(|s|, passes[k])
    ensures |t| == |s|
    decreases |passes|
  {
    if passes == [] then s
    else
      var t := ShuffledTimes(s, passes[..|passes| - 1]);
      Shuffled(t, |t|, passes[|passes| - 1])
  }

  /** Every number of shuffle passes only reorders the pack. */
  lemma {:induction false} ShuffledTimesPermutes(s: seq<Card>, passes: seq<seq<int>>)
    requires forall k :: 0 <= k < |passes| ==> ValidDraws(|s|, passes[k])
    ensures multiset(ShuffledTimes(s, passes)) == multiset(s)
    decreases |passes|
  {
    if passes != [] {
      var init := passes[..|passes| - 1];
      ShuffledTimesPermutes(s, init);
      var t := ShuffledTimes(s, init);
      ShuffledPermutes(t, |t|, passes[|passes| - 1]);
    }
  }

  /** The hand that has been dealt the cards `parity`, `parity + 2`, ... of the first `2 * i`. */
  function DealtTo(s: seq<Card>, i: nat, parity: nat): HandState
    requires 2 * i <= |s| && parity < 2
  {
    if i == 0 then EmptyHand else WithCard(DealtTo(s, i - 1, parity), s[2 * (i - 1) + parity])
  }

  /** Dealing two rounds from the front, dealer first. */
  function Deal(s: seq<Card>): GameState
    requires |s| >= 4
  {
    GameState(s[4..], DealtTo(s, 2, 1), DealtTo(s, 2, 0))
  }

  /** The game the constructor sets up from the shuffle inputs. */
  function InitialGame(passes: seq<seq<int>>): GameState
    requires forall k :: 0 <= k < |passes| ==> ValidDraws(PackSize, passes[k])
  {
    Deal(ShuffledTimes(BuildPack(DeckCount), passes))
  }

  /** Dealing gives the dealer the cards 0 and 2 (showing the first), the player the cards 1
      and 3, and leaves the rest in order. */
  lemma {:induction false} DealDeals(s: seq<Card>)
    requires |s| >= 4
    ensures var g := Deal(s);
            && g.deck == s[4..]
            && g.dealer.cards == [s[0], s[2]] && g.player.cards == [s[1], s[3]]
            && g.dealer.dealerValue == s[0].blackJackValue
            && g.dealer.value == s[0].blackJackValue + s[2].blackJackValue
            && g.player.value == s[1].blackJackValue + s[3].blackJackValue
            && g.player.isSoft == (IsAce(s[1]) || IsAce(s[3]))
  {
    var d1, p1 := WithCard(EmptyHand, s[0]), WithCard(EmptyHand, s[1]);
    assert DealtTo(s, 1, 0) == d1 && DealtTo(s, 1, 1) == p1;
    assert DealtTo(s, 2, 0) == WithCard(d1, s[2]);
    assert DealtTo(s, 2, 1) == WithCard(p1, s[3]);
  }

  /** Dealing loses no card: deck and hands together hold the cards dealt from. */
  lemma {:induction false} DealConserves(s: seq<Card>)
    requires |s| >= 4
    ensures var g := Deal(s); multiset(g.deck + g.player.cards + g.dealer.cards) == multiset(s)
  {
    DealDeals(s);
    var rest := s[4..];
    assert s == [s[0], s[1], s[2], s[3]] + rest;
    FourInterleaved(s[0], s[1], s[2], s[3], rest);
  }

  lemma {:induction false} FourInterleaved<T>(a: T, b: T, c: T, d: T, rest: seq<T>)
    ensures multiset(rest + [b, d] + [a, c]) == multiset([a, b, c, d] + rest)
  {
    SplitThree(rest, [b, d], [a, c]);
    TwoPairs(a, b, c, d);
    assert multiset([a, b, c, d] + rest) == multiset([a, b, c, d]) + multiset(rest);
  }

  lemma {:induction false} SplitThree<T>(x: seq<T>, y: seq<T>, z: seq<T>)
    ensures multiset(x + y + z) == multiset(x) + multiset(y) + multiset(z)
  {
  }

  lemma {:induction false} TwoPairs<T>(a: T, b: T, c: T, d: T)
    ensures multiset([b, d]) + multiset([a, c]) == multiset([a, b, c, d])
  {
  }

  /** The constructor's game: 308 cards remain, and deck and hands together are a reordering of
      the six decks. */
  lemma {:induction false} InitialGameDeals(passes: seq<seq<int>>)
    requires forall k :: 0 <= k < |passes| ==> ValidDraws(PackSize, passes[k])
    ensures var g := InitialGame(passes);
            && |g.deck| == PackSize - 4
            && multiset(g.deck + g.player.cards + g.dealer.cards) == multiset(BuildPack(DeckCount))
  {
    var s := ShuffledTimes(BuildPack(DeckCount), passes);
    DealConserves(s);
    ShuffledTimesPermutes(BuildPack(DeckCount), passes);
  }

  // ---------------------------------------------------------------------------------------
  // One step of the loop

  /** The outcome of the exploration draw of one step: exploit, or explore with the action drawn. */
  datatype Choice = Exploit | Explore(action: ActionIndex)

  /** `IndexOf(Max())`: the first action of highest quality. */
  function GreedyAction(q: seq<real>): (a: int)
    requires |q| > 0
    ensures 0 <= a < |q|
    ensures forall j :: 0 <= j < |q| ==> q[j] <= q[a]
    ensures forall j :: 0 <= j < a ==> q[j] < q[a]
  {
    IndexOf(q, MaxOf(q))
  }

  function ChooseAction(c: Choice, q: seq<real>): (a: ActionIndex)
    requires |q| == ActionCount
  {
    match c
    case Explore(a) => a
    case Exploit => GreedyAction(q)
  }

  /** What an action does, given whether a double is still allowed. */
  datatype Move = StandMove | HitMove | DoubleMove | IllegalDouble

  function MoveOf(action: ActionIndex, doublePossible: bool): Move {
    if action == 0 then StandMove
    else if action == 1 then HitMove
    else if doublePossible then DoubleMove
    else IllegalDouble
  }

  /** Carries out a move on the deck and the hands. An empty deck is the failure `DrawCard`
      raises. */
  function ApplyMove(m: Move, g: GameState): (r: Result<GameState>)
    ensures r.Ok? && m == HitMove ==> |r.value.deck| == |g.deck| - 1
    ensures r.Ok? ==> |r.value.deck| <= |g.deck|
  {
    match m
    case StandMove =>
      var d :- DealerTurn(g.dealer, g.deck);
      DealerTurnReveals(g.dealer, g.deck);
      Ok(GameState(d.pack, StandHand(g.player), d.hand))
    case HitMove =>
      if g.deck == [] then Err(EmptyDeck)
      else
        var p := HitHand(g.player, g.deck);
        Ok(GameState(p.pack, p.hand, g.dealer))
    case DoubleMove =>
      if g.deck == [] then Err(EmptyDeck)
      else
        var p := HitHand(g.player, g.deck);
        var d :- DealerTurn(g.dealer, p.pack);
        DealerTurnReveals(g.dealer, p.pack);
        Ok(GameState(d.pack, p.hand, d.hand))
    case IllegalDouble => Ok(g)
  }

  /** The stage reward: the penalty for an illegal double, otherwise the new state's reward times
      1 after a hit, 10 after a stand and 20 after a double. */
  function StageReward(m: Move, newReward: real): real {
    match m
    case IllegalDouble => IllegalMovePenalty
    case HitMove => newReward
    case StandMove => newReward * 10.0
    case DoubleMove => newReward * (2.0 * 10.0)
  }

  /** The reward of the state a key names, as the table's states hold it. */
  function KeyReward(k: StateKey): real {
    RewardRule(k.player, k.dealer)
  }

  /** The qualities of all states, by table offset, each a list of three. */
  predicate Shaped(qs: seq<seq<real>>) {
    |qs| == TableSize && forall i :: 0 <= i < |qs| ==> |qs[i]| == ActionCount
  }

  datatype StepOut = StepOut(qualities: seq<seq<real>>, game: GameState, action: ActionIndex, move: Move,
                             current: nat, next: nat, reward: real)

  /** One pass of the loop: choose, act, look the new state up, update one quality. */
  function Step(qs: seq<seq<real>>, g: GameState, doublePossible: bool, c: Choice): (r: Result<StepOut>)
    requires Shaped(qs)
    ensures r.Ok? ==> Shaped(r.value.qualities) && r.value.current < TableSize && r.value.next < TableSize
    ensures r.Ok? && r.value.move == HitMove ==> |r.value.game.deck| == |g.deck| - 1
    ensures r.Ok? ==> |r.value.game.deck| <= |g.deck|
  {
    var current :- Lookup(g.player, g.dealer);
    var action := ChooseAction(c, qs[current]);
    var m := MoveOf(action, doublePossible);
    var g' :- ApplyMove(m, g);
    var next :- Lookup(g'.player, g'.dealer);
    var reward := StageReward(m, KeyReward(ClampedKey(g'.player, g'.dealer)));
    var q := qs[current];
    var q' := q[action := TdValue(q[action], reward, MaxOf(qs[next]), Alpha, Gamma)];
    Ok(StepOut(qs[current := q'], g', action, m, current, next, reward))
  }

  /** What the game ends with, and how many passes of the loop it took. */
  datatype EpisodeEnd = EpisodeEnd(qualities: seq<seq<real>>, game: GameState, steps: nat)

  /** The loop of `Start` from pass `step` on: it goes on after a hit and ends after any other
      move. Every pass that does not end the game takes a card, so the loop makes at most one
      pass more than the cards it takes. */
  function Run(qs: seq<seq<real>>, g: GameState, doublePossible: bool, step: nat,
               choices: nat -> Choice): (r: Result<EpisodeEnd>)
    requires Shaped(qs)
    ensures r.Ok? ==> Shaped(r.value.qualities)
    ensures r.Ok? ==> step < r.value.steps <= step + 1 + |g.deck| - |r.value.game.deck|
    decreases |g.deck|
  {
    var s :- Step(qs, g, doublePossible, choices(step));
    if s.move == HitMove then Run(s.qualities, s.game, false, step + 1, choices)
    else Ok(EpisodeEnd(s.qualities, s.game, step + 1))
  }

  // ---------------------------------------------------------------------------------------
  // Properties of a step

  /** The parts of a step, one by one. */
  lemma {:induction false} StepFacts(qs: seq<seq<real>>, g: GameState, doublePossible: bool, c: Choice)
    requires Shaped(qs) && Step(qs, g, doublePossible, c).Ok?
    ensures var s := Step(qs, g, doublePossible, c).value;
            && InTable(ClampedKey(g.player, g.dealer)) && s.current == Offset(ClampedKey(g.player, g.dealer))
            && s.action == ChooseAction(c, qs[s.current])
            && s.move == MoveOf(s.action, doublePossible)
            && ApplyMove(s.move, g) == Ok(s.game)
            && InTable(ClampedKey(s.game.player, s.game.dealer))
            && s.next == Offset(ClampedKey(s.game.player, s.game.dealer))
            && s.reward == StageReward(s.move, KeyReward(ClampedKey(s.game.player, s.game.dealer)))
            && s.qualities == qs[s.current := qs[s.current][s.action :=
                 TdValue(qs[s.current][s.action], s.reward, MaxOf(qs[s.next]), Alpha, Gamma)]]
  {
  }

  /** A pass of the loop either goes on after a hit or ends the episode. */
  lemma {:induction false} RunFacts(qs: seq<seq<real>>, g: GameState, doublePossible: bool, step: nat, choices: nat -> Choice)
    requires Shaped(qs) && Run(qs, g, doublePossible, step, choices).Ok?
    ensures Step(qs, g, doublePossible, choices(step)).Ok?
    ensures var s := Step(qs, g, doublePossible, choices(step)).value;
            && (s.move == HitMove ==> Run(qs, g, doublePossible, step, choices) == Run(s.qualities, s.game, false, step + 1, choices))
            && (s.move != HitMove ==> Run(qs, g, doublePossible, step, choices) == Ok(EpisodeEnd(s.qualities, s.game, step + 1)))
  {
  }

  /** A run that does not fail looks its first state up in the table. */
  lemma {:induction false} RunStartsInTable(qs: seq<seq<real>>, g: GameState, doublePossible: bool, step: nat,
                                            choices: nat -> Choice)
    requires Shaped(qs) && Run(qs, g, doublePossible, step, choices).Ok?
    ensures InTable(ClampedKey(g.player, g.dealer))
  {
    RunFacts(qs, g, doublePossible, step, choices);
    StepFacts(qs, g, doublePossible, choices(step));
  }

  /** A step writes exactly one quality, the chosen action's in the current state, with the
      Q-learning formula on the new state's best quality read before the write. */
  lemma {:induction false} StepWritesOneQuality(qs: seq<seq<real>>, g: GameState, doublePossible: bool, c: Choice)
    requires Shaped(qs) && Step(qs, g, doublePossible, c).Ok?
    ensures var s := Step(qs, g, doublePossible, c).value;
            && s.qualities[s.current][s.action]
                 == TdValue(qs[s.current][s.action], s.reward, MaxOf(qs[s.next]), Alpha, Gamma)
            && forall i, j :: 0 <= i < TableSize && 0 <= j < ActionCount && (i != s.current || j != s.action)
                 ==> s.qualities[i][j] == qs[i][j]
  {
  }

  /** The action is the explored one, or else the first of highest quality in the current state. */
  lemma {:induction false} StepChoosesAction(qs: seq<seq<real>>, g: GameState, doublePossible: bool, c: Choice)
    requires Shaped(qs) && Step(qs, g, doublePossible, c).Ok?
    ensures var s := Step(qs, g, doublePossible, c).value;
            var q := qs[s.current];
            && (c.Explore? ==> s.action == c.action)
            && (c.Exploit? ==> (forall j :: 0 <= j < ActionCount ==> q[j] <= q[s.action])
                               && forall j :: 0 <= j < s.action ==> q[j] < q[s.action])
  {
  }

  /** A double after a hit touches neither the deck nor the hands, so the new state is the
      current one; it is penalised with -10, its own best quality from before the write is the
      one discounted, and the game ends. */
  lemma {:induction false} IllegalDoubleEnds(qs: seq<seq<real>>, g: GameState, step: nat, choices: nat -> Choice)
    requires Shaped(qs) && Step(qs, g, false, choices(step)).Ok?
    requires Step(qs, g, false, choices(step)).value.action == 2
    ensures var s := Step(qs, g, false, choices(step)).value;
            && s.move == IllegalDouble && s.game == g && s.next == s.current
            && s.reward == -10.0
            && s.qualities[s.current][2] == TdValue(qs[s.current][2], -10.0, MaxOf(qs[s.current]), Alpha, Gamma)
            && Run(qs, g, false, step, choices) == Ok(EpisodeEnd(s.qualities, g, step + 1))
  {
  }

  /** A hit moves the front card of the deck to the player, rules out a later double and the
      game goes on, whatever the player's total has become. */
  lemma {:induction false} HitContinues(qs: seq<seq<real>>, g: GameState, doublePossible: bool, step: nat, choices: nat -> Choice)
    requires Shaped(qs) && Step(qs, g, doublePossible, choices(step)).Ok?
    requires Step(qs, g, doublePossible, choices(step)).value.action == 1
    ensures var s := Step(qs, g, doublePossible, choices(step)).value;
            && s.move == HitMove && g.deck != []
            && s.game == GameState(g.deck[1..], WithCard(g.player, g.deck[0]), g.dealer)
            && s.reward == RewardRule(ClampedKey(s.game.player, s.game.dealer).player, ClampedKey(s.game.player, s.game.dealer).dealer)
            && Run(qs, g, doublePossible, step, choices) == Run(s.qualities, s.game, false, step + 1, choices)
  {
  }

  /** A stand lets the player's hand soften once if needed, then the dealer plays; the game ends
      and the new state's reward counts ten times. */
  lemma {:induction false} StandEnds(qs: seq<seq<real>>, g: GameState, doublePossible: bool, step: nat, choices: nat -> Choice)
    requires Shaped(qs) && Step(qs, g, doublePossible, choices(step)).Ok?
    requires Step(qs, g, doublePossible, choices(step)).value.action == 0
    ensures var s := Step(qs, g, doublePossible, choices(step)).value;
            && s.move == StandMove && DealerTurn(g.dealer, g.deck).Ok?
            && s.game == GameState(DealerTurn(g.dealer, g.deck).value.pack, StandHand(g.player),
                                   DealerTurn(g.dealer, g.deck).value.hand)
            && s.reward == 10.0 * RewardRule(ClampedKey(s.game.player, s.game.dealer).player, ClampedKey(s.game.player, s.game.dealer).dealer)
            && Run(qs, g, doublePossible, step, choices) == Ok(EpisodeEnd(s.qualities, s.game, step + 1))
  {
  }

  /** A legal double draws exactly one card for the player, lets the dealer play, ends the game
      and counts the new state's reward twenty times. */
  lemma {:induction false} DoubleEnds(qs: seq<seq<real>>, g: GameState, step: nat, choices: nat -> Choice)
    requires Shaped(qs) && Step(qs, g, true, choices(step)).Ok?
    requires Step(qs, g, true, choices(step)).value.action == 2
    ensures var s := Step(qs, g, true, choices(step)).value;
            && s.move == DoubleMove && g.deck != []
            && DealerTurn(g.dealer, g.deck[1..]).Ok?
            && s.game == GameState(DealerTurn(g.dealer, g.deck[1..]).value.pack, WithCard(g.player, g.deck[0]),
                                   DealerTurn(g.dealer, g.deck[1..]).value.hand)
            && s.reward == 20.0 * RewardRule(ClampedKey(s.game.player, s.game.dealer).player, ClampedKey(s.game.player, s.game.dealer).dealer)
            && Run(qs, g, true, step, choices) == Ok(EpisodeEnd(s.qualities, s.game, step + 1))
  {
  }

  // ---------------------------------------------------------------------------------------
  // A dealt game never misses the table

  /** What holds of a game dealt from proper cards at every pass of the loop: the deck is
      proper, the player has at least 4 (at least 12 when soft) and the dealer shows at least 2. */
  predicate InPlay(g: GameState) {
    && AllProper(g.deck)
    && g.player.value >= 4 && (g.player.isSoft ==> g.player.value >= 12)
    && g.dealer.dealerValue >= 2
  }

  lemma {:induction false} InPlayInTable(g: GameState)
    requires InPlay(g)
    ensures InTable(ClampedKey(g.player, g.dealer))
  {
  }

  lemma {:induction false} SuffixProper(s: seq<Card>, m: int)
    requires AllProper(s) && 0 <= m <= |s|
    ensures AllProper(s[m..])
  {
    assert forall i :: 0 <= i < |s| - m ==> s[m..][i] == s[m + i];
  }

  lemma {:induction false} DealerTurnInPlay(h: HandState, pack: seq<Card>)
    requires AllProper(pack) && DealerTurn(h, pack).Ok?
    ensures var r := DealerTurn(h, pack).value; r.hand.dealerValue >= 12 && AllProper(r.pack)
  {
    DealerTurnAtLeast12(h, pack);
    DealerTurnReveals(h, pack);
    SuffixProper(pack, |pack| - |DealerTurn(h, pack).value.pack|);
  }

  lemma {:induction false} HitInPlay(g: GameState)
    requires InPlay(g) && g.deck != []
    ensures var p := HitHand(g.player, g.deck);
            && AllProper(p.pack)
            && p.hand.value >= 4 && (p.hand.isSoft ==> p.hand.value >= 12)
  {
    assert Proper(g.deck[0]);
    SuffixProper(g.deck, 1);
  }

  /** Every move keeps a game in play. */
  lemma {:induction false} ApplyMoveInPlay(m: Move, g: GameState)
    requires InPlay(g) && ApplyMove(m, g).Ok?
    ensures InPlay(ApplyMove(m, g).value)
  {
    match m
    case StandMove =>
      DealerTurnInPlay(g.dealer, g.deck);
    case HitMove =>
      HitInPlay(g);
    case DoubleMove =>
      HitInPlay(g);
      DealerTurnInPlay(g.dealer, g.deck[1..]);
    case IllegalDouble =>
  }

  /** From a game in play the loop never looks up a state the table lacks: it ends, or fails only
      because the deck ran out. */
  lemma {:induction false} RunFindsStates(qs: seq<seq<real>>, g: GameState, doublePossible: bool, step: nat,
                                          choices: nat -> Choice)
    requires Shaped(qs) && InPlay(g)
    ensures Run(qs, g, doublePossible, step, choices).Ok? || Run(qs, g, doublePossible, step, choices) == Err(EmptyDeck)
    decreases |g.deck|
  {
    InPlayInTable(g);
    var current := Offset(ClampedKey(g.player, g.dealer));
    var action := ChooseAction(choices(step), qs[current]);
    var m := MoveOf(action, doublePossible);
    if ApplyMove(m, g).Ok? {
      var g' := ApplyMove(m, g).value;
      ApplyMoveInPlay(m, g);
      InPlayInTable(g');
      var s := Step(qs, g, doublePossible, choices(step)).value;
      if s.move == HitMove {
        RunFindsStates(s.qualities, s.game, false, step + 1, choices);
      }
    } else {
      ApplyMoveFails(m, g);
    }
  }

  /** A move fails only for want of cards. */
  lemma {:induction false} ApplyMoveFails(m: Move, g: GameState)
    requires ApplyMove(m, g).Err?
    ensures ApplyMove(m, g) == Err(EmptyDeck)
  {
    match m
    case StandMove => DealerTurnFails(g.dealer, g.deck);
    case HitMove =>
    case DoubleMove => if g.deck != [] { DealerTurnFails(g.dealer, g.deck[1..]); }
    case IllegalDouble =>
  }

  lemma {:induction false} DealerTurnFails(h: HandState, pack: seq<Card>)
    requires DealerTurn(h, pack).Err?
    ensures DealerTurn(h, pack) == Err(EmptyDeck)
  {
    DealerDrawFails(h, pack);
  }

  lemma {:induction false} DealerDrawFails(h: HandState, pack: seq<Card>)
    ensures DealerDraw(h, pack).Err? ==> DealerDraw(h, pack) == Err(EmptyDeck)
    decreases |pack|
  {
    if h.value < DealerStop && pack != [] {
      DealerDrawFails(WithCard(h, pack[0]), pack[1..]);
    }
  }

  /** The freshly dealt game is in play. */
  lemma {:induction false} InitialGameInPlay(passes: seq<seq<int>>)
    requires forall k :: 0 <= k < |passes| ==> ValidDraws(PackSize, passes[k])
    ensures InPlay(InitialGame(passes))
  {
    var s := ShuffledTimes(BuildPack(DeckCount), passes);
    ShuffledTimesPermutes(BuildPack(DeckCount), passes);
    forall i | 0 <= i < |s| ensures Proper(s[i]) {
      assert s[i] in multiset(BuildPack(DeckCount));
      BuildPackProper(DeckCount, s[i]);
    }
    DealStartsInPlay(s);
  }

  lemma {:induction false} DealStartsInPlay(s: seq<Card>)
    requires |s| >= 4 && AllProper(s)
    ensures InPlay(Deal(s))
  {
    DealDeals(s);
    SuffixProper(s, 4);
    assert Proper(s[1]) && Proper(s[3]);
  }

  /** An episode on a freshly dealt game can only fail by running out of cards. */
  lemma {:induction false} EpisodeOnlyRunsOutOfCards(qs: seq<seq<real>>, passes: seq<seq<int>>, choices: nat -> Choice)
    requires Shaped(qs)
    requires forall k :: 0 <= k < |passes| ==> ValidDraws(PackSize, passes[k])
    ensures var r := Run(qs, InitialGame(passes), true, 0, choices);
            r.Ok? || r == Err(EmptyDeck)
  {
    InitialGameInPlay(passes);
    RunFindsStates(qs, InitialGame(passes), true, 0, choices);
  }

  // ---------------------------------------------------------------------------------------
  // The game object

  /** The deal loop of the constructor: two rounds, the dealer's card first. */
  method DealTwoRounds(deck: CardPack, dealerHand: Hand, playerHand: Hand)
    requires dealerHand != playerHand && dealerHand.Valid() && playerHand.Valid()
    requires dealerHand.Snapshot() == EmptyHand && playerHand.Snapshot() == EmptyHand
    requires |deck.cards| >= 4
    modifies deck, dealerHand, playerHand
    ensures dealerHand.Valid() && playerHand.Valid()
    ensures GameState(deck.cards, playerHand.Snapshot(), dealerHand.Snapshot()) == Deal(old(deck.cards))
  {
    ghost var s := deck.cards;
    var initialDraw := 0;
    while initialDraw < 2
      invariant 0 <= initialDraw <= 2 && dealerHand.Valid() && playerHand.Valid()
      invariant deck.cards == s[2 * initialDraw..]
      invariant dealerHand.Snapshot() == DealtTo(s, initialDraw, 0)
      invariant playerHand.Snapshot() == DealtTo(s, initialDraw, 1)
    {
      var drawn := deck.DrawCard();
      dealerHand.AddCard(drawn);
      drawn := deck.DrawCard();
      playerHand.AddCard(drawn);
      initialDraw := initialDraw + 1;
    }
  }

  /** The shuffle loop of the constructor: one `Shuffle` per pass. */
  method ShuffleTimes(pack: CardPack, passes: seq<seq<int>>)
    requires forall k :: 0 <= k < |passes| ==> ValidDraws(|pack.cards|, passes[k])
    modifies pack
    ensures pack.cards == ShuffledTimes(old(pack.cards), passes)
  {
    var shuffles := 0;
    while shuffles < |passes|
      invariant 0 <= shuffles <= |passes|
      invariant |pack.cards| == |old(pack.cards)|
      invariant pack.cards == ShuffledTimes(old(pack.cards), passes[..shuffles])
    {
      assert passes[..shuffles + 1][..shuffles] == passes[..shuffles];
      pack.Shuffle(passes[shuffles]);
      shuffles := shuffles + 1;
    }
    assert passes[..|passes|] == passes;
  }

  /** The reward part of one pass of `Start`, given what `Act` returned for the move `m`: an
      illegal double ends the game with the penalty, any ending move multiplies the reward
      factor by 10, and the stage reward is the new state's reward times that factor. */
  method TakeReward(ghost m: Move, action: ActionIndex, gameStatus: bool, doublePossible: bool, rewardDouble: real,
                    newReward: real)
    returns (going: bool, stageReward: real)
    requires exists before: bool :: m == MoveOf(action, before) && doublePossible == (before && action != 1)
    requires gameStatus == (m == HitMove || m == IllegalDouble)
    requires rewardDouble == if m == DoubleMove then 2.0 else 1.0
    ensures going == (m == HitMove)
    ensures stageReward == StageReward(m, newReward)
  {
    var factor := rewardDouble;
    if action == 2 && !doublePossible {
      going := false;
      stageReward := IllegalMovePenalty;
    } else {
      going := gameStatus;
      if !going {
        factor := factor * 10.0;
      }
      stageReward := newReward * factor;
    }
  }

  class Game {
    const deck: CardPack
    const player: Player
    const dealer: Dealer

    ghost predicate Valid()
      reads player.hand, dealer.hand
    {
      player.hand != dealer.hand && player.hand.Valid() && dealer.hand.Valid()
    }

    function Snapshot(): GameState
      reads deck, player.hand, dealer.hand
    {
      GameState(deck.cards, player.hand.Snapshot(), dealer.hand.Snapshot())
    }

    /** Six decks shuffled twenty times, then two cards each, dealer first. */
    constructor (passes: seq<seq<int>>)
      requires |passes| == ShufflePasses
      requires forall k :: 0 <= k < |passes| ==> ValidDraws(PackSize, passes[k])
      ensures Valid() && fresh(deck) && fresh(player.hand) && fresh(dealer.hand)
      ensures Snapshot() == InitialGame(passes)
    {
      var pack := new CardPack(DeckCount);
      ShuffleTimes(pack, passes);
      deck := pack;
      dealer := new Dealer();
      player := new Player();
      new;
      DealTwoRounds(deck, dealer.hand, player.hand);
    }

    /** The update of one pass, `UpdateQuality(currentState, newState, action, stageReward)`, on
        the states at offsets `cur` and `next`: exactly one quality of the table changes, and
        the game does not. */
    method Learn(table: QualityTable, currentState: State, newState: State, action: ActionIndex, stageReward: real,
                 ghost cur: nat, ghost next: nat, ghost qs: seq<seq<real>>)
      requires Valid() && table.Valid() && cur < TableSize && next < TableSize
      requires currentState == table.stateList[cur] && newState == table.stateList[next]
      requires table.Qualities() == qs
      modifies currentState
      ensures Valid() && Snapshot() == old(Snapshot()) && table.Valid()
      ensures table.Qualities() == qs[cur := qs[cur][action := TdValue(qs[cur][action], stageReward, MaxOf(qs[next]), Alpha, Gamma)]]
    {
      forall i | 0 <= i < TableSize && i != cur
        ensures table.stateList[i] != currentState
      {
        if table.stateList[i] == currentState {
          TableKeysUnique(i, cur);
        }
      }
      table.UpdateQuality(currentState, newState, action, stageReward);
    }

    /** The action part of one pass of `Start`: stand, hit or a legal double. An illegal double
        does nothing here. Returns the new game status (still going), whether a double is still
        allowed, and the reward factor so far. */
    method Act(action: ActionIndex, doublePossible: bool, ghost table: QualityTable)
      returns (going: bool, canDouble: bool, rewardDouble: real)
      requires Valid() && ApplyMove(MoveOf(action, doublePossible), Snapshot()).Ok?
      modifies deck, player.hand, dealer.hand
      ensures table.Qualities() == old(table.Qualities())
      ensures Valid() && Snapshot() == ApplyMove(MoveOf(action, doublePossible), old(Snapshot())).value
      ensures going == (MoveOf(action, doublePossible) == HitMove || MoveOf(action, doublePossible) == IllegalDouble)
      ensures canDouble == (doublePossible && action != 1)
      ensures rewardDouble == if MoveOf(action, doublePossible) == DoubleMove then 2.0 else 1.0
    {
      ghost var g := Snapshot();
      going, canDouble, rewardDouble := true, doublePossible, 1.0;
      if action == 0 {
        assert ApplyMove(MoveOf(action, doublePossible), g) == ApplyMove(StandMove, g);
        player.Stand();
        dealer.Play(deck);
        going := false;
      } else if action == 1 {
        assert ApplyMove(MoveOf(action, doublePossible), g) == ApplyMove(HitMove, g);
        canDouble := false;
        player.Hit(deck);
      } else if action == 2 && doublePossible {
        assert ApplyMove(MoveOf(action, doublePossible), g) == ApplyMove(DoubleMove, g);
        player.Hit(deck);
        rewardDouble := 2.0;
        dealer.Play(deck);
        going := false;
      }
    }

    /** The action and what follows it in one pass of `Start`: act, look up the new state and
        take the stage reward. The table does not change. */
    method Advance(table: QualityTable, action: ActionIndex, doublePossible: bool, ghost so: StepOut)
      returns (going: bool, canDouble: bool, newState: State, stageReward: real)
      requires Valid() && table.Valid()
      requires so.action == action && so.move == MoveOf(action, doublePossible)
      requires ApplyMove(so.move, Snapshot()) == Ok(so.game)
      requires InTable(ClampedKey(so.game.player, so.game.dealer))
      requires so.next == Offset(ClampedKey(so.game.player, so.game.dealer))
      requires so.reward == StageReward(so.move, KeyReward(ClampedKey(so.game.player, so.game.dealer)))
      modifies deck, player.hand, dealer.hand
      ensures Valid() && table.Valid() && table.Qualities() == old(table.Qualities())
      ensures Snapshot() == so.game
      ensures going == (so.move == HitMove) && canDouble == (doublePossible && action != 1)
      ensures newState == table.stateList[so.next] && stageReward == so.reward
    {
      var rewardDouble: real;
      going, canDouble, rewardDouble := Act(action, doublePossible, table);
      newState := table.GetState(player, dealer);
      going, stageReward := TakeReward(so.move, action, going, canDouble, rewardDouble, newState.reward);
    }

    /** One pass of the loop of `Start`: choose an action from `currentState`'s qualities,
        sample the current state again, act, look up the new state, take the stage reward and
        update the table. It does what `Step` does on the values. */
    method Pass(table: QualityTable, currentState: State, doublePossible: bool, c: Choice,
                ghost qs: seq<seq<real>>, ghost g: GameState, ghost so: StepOut)
      returns (going: bool, canDouble: bool, newState: State)
      requires Valid() && table.Valid() && table.Qualities() == qs && Snapshot() == g
      requires Shaped(qs) && InTable(ClampedKey(g.player, g.dealer))
      requires so.current == Offset(ClampedKey(g.player, g.dealer)) && currentState == table.stateList[so.current]
      requires so.action == ChooseAction(c, qs[so.current]) && so.move == MoveOf(so.action, doublePossible)
      requires ApplyMove(so.move, g) == Ok(so.game)
      requires InTable(ClampedKey(so.game.player, so.game.dealer))
      requires so.next == Offset(ClampedKey(so.game.player, so.game.dealer))
      requires so.reward == StageReward(so.move, KeyReward(ClampedKey(so.game.player, so.game.dealer)))
      requires so.qualities == qs[so.current := qs[so.current][so.action :=
                 TdValue(qs[so.current][so.action], so.reward, MaxOf(qs[so.next]), Alpha, Gamma)]]
      modifies deck, player.hand, dealer.hand, currentState
      ensures Valid() && table.Valid()
      ensures table.Qualities() == so.qualities && Snapshot() == so.game
      ensures going == (so.move == HitMove) && canDouble == (doublePossible && so.action != 1)
      ensures going ==> !canDouble
      ensures newState == table.stateList[so.next]
    {
      var action: ActionIndex;
      match c {
        case Explore(a) => action := a;
        case Exploit => action := GreedyAction(currentState.actionQuality);
      }
      assert action == so.action;
      var sampled := table.GetState(player, dealer);
      var stageReward: real;
      going, canDouble, newState, stageReward := Advance(table, action, doublePossible, so);
      Learn(table, sampled, newState, action, stageReward, so.current, so.next, qs);
    }

    /** Pass `step` of the loop of `Start`, from the qualities `qs` and the game `g`: it does
        what `Run` does in one pass, and tells whether the loop goes on. */
    method Iterate(table: QualityTable, currentState: State, doublePossible: bool, step: nat, choices: nat -> Choice,
                   ghost qs: seq<seq<real>>, ghost g: GameState)
      returns (going: bool, canDouble: bool, newState: State, nextStep: nat,
               ghost qs': seq<seq<real>>, ghost g': GameState)
      requires Valid() && table.Valid() && Shaped(qs) && table.Qualities() == qs && Snapshot() == g
      requires Run(qs, g, doublePossible, step, choices).Ok?
      requires InTable(ClampedKey(g.player, g.dealer)) && currentState == table.stateList[Offset(ClampedKey(g.player, g.dealer))]
      modifies deck, player.hand, dealer.hand, currentState
      ensures Valid() && table.Valid() && nextStep == step + 1 && Shaped(qs')
      ensures table.Qualities() == qs' && Snapshot() == g'
      ensures going ==> && !canDouble && |g'.deck| < |g.deck|
                        && Run(qs', g', canDouble, nextStep, choices) == Run(qs, g, doublePossible, step, choices)
                        && InTable(ClampedKey(g'.player, g'.dealer))
                        && newState == table.stateList[Offset(ClampedKey(g'.player, g'.dealer))]
      ensures !going ==> Run(qs, g, doublePossible, step, choices) == Ok(EpisodeEnd(qs', g', nextStep))
    {
      RunFacts(qs, g, doublePossible, step, choices);
      StepFacts(qs, g, doublePossible, choices(step));
      ghost var so := Step(qs, g, doublePossible, choices(step)).value;
      going, canDouble, newState := Pass(table, currentState, doublePossible, choices(step), qs, g, so);
      nextStep, qs', g' := step + 1, so.qualities, so.game;
    }

    /** The episode: passes until the player stands, doubles or tries an illegal double; every
        pass updates one quality of the table. The exploration draws of the passes are
        `choices(0)`, `choices(1)`, ...; the method does what `Run` says, so it needs the deck
        not to run out. */
    method Start(table: QualityTable, choices: nat -> Choice)
      requires Valid() && table.Valid()
      requires Run(table.Qualities(), Snapshot(), true, 0, choices).Ok?
      modifies table.stateList, deck, player.hand, dealer.hand
      ensures Valid() && table.Valid() && table.stateList == old(table.stateList)
      ensures var e := Run(old(table.Qualities()), old(Snapshot()), true, 0, choices).value;
              table.Qualities() == e.qualities && Snapshot() == e.game
    {
      ghost var q0, g0 := table.Qualities(), Snapshot();
      ghost var qs, g := q0, g0;
      RunStartsInTable(q0, g0, true, 0, choices);
      var gameStatus := true;
      var doublePossible := true;
      var step: nat := 0;
      var currentState := table.GetState(player, dealer);
      while gameStatus
        invariant Valid() && table.Valid() && table.stateList == old(table.stateList)
        invariant Shaped(qs) && table.Qualities() == qs && Snapshot() == g
        invariant gameStatus ==> && Run(qs, g, doublePossible, step, choices) == Run(q0, g0, true, 0, choices)
                                 && InTable(ClampedKey(g.player, g.dealer))
                                 && currentState == table.stateList[Offset(ClampedKey(g.player, g.dealer))]
        invariant !gameStatus ==> Run(q0, g0, true, 0, choices) == Ok(EpisodeEnd(qs, g, step))
        decreases gameStatus, |g.deck|
      {
        gameStatus, doublePossible, currentState, step, qs, g :=
          Iterate(table, currentState, doublePossible, step, choices, qs, g);
      }
    }
  }
}
