# Blackjack Q-learning bot: a verified model of the game and learning core

This project models the core of a bot that learns a blackjack policy by tabular Q-learning. The core covers:

- the cards, the six-deck pack with its Fisher–Yates shuffle (Durstenfeld's in-place form, Knuth,
  TAOCP Vol. 2, section 3.4.2, Algorithm P) and draw from the front;
- the hand, with its running total, sticky soft flag and the up-card the dealer shows;
- the player's hit and stand, and the dealer's fixed policy (draw below 17, hit soft 17, soften once,
  reveal);
- the game state with its reward rule, and the quality table of 630 states with its clamped lookup
  and its one-step Q-update;
- one game (episode): shuffle and deal, then the loop that picks an action epsilon-greedily, plays
  it, looks up the new state and updates one quality.

Each source file is one module: `Cards`, `Packs`, `Hands`, `Players`, `Dealers`, `States`,
`QualityTables` and `Games`. `Outcomes` holds the `Option`/`Result` types and the two failures of
the core (`EmptyDeck`, `NoMatchingState`).

Objects that the source updates in place are classes: `CardPack`, `Hand`, `Player`, `Dealer`,
`State`, `QualityTable` and `Game`. Their methods are proved against value-level functions:

- `Shuffled`, `WithCard`, `Softened`, `Revealed`, `HitHand`, `StandHand` and `DealerTurn`;
- `Lookup` and `TdValue`;
- `Step` and `Run` for the episode loop.

The lemmas state the source's promises about these functions. Randomness becomes input:

- each shuffle pass takes the sequence of indices the generator returned;
- each pass of the episode loop takes an exploration outcome, `Exploit` or `Explore(a)` with a in {0,1,2}.

Qualities and the rates ε = 0.2, α = 0.1 and γ = 0.1 are Dafny `real`s, an idealisation of the
source's `double`s. The rates are constants of `QualityTable`: set once, never changed.

Quirks of the source that the model keeps, with the lemma that shows each:

- the "+3" branch of the reward rule is dead: every pair of totals is caught by the first three
  branches (`RewardRuleSettles`);
- the dealer can finish on 16: ace, 5, then 10 (`DealerCanEndOn16`);
- standing softens only once, so a soft hand above 31 stays above 21: three aces stand on 23
  (`StandCanStayAbove21`, `ThreeAcesStandOn23`);
- the player may hit past 21 and the game goes on (`HitContinues`);
- an update whose old and new state are the same object uses that state's best quality from before
  the write (`QualityTable.UpdateQuality`, `IllegalDoubleEnds`);
- the last branch of the reward chain, meant for a player on 21 (BlackJackBot/BlackJackBot.Utilities/State.cs:66-70), is never reached,
  so 21 against 19 pays 2 (`TwentyOneIsPaidAsWin`);
- ace, 6, ace totals 28 while soft, because no ace is recounted automatically (`AceSixAceIs28`);
- the dealer's key uses the up-card until `DealerEndGameValue`, which the dealer calls only at the end
  of `Play` (`HandOfAccounts`, `DealerTurnReveals`).

## Model

| member | source | states |
|---|---|---|
| `Cards.NewCardCases` | BlackJackBot/BlackJackBot.Utilities/Card.cs:32-59 | rank 1 is the ace worth 11; 2..10 are worth their number and named by it; 11, 12, 13 are jack, queen, king worth 10; anything else leaves value 0 and no rank; `Value` always stays 0 |
| `Cards.NewCardProper` | BlackJackBot/BlackJackBot.Utilities/Card.cs:34-58 | every card of rank 1..13 has a rank, is worth 2..11, and is worth 11 exactly when it is the ace |
| `Cards.RankRoundTrip` | BlackJackBot/BlackJackBot.Utilities/Card.cs:34-58 | the rank number can be read back from the rank of every card of rank 1..13 |
| `Cards.NewCardInjective` | BlackJackBot/BlackJackBot.Utilities/Card.cs:34-58 | two cards of rank 1..13 are equal exactly when their rank numbers are |
| `Packs.BuildPack` | CardPack.cs:31-40 | a pack of n decks holds 52·n cards |
| `Packs.BuildPackAt` | CardPack.cs:31-40 | the card at position p of an unshuffled pack has rank (p mod 52) div 4 + 1 |
| `Packs.BuildPackCount` | CardPack.cs:31-40 | every rank 1..13 occurs exactly 4·n times in a pack of n decks |
| `Packs.BuildPackProper` | CardPack.cs:31-40 | every card of an unshuffled pack is a proper card of rank 1..13 |
| `Packs.CardPack.constructor` | CardPack.cs:22-41 | the nested loops leave the pack equal to n decks in rank order, or empty for n ≤ 0 |
| `Packs.Shuffled` | CardPack.cs:47-61 | a shuffle pass keeps the length of the pack |
| `Packs.ShuffledPermutes` | CardPack.cs:52-60 | a shuffle pass keeps the multiset of cards: it is a permutation |
| `Packs.ShuffledKeepsSuffix` | CardPack.cs:52-60 | positions at or beyond `count` are never touched by the rest of the pass |
| `Packs.ShuffledPlacesLast` | CardPack.cs:54-59 | the first step puts the card at the first drawn index into the last position, and it stays there |
| `Packs.ShuffleShortIsIdentity` | CardPack.cs:52 | a pass over a pack of 0 or 1 cards changes nothing |
| `Packs.CardPack.Shuffle` | CardPack.cs:47-61 | the in-place swap loop leaves the cards equal to `Shuffled` of the old cards with the drawn indices |
| `Packs.CardPack.DrawCard` | CardPack.cs:68-74 | on a nonempty pack, returns the old front card and leaves the old cards after it |
| `Hands.Hand.constructor` | BlackJackBot/BlackJackBot.Utilities/Hand.cs:36-41 | a new hand has no cards, value 0, is hard, and shows 0 |
| `Hands.Hand.AddCard` | BlackJackBot/BlackJackBot.Utilities/Hand.cs:47-63 | appends the card, adds its value, sets the shown value on the first card only, becomes soft on an ace; keeps the accounting invariant |
| `Hands.Hand.SoftenValue` | BlackJackBot/BlackJackBot.Utilities/Hand.cs:69-72 | subtracts exactly 10 and changes nothing else; counts one more softening |
| `Hands.Hand.DealerEndGameValue` | BlackJackBot/BlackJackBot.Utilities/Hand.cs:77-80 | the shown value becomes the value; nothing else changes |
| `Hands.HandOfAccounts` | BlackJackBot/BlackJackBot.Utilities/Hand.cs:47-63 | a hand built by adding cards holds them, is worth their total, is soft iff one is an ace, and shows the first card's value, which later cards never change |
| `Hands.ReplayAccounts` | BlackJackBot/BlackJackBot.Utilities/Hand.cs:47-80 | after any calls, value = total of the added cards − 10 × softenings, and soft iff an ace was added: nothing makes a soft hand hard again |
| `Hands.AceSixAceIs28` | BlackJackBot/BlackJackBot.Utilities/Hand.cs:47-63 | ace, 6, ace give 28, soft, showing 11: aces are never recounted automatically |
| `Players.Player.constructor` | BlackJackBot/BlackJackBot.Utilities/Player.cs:21-24 | a new player holds a fresh empty hand |
| `Players.Player.Hit` | BlackJackBot/BlackJackBot.Utilities/Player.cs:31-34 | on a nonempty pack, the front card goes to the end of the hand and the pack loses it |
| `Players.Player.Stand` | BlackJackBot/BlackJackBot.Utilities/Player.cs:40-46 | the hand becomes `StandHand` of the old hand; the pack is not touched |
| `Players.StandSoftensOnlyBustSoft` | BlackJackBot/BlackJackBot.Utilities/Player.cs:40-46 | standing keeps cards, soft flag and shown value, and subtracts 10 exactly when the hand is soft and above 21, else keeps the value |
| `Players.StandCanStayAbove21` | BlackJackBot/BlackJackBot.Utilities/Player.cs:42-45 | a soft hand above 31 is still above 21 after standing |
| `Players.ThreeAcesStandOn23` | BlackJackBot/BlackJackBot.Utilities/Player.cs:42-45 | three aces are a soft 33 and stand on 23 |
| `Dealers.Dealer.constructor` | BlackJackBot/BlackJackBot.Utilities/Dealer.cs:21-24 | a new dealer holds a fresh empty hand |
| `Dealers.Dealer.Play` | BlackJackBot/BlackJackBot.Utilities/Dealer.cs:30-52 | the draw loop, the soft-17 hit, the one softening and the reveal leave hand and pack as `DealerTurn` says |
| `Dealers.DealerDrawTakesPrefix` | BlackJackBot/BlackJackBot.Utilities/Dealer.cs:33-36 | the draw loop takes a prefix of the pack in order, leaves the suffix, adds the prefix's total, draws only below 17 and stops at 17 or more |
| `Dealers.DealerTurnReveals` | BlackJackBot/BlackJackBot.Utilities/Dealer.cs:30-52 | after `Play` the shown value equals the value, the hand gained a prefix of the pack and the pack is the rest |
| `Dealers.DealerTurnHard` | BlackJackBot/BlackJackBot.Utilities/Dealer.cs:33-36 | a dealer that ends hard ends on 17 or more, and every card was drawn below 17 |
| `Dealers.DealerStandsOnHard17` | BlackJackBot/BlackJackBot.Utilities/Dealer.cs:33-51 | a hard hand at 17 or more draws nothing, keeps its value and reveals it |
| `Dealers.DealerHitsSoft17` | BlackJackBot/BlackJackBot.Utilities/Dealer.cs:38-48 | soft 17 after the loop takes exactly one more card, then softens once if above 21 |
| `Dealers.DealerTurnAtLeast12` | BlackJackBot/BlackJackBot.Utilities/Dealer.cs:30-52 | with proper cards the dealer never ends below 12 |
| `Dealers.DealerCanEndOn16` | BlackJackBot/BlackJackBot.Utilities/Dealer.cs:44-47 | ace and 5 drawing a 10 end on 16 |
| `States.RewardRule` | BlackJackBot/BlackJackBot.Utilities/State.cs:51-70 | −1 iff the player busts or the dealer is higher without busting; 2 iff the player does not bust and the dealer busts or is lower; 0 iff equal totals without bust; never 3 |
| `States.RewardRuleSettles` | BlackJackBot/BlackJackBot.Utilities/State.cs:51-70 | the reward equals the payout of the usual settlement and lies in {−1, 0, 2}: the "+3" branch is dead |
| `States.TwentyOneIsPaidAsWin` | BlackJackBot/BlackJackBot.Utilities/State.cs:66-70 | 21 against any other dealer total is paid 2 |
| `States.State.constructor` | BlackJackBot/BlackJackBot.Utilities/State.cs:47-78 | keeps the totals and soft flag given, fixes the reward by the rule, sets the qualities to [0,0,0] |
| `States.State.UpdateQuality` | BlackJackBot/BlackJackBot.Utilities/State.cs:85-88 | overwrites the quality of one action and keeps the other two |
| `QualityTables.QualityTable.constructor` | BlackJackBot/BlackJackBot.Utilities/QualityTable.cs:39-64 | 630 fresh states, the hard keys then the soft keys in loop order, each with its rule reward and zero qualities |
| `QualityTables.TableKeyOffset` | BlackJackBot/BlackJackBot.Utilities/QualityTable.cs:45-63 | the key at each position is a table key and sits at its own offset |
| `QualityTables.OffsetTableKey` | BlackJackBot/BlackJackBot.Utilities/QualityTable.cs:45-63 | every table key is found at its offset |
| `QualityTables.TableKeysUnique` | BlackJackBot/BlackJackBot.Utilities/QualityTable.cs:48-63 | no two states share a key |
| `QualityTables.FirstKey` | BlackJackBot/BlackJackBot.Utilities/QualityTable.cs:93-95 | the search returns the first position holding the key, or none when no position holds it |
| `QualityTables.FirstKeyInTable` | BlackJackBot/BlackJackBot.Utilities/QualityTable.cs:93-95 | the search over the table finds exactly the table keys, at their offsets |
| `QualityTables.Lookup` | BlackJackBot/BlackJackBot.Utilities/QualityTable.cs:91-96 | the lookup succeeds exactly when the clamped key is a table key, and otherwise fails with `NoMatchingState` |
| `QualityTables.LookupSearches` | BlackJackBot/BlackJackBot.Utilities/QualityTable.cs:93-95 | the lookup is the `First()` search, and it finds the state keyed by the clamped totals and the soft flag |
| `QualityTables.ClampedKeyInTable` | BlackJackBot/BlackJackBot.Utilities/QualityTable.cs:93-95 | a dealer at 2 or more and a player at 4 or more (12 or more when soft) always have a state |
| `QualityTables.QualityTable.GetState` | BlackJackBot/BlackJackBot.Utilities/QualityTable.cs:91-96 | returns the state at the offset of (min(22, player value), min(22, dealer shown value), player soft) |
| `QualityTables.MaxOf` | BlackJackBot/BlackJackBot.Utilities/QualityTable.cs:76 | the maximum is one of the qualities and no quality exceeds it |
| `QualityTables.IndexOf` | BlackJackBot/BlackJackBot.Utilities/Game.cs:95 | the first position holding the value, or −1 exactly when none does |
| `QualityTables.TdValueContracts` | BlackJackBot/BlackJackBot.Utilities/QualityTable.cs:79 | each update closes 10% of the gap to reward + γ·max, so the new quality lies between the old one and that target |
| `QualityTables.FirstStandWin` | BlackJackBot/BlackJackBot.Utilities/QualityTable.cs:79 | from zero, a reward of 2 gives 0.2, and a standing win (2 × 10) gives 2 |
| `QualityTables.QualityTable.UpdateQuality` | BlackJackBot/BlackJackBot.Utilities/QualityTable.cs:73-83 | writes only the action's slot of the old state, with (1−α)·old + α·(reward + γ·max of the new state's qualities read before the write) |
| `Games.ShuffledTimes` | BlackJackBot/BlackJackBot.Utilities/Game.cs:42-45 | repeated passes keep the length of the pack |
| `Games.ShuffledTimesPermutes` | BlackJackBot/BlackJackBot.Utilities/Game.cs:42-45 | any number of passes only reorders the pack |
| `Games.ShuffleTimes` | BlackJackBot/BlackJackBot.Utilities/Game.cs:42-45 | the shuffle loop leaves the pack as the passes, in order, make it |
| `Games.DealTwoRounds` | BlackJackBot/BlackJackBot.Utilities/Game.cs:50-54 | the deal loop leaves deck and hands as `Deal` of the old deck |
| `Games.DealDeals` | BlackJackBot/BlackJackBot.Utilities/Game.cs:50-54 | the dealer gets cards 0 and 2 and shows card 0; the player gets cards 1 and 3; the deck keeps the rest in order |
| `Games.DealConserves` | BlackJackBot/BlackJackBot.Utilities/Game.cs:50-54 | dealing loses no card |
| `Games.InitialGameDeals` | BlackJackBot/BlackJackBot.Utilities/Game.cs:41-54 | after construction 308 cards remain, and deck and hands hold a reordering of the six decks |
| `Games.InitialGameInPlay` | BlackJackBot/BlackJackBot.Utilities/Game.cs:41-54 | a dealt game has proper cards, a player at 4 or more (12 or more when soft) and a dealer showing 2 or more |
| `Games.Game.constructor` | BlackJackBot/BlackJackBot.Utilities/Game.cs:39-55 | builds six decks, shuffles them 20 times, and deals the game `InitialGame` describes |
| `Games.GreedyAction` | BlackJackBot/BlackJackBot.Utilities/Game.cs:95 | returns an action of maximal quality with every earlier action strictly lower: the first maximum |
| `Games.ApplyMove` | BlackJackBot/BlackJackBot.Utilities/Game.cs:101-137 | a hit takes exactly one card, and no move adds cards to the deck |
| `Games.ApplyMoveFails` | BlackJackBot/BlackJackBot.Utilities/Game.cs:101-137 | a move fails only with `EmptyDeck` |
| `Games.ApplyMoveInPlay` | BlackJackBot/BlackJackBot.Utilities/Game.cs:101-137 | every move keeps the game in play, so its new state is in the table |
| `Games.Step` | BlackJackBot/BlackJackBot.Utilities/Game.cs:86-168 | a pass keeps the table shape, looks up two table states, and takes one card on a hit and never adds one |
| `Games.StepWritesOneQuality` | BlackJackBot/BlackJackBot.Utilities/Game.cs:166 | a pass writes the chosen action's quality in the current state, by the Q-learning formula, and no other quality of any state |
| `Games.StepChoosesAction` | BlackJackBot/BlackJackBot.Utilities/Game.cs:87-96 | the action is the explored one, or else the first of maximal quality in the current state |
| `Games.HitContinues` | BlackJackBot/BlackJackBot.Utilities/Game.cs:115-124 | a hit moves the front card to the player, pays the new state's reward × 1, forbids later doubles, and the game goes on at any total |
| `Games.StandEnds` | BlackJackBot/BlackJackBot.Utilities/Game.cs:103-113 | a stand runs `Stand` and then `Play`, pays the new state's reward × 10, and ends the game |
| `Games.DoubleEnds` | BlackJackBot/BlackJackBot.Utilities/Game.cs:126-137 | a legal double draws exactly one player card, lets the dealer play, pays × 20 and ends the game |
| `Games.IllegalDoubleEnds` | BlackJackBot/BlackJackBot.Utilities/Game.cs:141-152 | a double after a hit leaves deck and hands alone, so the new state is the current one; it pays −10, discounts that state's pre-write maximum, and ends the game |
| `Games.TakeReward` | BlackJackBot/BlackJackBot.Utilities/Game.cs:143-162 | the reward code goes on only after a hit, and its stage reward is −10 for an illegal double, else the new reward × 1, 10 or 20 |
| `Games.Run` | BlackJackBot/BlackJackBot.Utilities/Game.cs:84-168 | the loop is bounded: it makes at most one pass more than the cards it takes |
| `Games.RunStartsInTable` | BlackJackBot/BlackJackBot.Utilities/Game.cs:73 | a run that does not fail starts from a state in the table |
| `Games.RunFindsStates` | BlackJackBot/BlackJackBot.Utilities/Game.cs:84-168 | from a game in play the loop never misses the table: it ends or runs out of cards |
| `Games.EpisodeOnlyRunsOutOfCards` | BlackJackBot/BlackJackBot.Utilities/Game.cs:39-168 | an episode on a freshly dealt game can fail only with `EmptyDeck` |
| `Games.Game.Act` | BlackJackBot/BlackJackBot.Utilities/Game.cs:101-137 | stand, hit or legal double change deck and hands as `ApplyMove` says; returns the game status, the double flag and the reward factor |
| `Games.Game.Advance` | BlackJackBot/BlackJackBot.Utilities/Game.cs:101-162 | acts, looks up the new state and takes the stage reward, leaving the table unchanged |
| `Games.Game.Learn` | BlackJackBot/BlackJackBot.Utilities/Game.cs:166 | the update changes exactly one quality of the table and nothing of the game |
| `Games.Game.Pass` | BlackJackBot/BlackJackBot.Utilities/Game.cs:86-168 | one pass of the loop does to the table and the game what `Step` says |
| `Games.Game.Iterate` | BlackJackBot/BlackJackBot.Utilities/Game.cs:86-168 | one pass either goes on with fewer cards and the same remaining `Run`, or ends where `Run` ends |
| `Games.Game.Start` | BlackJackBot/BlackJackBot.Utilities/Game.cs:66-195 | the episode leaves the qualities and the game as `Run` says from the initial state |

## Left out

- Console output: the `print` branches of `Game.Start` and `QualityTable.PrintResultTable`.
- `Program.cs`, the epoch driver: it only builds a table and runs games in a loop.
- `System.Random`: the shuffle indices and the exploration outcomes are inputs. Nothing is claimed
  about their distribution, the uniformity of the shuffle, or `NextDouble() < Epsilon` beyond its
  boolean result.
- IEEE `double` arithmetic: qualities, rewards and rates are exact reals, so rounding is not
  modelled.
- The `Rank` strings: ranks are a datatype, and the number cards carry their number instead of its
  decimal string.
- Card identity: cards are values, not objects, so two cards of the same rank are not told apart.
  Every list operation of the source keeps each card object where the value model puts its value.
- The exceptions of `Cards[0]` on an empty pack and of `First()` on no match. The methods require a
  nonempty pack or a key in the table. The value-level functions return `EmptyDeck` or
  `NoMatchingState` instead, and `EpisodeOnlyRunsOutOfCards` proves the second never happens in a
  dealt game.
- Games.Game.Start: requires that the deck does not run out during the episode, which the source
  leaves to a .NET exception. With 308 cards after the deal this is a bound on the number of hits,
  not a behaviour.
- The states of the quality table are found by offset rather than by a scan; `LookupSearches`
  proves that the offset is where the scan of `First()` stops.
