/** One game state: the totals it is keyed by, the reward fixed when it is built, and the
    qualities of the three actions (stand, hit, double), which are updated in place. */
module States {

  /** The 21 the reward rule compares against. */
  const BlackJack: int := 21

  /** The actions in the order their qualities are listed: stand, hit, double. */
  const ActionCount: nat := 3
  type ActionIndex = a: int | 0 <= a < 3

  /** The qualities of one state, one per action. */
  type ActionQualities = q: seq<real> | |q| == ActionCount witness [0.0, 0.0, 0.0]

  /** The key a state is looked up by. */
  datatype StateKey = StateKey(player: int, dealer: int, soft: bool)

  /** The reward chain of the constructor, branch for branch, with the final "+3" branch and the
      value 0.0 a `double` that no branch assigns keeps. */
  function RewardRule(p: int, d: int): (r: real)
    ensures r == -1.0 <==> p > BlackJack || p < d <= BlackJack
    ensures r == 2.0 <==> p <= BlackJack && (d > BlackJack || d < p)
    ensures r == 0.0 <==> p <= BlackJack && d == p
    ensures r != 3.0
  {
    if (d > p && d <= BlackJack) || p > BlackJack then -1.0
    else if (d > BlackJack && p <= BlackJack) || (d < p && p <= BlackJack) then 2.0
    else if d == p && p <= BlackJack then 0.0
    else if d != p && p == BlackJack then 3.0
    else 0.0
  }

  /** How a hand ends, decided the usual way: a bust player loses, then a bust dealer loses,
      then the higher total wins. */
  datatype Outcome = Lose | Win | Tie

  function Settle(p: int, d: int): Outcome {
    if p > BlackJack then Lose
    else if d > BlackJack then Win
    else if p > d then Win
    else if p < d then Lose
    else Tie
  }

  function Payout(o: Outcome): real {
    match o
    case Lose => -1.0
    case Win => 2.0
    case Tie => 0.0
  }

  /** The reward chain pays exactly what the usual settlement pays: the first three branches
      cover every pair of totals, so the "+3" branch is never taken. */
  lemma RewardRuleSettles(p: int, d: int)
    ensures RewardRule(p, d) == Payout(Settle(p, d))
    ensures RewardRule(p, d) in {-1.0, 0.0, 2.0}
  {
  }

  /** The player reaching 21 against any other dealer total is paid the win 2, not the "+3" the
      last branch of the chain was written for. */
  lemma TwentyOneIsPaidAsWin(d: int)
    requires d != BlackJack
    ensures RewardRule(BlackJack, d) == 2.0
  {
  }

  class State {
    const playerValue: int
    const dealerValue: int
    const reward: real
    const isSoft: bool
    var actionQuality: ActionQualities

    function Key(): StateKey {
      StateKey(playerValue, dealerValue, isSoft)
    }

    constructor (p: int, d: int, soft: bool)
      ensures playerValue == p && dealerValue == d && isSoft == soft
      ensures reward == RewardRule(p, d)
      ensures actionQuality == [0.0, 0.0, 0.0]
    {
      reward := RewardRule(p, d);
      dealerValue := d;
      playerValue := p;
      isSoft := soft;
      actionQuality := [0.0, 0.0, 0.0];
    }

    /** Overwrites one action's quality. */
    method UpdateQuality(action: int, newValue: real)
      requires 0 <= action < |actionQuality|
      modifies this
      ensures actionQuality == old(actionQuality)[action := newValue]
    {
      actionQuality := actionQuality[action := newValue];
    }
  }
}
