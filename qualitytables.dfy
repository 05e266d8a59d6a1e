/** The Q-learning table: one state per (player total, dealer total, soft) key, the one-step
    quality update, and the lookup of the state the hands are in. */
module QualityTables {
  import opened Outcomes
  import opened Hands
  import opened States
  import opened Players
  import opened Dealers

  /** Totals above this are looked up as this value. */
  const MaxTotal: int := 22
  /** Dealer totals run 2..22, so each player total has 21 states; the 399 hard states (player
      totals 4..22) come first and the 231 soft ones (player totals 12..22) follow. */
  const TableSize: nat := 630

  /** The key of the `i`-th state the constructor appends. */
  function TableKey(i: nat): StateKey
    requires i < TableSize
  {
    if i < 399 then StateKey(4 + i / 21, 2 + i % 21, false)
    else StateKey(12 + (i - 399) / 21, 2 + (i - 399) % 21, true)
  }

  function TableKeys(): (ks: seq<StateKey>)
    ensures |ks| == TableSize
  {
    seq(TableSize, i requires 0 <= i < TableSize => TableKey(i))
  }

  /** The keys the table holds a state for. */
  predicate InTable(k: StateKey) {
    2 <= k.dealer <= MaxTotal && (if k.soft then 12 <= k.player <= MaxTotal else 4 <= k.player <= MaxTotal)
  }

  /** Where the constructor puts the state of key `k`. */
  function Offset(k: StateKey): nat
    requires InTable(k)
  {
    if k.soft then 399 + (k.player - 12) * 21 + (k.dealer - 2)
    else (k.player - 4) * 21 + (k.dealer - 2)
  }

  /** Position and key determine each other: the `i`-th key is in the table at offset `i` ... */
  lemma TableKeyOffset(i: nat)
    requires i < TableSize
    ensures InTable(TableKey(i)) && Offset(TableKey(i)) == i
  {
    if i < 399 {
      assert i == (i / 21) * 21 + i % 21;
    } else {
      var j := i - 399;
      assert j == (j / 21) * 21 + j % 21;
    }
  }

  /** ... and every key of the table sits at its offset. */
  lemma OffsetTableKey(k: StateKey)
    requires InTable(k)
    ensures Offset(k) < TableSize && TableKey(Offset(k)) == k
  {
    var q, r := k.player - (if k.soft then 12 else 4), k.dealer - 2;
    DivModOfRow(q, r);
  }

  lemma DivModOfRow(q: int, r: int)
    requires 0 <= q && 0 <= r < 21
    ensures (q * 21 + r) / 21 == q && (q * 21 + r) % 21 == r
  {
  }

  /** No two states of the table share a key. */
  lemma TableKeysUnique(i: nat, j: nat)
    requires i < TableSize && j < TableSize && TableKey(i) == TableKey(j)
    ensures i == j
  {
    TableKeyOffset(i);
    TableKeyOffset(j);
  }

  /** The position of the first key equal to `k`: `Where(...).First()`. */
  function FirstKey(keys: seq<StateKey>, k: StateKey): (r: Option<nat>)
    ensures r.Some? ==> r.value < |keys| && keys[r.value] == k && forall j :: 0 <= j < r.value ==> keys[j] != k
    ensures r.None? ==> forall j :: 0 <= j < |keys| ==> keys[j] != k
    decreases |keys|
  {
    if keys == [] then None
    else if keys[0] == k then Some(0)
    else match FirstKey(keys[1..], k)
      case Some(i) => Some(i + 1)
      case None => None
  }

  /** Searching the table's keys finds exactly the keys of the table, at their offsets. */
  lemma FirstKeyInTable(k: StateKey)
    ensures FirstKey(TableKeys(), k) == if InTable(k) then Some(Offset(k)) else None
    ensures InTable(k) ==> Offset(k) < TableSize && TableKey(Offset(k)) == k
  {
    var r := FirstKey(TableKeys(), k);
    if InTable(k) {
      OffsetTableKey(k);
      assert TableKeys()[Offset(k)] == k;
      TableKeysUnique(r.value, Offset(k));
    } else if r.Some? {
      TableKeyOffset(r.value);
    }
  }

  /** The key a pair of hands is looked up by: both totals clamped at 22, the player's soft flag. */
  function ClampedKey(player: HandState, dealer: HandState): StateKey {
    StateKey(Clamp(player.value), Clamp(dealer.dealerValue), player.isSoft)
  }

  function Clamp(v: int): int {
    if v < MaxTotal then v else MaxTotal
  }

  /** `GetState` on values: the offset of the state the hands are in, or the failure `First()`
      raises when there is none. It succeeds exactly on the keys of the table. */
  function Lookup(player: HandState, dealer: HandState): (r: Result<nat>)
    ensures r.Ok? <==> InTable(ClampedKey(player, dealer))
    ensures r.Ok? ==> r.value < TableSize
    ensures r.Err? ==> r.error == NoMatchingState
  {
    var k := ClampedKey(player, dealer);
    if InTable(k) then OffsetTableKey(k); Ok(Offset(k)) else Err(NoMatchingState)
  }

  /** `Lookup` is the search of `First()`: the first state of the table whose key is the
      clamped key, which is the state of that key. */
  lemma LookupSearches(player: HandState, dealer: HandState)
    ensures var k := ClampedKey(player, dealer);
            Lookup(player, dealer) == match FirstKey(TableKeys(), k)
                                      case Some(i) => Ok(i)
                                      case None => Err(NoMatchingState)
    ensures Lookup(player, dealer).Ok? ==> TableKey(Lookup(player, dealer).value) == ClampedKey(player, dealer)
  {
    FirstKeyInTable(ClampedKey(player, dealer));
  }

  /** Clamping keeps totals of 2..22 and maps every higher total to 22. */
  lemma ClampedKeyInTable(player: HandState, dealer: HandState)
    requires dealer.dealerValue >= 2
    requires if player.isSoft then player.value >= 12 else player.value >= 4
    ensures InTable(ClampedKey(player, dealer))
  {
  }

  /** The largest quality: `ActionQuality.Max()`. */
  function MaxOf(q: seq<real>): (m: real)
    requires |q| > 0
    ensures exists i :: 0 <= i < |q| && q[i] == m
    ensures forall i :: 0 <= i < |q| ==> q[i] <= m
    decreases |q|
  {
    if |q| == 1 then q[0]
    else
      var rest := MaxOf(q[1..]);
      assert forall i :: 1 <= i < |q| ==> q[i] == q[1..][i - 1];
      if q[0] >= rest then q[0] else rest
  }

  /** The first position of `x`, or -1: `List.IndexOf`. */
  function IndexOf(q: seq<real>, x: real): (r: int)
    ensures -1 <= r < |q|
    ensures r >= 0 ==> q[r] == x && forall j :: 0 <= j < r ==> q[j] != x
    ensures r == -1 <==> forall j :: 0 <= j < |q| ==> q[j] != x
    decreases |q|
  {
    if q == [] then -1
    else if q[0] == x then 0
    else
      var r := IndexOf(q[1..], x);
      assert forall j :: 1 <= j < |q| ==> q[j] == q[1..][j - 1];
      if r == -1 then -1 else r + 1
  }

  /** The Q-learning formula: the old quality moved by the learning rate towards the reward plus
      the discounted best quality of the next state. */
  function TdValue(current: real, reward: real, maxNext: real, alpha: real, gamma: real): real {
    (1.0 - alpha) * current + (reward + gamma * maxNext) * alpha
  }

  const Alpha: real := 0.1
  const Gamma: real := 0.1
  const Epsilon: real := 0.2

  /** What one update aims at. */
  function Target(reward: real, maxNext: real): real {
    reward + Gamma * maxNext
  }

  /** With the table's rates each update closes 10% of the gap to the target, so the new
      quality lies between the old one and the target and stays put exactly at the target. */
  lemma TdValueContracts(current: real, reward: real, maxNext: real)
    ensures var t := Target(reward, maxNext);
            var v := TdValue(current, reward, maxNext, Alpha, Gamma);
            && v - t == (1.0 - Alpha) * (current - t)
            && (current <= t ==> current <= v <= t)
            && (t <= current ==> t <= v <= current)
            && (v == current <==> current == t)
  {
  }

  /** From a fresh quality, a reward of 2 into a fresh state gives 0.2, and a first win by
      standing (reward 2, multiplied by 10) gives 2. */
  lemma FirstStandWin()
    ensures TdValue(0.0, 2.0, 0.0, Alpha, Gamma) == 0.2
    ensures TdValue(0.0, 2.0 * 10.0, 0.0, Alpha, Gamma) == 2.0
  {
  }

  class QualityTable {
    /** The rates are fixed when the table is made and never change. */
    const epsilon: real := Epsilon
    const alpha: real := Alpha
    const gamma: real := Gamma
    var stateList: seq<State>

    /** The states are those the constructor builds, in its order; keys and rewards never
        change, so this depends on the list alone. */
    ghost predicate Valid()
      reads this
    {
      && |stateList| == TableSize
      && (forall i :: 0 <= i < TableSize ==> stateList[i].Key() == TableKey(i))
      && (forall i :: 0 <= i < TableSize ==>
            stateList[i].reward == RewardRule(stateList[i].playerValue, stateList[i].dealerValue))
    }

    /** The keys of the states, in table order. */
    function Keys(): (ks: seq<StateKey>)
      reads this
      ensures |ks| == |stateList| && forall i :: 0 <= i < |ks| ==> ks[i] == stateList[i].Key()
    {
      var sl := stateList;
      seq(|sl|, i requires 0 <= i < |sl| => sl[i].Key())
    }

    /** The qualities of the states, in table order. */
    function Qualities(): (qs: seq<ActionQualities>)
      reads this, stateList
      ensures |qs| == |stateList|
    {
      var sl := stateList;
      seq(|sl|, i reads sl requires 0 <= i < |sl| => sl[i].actionQuality)
    }

    /** Fills the table: the hard states row by row, then the soft ones, all qualities zero. */
    constructor ()
      ensures Valid()
      ensures forall i :: 0 <= i < |stateList| ==> fresh(stateList[i])
      ensures forall i :: 0 <= i < |stateList| ==> stateList[i].actionQuality == [0.0, 0.0, 0.0]
    {
      stateList := [];
      new;
      var playerValue := 4;
      while playerValue <= MaxTotal
        invariant 4 <= playerValue <= MaxTotal + 1
        invariant |stateList| == (playerValue - 4) * 21
        invariant forall i :: 0 <= i < |stateList| ==> Built(stateList[i], i) && fresh(stateList[i])
      {
        var dealerValue := 2;
        while dealerValue <= MaxTotal
          invariant 2 <= dealerValue <= MaxTotal + 1
          invariant |stateList| == (playerValue - 4) * 21 + (dealerValue - 2)
          invariant forall i :: 0 <= i < |stateList| ==> Built(stateList[i], i) && fresh(stateList[i])
        {
          var s := new State(playerValue, dealerValue, false);
          OffsetTableKey(s.Key());
          stateList := stateList + [s];
          dealerValue := dealerValue + 1;
        }
        playerValue := playerValue + 1;
      }
      playerValue := 12;
      while playerValue <= MaxTotal
        invariant 12 <= playerValue <= MaxTotal + 1
        invariant |stateList| == 399 + (playerValue - 12) * 21
        invariant forall i :: 0 <= i < |stateList| ==> Built(stateList[i], i) && fresh(stateList[i])
      {
        var dealerValue := 2;
        while dealerValue <= MaxTotal
          invariant 2 <= dealerValue <= MaxTotal + 1
          invariant |stateList| == 399 + (playerValue - 12) * 21 + (dealerValue - 2)
          invariant forall i :: 0 <= i < |stateList| ==> Built(stateList[i], i) && fresh(stateList[i])
        {
          var s := new State(playerValue, dealerValue, true);
          OffsetTableKey(s.Key());
          stateList := stateList + [s];
          dealerValue := dealerValue + 1;
        }
        playerValue := playerValue + 1;
      }
    }

    /** The one-step Q-learning update of the quality of `action` in `oldState`. The best
        quality of `newState` is read before the write, so when both are the same state the
        update uses that state's qualities from before it. */
    method UpdateQuality(oldState: State, newState: State, action: int, reward: real)
      requires 0 <= action < ActionCount
      modifies oldState
      ensures oldState.actionQuality == old(oldState.actionQuality)[action :=
        TdValue(old(oldState.actionQuality[action]), reward, MaxOf(old(newState.actionQuality)), alpha, gamma)]
    {
      var maxActionQuality := MaxOf(newState.actionQuality);
      var newValue := (1.0 - alpha) * oldState.actionQuality[action] + (reward + (gamma * maxActionQuality)) * alpha;
      oldState.UpdateQuality(action, newValue);
    }

    /** The state the hands are in: the first state whose key is the clamped totals and the
        player's soft flag. */
    function GetState(player: Player, dealer: Dealer): (s: State)
      reads this, player.hand, dealer.hand
      requires Valid() && InTable(ClampedKey(player.hand.Snapshot(), dealer.hand.Snapshot()))
      ensures s.Key() == ClampedKey(player.hand.Snapshot(), dealer.hand.Snapshot())
      ensures s == stateList[Offset(ClampedKey(player.hand.Snapshot(), dealer.hand.Snapshot()))]
    {
      var k := ClampedKey(player.hand.Snapshot(), dealer.hand.Snapshot());
      assert Keys() == TableKeys();
      FirstKeyInTable(k);
      stateList[FirstKey(Keys(), k).value]
    }
  }

  /** What the constructor has put at position `i`. */
  ghost predicate Built(s: State, i: nat)
    reads s
  {
    && i < TableSize
    && s.Key() == TableKey(i)
    && s.reward == RewardRule(s.playerValue, s.dealerValue)
    && s.actionQuality == [0.0, 0.0, 0.0]
  }
}
