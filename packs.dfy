/** The card pack: n standard decks built in a fixed order, shuffled in place by
    Durstenfeld's form of the Fisher-Yates shuffle (Knuth, TAOCP Vol. 2, section 3.4.2,
    Algorithm P), and drawn from the front. */
module Packs {
  import opened Cards

  /** The number of copies of each rank in a standard deck (`cardRepetition`). */
  const CardRepetition: nat := 4

  /** The number of ranks in a standard deck (`cardValues`). */
  const CardValues: nat := 13

  /** The card at position p of one standard deck in construction order: the three nested
      loops produce the ranks 1..13 in turn, four cards of each. */
  function DeckCard(p: int): Card {
    NewCard(p / CardRepetition + 1)
  }

  /** The 52 cards of one standard deck in construction order. */
  function StandardDeck(): (r: seq<Card>)
    ensures |r| == 52
  {
    seq(52, DeckCard)
  }

  /** The unshuffled pack of `n` standard decks. */
  function BuildPack(n: nat): (r: seq<Card>)
    ensures |r| == 52 * n
  {
    if n == 0 then [] else BuildPack(n - 1) + StandardDeck()
  }

  /** The number of random indices one shuffle pass draws from a pack of `count` cards. */
  function Draws(count: int): nat {
    if count > 1 then count - 1 else 0
  }

  /** `r` is a sequence of indices a shuffle pass of `count` cards may draw: the k-th draw
      is taken when `count - 1 - k` is the position being filled, and lies in `[0, count - 1 - k]`. */
  predicate ValidDraws(count: int, r: seq<int>) {
    |r| == Draws(count) && forall k :: 0 <= k < |r| ==> 0 <= r[k] <= count - 1 - k
  }

  function Swap(s: seq<Card>, i: int, j: int): seq<Card>
    requires 0 <= i < |s| && 0 <= j < |s|
  {
    s[i := s[j]][j := s[i]]
  }

  /** The shuffle pass on the first `count` positions, given the indices it draws. */
  function Shuffled(s: seq<Card>, count: int, r: seq<int>): (t: seq<Card>)
    requires 0 <= count <= |s| && ValidDraws(count, r)
    ensures |t| == |s|
    decreases count
  {
    if count <= 1 then s
    else Shuffled(Swap(s, r[0], count - 1), count - 1, r[1..])
  }

  lemma SwapPermutes(s: seq<Card>, i: int, j: int)
    requires 0 <= i < |s| && 0 <= j < |s|
    ensures multiset(Swap(s, i, j)) == multiset(s)
  {
    var t := s[i := s[j]];
    assert multiset(t) == multiset(s) - multiset{s[i]} + multiset{s[j]};
    assert t[j] == s[j] || i == j;
  }

  /** A shuffle pass is a permutation. */
  lemma {:induction false} ShuffledPermutes(s: seq<Card>, count: int, r: seq<int>)
    requires 0 <= count <= |s| && ValidDraws(count, r)
    ensures multiset(Shuffled(s, count, r)) == multiset(s)
    decreases count
  {
    if count > 1 {
      SwapPermutes(s, r[0], count - 1);
      ShuffledPermutes(Swap(s, r[0], count - 1), count - 1, r[1..]);
    }
  }

  /** Positions at or beyond `count` are never touched by a pass over the first `count`. */
  lemma {:induction false} ShuffledKeepsSuffix(s: seq<Card>, count: int, r: seq<int>)
    requires 0 <= count <= |s| && ValidDraws(count, r)
    ensures Shuffled(s, count, r)[count..] == s[count..]
    decreases count
  {
    if count > 1 {
      var t := Swap(s, r[0], count - 1);
      ShuffledKeepsSuffix(t, count - 1, r[1..]);
      assert t[count..] == s[count..];
    }
  }

  /** The first step puts the card at the first drawn index in position `count - 1`, and
      no later step moves it again. */
  lemma ShuffledPlacesLast(s: seq<Card>, count: int, r: seq<int>)
    requires 2 <= count <= |s| && ValidDraws(count, r)
    ensures Shuffled(s, count, r)[count - 1] == s[r[0]]
  {
    var t := Swap(s, r[0], count - 1);
    ShuffledKeepsSuffix(t, count - 1, r[1..]);
    assert Shuffled(s, count, r)[count - 1..][0] == t[count - 1..][0];
  }

  /** A pass over 0 or 1 cards changes nothing. */
  lemma ShuffleShortIsIdentity(s: seq<Card>, r: seq<int>)
    requires |s| <= 1 && ValidDraws(|s|, r)
    ensures Shuffled(s, |s|, r) == s
  {
  }

  /** The card at position p of an unshuffled pack has rank number (p mod 52) div 4 + 1. */
  lemma {:induction false} BuildPackAt(n: nat, p: int)
    requires 0 <= p < |BuildPack(n)|
    ensures BuildPack(n)[p] == NewCard((p % 52) / 4 + 1)
    decreases n
  {
    if p < 52 * (n - 1) {
      BuildPackAt(n - 1, p);
      ModShift(p, 1);
    } else {
      var q := p - 52 * (n - 1);
      assert BuildPack(n)[p] == StandardDeck()[q];
      ModShift(q, n - 1);
    }
  }

  lemma ModShift(q: int, m: nat)
    requires 0 <= q
    ensures (q + 52 * m) % 52 == q % 52
  {
    var k := q / 52;
    assert q + 52 * m == 52 * (k + m) + q % 52;
  }

  /** How many of the first m positions of a standard deck hold rank v. */
  function RankInPrefix(m: int, v: int): int {
    var x := m - 4 * (v - 1);
    if x < 0 then 0 else if x > 4 then 4 else x
  }

  lemma {:induction false} DeckPrefixCount(m: nat, v: int)
    requires m <= 52 && 1 <= v <= CardValues
    ensures multiset(StandardDeck()[..m])[NewCard(v)] == RankInPrefix(m, v)
  {
    if m > 0 {
      var d := StandardDeck();
      var r := (m - 1) / CardRepetition + 1;
      assert d[..m] == d[..m - 1] + [NewCard(r)];
      DeckPrefixCount(m - 1, v);
      MultisetAppendCount(d[..m - 1], [NewCard(r)], NewCard(v));
      NewCardInjective(r, v);
      if r == v {
        assert RankInPrefix(m, v) == RankInPrefix(m - 1, v) + 1;
      } else {
        assert RankInPrefix(m, v) == RankInPrefix(m - 1, v);
      }
    }
  }

  lemma MultisetAppendCount(a: seq<Card>, b: seq<Card>, x: Card)
    ensures multiset(a + b)[x] == multiset(a)[x] + multiset(b)[x]
  {
  }

  /** Every rank occurs exactly 4n times in a pack of n decks. */
  lemma {:induction false} BuildPackCount(n: nat, v: int)
    requires 1 <= v <= CardValues
    ensures multiset(BuildPack(n))[NewCard(v)] == 4 * n
    decreases n
  {
    if n > 0 {
      BuildPackCount(n - 1, v);
      assert multiset(BuildPack(n - 1))[NewCard(v)] == 4 * (n - 1);
      DeckPrefixCount(52, v);
      assert StandardDeck()[..52] == StandardDeck();
      MultisetAppendCount(BuildPack(n - 1), StandardDeck(), NewCard(v));
    }
  }

  /** Every card of an unshuffled pack is built from a rank number in 1..13. */
  lemma BuildPackProper(n: nat, c: Card)
    requires c in BuildPack(n)
    ensures Proper(c)
  {
    var p :| 0 <= p < |BuildPack(n)| && BuildPack(n)[p] == c;
    BuildPackAt(n, p);
    NewCardProper((p % 52) / 4 + 1);
  }

  /** The pack of cards of the game; `cards` is the list the source mutates. */
  class CardPack {
    var cards: seq<Card>

    /** Fills the pack with `n` standard decks: for each deck, ranks 1..13, four of each.
        A count below 1 leaves the pack empty, as the outer loop never runs. */
    constructor (n: int)
      ensures cards == if n <= 0 then [] else BuildPack(n)
    {
      cards := [];
      new;
      var i := 0;
      while i < n
        invariant 0 <= i && (i <= n || i == 0)
        invariant cards == BuildPack(i)
      {
        var j := 1;
        while j <= CardValues
          invariant 1 <= j <= CardValues + 1
          invariant cards == BuildPack(i) + StandardDeck()[..CardRepetition * (j - 1)]
        {
          var k := 0;
          while k < CardRepetition
            invariant 0 <= k <= CardRepetition
            invariant cards == BuildPack(i) + StandardDeck()[..CardRepetition * (j - 1) + k]
          {
            ghost var p := CardRepetition * (j - 1) + k;
            assert StandardDeck()[..p + 1] == StandardDeck()[..p] + [DeckCard(p)];
            assert p / CardRepetition + 1 == j;
            cards := cards + [NewCard(j)];
            k := k + 1;
          }
          j := j + 1;
        }
        assert StandardDeck()[..52] == StandardDeck();
        i := i + 1;
      }
    }

    /** One in-place shuffle pass; `r` holds the indices the random generator returns. */
    method Shuffle(r: seq<int>)
      requires ValidDraws(|cards|, r)
      modifies this
      ensures cards == Shuffled(old(cards), |old(cards)|, r)
    {
      var count := |cards|;
      var i := 0;
      while count > 1
        invariant 0 <= count <= |cards| == |old(cards)|
        invariant i == |old(cards)| - count
        invariant i <= |r| && ValidDraws(count, r[i..])
        invariant Shuffled(cards, count, r[i..]) == Shuffled(old(cards), |old(cards)|, r)
      {
        count := count - 1;
        var randomIndex := r[i];
        assert r[i..][1..] == r[i + 1..];
        var swapCard := cards[randomIndex];
        cards := cards[randomIndex := cards[count]];
        cards := cards[count := swapCard];
        i := i + 1;
      }
    }

    /** Removes and returns the front card. */
    method DrawCard() returns (drawn: Card)
      requires |cards| > 0
      modifies this
      ensures drawn == old(cards[0]) && cards == old(cards[1..])
    {
      drawn := cards[0];
      cards := cards[1..];
    }
  }
}
