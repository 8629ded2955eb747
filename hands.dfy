/** A hand (player's or dealer's) and its arithmetic: soft/hard Ace
    resolution and the blackjack, split and double predicates
    (game.py:92-127). */
module Hands {
  import opened Cards

  /** The label a strategy returns and the engine logs. A strategy may answer
      something that is none of the four moves; the engine then stands.
      `Other` stands for such an answer only: its name is never "hit",
      "stand", "double" or "split", which are the four moves themselves. */
  datatype Action = Hit | Stand | Double | Split | Other(name: string)

  /** One hand: its cards in the order received, the stake on it, the log of
      moves taken and whether it was doubled. */
  datatype HandState = HandState(cards: seq<Rank>, bet: real, actions: seq<Action>, doubled: bool)

  /** `n` consecutive hits, as they appear in a move log. */
  function Hits(n: nat): (log: seq<Action>)
    ensures |log| == n && forall i | 0 <= i < n :: log[i] == Hit
  {
    seq(n, _ => Hit)
  }

  function AceCount(cards: seq<Rank>): (n: nat)
  {
    if cards == [] then 0
    else AceCount(cards[..|cards| - 1]) + (if cards[|cards| - 1] == Ace then 1 else 0)
  }

  /** The first pass of the value computation: every Ace counted as 11. */
  function RawTotal(cards: seq<Rank>): (total: int)
  {
    if cards == [] then 0 else RawTotal(cards[..|cards| - 1]) + RankValue(cards[|cards| - 1])
  }

  /** The total with every Ace counted as 1. */
  function HardTotal(cards: seq<Rank>): (total: int)
  {
    if cards == [] then 0
    else HardTotal(cards[..|cards| - 1]) + (if cards[|cards| - 1] == Ace then 1 else RankValue(cards[|cards| - 1]))
  }

  /** The reduction loop: while the total is over 21 and an Ace still counts
      11, count that Ace as 1 instead. Returns the total and the number of
      Aces still counted as 11. */
  function Reduce(total: int, aces: nat): (r: (int, nat))
    ensures r.1 <= aces && r.0 == total - 10 * (aces - r.1)
    ensures r.0 > 21 ==> r.1 == 0
    ensures r.1 < aces ==> r.0 + 10 > 21
    decreases aces
  {
    if total > 21 && aces > 0 then Reduce(total - 10, aces - 1) else (total, aces)
  }

  /** The hand's Blackjack value: somewhere between the hard total and the
      raw total, and the hard total itself once it is over 21. */
  function HandValue(cards: seq<Rank>): (v: int)
    ensures HardTotal(cards) <= v <= HardTotal(cards) + 10 * AceCount(cards)
    ensures v > 21 ==> v == HardTotal(cards)
  {
    RawIsHardPlusTen(cards);
    Reduce(RawTotal(cards), AceCount(cards)).0
  }

  /** How many Aces the value still counts as 11. */
  function SoftAces(cards: seq<Rank>): (k: nat)
  {
    Reduce(RawTotal(cards), AceCount(cards)).1
  }

  lemma {:induction false} RawIsHardPlusTen(cards: seq<Rank>)
    ensures RawTotal(cards) == HardTotal(cards) + 10 * AceCount(cards)
  {
    if cards != [] {
      RawIsHardPlusTen(cards[..|cards| - 1]);
    }
  }

  lemma {:induction false} HardTotalBounds(cards: seq<Rank>)
    ensures HardTotal(cards) >= |cards|
    ensures HardTotal(cards) >= AceCount(cards)
  {
    if cards != [] {
      HardTotalBounds(cards[..|cards| - 1]);
    }
  }

  /** The value is the hard total plus 10 for each Ace counted as 11; it counts
      as many Aces as 11 as it can without exceeding 21, and a value over 21
      counts every Ace as 1. */
  lemma ValueIsBestTotal(cards: seq<Rank>)
    ensures SoftAces(cards) <= AceCount(cards)
    ensures HandValue(cards) == HardTotal(cards) + 10 * SoftAces(cards)
    ensures HandValue(cards) > 21 ==> SoftAces(cards) == 0
    ensures forall j | SoftAces(cards) < j <= AceCount(cards) :: HardTotal(cards) + 10 * j > 21
  {
    RawIsHardPlusTen(cards);
  }

  /** A natural: exactly two cards worth 21, which is an Ace with a
      ten-valued card, in either order. */
  predicate IsBlackjack(cards: seq<Rank>)
    ensures IsBlackjack(cards) <==>
      |cards| == 2 && ((cards[0] == Ace && RankValue(cards[1]) == 10) || (cards[1] == Ace && RankValue(cards[0]) == 10))
  {
    if |cards| == 2 then TwoCardValue(cards); HandValue(cards) == 21 else false
  }

  /** Two cards of the very same rank (a 10 and a King are not a pair); a
      pair is worth 12 for Aces and twice the rank's value otherwise. */
  predicate CanSplit(cards: seq<Rank>)
    ensures CanSplit(cards) ==> CanDouble(cards)
    ensures CanSplit(cards) ==> HandValue(cards) == if cards[0] == Ace then 12 else 2 * RankValue(cards[0])
  {
    if |cards| == 2 then TwoCardValue(cards); cards[0] == cards[1] else false
  }

  /** Doubling is offered on two cards, which never bust. */
  predicate CanDouble(cards: seq<Rank>)
    ensures CanDouble(cards) ==> HandValue(cards) <= 21
  {
    if |cards| == 2 then TwoCardsNeverBust(cards); true else false
  }

  /** Two cards are worth the sum of their table values, except two Aces. */
  lemma TwoCardValue(cards: seq<Rank>)
    requires |cards| == 2
    ensures HandValue(cards) ==
      if cards[0] == Ace && cards[1] == Ace then 12 else RankValue(cards[0]) + RankValue(cards[1])
  {
    var a, b := cards[0], cards[1];
    assert cards == [a, b];
    assert [a, b][..1] == [a];
    assert [a][..0] == [];
    assert RawTotal([a]) == RankValue(a);
    assert AceCount([a]) == if a == Ace then 1 else 0;
    assert RawTotal([a, b]) == RankValue(a) + RankValue(b);
    assert AceCount([a, b]) == (if a == Ace then 1 else 0) + (if b == Ace then 1 else 0);
  }

  /** Two cards never bust. */
  lemma TwoCardsNeverBust(cards: seq<Rank>)
    requires |cards| == 2
    ensures HandValue(cards) <= 21
  {
    TwoCardValue(cards);
  }
}
