/** Card ranks (suits are not tracked), their Blackjack values and their
    Hi-Lo counting weights (game.py:21-46). */
module Cards {

  /** One of the thirteen ranks; "10", "J", "Q" and "K" are distinct ranks
      that share the value 10. */
  datatype Rank = Ace | Two | Three | Four | Five | Six | Seven | Eight | Nine | Ten | Jack | Queen | King

  /** The ranks in the order in which a deck is loaded into the shoe. */
  const AllRanks: seq<Rank> := [Ace, Two, Three, Four, Five, Six, Seven, Eight, Nine, Ten, Jack, Queen, King]

  /** Position of a rank in the load order. */
  function RankIndex(r: Rank): (i: nat)
    ensures i < |AllRanks| && AllRanks[i] == r
  {
    match r
    case Ace => 0 case Two => 1 case Three => 2 case Four => 3 case Five => 4
    case Six => 5 case Seven => 6 case Eight => 7 case Nine => 8 case Ten => 9
    case Jack => 10 case Queen => 11 case King => 12
  }

  /** Each position of the load order holds a different rank. */
  lemma RankIndexAt(i: nat)
    requires i < |AllRanks|
    ensures RankIndex(AllRanks[i]) == i
  {
  }

  /** The value table: an Ace counts 11 here, face cards 10. */
  function RankValue(r: Rank): (v: int)
    ensures 2 <= v <= 11
    ensures v == 11 <==> r == Ace
    ensures v == 10 <==> r in {Ten, Jack, Queen, King}
  {
    match r
    case Ace => 11
    case Two => 2
    case Three => 3
    case Four => 4
    case Five => 5
    case Six => 6
    case Seven => 7
    case Eight => 8
    case Nine => 9
    case Ten | Jack | Queen | King => 10
  }

  /** Hi-Lo weight: +1 for low cards, 0 for middle cards, -1 for tens and Aces. */
  function HiLo(r: Rank): (w: int)
    ensures w == 1 <==> 2 <= RankValue(r) <= 6
    ensures w == 0 <==> 7 <= RankValue(r) <= 9
    ensures w == -1 <==> RankValue(r) in {10, 11}
  {
    if r in {Two, Three, Four, Five, Six} then 1
    else if r in {Seven, Eight, Nine} then 0
    else -1
  }

  /** Sum of the Hi-Lo weights of `cards`. */
  function HiLoSum(cards: seq<Rank>): (sum: int)
  {
    if cards == [] then 0 else HiLoSum(cards[..|cards| - 1]) + HiLo(cards[|cards| - 1])
  }

  /** Number of low cards (2 to 6) in a multiset of ranks. */
  function LowCards(m: multiset<Rank>): (n: nat)
  {
    m[Two] + m[Three] + m[Four] + m[Five] + m[Six]
  }

  /** Number of high cards (tens, faces and Aces) in a multiset of ranks. */
  function HighCards(m: multiset<Rank>): (n: nat)
  {
    m[Ten] + m[Jack] + m[Queen] + m[King] + m[Ace]
  }

  /** The Hi-Lo sum is the number of low cards minus the number of high cards,
      so it depends only on which cards were seen, not on their order. */
  lemma {:induction false} HiLoSumCounts(cards: seq<Rank>)
    ensures HiLoSum(cards) == LowCards(multiset(cards)) - HighCards(multiset(cards))
  {
    if cards != [] {
      var init, c := cards[..|cards| - 1], cards[|cards| - 1];
      assert cards == init + [c];
      HiLoSumCounts(init);
      assert multiset(cards) == multiset(init) + multiset{c};
      CountsAddOne(multiset(init), c);
    }
  }

  lemma CountsAddOne(m: multiset<Rank>, c: Rank)
    ensures LowCards(m + multiset{c}) - HighCards(m + multiset{c})
         == LowCards(m) - HighCards(m) + HiLo(c)
  {
    var m' := m + multiset{c};
    assert forall r :: m'[r] == m[r] + (if r == c then 1 else 0);
  }

  lemma HiLoSumPermutation(a: seq<Rank>, b: seq<Rank>)
    requires multiset(a) == multiset(b)
    ensures HiLoSum(a) == HiLoSum(b)
  {
    HiLoSumCounts(a);
    HiLoSumCounts(b);
  }

  lemma HiLoSumAppend(a: seq<Rank>, b: seq<Rank>)
    ensures HiLoSum(a + b) == HiLoSum(a) + HiLoSum(b)
  {
    HiLoSumCounts(a);
    HiLoSumCounts(b);
    HiLoSumCounts(a + b);
    assert multiset(a + b) == multiset(a) + multiset(b);
  }
}
