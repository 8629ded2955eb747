/** The shoe: several decks' worth of ranks, dealt from the end of a list
    (game.py:49-89). The pseudo-random shuffle is modelled as an arbitrary
    permutation of the loaded cards. */
module ShoeModel {
  import opened Cards
  import opened Sequences

  /** The one way the engine can fail: popping from an empty shoe. */
  datatype SimError = EmptyShoe

  datatype Result<T> = Ok(value: T) | Err(error: SimError)

  /** The four copies of one rank that a deck contributes. */
  function Quad(r: Rank): (q: seq<Rank>)
  {
    [r, r, r, r]
  }

  /** Adding four copies of `rank` adds four to its count and nothing to the
      others. */
  lemma AddQuad(load: seq<Rank>, rank: Rank)
    ensures forall r :: multiset(load + Quad(rank))[r] == multiset(load)[r] + (if r == rank then 4 else 0)
  {
    assert multiset(load + Quad(rank)) == multiset(load) + multiset{rank, rank, rank, rank};
  }

  /** Decks actually loaded: a Python range over a non-positive count is empty. */
  function DecksLoaded(numDecks: int): (decks: nat)
  {
    if numDecks <= 0 then 0 else numDecks
  }

  function LoadSize(numDecks: int): (size: nat)
  {
    52 * DecksLoaded(numDecks)
  }

  /** Decks left in a shoe holding `remaining` cards, floored at 0.0001 so that
      it can divide. */
  function DecksFor(remaining: nat): (d: real)
    ensures d > 0.0
    ensures remaining > 0 ==> d == remaining as real / 52.0
    ensures remaining == 0 ==> d == 0.0001
  {
    var d := remaining as real / 52.0;
    if 0.0001 >= d then 0.0001 else d
  }

  /** The ranks of a full load: four of every rank for every deck. */
  function FullLoad(numDecks: int): (load: multiset<Rank>)
  {
    var n := 4 * DecksLoaded(numDecks);
    multiset{}[Ace := n][Two := n][Three := n][Four := n][Five := n][Six := n][Seven := n]
              [Eight := n][Nine := n][Ten := n][Jack := n][Queen := n][King := n]
  }

  /** A full load holds four of every rank per deck, and any collection of
      ranks with those counts is a full load. */
  lemma FullLoadCounts(numDecks: int, m: multiset<Rank>)
    ensures forall r :: FullLoad(numDecks)[r] == 4 * DecksLoaded(numDecks)
    ensures (forall r :: m[r] == 4 * DecksLoaded(numDecks)) ==> m == FullLoad(numDecks)
  {
    var n := 4 * DecksLoaded(numDecks);
    forall r
      ensures FullLoad(numDecks)[r] == n
    {
      match r
      case Ace => case Two => case Three => case Four => case Five => case Six => case Seven =>
      case Eight => case Nine => case Ten => case Jack => case Queen => case King =>
    }
  }

  /** Part of a full load holds no rank more often than the load does. */
  lemma PartOfLoad(part: multiset<Rank>, rest: multiset<Rank>, numDecks: int)
    requires part + rest == FullLoad(numDecks)
    ensures forall r :: part[r] <= 4 * DecksLoaded(numDecks)
  {
    FullLoadCounts(numDecks, part);
    forall r
      ensures part[r] <= 4 * DecksLoaded(numDecks)
    {
      assert part[r] + rest[r] == FullLoad(numDecks)[r];
    }
  }

  /** Appends one deck: four copies of each rank, in load order. */
  method AddDeck(load: seq<Rank>) returns (more: seq<Rank>)
    ensures |more| == |load| + 52
    ensures forall r :: multiset(more)[r] == multiset(load)[r] + 4
  {
    more := load;
    var i := 0;
    while i < |AllRanks|
      invariant 0 <= i <= |AllRanks|
      invariant |more| == |load| + 4 * i
      invariant forall r :: multiset(more)[r] == multiset(load)[r] + (if RankIndex(r) < i then 4 else 0)
    {
      var rank := AllRanks[i];
      RankIndexAt(i);
      AddQuad(more, rank);
      more := more + Quad(rank);
      i := i + 1;
    }
  }

  class Shoe {
    const numDecks: int
    /** The cards still in the shoe; the next card dealt is the last one. */
    var cards: seq<Rank>
    /** The size of the last full load. */
    var cardsTotal: nat

    /** The shoe never holds more cards, nor more of one rank, than a full
        load has. */
    ghost predicate Valid()
      reads this
    {
      cardsTotal == LoadSize(numDecks) &&
      |cards| <= cardsTotal &&
      forall r :: multiset(cards)[r] <= 4 * DecksLoaded(numDecks)
    }

    constructor (numDecks: int)
      ensures Valid()
      ensures this.numDecks == numDecks
      ensures |cards| == cardsTotal == LoadSize(numDecks)
      ensures forall r :: multiset(cards)[r] == 4 * DecksLoaded(numDecks)
      ensures multiset(cards) == FullLoad(numDecks)
    {
      this.numDecks := numDecks;
      cards := [];
      cardsTotal := 0;
      new;
      Reshuffle();
    }

    /** Loads four copies of every rank for every deck, puts them in some
        order, and makes the new load the reshuffle baseline. */
    method Reshuffle()
      modifies this`cards, this`cardsTotal
      ensures Valid()
      ensures |cards| == cardsTotal == LoadSize(numDecks)
      ensures forall r :: multiset(cards)[r] == 4 * DecksLoaded(numDecks)
      ensures multiset(cards) == FullLoad(numDecks)
    {
      var load: seq<Rank> := [];
      var d := 0;
      while d < numDecks
        invariant 0 <= d <= DecksLoaded(numDecks)
        invariant |load| == 52 * d
        invariant forall r :: multiset(load)[r] == 4 * d
      {
        load := AddDeck(load);
        d := d + 1;
      }
      assert d == DecksLoaded(numDecks);
      var shuffled :| multiset(shuffled) == multiset(load);
      assert |shuffled| == |multiset(shuffled)| == |multiset(load)| == |load|;
      FullLoadCounts(numDecks, multiset(shuffled));
      cards := shuffled;
      cardsTotal := |cards|;
    }

    /** The cards left, never more than a full load. */
    function CardsRemaining(): (n: nat)
      reads this
      ensures Valid() ==> n <= LoadSize(numDecks)
    {
      |cards|
    }

    /** Decks left, floored at 0.0001 when the shoe is empty. */
    function DecksRemaining(): (d: real)
      reads this
      ensures d > 0.0
      ensures cards != [] ==> d * 52.0 == |cards| as real
    {
      DecksFor(|cards|)
    }

    /** Removes and returns the last card; an empty shoe is an error. It never
        reshuffles. */
    method Pop() returns (card: Result<Rank>)
      requires Valid()
      modifies this`cards
      ensures Valid()
      ensures old(cards) == [] ==> card == Err(EmptyShoe) && cards == []
      ensures old(cards) != [] ==> card == Ok(Last(old(cards))) && cards + [card.value] == old(cards)
    {
      if cards == [] {
        return Err(EmptyShoe);
      }
      var rest, top := cards[..|cards| - 1], cards[|cards| - 1];
      assert cards == rest + [top];
      assert multiset(cards) == multiset(rest) + multiset{top};
      assert forall r :: multiset(rest)[r] <= multiset(cards)[r];
      card := Ok(top);
      cards := rest;
    }
  }
}
