/** Dealer play (game.py:158-163): the dealer draws while under 17, then
    stands. */
module Dealer {
  import opened Cards
  import opened Sequences
  import opened Hands
  import opened ShoeModel

  /** The dealer's rule: every card of `drawn` was taken while the hand,
      from `start`, was worth less than 17. */
  predicate DrawsBelowSeventeen(start: seq<Rank>, drawn: seq<Rank>)
  {
    forall j | 0 <= j < |drawn| :: HandValue(start + drawn[..j]) < 17
  }

  /** The rule fixes where the dealer stops: of two runs of draws off the
      same cards, each taken below 17 and each ending at 17 or more, one
      cannot stop short of the other. */
  lemma DealerStopIsUnique(start: seq<Rank>, d: seq<Rank>, e: seq<Rank>)
    requires DrawsBelowSeventeen(start, d) && HandValue(start + d) >= 17
    requires DrawsBelowSeventeen(start, e) && HandValue(start + e) >= 17
    requires |d| <= |e| && d == e[..|d|]
    ensures d == e
  {
  }

  /** Hits the dealer's hand from the shoe while its value is below 17, then
      logs a stand. `drawn` lists the cards taken, in the order taken; every
      one of them was drawn while the hand was below 17. */
  method DealerPlay(dealer: HandState, shoe: Shoe) returns (res: Result<HandState>, drawn: seq<Rank>)
    requires shoe.Valid()
    modifies shoe`cards
    ensures shoe.Valid()
    ensures old(shoe.cards) == shoe.cards + Reversed(drawn)
    ensures DrawsBelowSeventeen(dealer.cards, drawn)
    ensures HandValue(dealer.cards) >= 17 ==> drawn == []
    ensures res.Ok? ==> HandValue(res.value.cards) >= 17
    ensures res.Ok? ==> res.value == dealer.(cards := dealer.cards + drawn,
                                             actions := dealer.actions + Hits(|drawn|) + [Stand])
    ensures res.Err? ==> shoe.cards == [] && HandValue(dealer.cards + drawn) < 17
  {
    var hand := dealer;
    drawn := [];
    while HandValue(hand.cards) < 17
      invariant shoe.Valid()
      invariant old(shoe.cards) == shoe.cards + Reversed(drawn)
      invariant hand == dealer.(cards := dealer.cards + drawn, actions := dealer.actions + Hits(|drawn|))
      invariant forall j | 0 <= j < |drawn| :: HandValue(dealer.cards + drawn[..j]) < 17
      invariant HandValue(dealer.cards) >= 17 ==> drawn == []
      decreases |shoe.cards|
    {
      var card := shoe.Pop();
      if card.Err? {
        return Err(card.error), drawn;
      }
      TakeFromEnd(old(shoe.cards), shoe.cards, drawn, card.value);
      assert (drawn + [card.value])[..|drawn|] == drawn;
      assert forall j | 0 <= j <= |drawn| :: (drawn + [card.value])[..j] == drawn[..j];
      drawn := drawn + [card.value];
      hand := hand.(cards := hand.cards + [card.value], actions := hand.actions + [Hit]);
      assert hand.cards == dealer.cards + drawn;
    }
    hand := hand.(actions := hand.actions + [Stand]);
    res := Ok(hand);
  }
}
