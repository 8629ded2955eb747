/** The decision policies the engine is driven with (strategies.py:25-118):
    "simplest" hits below 17, "basic" is a simplified basic-strategy table
    over pairs, soft totals and hard totals. */
module Strategies {
  import opened Cards
  import opened Hands

  /** Hit below 17, otherwise stand. */
  function SimplestStrategy(hand: HandState, dealerUp: Rank): (a: Action)
    ensures a == Hit <==> HandValue(hand.cards) < 17
    ensures a == Stand <==> HandValue(hand.cards) >= 17
  {
    if HandValue(hand.cards) < 17 then Hit else Stand
  }

  /** The soft-hand test: recompute the total, reduce Aces while over 21, and
      call the hand soft when an Ace is still counted as 11. A soft hand is
      worth 11 to 21. */
  predicate IsSoft(cards: seq<Rank>)
    ensures IsSoft(cards) ==> 11 <= HandValue(cards) <= 21
  {
    ValueIsBestTotal(cards);
    HardTotalBounds(cards);
    var reduced := Reduce(RawTotal(cards), AceCount(cards));
    reduced.1 > 0 && reduced.0 == HandValue(cards) && HandValue(cards) <= 21
  }

  /** A hand is soft exactly when it holds an Ace and its hard total is at most
      11, so that one Ace can count 11 without busting; its value is then the
      hard total plus 10. */
  lemma SoftMeansAceAsEleven(cards: seq<Rank>)
    ensures IsSoft(cards) <==> SoftAces(cards) > 0
    ensures IsSoft(cards) <==> AceCount(cards) > 0 && HardTotal(cards) <= 11
    ensures IsSoft(cards) ==> HandValue(cards) == HardTotal(cards) + 10
  {
    ValueIsBestTotal(cards);
    HardTotalBounds(cards);
  }

  /** A decision reached by one block of the table, or none (the hand falls
      through to the next block). */
  datatype Decision = Decide(action: Action) | NoDecision

  /** The pair block, keyed on the rank; only the rank "10" matches among the
      ten-valued ranks, so J, Q and K pairs fall through. It only doubles a
      pair of fives, and only when doubling is allowed. */
  function PairDecision(rank: Rank, dealerVal: int, canDouble: bool): (d: Decision)
    ensures d.NoDecision? <==> rank in {Jack, Queen, King}
    ensures d == Decide(Double) ==> rank == Five && canDouble
    ensures d.Decide? ==> d.action in {Hit, Stand, Double, Split}
  {
    match rank
    case Ace => Decide(Split)
    case Ten => Decide(Stand)
    case Nine => Decide(if 2 <= dealerVal <= 9 && dealerVal != 7 then Split else Stand)
    case Eight => Decide(Split)
    case Seven => Decide(if 2 <= dealerVal <= 7 then Split else Hit)
    case Six => Decide(if 2 <= dealerVal <= 6 then Split else Hit)
    case Five => Decide(if 2 <= dealerVal <= 9 && canDouble then Double else Hit)
    case Four => Decide(if 5 <= dealerVal <= 6 then Split else Hit)
    case Three | Two => Decide(if 2 <= dealerVal <= 7 then Split else Hit)
    case Jack | Queen | King => NoDecision
  }

  /** The soft-total block; soft 21 and below soft 13 fall through. It never
      splits, and doubles only when doubling is allowed. */
  function SoftDecision(value: int, dealerVal: int, canDouble: bool): (d: Decision)
    ensures d.Decide? <==> 13 <= value <= 20
    ensures d.Decide? ==> d.action in {Hit, Stand, Double}
    ensures d == Decide(Double) ==> canDouble
  {
    if value == 20 then Decide(Stand)
    else if value == 19 then Decide(if dealerVal == 6 && canDouble then Double else Stand)
    else if value == 18 then
      Decide(if 2 <= dealerVal <= 6 && canDouble then Double
             else if 9 <= dealerVal <= 11 then Hit
             else Stand)
    else if value == 17 then Decide(if 3 <= dealerVal <= 6 && canDouble then Double else Hit)
    else if value == 15 || value == 16 then Decide(if 4 <= dealerVal <= 6 && canDouble then Double else Hit)
    else if value == 13 || value == 14 then Decide(if 5 <= dealerVal <= 6 && canDouble then Double else Hit)
    else NoDecision
  }

  /** The hard-total block, which always decides: it stands on 17 or more,
      hits on 8 or less, never splits, and doubles only on 9 to 11 when
      doubling is allowed. */
  function HardDecision(value: int, dealerVal: int, canDouble: bool): (a: Action)
    ensures a in {Hit, Stand, Double}
    ensures value >= 17 ==> a == Stand
    ensures value <= 8 ==> a == Hit
    ensures a == Double ==> canDouble && 9 <= value <= 11
  {
    if value >= 17 then Stand
    else if 13 <= value <= 16 then (if dealerVal < 7 then Stand else Hit)
    else if value == 12 then (if 4 <= dealerVal <= 6 then Stand else Hit)
    else if value == 11 then (if canDouble then Double else Hit)
    else if value == 10 then (if dealerVal <= 9 && canDouble then Double else Hit)
    else if value == 9 then (if 3 <= dealerVal <= 6 && canDouble then Double else Hit)
    else Hit
  }

  /** Pairs first, then soft totals, then hard totals; the dealer's up-card is
      valued with an Ace as 11. It only proposes a split it may make and a
      double it may make, and always answers one of the four moves. */
  function BasicStrategy(hand: HandState, dealerUp: Rank): (a: Action)
    ensures a == Split ==> CanSplit(hand.cards)
    ensures a == Double ==> CanDouble(hand.cards)
    ensures a in {Hit, Stand, Double, Split}
  {
    var dealerVal := RankValue(dealerUp);
    var value := HandValue(hand.cards);
    var canDouble := CanDouble(hand.cards);
    var pair := if CanSplit(hand.cards) then PairDecision(hand.cards[0], dealerVal, canDouble) else NoDecision;
    if pair.Decide? then pair.action
    else
      var soft := if IsSoft(hand.cards) then SoftDecision(value, dealerVal, canDouble) else NoDecision;
      if soft.Decide? then soft.action else HardDecision(value, dealerVal, canDouble)
  }

  /** A pair of Aces or of Eights is always split. */
  lemma AcesAndEightsSplit(hand: HandState, dealerUp: Rank)
    requires CanSplit(hand.cards) && hand.cards[0] in {Ace, Eight}
    ensures BasicStrategy(hand, dealerUp) == Split
  {
  }

  /** A pair of ten-valued cards always stands: "10" in the pair block, J, Q
      and K through the hard total of 20. */
  lemma TenValuedPairsStand(hand: HandState, dealerUp: Rank)
    requires CanSplit(hand.cards) && RankValue(hand.cards[0]) == 10
    ensures BasicStrategy(hand, dealerUp) == Stand
  {
    SoftMeansAceAsEleven(hand.cards);
    HardTotalBounds(hand.cards);
    ValueIsBestTotal(hand.cards);
  }

  /** A hand that is not soft and is not a pair of nines stands on 17 or more. */
  lemma HardSeventeenStands(hand: HandState, dealerUp: Rank)
    requires HandValue(hand.cards) >= 17 && !IsSoft(hand.cards)
    requires !(CanSplit(hand.cards) && hand.cards[0] == Nine)
    ensures BasicStrategy(hand, dealerUp) == Stand
  {
  }

  /** Hard 11 doubles on two cards and hits on more. */
  lemma ElevenDoubles(hand: HandState, dealerUp: Rank)
    requires HandValue(hand.cards) == 11
    ensures BasicStrategy(hand, dealerUp) == if |hand.cards| == 2 then Double else Hit
  {
  }

  /** Anything worth 8 or less that is not a pair is hit. */
  lemma LowTotalsHit(hand: HandState, dealerUp: Rank)
    requires HandValue(hand.cards) <= 8 && !CanSplit(hand.cards)
    ensures BasicStrategy(hand, dealerUp) == Hit
  {
  }

  /** On three or more cards the table neither doubles nor splits. */
  lemma ManyCardsOnlyHitOrStand(hand: HandState, dealerUp: Rank)
    requires |hand.cards| >= 3
    ensures BasicStrategy(hand, dealerUp) in {Hit, Stand}
  {
  }
}
