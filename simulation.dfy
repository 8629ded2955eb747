/** The round driver (game.py:196-399): reshuffle when the shoe runs low,
    size the bet from the previous round's true count, deal, settle
    naturals at once or play the player's hands and then the dealer's,
    report every final hand, and advance the Hi-Lo count by every card seen
    in the round. */
module Simulation {
  import opened Cards
  import opened Sequences
  import opened Hands
  import opened ShoeModel
  import opened Betting
  import opened Dealer
  import opened PlayerTurn
  import opened Records

  datatype Option<T> = None | Some(value: T)

  /** The player's cards in each report, report by report. */
  function PlayerCardsOf(records: seq<RoundResult>): (cs: seq<seq<Rank>>)
    ensures |cs| == |records|
    ensures forall k | 0 <= k < |records| :: cs[k] == records[k].playerCards
  {
    seq(|records|, k requires 0 <= k < |records| => records[k].playerCards)
  }

  /** The hand a report describes; a hand is marked doubled exactly when its
      log holds a double. */
  function HandOf(rec: RoundResult): (hand: HandState)
  {
    HandState(rec.playerCards, rec.betAmount, rec.actions, Double in rec.actions)
  }

  /** The hands the reports describe, report by report. */
  function HandsOf(records: seq<RoundResult>): (hs: seq<HandState>)
    ensures |hs| == |records|
    ensures forall k | 0 <= k < |records| :: hs[k] == HandOf(records[k])
  {
    seq(|records|, k requires 0 <= k < |records| => HandOf(records[k]))
  }

  /** What every round's reports hold before their counts are written: at
      least one report, numbered from 1 and tagged with the round; all with
      the same dealer's cards, the first two of which are the third and fourth
      cards dealt; each settled against the dealer and staked at the round's
      bet, doubled where the log holds a double; and, with the dealer's
      cards, exactly the cards seen in the round. */
  ghost predicate RoundReported(records: seq<RoundResult>, seen: seq<Rank>, tag: RoundTag, stake: real)
  {
    |seen| >= 4 && |records| >= 1 &&
    |records[0].dealerCards| >= 2 && records[0].dealerCards[..2] == seen[2..4] &&
    (forall k | 0 <= k < |records| ::
      Tagged(records[k], tag, k + 1) && Unfilled(records[k]) && Settled(records[k]) &&
      |records[k].playerCards| >= 2 && records[k].dealerCards == records[0].dealerCards &&
      records[k].betAmount == (if Double in records[k].actions then 2.0 * stake else stake)) &&
    multiset(Flatten(PlayerCardsOf(records))) + multiset(records[0].dealerCards) == multiset(seen)
  }

  /** A round with no natural: `turns` replays the player's hand loop, with
      the strategy asked on every hand and the third card as the up-card,
      from the first two cards to the hands reported, and deals exactly the
      cards seen between the opening deal and the dealer's extra cards; every
      hand ended on a stand or a bust, in a split round every hand's log
      starts with the split, the dealer's extra cards are the last cards seen,
      each taken while the dealer was below 17, and leave it at 17 or more, and a round without a split is the
      strategy's turn on the first two cards. */
  ghost predicate PlayedOutRound(strategy: Strategy, records: seq<RoundResult>, seen: seq<Rank>, stake: real,
                                 turns: seq<Turn>)
  {
    |records| >= 1 && |records[0].dealerCards| >= 2 &&
    var extra := |records[0].dealerCards| - 2;
    4 + extra <= |seen| &&
    records[0].dealerCards == seen[2..4] + seen[|seen| - extra..] &&
    DrawsBelowSeventeen(seen[2..4], seen[|seen| - extra..]) && HandValue(records[0].dealerCards) >= 17 &&
    (forall k | 0 <= k < |records| :: FinalHand(HandOf(records[k]), stake)) &&
    (|records| > 1 ==> forall k | 0 <= k < |records| :: records[k].actions != [] && records[k].actions[0] == Split) &&
    Replays(strategy, seen[2], HandState(seen[..2], stake, [], false), turns, HandsOf(records), |records|) &&
    DealtIn(turns) == seen[4..|seen| - extra] &&
    (|records| == 1 ==>
      IsTurn(strategy, seen[2], HandState(seen[..2], stake, [], false), seen[4..|seen| - extra], Finished(HandOf(records[0]))))
  }

  /** How a round runs given its first four cards: a dealer natural gives one
      report with no actions, a push against a player natural and a loss
      otherwise; a player natural alone gives one won report logging a stand;
      otherwise the hands are played out by `turns`. A natural plays no turn. */
  ghost predicate RoundRules(strategy: Strategy, records: seq<RoundResult>, seen: seq<Rank>, stake: real,
                             turns: seq<Turn>)
  {
    |seen| >= 4 && |records| >= 1 &&
    var player, dealer := seen[..2], seen[2..4];
    (IsBlackjack(dealer) ==>
      |seen| == 4 && |records| == 1 && records[0].playerCards == player && records[0].dealerCards == dealer &&
      records[0].actions == [] && records[0].finalResult == (if IsBlackjack(player) then Push else Lose) &&
      turns == []) &&
    (!IsBlackjack(dealer) && IsBlackjack(player) ==>
      |seen| == 4 && |records| == 1 && records[0].playerCards == player && records[0].dealerCards == dealer &&
      records[0].actions == [Stand] && records[0].finalResult == Win && records[0].blackjack && turns == []) &&
    (!IsBlackjack(dealer) && !IsBlackjack(player) ==> PlayedOutRound(strategy, records, seen, stake, turns))
  }

  /** The cards `seen` are a round the shoe ran out in: fewer than the four
      opening cards; or, with no natural, a hand loop cut short for want of a
      card; or every hand played and then a dealer who took each card below
      17 and, still below 17, called for one more. */
  ghost predicate RoundCutShort(strategy: Strategy, seen: seq<Rank>, stake: real, turns: seq<Turn>)
  {
    |seen| < 4 ||
    (!IsBlackjack(seen[..2]) && !IsBlackjack(seen[2..4]) &&
     var player, rest, pdrawn := HandState(seen[..2], stake, [], false), seen[4..], DealtIn(turns);
     (CutShort(strategy, seen[2], player, turns, rest) ||
      (PlayedThrough(strategy, seen[2], player, turns) && |pdrawn| <= |rest| && rest[..|pdrawn|] == pdrawn &&
       DrawsBelowSeventeen(seen[2..4], rest[|pdrawn|..]) && HandValue(seen[2..4] + rest[|pdrawn|..]) < 17)))
  }

  /** The dealer's natural settles as the general rule would: a push against
      a player natural, a loss against any other two cards, never a bust. */
  lemma DealerNaturalSettles(player: seq<Rank>, dealer: seq<Rank>)
    requires |player| == 2 && IsBlackjack(dealer)
    ensures OutcomeOf(Settle(HandValue(player), HandValue(dealer))) == if IsBlackjack(player) then Push else Lose
    ensures HandValue(player) <= 21
  {
    TwoCardsNeverBust(player);
  }

  /** A player natural against a dealer without one settles as a win. */
  lemma PlayerNaturalSettles(player: seq<Rank>, dealer: seq<Rank>)
    requires IsBlackjack(player) && |dealer| == 2 && !IsBlackjack(dealer)
    ensures OutcomeOf(Settle(HandValue(player), HandValue(dealer))) == Win
  {
    TwoCardsNeverBust(dealer);
  }

  /** Takes one more card off the end of the shoe. */
  method Draw(shoe: Shoe, ghost orig: seq<Rank>, dealt: seq<Rank>) returns (res: Result<seq<Rank>>)
    requires shoe.Valid() && orig == shoe.cards + Reversed(dealt)
    modifies shoe`cards
    ensures shoe.Valid()
    ensures res.Err? ==> old(shoe.cards) == [] && shoe.cards == []
    ensures res.Ok? ==> old(shoe.cards) != [] && res.value == dealt + [Last(old(shoe.cards))] && orig == shoe.cards + Reversed(res.value)
  {
    var card := shoe.Pop();
    if card.Err? {
      return Err(card.error);
    }
    TakeFromEnd(orig, shoe.cards, dealt, card.value);
    return Ok(dealt + [card.value]);
  }

  /** Deals the opening four cards: two to the player, then two to the
      dealer. `dealt` is the cards taken, also when the shoe runs out. */
  method DealInitial(shoe: Shoe) returns (res: Result<seq<Rank>>, dealt: seq<Rank>)
    requires shoe.Valid()
    modifies shoe`cards
    ensures shoe.Valid()
    ensures old(shoe.cards) == shoe.cards + Reversed(dealt)
    ensures res.Err? <==> |old(shoe.cards)| < 4
    ensures res.Err? ==> shoe.cards == [] && |dealt| < 4
    ensures res.Ok? ==> res.value == dealt && |dealt| == 4
  {
    dealt := [];
    var next := Draw(shoe, shoe.cards, dealt);
    if next.Err? { return next, dealt; }
    dealt := next.value;
    next := Draw(shoe, old(shoe.cards), dealt);
    if next.Err? { return next, dealt; }
    dealt := next.value;
    next := Draw(shoe, old(shoe.cards), dealt);
    if next.Err? { return next, dealt; }
    dealt := next.value;
    next := Draw(shoe, old(shoe.cards), dealt);
    if next.Err? { return next, dealt; }
    dealt := next.value;
    return next, dealt;
  }

  /** The cards of the played-out hands and of the dealer are the cards seen. */
  lemma SeenSplit(initial: seq<Rank>, pdrawn: seq<Rank>, ddrawn: seq<Rank>)
    requires |initial| == 4
    ensures multiset(initial[..2] + pdrawn) + multiset(initial[2..4] + ddrawn) == multiset(initial + pdrawn + ddrawn)
  {
    assert initial == initial[..2] + initial[2..4];
  }

  /** The reports of a round without a natural hold the round's cards and
      are settled and staked as every round's are. */
  lemma PlayedOutReported(tag: RoundTag, stake: real, initial: seq<Rank>,
                          hands: seq<HandState>, pdrawn: seq<Rank>, dealer: HandState, ddrawn: seq<Rank>,
                          drawn: seq<Rank>, records: seq<RoundResult>)
    requires |initial| == 4 && drawn == pdrawn + ddrawn
    requires |hands| >= 1 && forall j | 0 <= j < |hands| :: FinalHand(hands[j], stake)
    requires multiset(Flatten(HandCards(hands))) == multiset(initial[..2] + pdrawn)
    requires dealer.cards == initial[2..4] + ddrawn
    requires |records| == |hands|
    requires forall k | 0 <= k < |hands| ::
      Tagged(records[k], tag, k + 1) && Unfilled(records[k]) && Settled(records[k]) &&
      records[k].playerCards == hands[k].cards && records[k].dealerCards == dealer.cards &&
      records[k].actions == hands[k].actions && records[k].betAmount == hands[k].bet
    ensures RoundReported(records, initial + drawn, tag, stake)
  {
    var seen := initial + drawn;
    assert seen == initial + pdrawn + ddrawn;
    assert PlayerCardsOf(records) == HandCards(hands);
    SeenSplit(initial, pdrawn, ddrawn);
    assert seen[2..4] == initial[2..4];
    assert dealer.cards[..2] == seen[2..4];
  }

  /** The same reports follow the rules of a round without a natural. */
  lemma PlayedOutFollowsRules(strategy: Strategy, stake: real, initial: seq<Rank>,
                              hands: seq<HandState>, pdrawn: seq<Rank>, turns: seq<Turn>,
                              dealer: HandState, ddrawn: seq<Rank>,
                              drawn: seq<Rank>, records: seq<RoundResult>)
    requires |initial| == 4 && drawn == pdrawn + ddrawn
    requires !IsBlackjack(initial[..2]) && !IsBlackjack(initial[2..4])
    requires Replays(strategy, initial[2], HandState(initial[..2], stake, [], false), turns, hands, |hands|)
    requires pdrawn == DealtIn(turns)
    requires HandsSoFar(HandState(initial[..2], stake, [], false), hands, |hands|, pdrawn)
    requires |hands| == 1 ==> IsTurn(strategy, initial[2], HandState(initial[..2], stake, [], false), pdrawn, Finished(hands[0]))
    requires dealer.cards == initial[2..4] + ddrawn && HandValue(dealer.cards) >= 17
    requires DrawsBelowSeventeen(initial[2..4], ddrawn)
    requires |records| == |hands|
    requires forall k | 0 <= k < |hands| ::
      records[k].playerCards == hands[k].cards && records[k].dealerCards == dealer.cards &&
      records[k].actions == hands[k].actions && records[k].betAmount == hands[k].bet
    ensures PlayedOutRound(strategy, records, initial + drawn, stake, turns)
    ensures RoundRules(strategy, records, initial + drawn, stake, turns)
  {
    PlayedOut(HandState(initial[..2], stake, [], false), hands, pdrawn);
    ReportsAreHands(records, hands, stake);
    SeenParts(initial, pdrawn, ddrawn, drawn);
  }

  /** Final hands are given back by the reports made of them. */
  lemma ReportsAreHands(records: seq<RoundResult>, hands: seq<HandState>, stake: real)
    requires |records| == |hands| && forall j | 0 <= j < |hands| :: FinalHand(hands[j], stake)
    requires forall k | 0 <= k < |hands| ::
      records[k].playerCards == hands[k].cards && records[k].actions == hands[k].actions &&
      records[k].betAmount == hands[k].bet
    ensures HandsOf(records) == hands
  {
    forall k | 0 <= k < |hands|
      ensures HandOf(records[k]) == hands[k]
    {
      assert FinalHand(hands[k], stake);
    }
  }

  /** Where the opening deal, the player's cards and the dealer's cards lie
      among the cards seen. */
  lemma SeenParts(initial: seq<Rank>, pdrawn: seq<Rank>, ddrawn: seq<Rank>, drawn: seq<Rank>)
    requires |initial| == 4 && drawn == pdrawn + ddrawn
    ensures (initial + drawn)[..2] == initial[..2] && (initial + drawn)[2..4] == initial[2..4]
    ensures (initial + drawn)[2] == initial[2]
    ensures (initial + drawn)[4..|initial + drawn| - |ddrawn|] == pdrawn
    ensures (initial + drawn)[|initial + drawn| - |ddrawn|..] == ddrawn
  {
    assert initial + drawn == initial + pdrawn + ddrawn;
  }

  /** A single settled report on the opening deal, at the round's stake,
      is how a round with a natural reports. */
  lemma SingleReport(tag: RoundTag, stake: real, seen: seq<Rank>, rec: RoundResult)
    requires |seen| == 4 && rec.playerCards == seen[..2] && rec.dealerCards == seen[2..4]
    requires Tagged(rec, tag, 1) && Unfilled(rec) && Settled(rec)
    requires rec.betAmount == stake && Double !in rec.actions
    ensures RoundReported([rec], seen, tag, stake)
  {
    assert [seen[..2]][..0] == [];
    assert Flatten(PlayerCardsOf([rec])) == seen[..2];
    calc {
      multiset(seen);
      { assert seen == seen[..2] + seen[2..4]; }
      multiset(seen[..2]) + multiset(seen[2..4]);
    }
  }

  /** A dealer natural's single report. */
  lemma DealerNaturalReport(strategy: Strategy, tag: RoundTag, stake: real, seen: seq<Rank>, rec: RoundResult)
    requires |seen| == 4 && IsBlackjack(seen[2..4])
    requires rec == Blank(tag, 1, seen[..2], seen[2..4], [], stake, if IsBlackjack(seen[..2]) then Push else Lose,
                          IsBlackjack(seen[..2]), false)
    ensures RoundReported([rec], seen, tag, stake) && RoundRules(strategy, [rec], seen, stake, [])
  {
    DealerNaturalSettles(seen[..2], seen[2..4]);
    SingleReport(tag, stake, seen, rec);
  }

  /** A player natural's single report. */
  lemma PlayerNaturalReport(strategy: Strategy, tag: RoundTag, stake: real, seen: seq<Rank>, rec: RoundResult)
    requires |seen| == 4 && !IsBlackjack(seen[2..4]) && IsBlackjack(seen[..2])
    requires rec == Blank(tag, 1, seen[..2], seen[2..4], [Stand], stake, Win, true, false)
    ensures RoundReported([rec], seen, tag, stake) && RoundRules(strategy, [rec], seen, stake, [])
  {
    PlayerNaturalSettles(seen[..2], seen[2..4]);
    SingleReport(tag, stake, seen, rec);
  }

  /** A hand loop cut short cuts its round short. */
  lemma PlayerRanOut(strategy: Strategy, stake: real, initial: seq<Rank>, pdrawn: seq<Rank>, turns: seq<Turn>)
    requires |initial| == 4 && !IsBlackjack(initial[..2]) && !IsBlackjack(initial[2..4])
    requires CutShort(strategy, initial[2], HandState(initial[..2], stake, [], false), turns, pdrawn)
    ensures RoundCutShort(strategy, initial + pdrawn, stake, turns)
  {
    SeenParts(initial, pdrawn, [], pdrawn);
    assert (initial + pdrawn)[4..] == pdrawn;
  }

  /** A dealer still below 17 when the shoe runs out, after every hand was
      played, cuts the round short. */
  lemma DealerRanOut(strategy: Strategy, stake: real, initial: seq<Rank>, hands: seq<HandState>,
                     pdrawn: seq<Rank>, ddrawn: seq<Rank>, drawn: seq<Rank>, turns: seq<Turn>)
    requires |initial| == 4 && !IsBlackjack(initial[..2]) && !IsBlackjack(initial[2..4])
    requires Replays(strategy, initial[2], HandState(initial[..2], stake, [], false), turns, hands, |hands|)
    requires pdrawn == DealtIn(turns) && drawn == pdrawn + ddrawn
    requires DrawsBelowSeventeen(initial[2..4], ddrawn) && HandValue(initial[2..4] + ddrawn) < 17
    ensures RoundCutShort(strategy, initial + drawn, stake, turns)
  {
    ReplaysEnd(strategy, initial[2], HandState(initial[..2], stake, [], false), turns, hands, |hands|);
    SeenParts(initial, pdrawn, ddrawn, drawn);
    var rest := (initial + drawn)[4..];
    assert rest == drawn;
    assert rest[..|pdrawn|] == pdrawn;
    assert rest[|pdrawn|..] == ddrawn;
  }

  /** Plays the player's hands and then the dealer's after an opening deal
      without a natural; `drawn` is every card dealt after the opening four,
      also when the shoe runs out, and `turns` the player's turns. */
  method PlayOut(tag: RoundTag, stake: real, strategy: Strategy, shoe: Shoe, initial: seq<Rank>)
    returns (res: Result<seq<RoundResult>>, drawn: seq<Rank>, ghost turns: seq<Turn>)
    requires shoe.Valid()
    requires |initial| == 4 && !IsBlackjack(initial[..2]) && !IsBlackjack(initial[2..4])
    modifies shoe`cards
    ensures shoe.Valid()
    ensures old(shoe.cards) == shoe.cards + Reversed(drawn)
    ensures res.Err? ==> shoe.cards == [] && RoundCutShort(strategy, initial + drawn, stake, turns)
    ensures res.Ok? ==> RoundReported(res.value, initial + drawn, tag, stake)
    ensures res.Ok? ==> RoundRules(strategy, res.value, initial + drawn, stake, turns)
  {
    var player := HandState(initial[..2], stake, [], false);
    var dealer := HandState(initial[2..4], 0.0, [], false);
    var hands, pdrawn;
    hands, pdrawn, turns := PlayHands(player, dealer.cards[0], strategy, shoe);
    if hands.Err? {
      PlayerRanOut(strategy, stake, initial, pdrawn, turns);
      return Err(hands.error), pdrawn, turns;
    }
    ghost var afterPlayer := shoe.cards;
    var dealt, ddrawn := DealerPlay(dealer, shoe);
    TakeSeveralFromEnd(old(shoe.cards), afterPlayer, shoe.cards, pdrawn, ddrawn);
    if dealt.Err? {
      DealerRanOut(strategy, stake, initial, hands.value, pdrawn, ddrawn, pdrawn + ddrawn, turns);
      return Err(dealt.error), pdrawn + ddrawn, turns;
    }
    var records := SettleHands(tag, hands.value, dealt.value.cards);
    PlayedOut(player, hands.value, pdrawn);
    PlayedOutReported(tag, stake, initial, hands.value, pdrawn, dealt.value, ddrawn, pdrawn + ddrawn, records);
    PlayedOutFollowsRules(strategy, stake, initial, hands.value, pdrawn, turns, dealt.value, ddrawn,
                          pdrawn + ddrawn, records);
    return Ok(records), pdrawn + ddrawn, turns;
  }

  /** Plays one round from the shoe at the given stake. `seen` is every card
      dealt in the round, in the order dealt, also when the shoe runs out,
      and `turns` the player's turns. */
  method PlayRound(tag: RoundTag, stake: real, strategy: Strategy, shoe: Shoe)
    returns (res: Result<seq<RoundResult>>, seen: seq<Rank>, ghost turns: seq<Turn>)
    requires shoe.Valid()
    modifies shoe`cards
    ensures shoe.Valid()
    ensures old(shoe.cards) == shoe.cards + Reversed(seen)
    ensures |old(shoe.cards)| < 4 ==> res.Err?
    ensures res.Err? ==> shoe.cards == [] && RoundCutShort(strategy, seen, stake, turns)
    ensures res.Ok? ==> RoundReported(res.value, seen, tag, stake) && RoundRules(strategy, res.value, seen, stake, turns)
  {
    var initial, dealt := DealInitial(shoe);
    turns := [];
    if initial.Err? {
      return Err(initial.error), dealt, turns;
    }
    seen := initial.value;
    var player := HandState(seen[..2], stake, [], false);
    var dealer := HandState(seen[2..4], 0.0, [], false);
    if IsBlackjack(dealer.cards) {
      var final := if IsBlackjack(player.cards) then Push else Lose;
      var rec := Blank(tag, 1, player.cards, dealer.cards, [], player.bet, final, IsBlackjack(player.cards), false);
      DealerNaturalReport(strategy, tag, stake, seen, rec);
      return Ok([rec]), seen, turns;
    }
    if IsBlackjack(player.cards) {
      var rec := Blank(tag, 1, player.cards, dealer.cards, [Stand], player.bet, Win, true, false);
      PlayerNaturalReport(strategy, tag, stake, seen, rec);
      return Ok([rec]), seen, turns;
    }
    ghost var afterDeal := shoe.cards;
    var records, drawn;
    records, drawn, turns := PlayOut(tag, stake, strategy, shoe, seen);
    TakeSeveralFromEnd(old(shoe.cards), afterDeal, shoe.cards, seen, drawn);
    seen := seen + drawn;
    res := records;
  }

  /** The settings of a run: decks in the shoe, the base bet, the strategy's
      label and the bet mode. */
  datatype Setup = Setup(numDecks: int, baseBet: real, strategyName: string, betMode: BetMode)

  /** One round as played: its reports before the counts were written, the
      cards seen in it, the counts at its end and the player's turns. */
  datatype RoundLog = RoundLog(reports: seq<RoundResult>, seen: seq<Rank>, tally: Tally, turns: seq<Turn>)

  /** The shoe is reloaded before a round when at most a quarter of the last
      full load is left. */
  predicate Reshuffles(remaining: nat, total: nat)
  {
    4 * remaining <= total
  }

  /** A round starts from a full load with the counts at zero when it is the
      first one or when the shoe is reloaded before it. */
  predicate StartsAfresh(setup: Setup, prev: Option<Tally>)
  {
    prev.None? || Reshuffles(prev.value.remaining, LoadSize(setup.numDecks))
  }

  function TrueCountBefore(setup: Setup, prev: Option<Tally>): (tc: real)
  {
    if StartsAfresh(setup, prev) then 0.0 else prev.value.trueCount
  }

  function RunningBefore(setup: Setup, prev: Option<Tally>): (count: int)
  {
    if StartsAfresh(setup, prev) then 0 else prev.value.running
  }

  function CardsBefore(setup: Setup, prev: Option<Tally>): (n: nat)
  {
    if StartsAfresh(setup, prev) then LoadSize(setup.numDecks) else prev.value.remaining
  }

  /** The ranks in the shoe when a round starts: a full load after a
      reload, otherwise what the round before left. */
  function ContentsBefore(setup: Setup, prev: Option<Tally>): (contents: multiset<Rank>)
  {
    if StartsAfresh(setup, prev) then FullLoad(setup.numDecks) else prev.value.inShoe
  }

  /** A round that ran out of cards: it started from the shoe's contents
      after `prev`, took every one of them, and, at the stake of its starting
      true count, was cut short calling for one more. */
  ghost predicate RoundFailed(setup: Setup, strategy: Strategy, prev: Option<Tally>, seen: seq<Rank>, turns: seq<Turn>)
  {
    multiset(seen) == ContentsBefore(setup, prev) &&
    RoundCutShort(strategy, seen, RoundBet(setup.betMode, TrueCountBefore(setup, prev), setup.baseBet), turns)
  }

  /** The counts at the end of a round: the running count advanced by the
      Hi-Lo sum of every card seen in it, the cards left reduced by those
      cards, and the true count the running count per deck left. */
  predicate CountStep(setup: Setup, prev: Option<Tally>, log: RoundLog)
  {
    CardsCounted(setup, prev, log) &&
    log.tally.trueCount == log.tally.running as real / DecksFor(log.tally.remaining)
  }

  predicate CardsCounted(setup: Setup, prev: Option<Tally>, log: RoundLog)
  {
    log.tally.running == RunningBefore(setup, prev) + HiLoSum(log.seen) &&
    log.tally.remaining + |log.seen| == CardsBefore(setup, prev) &&
    multiset(log.seen) + log.tally.inShoe == ContentsBefore(setup, prev) &&
    |log.tally.inShoe| == log.tally.remaining
  }

  /** Round `r` (counted from 0) of `logs` counted its cards. */
  predicate CountedAt(setup: Setup, logs: seq<RoundLog>, r: nat)
    requires r < |logs|
  {
    CardsCounted(setup, Previous(logs, r), logs[r])
  }

  /** Round `roundId`, following a round that ended with `prev` (or none):
      it is staked from the true count it starts with, its reports follow the
      round's rules, its running count grows by the Hi-Lo sum of every card
      seen in it, its cards come out of the shoe, and its true count is the
      running count per deck left. */
  ghost predicate RoundStep(setup: Setup, strategy: Strategy, prev: Option<Tally>, roundId: nat, log: RoundLog)
  {
    var tcPrev := TrueCountBefore(setup, prev);
    var stake := RoundBet(setup.betMode, tcPrev, setup.baseBet);
    var tag := RoundTag(roundId, setup.strategyName, setup.betMode, tcPrev);
    CountStep(setup, prev, log) &&
    RoundReported(log.reports, log.seen, tag, stake) && RoundRules(strategy, log.reports, log.seen, stake, log.turns)
  }

  function Previous(logs: seq<RoundLog>, r: nat): (prev: Option<Tally>)
    requires r <= |logs|
    ensures r == 0 <==> prev.None?
    ensures r > 0 ==> prev == Some(logs[r - 1].tally)
  {
    if r == 0 then None else Some(logs[r - 1].tally)
  }

  /** Every round follows from the one before it. */
  ghost predicate Chained(setup: Setup, strategy: Strategy, logs: seq<RoundLog>)
    decreases |logs|
  {
    logs == [] ||
    (Chained(setup, strategy, logs[..|logs| - 1]) &&
     RoundStep(setup, strategy, Previous(logs, |logs| - 1), |logs|, logs[|logs| - 1]))
  }

  /** The reports of all rounds, in order, each round's with its counts
      written in. */
  function AllRecords(logs: seq<RoundLog>): (all: seq<RoundResult>)
  {
    if logs == [] then [] else AllRecords(logs[..|logs| - 1]) + FillAll(Last(logs).reports, Last(logs).tally)
  }

  /** A round played from the state left by `prev`, with its counts
      advanced by the cards it saw, is a step of the run. */
  lemma StepOfRound(setup: Setup, strategy: Strategy, prev: Option<Tally>, roundId: nat, tag: RoundTag, stake: real,
                    reports: seq<RoundResult>, seen: seq<Rank>, tally: Tally, turns: seq<Turn>)
    requires tag == RoundTag(roundId, setup.strategyName, setup.betMode, TrueCountBefore(setup, prev))
    requires stake == RoundBet(setup.betMode, tag.trueCountPrev, setup.baseBet)
    requires RoundReported(reports, seen, tag, stake) && RoundRules(strategy, reports, seen, stake, turns)
    requires tally.running == RunningBefore(setup, prev) + HiLoSum(seen)
    requires tally.remaining + |seen| == CardsBefore(setup, prev)
    requires multiset(seen) + tally.inShoe == ContentsBefore(setup, prev) && |tally.inShoe| == tally.remaining
    requires tally.trueCount == tally.running as real / DecksFor(tally.remaining)
    ensures RoundStep(setup, strategy, prev, roundId, RoundLog(reports, seen, tally, turns))
  {
  }

  lemma ChainedAppend(setup: Setup, strategy: Strategy, logs: seq<RoundLog>, log: RoundLog)
    requires Chained(setup, strategy, logs)
    requires RoundStep(setup, strategy, Previous(logs, |logs|), |logs| + 1, log)
    ensures Chained(setup, strategy, logs + [log])
    ensures AllRecords(logs + [log]) == AllRecords(logs) + FillAll(log.reports, log.tally)
  {
    var longer := logs + [log];
    assert longer[..|logs|] == logs;
    assert Previous(longer, |logs|) == Previous(logs, |logs|);
  }

  /** Each round of a chained run follows from the one before it. */
  lemma {:induction false} ChainedAt(setup: Setup, strategy: Strategy, logs: seq<RoundLog>, r: nat)
    requires Chained(setup, strategy, logs) && r < |logs|
    ensures RoundStep(setup, strategy, Previous(logs, r), r + 1, logs[r])
    decreases |logs|
  {
    var init := logs[..|logs| - 1];
    if r < |init| {
      ChainedAt(setup, strategy, init, r);
      assert init[r] == logs[r];
      assert Previous(init, r) == Previous(logs, r);
    }
  }

  /** A report as the run leaves it: numbered with its round, labelled with
      the run's strategy and bet mode, carrying the true count its round
      started from and the counts at that round's end, and staked at the
      round's bet, doubled when its log holds a double. */
  predicate ReportOfRound(setup: Setup, rec: RoundResult, roundId: nat, tcPrev: real, t: Tally)
  {
    rec.roundId == roundId && rec.strategyUsed == setup.strategyName && rec.betMode == setup.betMode &&
    rec.trueCountPrevRound == tcPrev &&
    rec.runningCountEnd == t.running && rec.trueCountEnd == t.trueCount &&
    rec.cardsRemaining == t.remaining && rec.decksRemaining == DecksFor(t.remaining) &&
    rec.betAmount == (if Double in rec.actions then 2.0 else 1.0) * RoundBet(setup.betMode, tcPrev, setup.baseBet)
  }

  /** A round's reports, once its counts are written in, are reports of
      that round. */
  lemma RoundReportsFilled(setup: Setup, strategy: Strategy, prev: Option<Tally>, roundId: nat, log: RoundLog)
    requires RoundStep(setup, strategy, prev, roundId, log)
    ensures forall rec | rec in FillAll(log.reports, log.tally) ::
      ReportOfRound(setup, rec, roundId, TrueCountBefore(setup, prev), log.tally)
  {
    var tcPrev := TrueCountBefore(setup, prev);
    var tag := RoundTag(roundId, setup.strategyName, setup.betMode, tcPrev);
    var filled := FillAll(log.reports, log.tally);
    forall k | 0 <= k < |filled|
      ensures ReportOfRound(setup, filled[k], roundId, tcPrev, log.tally)
    {
      FillKeepsReport(log.reports[k], log.tally, tag, k + 1);
    }
  }

  /** Each round's reports, with its counts written in, are reports of that
      round. */
  predicate ReportsAt(setup: Setup, logs: seq<RoundLog>, r: nat)
    requires r < |logs|
  {
    forall rec | rec in FillAll(logs[r].reports, logs[r].tally) ::
      ReportOfRound(setup, rec, r + 1, TrueCountBefore(setup, Previous(logs, r)), logs[r].tally)
  }

  lemma ChainedReports(setup: Setup, strategy: Strategy, logs: seq<RoundLog>)
    requires Chained(setup, strategy, logs)
    ensures forall r | 0 <= r < |logs| :: ReportsAt(setup, logs, r)
  {
    forall r | 0 <= r < |logs|
      ensures ReportsAt(setup, logs, r)
    {
      ChainedAt(setup, strategy, logs, r);
      RoundReportsFilled(setup, strategy, Previous(logs, r), r + 1, logs[r]);
    }
  }

  lemma {:induction false} ReportsOfRun(setup: Setup, logs: seq<RoundLog>)
    requires forall r | 0 <= r < |logs| :: ReportsAt(setup, logs, r)
    ensures forall rec | rec in AllRecords(logs) ::
      1 <= rec.roundId <= |logs| &&
      ReportOfRound(setup, rec, rec.roundId, TrueCountBefore(setup, Previous(logs, rec.roundId - 1)),
                    logs[rec.roundId - 1].tally)
    decreases |logs|
  {
    if logs != [] {
      var init := logs[..|logs| - 1];
      forall r | 0 <= r < |init|
        ensures ReportsAt(setup, init, r)
      {
        assert ReportsAt(setup, logs, r);
        assert logs[r] == init[r] && Previous(logs, r) == Previous(init, r);
      }
      ReportsOfRun(setup, init);
      forall rec | rec in AllRecords(logs)
        ensures 1 <= rec.roundId <= |logs| &&
                ReportOfRound(setup, rec, rec.roundId, TrueCountBefore(setup, Previous(logs, rec.roundId - 1)),
                              logs[rec.roundId - 1].tally)
      {
        if rec in AllRecords(init) {
          assert logs[rec.roundId - 1] == init[rec.roundId - 1];
        } else {
          assert ReportsAt(setup, logs, |logs| - 1);
        }
      }
    }
  }

  /** Every report of a run belongs to one of its rounds and carries that
      round's bet and counts: the counts written at the end of a round reach
      exactly the reports of that round. */
  lemma RunReports(setup: Setup, strategy: Strategy, logs: seq<RoundLog>)
    requires Chained(setup, strategy, logs)
    ensures forall rec | rec in AllRecords(logs) ::
      1 <= rec.roundId <= |logs| &&
      ReportOfRound(setup, rec, rec.roundId, TrueCountBefore(setup, Previous(logs, rec.roundId - 1)),
                    logs[rec.roundId - 1].tally)
  {
    ChainedReports(setup, strategy, logs);
    ReportsOfRun(setup, logs);
  }

  /** The stake a report was played for before any double: the base bet in
      fixed mode, on the ramp from the base bet to `MaxMultiplier` times it
      in count mode. */
  predicate StakeOnRamp(setup: Setup, rec: RoundResult)
  {
    var unit := if Double in rec.actions then rec.betAmount / 2.0 else rec.betAmount;
    (setup.betMode == Fixed ==> unit == setup.baseBet) &&
    (setup.betMode == CountScaled ==> setup.baseBet <= unit <= setup.baseBet * MaxMultiplier as real)
  }

  lemma ReportStake(setup: Setup, rec: RoundResult, roundId: nat, tcPrev: real, t: Tally)
    requires ReportOfRound(setup, rec, roundId, tcPrev, t) && setup.baseBet >= 0.0
    ensures StakeOnRamp(setup, rec)
  {
    BetWithinRamp(tcPrev, setup.baseBet, MaxMultiplier);
  }

  /** Every stake in a run is the base bet in fixed mode and lies on the
      ramp in count mode; a doubled hand's stake is twice that. */
  lemma RunStakes(setup: Setup, strategy: Strategy, logs: seq<RoundLog>)
    requires Chained(setup, strategy, logs) && setup.baseBet >= 0.0
    ensures forall rec | rec in AllRecords(logs) :: StakeOnRamp(setup, rec)
  {
    RunReports(setup, strategy, logs);
    forall rec | rec in AllRecords(logs)
      ensures StakeOnRamp(setup, rec)
    {
      ReportStake(setup, rec, rec.roundId, TrueCountBefore(setup, Previous(logs, rec.roundId - 1)),
                  logs[rec.roundId - 1].tally);
    }
  }

  /** The cards seen from the last reload of the shoe up to and including
      round `r` (counted from 0). */
  function SeenSinceLoad(setup: Setup, logs: seq<RoundLog>, r: nat): (seen: seq<Rank>)
    requires r < |logs|
    decreases r
  {
    if StartsAfresh(setup, Previous(logs, r)) then logs[r].seen
    else SeenSinceLoad(setup, logs, r - 1) + logs[r].seen
  }

  lemma {:induction false} CountsSinceLoad(setup: Setup, logs: seq<RoundLog>, r: nat)
    requires r < |logs|
    requires forall q | 0 <= q < |logs| :: CountedAt(setup, logs, q)
    ensures logs[r].tally.running == HiLoSum(SeenSinceLoad(setup, logs, r))
    ensures logs[r].tally.remaining + |SeenSinceLoad(setup, logs, r)| == LoadSize(setup.numDecks)
    ensures multiset(SeenSinceLoad(setup, logs, r)) + logs[r].tally.inShoe == FullLoad(setup.numDecks)
    decreases r
  {
    assert CountedAt(setup, logs, r);
    if !StartsAfresh(setup, Previous(logs, r)) {
      CountsSinceLoad(setup, logs, r - 1);
      HiLoSumAppend(SeenSinceLoad(setup, logs, r - 1), logs[r].seen);
    }
  }

  /** At the end of every round the running count is the Hi-Lo sum of every
      card seen since the shoe was last loaded, the cards left and the cards
      seen since then make up a full load, rank by rank, so that no rank was
      seen more often than a load holds it, and the true count is the running
      count per deck left. */
  lemma RunCounts(setup: Setup, strategy: Strategy, logs: seq<RoundLog>, r: nat)
    requires Chained(setup, strategy, logs) && r < |logs|
    ensures logs[r].tally.running == HiLoSum(SeenSinceLoad(setup, logs, r))
    ensures logs[r].tally.remaining + |SeenSinceLoad(setup, logs, r)| == LoadSize(setup.numDecks)
    ensures multiset(SeenSinceLoad(setup, logs, r)) + logs[r].tally.inShoe == FullLoad(setup.numDecks)
    ensures forall rank :: multiset(SeenSinceLoad(setup, logs, r))[rank] <= 4 * DecksLoaded(setup.numDecks)
    ensures logs[r].tally.trueCount == logs[r].tally.running as real / DecksFor(logs[r].tally.remaining)
  {
    forall q | 0 <= q < |logs|
      ensures CountedAt(setup, logs, q)
    {
      ChainedAt(setup, strategy, logs, q);
    }
    CountsSinceLoad(setup, logs, r);
    ChainedAt(setup, strategy, logs, r);
    PartOfLoad(multiset(SeenSinceLoad(setup, logs, r)), logs[r].tally.inShoe, setup.numDecks);
  }

  /** Writing the counts into the last round's reports leaves the earlier
      reports and appends the filled ones. */
  lemma BackfillRound(before: seq<RoundResult>, reports: seq<RoundResult>, t: Tally, filled: seq<RoundResult>)
    requires |reports| >= 1 && |filled| == |before + reports|
    requires filled[..TailStart(|before + reports|, |reports|)] == (before + reports)[..TailStart(|before + reports|, |reports|)]
    requires filled[TailStart(|before + reports|, |reports|)..] == FillAll((before + reports)[TailStart(|before + reports|, |reports|)..], t)
    ensures filled == before + FillAll(reports, t)
  {
    var start := TailStart(|before + reports|, |reports|);
    assert start == |before|;
    assert (before + reports)[..start] == before;
    assert (before + reports)[start..] == reports;
    assert filled == filled[..start] + filled[start..];
  }

  /** The state a run is in between rounds, given how the last round ended
      (or that none was played): the shoe holds what that round left, or a
      full load before the first round, and the running and true counts are
      that round's. */
  ghost predicate Resumes(setup: Setup, prev: Option<Tally>, shoe: Shoe, running: int, trueCountPrev: real)
    reads shoe
  {
    (prev.None? ==> |shoe.cards| == LoadSize(setup.numDecks) && multiset(shoe.cards) == FullLoad(setup.numDecks) &&
                    running == 0 && trueCountPrev == 0.0) &&
    (prev.Some? ==> |shoe.cards| == prev.value.remaining && multiset(shoe.cards) == prev.value.inShoe &&
                    running == prev.value.running && trueCountPrev == prev.value.trueCount)
  }

  /** Reloads the shoe when at most a quarter of the last load is left,
      restarting the counts; otherwise the shoe, its order and the counts are
      left alone. Either way the shoe then holds what the round starts from. */
  method ReloadIfLow(setup: Setup, shoe: Shoe, ghost prev: Option<Tally>,
                     running: int, trueCountPrev: real, totalCardsInitial: nat)
    returns (runningCount: int, tcPrev: real, total: nat)
    requires shoe.Valid() && shoe.numDecks == setup.numDecks
    requires totalCardsInitial == LoadSize(setup.numDecks)
    requires Resumes(setup, prev, shoe, running, trueCountPrev)
    modifies shoe`cards, shoe`cardsTotal
    ensures shoe.Valid()
    ensures runningCount == RunningBefore(setup, prev) && tcPrev == TrueCountBefore(setup, prev)
    ensures |shoe.cards| == CardsBefore(setup, prev) && multiset(shoe.cards) == ContentsBefore(setup, prev)
    ensures total == LoadSize(setup.numDecks)
    ensures Reshuffles(|old(shoe.cards)|, totalCardsInitial) ==>
              runningCount == 0 && tcPrev == 0.0 && multiset(shoe.cards) == FullLoad(setup.numDecks)
    ensures !Reshuffles(|old(shoe.cards)|, totalCardsInitial) ==>
              shoe.cards == old(shoe.cards) && shoe.cardsTotal == old(shoe.cardsTotal) &&
              runningCount == running && tcPrev == trueCountPrev
  {
    runningCount, tcPrev, total := running, trueCountPrev, totalCardsInitial;
    if Reshuffles(shoe.CardsRemaining(), total) {
      shoe.Reshuffle();
      runningCount := 0;
      total := shoe.CardsRemaining();
      tcPrev := 0.0;
    }
  }

  /** One pass of the round loop: reshuffle if the shoe is low, stake the
      bet, play the round, advance the counts and write them into the
      round's reports. A round fails only once it has taken every card the
      shoe held when it started and called for one more. */
  method NextRound(setup: Setup, strategy: Strategy, shoe: Shoe, roundId: nat, ghost prev: Option<Tally>,
                   running: int, trueCountPrev: real, totalCardsInitial: nat, results: seq<RoundResult>)
    returns (res: Result<(int, real, nat, seq<RoundResult>)>, ghost log: RoundLog)
    requires shoe.Valid() && shoe.numDecks == setup.numDecks
    requires totalCardsInitial == LoadSize(setup.numDecks)
    requires Resumes(setup, prev, shoe, running, trueCountPrev)
    modifies shoe`cards, shoe`cardsTotal
    ensures shoe.Valid()
    ensures setup.numDecks <= 0 ==> res.Err?
    ensures res.Err? ==> shoe.cards == [] && RoundFailed(setup, strategy, prev, log.seen, log.turns)
    ensures res.Ok? ==> RoundStep(setup, strategy, prev, roundId, log)
    ensures res.Ok? ==> res.value.3 == results + FillAll(log.reports, log.tally)
    ensures res.Ok? ==> res.value.2 == LoadSize(setup.numDecks)
    ensures res.Ok? ==> Resumes(setup, Some(log.tally), shoe, res.value.0, res.value.1)
  {
    var runningCount, tcPrev, total := ReloadIfLow(setup, shoe, prev, running, trueCountPrev, totalCardsInitial);
    ghost var before := shoe.cards;
    var betAmount := RoundBet(setup.betMode, tcPrev, setup.baseBet);
    var tag := RoundTag(roundId, setup.strategyName, setup.betMode, tcPrev);
    var round, seen, turns := PlayRound(tag, betAmount, strategy, shoe);
    TakenAndLeft(before, shoe.cards, seen);
    if round.Err? {
      return Err(round.error), RoundLog([], seen, Tally(0, 0.0, 0, multiset{}), turns);
    }
    runningCount := runningCount + HiLoSum(seen);
    var trueCount := runningCount as real / shoe.DecksRemaining();
    var tally := Tally(runningCount, trueCount, shoe.CardsRemaining(), multiset(shoe.cards));
    var filled := results + round.value;
    filled := Backfill(filled, |round.value|, tally);
    BackfillRound(results, round.value, tally, filled);
    log := RoundLog(round.value, seen, tally, turns);
    StepOfRound(setup, strategy, prev, roundId, tag, betAmount, round.value, seen, tally, turns);
    res := Ok((runningCount, trueCount, total, filled));
  }

  /** A round of a run that has so far played `logs`: on success the run
      has one more round, chained to the ones before it; on failure the
      round has taken every card the shoe held when it started and called
      for one more. */
  method Advance(setup: Setup, strategy: Strategy, shoe: Shoe, roundId: nat, ghost logs: seq<RoundLog>,
                 running: int, trueCountPrev: real, totalCardsInitial: nat, results: seq<RoundResult>)
    returns (res: Result<(int, real, nat, seq<RoundResult>)>, ghost longer: seq<RoundLog>)
    requires shoe.Valid() && shoe.numDecks == setup.numDecks
    requires totalCardsInitial == LoadSize(setup.numDecks) && roundId == |logs| + 1
    requires results == AllRecords(logs) && Chained(setup, strategy, logs)
    requires Resumes(setup, Previous(logs, |logs|), shoe, running, trueCountPrev)
    modifies shoe`cards, shoe`cardsTotal
    ensures shoe.Valid()
    ensures setup.numDecks <= 0 ==> res.Err?
    ensures |longer| == |logs| + 1 && longer[..|logs|] == logs
    ensures res.Err? ==> shoe.cards == [] &&
                         RoundFailed(setup, strategy, Previous(logs, |logs|), longer[|logs|].seen, longer[|logs|].turns)
    ensures res.Ok? ==> res.value.2 == LoadSize(setup.numDecks)
    ensures res.Ok? ==> res.value.3 == AllRecords(longer) && Chained(setup, strategy, longer)
    ensures res.Ok? ==> Resumes(setup, Previous(longer, |longer|), shoe, res.value.0, res.value.1)
  {
    ghost var log;
    res, log := NextRound(setup, strategy, shoe, roundId, Previous(logs, |logs|),
                          running, trueCountPrev, totalCardsInitial, results);
    longer := logs + [log];
    if res.Ok? {
      ChainedAppend(setup, strategy, logs, log);
    }
  }

  /** Runs `rounds` rounds from a fresh shoe of `setup.numDecks` decks. The
      result is every round's reports in order; `logs` records each round's
      cards, counts and turns. A run fails only when the shoe runs out in
      the middle of a round: the rounds before it are chained as usual, and
      `failed`, the cards the failing round took, is every card the shoe held
      when that round started, dealt by the round's rules up to a card the
      round called for; `failedTurns` is the player's turns in it. */
  method SimulateRounds(rounds: int, setup: Setup, strategy: Strategy)
    returns (res: Result<seq<RoundResult>>, ghost logs: seq<RoundLog>, ghost failed: seq<Rank>,
             ghost failedTurns: seq<Turn>)
    ensures setup.numDecks <= 0 && rounds >= 1 ==> res.Err?
    ensures res.Ok? ==> |logs| == (if rounds <= 0 then 0 else rounds)
    ensures res.Ok? ==> res.value == AllRecords(logs) && Chained(setup, strategy, logs)
    ensures res.Err? ==> |logs| < rounds && Chained(setup, strategy, logs)
    ensures res.Err? ==> RoundFailed(setup, strategy, Previous(logs, |logs|), failed, failedTurns)
  {
    var shoe := new Shoe(setup.numDecks);
    var runningCount := 0;
    var totalCardsInitial := shoe.CardsRemaining();
    var trueCountPrev := 0.0;
    var results: seq<RoundResult> := [];
    logs := [];
    failed, failedTurns := [], [];
    var roundId := 1;
    while roundId <= rounds
      invariant shoe.Valid() && shoe.numDecks == setup.numDecks
      invariant totalCardsInitial == LoadSize(setup.numDecks)
      invariant 1 <= roundId <= (if rounds <= 0 then 0 else rounds) + 1
      invariant |logs| == roundId - 1
      invariant results == AllRecords(logs) && Chained(setup, strategy, logs)
      invariant Resumes(setup, Previous(logs, |logs|), shoe, runningCount, trueCountPrev)
      invariant setup.numDecks <= 0 ==> logs == []
    {
      var next, longer := Advance(setup, strategy, shoe, roundId, logs, runningCount, trueCountPrev, totalCardsInitial, results);
      if next.Err? {
        return Err(next.error), logs, longer[|logs|].seen, longer[|logs|].turns;
      }
      runningCount, trueCountPrev, totalCardsInitial, results := next.value.0, next.value.1, next.value.2, next.value.3;
      logs := longer;
      roundId := roundId + 1;
    }
    return Ok(results), logs, failed, failedTurns;
  }
}
