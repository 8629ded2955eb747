# Blackjack round simulator with Hi-Lo counting — a Dafny model

This project models the simulation engine of the API-blackjack repository:
`game.py` and the decision functions of `strategies.py` that drive it.

## The engine

- **The shoe.** It holds card ranks without suits, four copies of each of
  the 13 ranks per deck. It deals from the end of the list and is reloaded
  when at most a quarter of the last full load is left.
- **The bet.** Each round is staked from the true count left by the
  previous round. The stake is fixed, or scaled along a ramp of 1x to 5x
  the base bet.
- **The opening deal.** Four cards are dealt: two to the player, two to
  the dealer. Naturals are settled at once.
- **Playing a round without a natural.**
  - The player's hands are played with a strategy, which answers hit,
    stand, double, split or anything else.
  - A split replaces a hand by its two halves, which are then played in
    turn.
  - The dealer then draws to 17.
  - Every final hand is settled and reported.
- **The count.** The Hi-Lo running count is advanced by every card seen in
  the round. The running count, the true count (running count per deck
  left) and the cards left are then written into that round's reports.

## Modules

Modules follow the source:

- `Cards`: ranks, values and Hi-Lo weights.
- `Hands`: hand arithmetic with the soft/hard Ace reduction.
- `Betting`: settlement and the bet ramp.
- `ShoeModel`: the `Shoe` class.
- `Strategies`: the simplest and basic strategies.
- `PlayerTurn`: the player's action loop, including splits.
- `Dealer`: dealer play.
- `Records`: per-hand reports, and writing the counts into them.
- `Simulation`: one round and the run of rounds.

## How the engine is modelled

**Imperative parts.** These are written as methods with loop invariants:
- `Shoe` is a class holding a `seq` of ranks and the size of its last load.
- `DealerPlay`, `PlayTurn`, `PlayAllHands` (the hand loop, which
  `PlayHands` runs on the player's hand), `SettleHands`, `Backfill` and
  `SimulateRounds`.

**Pure parts.** These are functions:
- hand value;
- Hi-Lo weights;
- settlement;
- the bet ramp;
- both strategies.

**Specifications for the methods.** Each method is proved against a
specification:
- `IsTurn` describes how a hand's turn ends, and `NeedsCard` a turn that
  still calls for a card.
- `Replays` describes the hand loop as a trace of turns. The shape of the
  hand list while it is being played (`HandsSoFar`) is derived from the
  trace by `ReplayKeepsShape`.
- `CutShort` and `RoundCutShort` describe a round stopped by an empty shoe:
  what was dealt is a prefix of a round that follows the rules and needs
  one more card.
- `RoundReported` and `RoundRules` describe the reports of one round.
- `Chained` describes the rounds of a run, each following from the state
  the previous one left.

`Shoe.CardsRemaining` returns the shoe's length.

**Two details of the code.**
- The player's hands are played by a single-path action loop
  (game.py:305-346): each hand asks the strategy once per move, and the
  halves of a split are played in turn. A ghost trace of `Turn`s records
  every pass of that loop, and `Replays` ties each turn to the strategy, so
  a split round is as fully described as an unsplit one.
- The running count advances by every card seen in the round: the opening
  deal, the player's draws and the dealer's draws (game.py:237, 314, 325,
  337, 352, 390-391).

## Model

| member | source | states |
|---|---|---|
| Cards.RankValue | game.py:22-37 | a rank is worth 2 to 11; 11 exactly for an Ace; 10 exactly for 10, J, Q and K |
| Cards.HiLo | game.py:40-46 | the Hi-Lo weight is +1 exactly for ranks worth 2-6, 0 exactly for 7-9, and -1 exactly for ten-valued cards and Aces |
| Cards.HiLoSumCounts | game.py:390 | the Hi-Lo sum of a list of cards is its number of low cards minus its number of high cards |
| Cards.HiLoSumPermutation | game.py:390 | the Hi-Lo sum does not depend on the order the cards were seen in |
| Cards.HiLoSumAppend | game.py:390-391 | the Hi-Lo sum of two runs of cards is the sum of their sums, so adding a round's delta to the running count sums all cards seen |
| Hands.Reduce | game.py:115-117 | the reduction loop takes 10 off per Ace turned to 1; a result over 21 has no Ace left at 11; an Ace is turned only while the total is over 21 |
| Hands.RawIsHardPlusTen | game.py:107-114 | the first pass (every Ace as 11) is the hard total plus 10 per Ace |
| Hands.ValueIsBestTotal | game.py:101-118 | the value is the hard total plus 10·k, with k at most the number of Aces; a value over 21 has k = 0; k is the largest count of Aces at 11 that stays within 21 |
| Hands.HandValue | game.py:101-118 | the value lies between the hard total (every Ace as 1) and the hard total plus 10 per Ace; a value over 21 is the hard total, so no Ace is left at 11 on a bust |
| Hands.TwoCardValue | game.py:101-118 | two cards are worth the sum of their table values, except two Aces, which are worth 12 |
| Hands.TwoCardsNeverBust | game.py:101-118 | no two cards are worth more than 21 |
| Hands.IsBlackjack | game.py:120-121 | a hand is a natural exactly when it has two cards, one an Ace and the other ten-valued, in either order |
| Hands.CanSplit | game.py:123-124 | a splittable hand has two cards, so it can also be doubled, and is worth 12 for a pair of Aces and twice the rank's value otherwise |
| Hands.CanDouble | game.py:126-127 | a hand that may be doubled has two cards and so is worth at most 21 |
| Betting.Settle | game.py:166-179 | the result is -1, 0 or 1; a player over 21 loses whatever the dealer holds; otherwise a dealer over 21 loses; with neither over 21 it is 0 exactly on equal totals and 1 exactly when the player is higher |
| Betting.SettleAntisymmetric | game.py:166-179 | with neither side over 21, swapping the two totals negates the result |
| Betting.OutcomeOf | game.py:360-365 | the recorded label is push exactly for 0, win exactly for a positive result, and lose exactly for a negative one |
| Betting.Multiplier | game.py:188-192 | the ramp's multiplier never falls below 1 nor rises above the cap |
| Betting.MultiplierMonotone | game.py:188-192 | a higher true count never gives a lower multiplier, since the whole part of the count grows with it |
| Betting.BetFromTrueCount | game.py:182-193 | a true count at or below 0 bets the base; above 0 it bets the base times min(max multiplier, 1 + floor of the count) |
| Betting.RoundBet | game.py:228-231 | fixed mode stakes the base bet; every other mode stakes the ramp at multiplier 5 from the previous round's true count |
| Betting.BetWithinRamp | game.py:182-193 | a scaled bet lies between the base bet and the maximum multiplier times it |
| Betting.BetMonotone | game.py:182-193 | a higher true count never gives a lower bet |
| Betting.BetRampPoints | game.py:184-186 | the documented ramp points: base at 0 and below, 2x at 1, 3x at 2.9, 5x at 4, capped at 5x |
| ShoeModel.DecksFor | game.py:78-79 | decks left are cards/52, floored at 0.0001, and so always positive |
| ShoeModel.Shoe.DecksRemaining | game.py:78-79 | the shoe's decks left are positive and are its cards/52 when it is not empty |
| ShoeModel.FullLoadCounts | game.py:65-71 | the full load holds 4·decks of every rank, and any collection with those counts is the full load |
| ShoeModel.PartOfLoad | game.py:65-71 | part of a full load holds no rank more than 4·decks times |
| ShoeModel.AddDeck | game.py:67-71 | adding one deck appends 52 cards, four more of every rank |
| ShoeModel.Shoe.constructor | game.py:58-63 | a new shoe holds a full load: its contents are the full load, 4 copies of each rank per deck, 52 per deck in all, and the load size is its baseline |
| ShoeModel.Shoe.Reshuffle | game.py:65-73 | after a reshuffle the shoe's contents are the full load (4·decks copies of every rank) in some order, and the baseline is its length |
| ShoeModel.Shoe.CardsRemaining | game.py:75-76 | the cards left in a valid shoe are never more than a full load |
| ShoeModel.Shoe.Pop | game.py:81-89 | a non-empty shoe gives its last card and keeps the rest unchanged; it never reshuffles; an empty shoe is an error |
| Strategies.SimplestStrategy | strategies.py:25-27 | hits exactly when the hand is worth less than 17, and stands exactly when it is worth 17 or more |
| Strategies.PairDecision | strategies.py:48-68 | the pair block gives no answer exactly for J, Q and K (left to the totals below); otherwise it answers hit, stand, double or split, and doubles only on a pair of fives when doubling is allowed |
| Strategies.IsSoft | strategies.py:72-84 | a soft hand is worth 11 to 21 |
| Strategies.SoftDecision | strategies.py:86-103 | the soft block answers exactly for soft totals 13 to 20, only with hit, stand or double, and doubles only when doubling is allowed |
| Strategies.HardDecision | strategies.py:105-118 | the hard block answers hit, stand or double; it stands on 17 or more, hits on 8 or less, and doubles only on 9 to 11 when doubling is allowed |
| Strategies.SoftMeansAceAsEleven | strategies.py:70-84 | the local soft test holds exactly when the value still counts an Ace as 11, which is exactly when there is an Ace and the hard total is at most 11; a soft hand is worth its hard total plus 10 |
| Strategies.BasicStrategy | strategies.py:36-118 | it answers only hit, stand, double or split; a split only on a splittable pair; a double only on two cards |
| Strategies.AcesAndEightsSplit | strategies.py:51-58 | a pair of Aces or of Eights is always split |
| Strategies.TenValuedPairsStand | strategies.py:53-54 | a pair of ten-valued cards always stands: "10" through the pair block, J/Q/K through the hard total of 20 |
| Strategies.HardSeventeenStands | strategies.py:106-107 | a hand that is not soft and not a pair of nines stands on 17 or more |
| Strategies.ElevenDoubles | strategies.py:112-113 | a hand worth 11 doubles on two cards and hits otherwise |
| Strategies.LowTotalsHit | strategies.py:114-118 | a hand worth 8 or less that is not a pair is hit |
| Strategies.ManyCardsOnlyHitOrStand | strategies.py:36-118 | on three or more cards the table only hits or stands |
| PlayerTurn.Classify | game.py:311-345 | hit, or a double that is not allowed, is played as a hit; an allowed double as a double; an allowed split as a split; stand, a split that is not allowed, or an unknown answer as a stand |
| PlayerTurn.BasicStrategyHonoured | game.py:311-345 | the engine always plays exactly the move the basic strategy asks for |
| PlayerTurn.SimplestStrategySteps | game.py:311-319 | under the simplest strategy the engine hits below 17 and stands otherwise |
| PlayerTurn.StandEnds | game.py:317-319 | a stand after a run of hits ends the turn with the stand logged |
| PlayerTurn.HitContinues | game.py:311-316 | a hit that leaves the hand at 21 or less lets the turn go on |
| PlayerTurn.BustEnds | game.py:315-316 | a hit that takes the hand over 21 ends the turn, with only the hit logged |
| PlayerTurn.DoubleEnds | game.py:320-327 | an allowed double takes exactly one card and ends the turn |
| PlayerTurn.SplitEnds | game.py:329-341 | an allowed split deals one card to each half, left first, and ends the turn |
| PlayerTurn.DoubleDown | game.py:320-327 | doubling takes one card off the shoe; the hand has twice the stake, is marked doubled, and logs double then stand |
| PlayerTurn.SplitPair | game.py:329-341 | a split takes two cards off the shoe; each half holds one card of the pair and one dealt card (left first), the same stake and the log [split]; it fails only on an empty shoe, having dealt fewer than two cards |
| PlayerTurn.SplitNeedsSecond | game.py:334-335 | a split that has dealt its left card still calls for the right one |
| PlayerTurn.MoveNeedsCard | game.py:311-341 | a hit, a double or a split after a run of hits calls for a card |
| PlayerTurn.FinishedNeedsNoCard | game.py:309-327 | a turn that stood, busted or doubled calls for no further card |
| PlayerTurn.SplitNeedsNoCard | game.py:329-341 | a turn that split and dealt both halves calls for no further card |
| PlayerTurn.EndedNeedsNoCard | game.py:309-345 | a turn that has ended never calls for a further card, so a finished turn and a turn cut short are told apart |
| PlayerTurn.EndTurn | game.py:317-345 | the turn-ending move (stand, double or split) after the hits so far gives a turn as IsTurn describes, with the cards it dealt coming off the end of the shoe; it fails only on an empty shoe, when the hits and the cards it dealt leave a turn that calls for one more card |
| PlayerTurn.PlayTurn | game.py:309-345 | playing one hand ends as IsTurn describes it, with `drawn` being exactly the cards taken off the end of the shoe; it fails only on an empty shoe, when the cards drawn were hits the strategy asked for, at 21 or less, and the turn calls for one more card |
| PlayerTurn.ReplaceHand | game.py:331-339 | putting hands in place of hand i swaps that hand's cards for theirs in the pool of all cards held |
| PlayerTurn.StoodIsFinal | game.py:317-319 | a hand waiting to be played that stands after hits is final and keeps the start of its log |
| PlayerTurn.BustIsFinal | game.py:315-316 | a hand waiting to be played that busts on a hit is final |
| PlayerTurn.DoubledIsFinal | game.py:320-327 | a hand waiting to be played that doubles is final, at twice the round's stake |
| PlayerTurn.DoubleIsFirstMove | game.py:311-320 | a double can only be the first move, since any hit leaves three cards |
| PlayerTurn.SplitIsFirstMove | game.py:329-341 | a split can only be the first move, on a pair, and deals exactly two cards |
| PlayerTurn.FinishedTurnOfPending | game.py:309-345 | a finished turn keeps the hand's cards plus the cards drawn, keeps the start of the log, and leaves a final hand |
| PlayerTurn.SplitHalvesPending | game.py:332-337 | the halves of a split wait to be played at the same stake, each with the log [split], and together hold the pair and the two dealt cards |
| PlayerTurn.TurnOfPending | game.py:305-346 | a turn keeps all cards held plus those drawn; a finished hand is final; a split happens only on a pair and leaves two halves waiting to be played |
| PlayerTurn.SimplestTurnIsDealerRule | game.py:309-319 | under the simplest strategy a turn never doubles or splits, every card is taken below 17, and the hand ends at 17 or more or bust |
| PlayerTurn.PoolAfterReplace | game.py:331-339 | replacing hand i by hands holding its cards plus the dealt cards adds exactly the dealt cards to the pool |
| PlayerTurn.AdvanceFinished | game.py:346 | a finished turn of hand i keeps the hand list in shape, with the next hand to play |
| PlayerTurn.ReplaceBySplit | game.py:338-340 | two split halves in place of hand i keep the hand list in shape, with the left half played next |
| PlayerTurn.AdvanceSplit | game.py:329-341 | a split of hand i keeps the hand list in shape |
| PlayerTurn.ReplaysStep | game.py:307-346 | one more strategy turn on the next hand to play, put in that hand's place, extends the trace of the hand loop, and adds its cards to those dealt |
| PlayerTurn.ReplayAtStart | game.py:305-308 | a trace back at the first of a single hand has played no turn: the list is still the player's hand |
| PlayerTurn.ReplayUnsplit | game.py:305-346 | a trace that ends with one hand played out is a single finished strategy turn of the player's hand, dealing every card of the trace |
| PlayerTurn.ReplayKeepsShape | game.py:305-346 | every trace of the hand loop from a fresh hand keeps the hand list in shape: hands before the index final, the rest waiting, split logs after a split, and the hands holding the player's cards plus the cards dealt |
| PlayerTurn.ReplayPlayedOut | game.py:305-346 | a trace that has played every hand leaves final hands holding the player's cards plus the cards dealt, and without a split it is one turn of the player's hand |
| PlayerTurn.ReplaysEnd | game.py:305-346 | a trace determines the hand list and the index it leaves: those after its last turn |
| PlayerTurn.CutShortHere | game.py:307-346 | a trace followed by a turn on the next hand that calls for one more card is a hand loop cut short |
| PlayerTurn.CutShortNotThrough | game.py:305-346 | a hand loop cut short has not played every hand |
| PlayerTurn.PlayHandAt | game.py:307-346 | one pass of the hand loop plays the strategy's turn on hand i and puts its outcome in that hand's place, moving on after a finished turn and staying on the left half after a split (two cards dealt); the trace grows by that turn; it fails only on an empty shoe, when the cards it dealt leave hand i's turn calling for one more card |
| PlayerTurn.PlayAllHands | game.py:305-346 | the hand loop deals exactly the cards taken off the end of the shoe; on success its trace of strategy turns replays the loop to the final hand list and deals exactly those cards; it fails only on an empty shoe, when its trace replays the completed turns and the cards after them leave the next hand's turn calling for one more card |
| PlayerTurn.PlayHands | game.py:305-346 | after the loop the trace of strategy turns replays it to the final hands and deals exactly the cards drawn, so every hand, split or not, is the strategy's turn on the hand it came from; every hand is final; together the hands hold the player's two cards and the cards drawn; in a split round every log starts with the split; an unsplit round is one turn of the player's hand; on an empty shoe the cards drawn are a hand loop cut short |
| PlayerTurn.PlayedOut | game.py:305-346 | a played-out hand list is non-empty, all final, holds the player's cards and the cards drawn, and has split logs in a split round (the shape only; which strategy turns produced the hands is stated by `ReplayPlayedOut` and `PlayHands`) |
| Dealer.DealerPlay | game.py:158-163 | the dealer only appends cards from the end of the shoe; every card is taken while the hand is below 17; it ends at 17 or more; it logs one hit per card plus one stand; it draws nothing at 17 or more; it fails only on an empty shoe, still below 17 |
| Dealer.DealerStopIsUnique | game.py:158-163 | drawing only below 17 and stopping at 17 or more fixes the dealer's cards: one such draw that is a prefix of another is that other |
| Records.Blank | game.py:369-386 | a fresh report carries the round's tag, the given fields and placeholder counts |
| Records.SettleHands | game.py:354-387 | one report per final hand, numbered 1..n, each settled against the dealer; the bust and natural flags come from the hand's cards, which are copied with the log and the stake |
| Records.Fill | game.py:394-398 | writing the counts sets the running count, the true count, the cards left, and the decks left derived from them |
| Records.FillKeepsReport | game.py:394-398 | writing the counts changes nothing but the counts |
| Records.FillAll | game.py:394-398 | every report of the slice gets the counts written in |
| Records.TailStart | game.py:394 | the slice of the last n reports starts n from the end, or at 0 when n is 0 or larger than the list |
| Records.Backfill | game.py:393-398 | the last n reports get the counts written in and the others are unchanged |
| Simulation.DealerNaturalSettles | game.py:240-242 | a dealer natural settles as push against a player natural and as lose otherwise, as the general settlement rule would |
| Simulation.PlayerNaturalSettles | game.py:273-282 | a player natural against a dealer without one settles as a win |
| Simulation.Draw | game.py:234-235 | drawing takes the last card of the shoe, or fails on an empty shoe |
| Simulation.DealInitial | game.py:233-237 | the opening deal fails exactly when fewer than four cards are left, and then it has emptied the shoe; otherwise it gives exactly the four cards taken off the end of the shoe; either way the cards it returns are those taken |
| Simulation.SeenSplit | game.py:237 | the player's and dealer's cards together are the cards seen in the round |
| Simulation.SingleReport | game.py:239-302 | a single settled report on the opening deal, at the round's stake and without a double, reports the round: it holds exactly the four cards seen |
| Simulation.DealerNaturalReport | game.py:239-271 | a dealer natural gives one report with no actions, push against a player natural and lose otherwise, plays no player turn, and follows every round's reporting rules |
| Simulation.PlayerNaturalReport | game.py:273-302 | a lone player natural gives one won report logging a stand and flagged blackjack, plays no player turn, and follows every round's reporting rules |
| Simulation.PlayedOutReported | game.py:354-387 | after play, the reports are numbered, settled and staked, and hold exactly the cards seen together with the dealer's cards |
| Simulation.PlayedOutFollowsRules | game.py:304-352 | without a natural, the reported hands are exactly those the trace of strategy turns replays from the first two cards, the trace deals exactly the cards seen between the opening deal and the dealer's extra cards, those extra cards are the last cards seen, each taken while the dealer was below 17, and take the dealer to 17 or more, all hands are final, and an unsplit round is one turn of the strategy |
| Simulation.ReportsAreHands | game.py:354-387 | the hands read back from reports of final hands are those hands |
| Simulation.PlayerRanOut | game.py:304-346 | a hand loop cut short after the opening deal is a round cut short |
| Simulation.DealerRanOut | game.py:348-352 | a played-out hand loop followed by dealer draws, each taken below 17, that leave the dealer below 17 is a round cut short |
| Simulation.PlayOut | game.py:304-387 | playing the hands, then the dealer, then settling gives reports that follow the round's rules, including the trace of strategy turns that produced every hand, split or not; every card dealt, also on failure, comes off the end of the shoe; it fails only on an empty shoe, with the cards seen being a round cut short (the hand loop cut short, or played out with the dealer still below 17) |
| Simulation.PlayRound | game.py:233-387 | one round fails on a shoe of fewer than four cards; otherwise its reports follow the round's rules, with a natural playing no turn and every other round's hands replayed by the trace of strategy turns; `seen` is exactly the cards taken off the end of the shoe, also on failure, when they are a round cut short: fewer than four, or a rule-following round that calls for one more card |
| Simulation.StepOfRound | game.py:389-399 | a round played at the bet of its starting true count, with the counts advanced by its cards, is a step of the run |
| Simulation.ChainedAppend | game.py:220-399 | appending a step keeps the run chained and appends the round's filled reports to the results |
| Simulation.ChainedAt | game.py:220-399 | every round of a chained run is a step from the state the previous round left |
| Simulation.RoundReportsFilled | game.py:393-398 | a round's filled reports carry its number, the run's label and mode, its starting true count, its end counts and its stake |
| Simulation.RunReports | game.py:393-398 | every report of a run belongs to one of its rounds and carries exactly that round's end counts and bet |
| Simulation.ReportStake | game.py:228-231 | a report's undoubled stake is the base bet in fixed mode and on the ramp in count mode |
| Simulation.RunStakes | game.py:228-231 | every stake of a run, halved if doubled, is the base bet in fixed mode and between 1x and 5x the base in count mode |
| Simulation.CountsSinceLoad | game.py:222-226 | given each round's count step, the running count is the Hi-Lo sum of all cards since the last reload, and the cards left plus those cards make a full load, both in number and rank by rank |
| Simulation.RunCounts | game.py:389-392 | at the end of every round the running count is the Hi-Lo sum of every card seen since the last reload; the cards left and those cards make a full load, in number and rank by rank, so no rank was seen more than 4·decks times since the reload; the true count is the running count per deck left |
| Simulation.BackfillRound | game.py:394-398 | backfilling the last round's reports leaves the earlier results and appends the filled reports |
| Simulation.ReloadIfLow | game.py:222-226 | when at most a quarter of the last load is left the shoe is reloaded with a full load and the running and true counts restart at 0; otherwise the shoe, its order, its load size and the counts are left exactly as they were; either way the shoe then holds the cards the round starts from, in number and rank by rank |
| Simulation.NextRound | game.py:221-399 | one pass of the round loop (reshuffle check, bet, round, count update, backfill) is a step of the run and appends that round's filled reports; a round fails only after taking every card the shoe held when it started, as a round cut short at the round's stake, and a shoe of no decks always fails |
| Simulation.Advance | game.py:220-399 | one more round extends the logs; on success the run stays chained and the results are all rounds' filled reports; on failure the new round took every card the shoe held when it started and is a round cut short |
| Simulation.SimulateRounds | game.py:196-399 | the results are exactly the filled reports of `rounds` chained rounds, starting from a full shoe and zero counts; a shoe of no decks is an error; an error comes only after fewer than `rounds` chained rounds, from a round that took every card the shoe held when it started and that is cut short: its cards are a prefix of a round following the rules that calls for one more card |

## Left out

- The pseudo-random shuffle and its seed (game.py:60, 72, 213) are not modelled as such. `Shoe.Reshuffle` chooses any order of the loaded cards, so every property holds for every shuffle.
- `random_strategy` (strategies.py:30-33) is not modelled, because its answer is random.
- The rounding of reported counts to three decimals (game.py:255, 265-268, 287, 296-299, 381, 395-398) is a display detail and is not modelled. Reports carry exact counts, and the true count is an exact `real`.
- Stakes are exact reals here. The code computes them in floating point: the ramp's `float(base * mult)` (game.py:193), the stake of each round (game.py:229) and the doubling `current.bet *= 2.0` (game.py:321). So a base of 0.1 at multiplier 3 is reported as 0.30000000000000004 by the code and as 0.3 here. Float rounding of stakes is not modelled.
- The running count is a float in the code but only ever holds sums of +1, 0 and -1. It is an `int` here.
- `bet_mode` is free text in the code: "fixed" is `Fixed` and every other text is `CountScaled`. `strategy_name` is a label copied into reports. The result strings and move strings are datatypes; an unknown move string is `Other(name)`, where `name` is none of "hit", "stand", "double" and "split"; the type leaves that convention to whoever builds the value, since the four known moves have constructors of their own.
- `_bet_from_true_count` is used with its default multiplier 5 (`MaxMultiplier`); the function itself takes any multiplier. The default base of 10 is not used by the engine, which passes the run's base bet.
- An empty shoe makes the code's `pop` raise. Here it is `Err(EmptyShoe)`, which ends the run with that error and without the reports gathered so far. This happens for a shoe of no decks, and for a round that needs more cards than are left.
- SimulateRounds: does not promise success for any shoe of one or more decks. Re-splitting pairs makes the cards one round may need unbounded, so the model states only what a failure means (a round cut short after taking every card left).
- Hands, the hand list and reports are values here. The code mutates `HandState` objects and list entries in place, but no alias of them is observable: reports copy the card and move lists.
- The FastAPI service, its schemas, the database models and configuration (app.py, schemas.py, api/) are not part of this model.
- Default arguments (six decks) and the unused generator at game.py:213 are not modelled.
