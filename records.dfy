/** The per-hand report of a round (game.py:133-155) and the two steps that
    fill reports in: settling each final hand against the dealer
    (game.py:354-387) and writing the round's counts into the reports of
    that round once it is over (game.py:389-398). */
module Records {
  import opened Cards
  import opened Hands
  import opened Betting
  import opened ShoeModel

  /** One hand's report. The four count fields hold placeholders until the
      round is over. */
  datatype RoundResult = RoundResult(
    roundId: nat,
    handNumber: nat,
    playerCards: seq<Rank>,
    dealerCards: seq<Rank>,
    actions: seq<Action>,
    betAmount: real,
    finalResult: Outcome,
    blackjack: bool,
    busted: bool,
    strategyUsed: string,
    betMode: BetMode,
    trueCountPrevRound: real,
    runningCountEnd: int,
    trueCountEnd: real,
    cardsRemaining: nat,
    decksRemaining: real)

  /** What every report of one round shares before its counts are known. */
  datatype RoundTag = RoundTag(roundId: nat, strategyUsed: string, betMode: BetMode, trueCountPrev: real)

  /** The counts at the end of a round: the running Hi-Lo count, the true
      count, the number of cards left in the shoe and those cards' ranks. */
  datatype Tally = Tally(running: int, trueCount: real, remaining: nat, inShoe: multiset<Rank>)

  predicate Tagged(rec: RoundResult, tag: RoundTag, handNumber: nat)
  {
    rec.roundId == tag.roundId && rec.handNumber == handNumber &&
    rec.strategyUsed == tag.strategyUsed && rec.betMode == tag.betMode &&
    rec.trueCountPrevRound == tag.trueCountPrev
  }

  /** The count fields still hold their placeholders. */
  predicate Unfilled(rec: RoundResult)
  {
    rec.runningCountEnd == 0 && rec.trueCountEnd == 0.0 && rec.cardsRemaining == 0 && rec.decksRemaining == 0.0
  }

  /** The result, the bust flag and the natural flag agree with the cards. */
  predicate Settled(rec: RoundResult)
  {
    rec.finalResult == OutcomeOf(Settle(HandValue(rec.playerCards), HandValue(rec.dealerCards))) &&
    rec.busted == (HandValue(rec.playerCards) > 21) &&
    rec.blackjack == IsBlackjack(rec.playerCards)
  }

  /** A report with its count fields left at their placeholders. */
  function Blank(tag: RoundTag, handNumber: nat, player: seq<Rank>, dealer: seq<Rank>, actions: seq<Action>,
                 bet: real, result: Outcome, blackjack: bool, busted: bool): (rec: RoundResult)
    ensures Tagged(rec, tag, handNumber) && Unfilled(rec)
    ensures rec.playerCards == player && rec.dealerCards == dealer && rec.actions == actions
    ensures rec.betAmount == bet && rec.finalResult == result
    ensures rec.blackjack == blackjack && rec.busted == busted
  {
    RoundResult(tag.roundId, handNumber, player, dealer, actions, bet, result, blackjack, busted,
                tag.strategyUsed, tag.betMode, tag.trueCountPrev, 0, 0.0, 0, 0.0)
  }

  /** One report per final hand, numbered from 1, each settled against the
      dealer's cards and carrying the hand's cards, log and stake. */
  method SettleHands(tag: RoundTag, hands: seq<HandState>, dealer: seq<Rank>) returns (records: seq<RoundResult>)
    ensures |records| == |hands|
    ensures forall k | 0 <= k < |hands| ::
      Tagged(records[k], tag, k + 1) && Unfilled(records[k]) && Settled(records[k]) &&
      records[k].playerCards == hands[k].cards && records[k].dealerCards == dealer &&
      records[k].actions == hands[k].actions && records[k].betAmount == hands[k].bet
  {
    records := [];
    var handCounter := 0;
    for k := 0 to |hands|
      invariant handCounter == k == |records|
      invariant forall j | 0 <= j < k ::
        Tagged(records[j], tag, j + 1) && Unfilled(records[j]) && Settled(records[j]) &&
        records[j].playerCards == hands[j].cards && records[j].dealerCards == dealer &&
        records[j].actions == hands[j].actions && records[j].betAmount == hands[j].bet
    {
      var h := hands[k];
      handCounter := handCounter + 1;
      var outcome := Settle(HandValue(h.cards), HandValue(dealer));
      var result := OutcomeOf(outcome);
      var busted := HandValue(h.cards) > 21;
      var blackjackFlag := IsBlackjack(h.cards);
      records := records + [Blank(tag, handCounter, h.cards, dealer, h.actions, h.bet, result, blackjackFlag, busted)];
    }
  }

  /** `rec` with the round's counts written in; the decks remaining are
      derived from the cards remaining. */
  function Fill(rec: RoundResult, t: Tally): (filled: RoundResult)
    ensures filled.runningCountEnd == t.running && filled.trueCountEnd == t.trueCount
    ensures filled.cardsRemaining == t.remaining && filled.decksRemaining == DecksFor(t.remaining)
  {
    rec.(runningCountEnd := t.running, trueCountEnd := t.trueCount,
         cardsRemaining := t.remaining, decksRemaining := DecksFor(t.remaining))
  }

  /** Writing the counts leaves everything but the counts as it was. */
  lemma FillKeepsReport(rec: RoundResult, t: Tally, tag: RoundTag, handNumber: nat)
    ensures Tagged(Fill(rec, t), tag, handNumber) == Tagged(rec, tag, handNumber)
    ensures Settled(Fill(rec, t)) == Settled(rec)
    ensures Fill(rec, t).playerCards == rec.playerCards && Fill(rec, t).dealerCards == rec.dealerCards
    ensures Fill(rec, t).actions == rec.actions && Fill(rec, t).betAmount == rec.betAmount
  {
  }

  function FillAll(records: seq<RoundResult>, t: Tally): (filled: seq<RoundResult>)
    ensures |filled| == |records|
    ensures forall k | 0 <= k < |records| :: filled[k] == Fill(records[k], t)
  {
    seq(|records|, k requires 0 <= k < |records| => Fill(records[k], t))
  }

  /** Where the slice of the last `n` elements of a list of length `len`
      starts: a count of 0, or one beyond the length, takes the whole list. */
  function TailStart(len: nat, n: nat): (start: nat)
    ensures start <= len
    ensures 0 < n <= len ==> len - start == n
    ensures n == 0 || n > len ==> start == 0
  {
    if n == 0 || n > len then 0 else len - n
  }

  /** Writes the counts into the last `n` reports and leaves the others. */
  method Backfill(results: seq<RoundResult>, n: nat, t: Tally) returns (filled: seq<RoundResult>)
    ensures |filled| == |results|
    ensures filled[..TailStart(|results|, n)] == results[..TailStart(|results|, n)]
    ensures filled[TailStart(|results|, n)..] == FillAll(results[TailStart(|results|, n)..], t)
  {
    var start := TailStart(|results|, n);
    filled := results;
    for k := start to |results|
      invariant |filled| == |results|
      invariant forall j | 0 <= j < |results| :: filled[j] == if start <= j < k then Fill(results[j], t) else results[j]
    {
      filled := filled[k := Fill(filled[k], t)];
    }
  }
}
