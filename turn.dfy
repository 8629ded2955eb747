/** The player's side of a round (game.py:303-346): each hand is played to
    its end by asking the strategy for a move, and a split replaces the hand
    in the list by its two halves, which are then played in turn. */
module PlayerTurn {
  import opened Cards
  import opened Sequences
  import opened Hands
  import opened ShoeModel
  import opened Strategies

  /** A decision policy: the hand being played and the dealer's up-card to a
      move. */
  type Strategy = (HandState, Rank) -> Action

  /** What the engine actually does with a requested move. */
  datatype Step = HitStep | StandStep | DoubleStep | SplitStep

  /** A double that is not allowed is played as a hit; a split that is not
      allowed, and any unknown move, as a stand. */
  function Classify(a: Action, hand: HandState): (s: Step)
    ensures s == HitStep <==> a == Hit || (a == Double && !CanDouble(hand.cards))
    ensures s == DoubleStep <==> a == Double && CanDouble(hand.cards)
    ensures s == SplitStep <==> a == Split && CanSplit(hand.cards)
    ensures s == StandStep <==> a == Stand || (a == Split && !CanSplit(hand.cards)) || a.Other?
  {
    if a == Hit || (a == Double && !CanDouble(hand.cards)) then HitStep
    else if a == Stand then StandStep
    else if a == Double && CanDouble(hand.cards) then DoubleStep
    else if a == Split && CanSplit(hand.cards) then SplitStep
    else StandStep
  }

  /** The step taken for a move the engine honours literally. */
  function Literal(a: Action): (s: Step)
  {
    match a
    case Hit => HitStep
    case Stand => StandStep
    case Double => DoubleStep
    case Split => SplitStep
    case Other(_) => StandStep
  }

  /** The basic strategy only asks for moves it may make, so the engine
      always does exactly what it asks. */
  lemma BasicStrategyHonoured(hand: HandState, up: Rank)
    ensures Classify(BasicStrategy(hand, up), hand) == Literal(BasicStrategy(hand, up))
  {
  }

  /** The simplest strategy never doubles or splits: the engine hits below 17
      and stands otherwise. */
  lemma SimplestStrategySteps(hand: HandState, up: Rank)
    ensures Classify(SimplestStrategy(hand, up), hand) == if HandValue(hand.cards) < 17 then HitStep else StandStep
  {
  }

  /** `hand` after being hit with `drawn`, in order. */
  function AfterHits(hand: HandState, drawn: seq<Rank>): (after: HandState)
  {
    hand.(cards := hand.cards + drawn, actions := hand.actions + Hits(|drawn|))
  }

  /** `hand` after a double: twice the stake, one more card, and the double
      and the stand that ends it in the log. */
  function DoubledDown(hand: HandState, card: Rank): (doubled: HandState)
  {
    hand.(bet := 2.0 * hand.bet, doubled := true, cards := hand.cards + [card],
          actions := hand.actions + [Double, Stand])
  }

  /** One half of a split: one card of the pair, the card dealt to it, the
      stake of the hand that was split, and a log holding the split. */
  function SplitHalf(card: Rank, dealt: Rank, bet: real): (half: HandState)
  {
    HandState([card, dealt], bet, [Split], false)
  }

  /** How a hand's turn ends: the finished hand, or the two halves of a
      split, still to be played. */
  datatype TurnEnd = Finished(hand: HandState) | SplitInto(left: HandState, right: HandState)

  /** The step the engine takes after the first `j` hits of `drawn`. */
  function StepAt(strategy: Strategy, up: Rank, hand: HandState, drawn: seq<Rank>, j: nat): (step: Step)
    requires j <= |drawn|
  {
    var cur := AfterHits(hand, drawn[..j]);
    Classify(strategy(cur, up), cur)
  }

  /** The first `k` cards of `drawn` were each taken by a hit, and none of
      them busted the hand. */
  ghost predicate HitsContinue(strategy: Strategy, up: Rank, hand: HandState, drawn: seq<Rank>, k: nat)
    requires k <= |drawn|
  {
    forall j | 0 <= j < k ::
      StepAt(strategy, up, hand, drawn, j) == HitStep && HandValue(hand.cards + drawn[..j + 1]) <= 21
  }

  /** `end` is how the turn of `hand` ends when the strategy is asked move
      after move and the cards dealt are `drawn`: a run of hits then a stand,
      a run of hits the last of which busts, a run of hits then a double on
      the last card, or a run of hits then a split whose halves get the last
      two cards, left first. */
  ghost predicate IsTurn(strategy: Strategy, up: Rank, hand: HandState, drawn: seq<Rank>, end: TurnEnd)
  {
    var n := |drawn|;
    match end
    case Finished(f) =>
      (HitsContinue(strategy, up, hand, drawn, n) && StepAt(strategy, up, hand, drawn, n) == StandStep &&
       f == AfterHits(hand, drawn).(actions := AfterHits(hand, drawn).actions + [Stand])) ||
      (n >= 1 && HitsContinue(strategy, up, hand, drawn, n - 1) &&
       StepAt(strategy, up, hand, drawn, n - 1) == HitStep &&
       HandValue(hand.cards + drawn) > 21 && f == AfterHits(hand, drawn)) ||
      (n >= 1 && HitsContinue(strategy, up, hand, drawn, n - 1) &&
       StepAt(strategy, up, hand, drawn, n - 1) == DoubleStep &&
       f == DoubledDown(AfterHits(hand, drawn[..n - 1]), drawn[n - 1]))
    case SplitInto(l, r) =>
      n >= 2 && HitsContinue(strategy, up, hand, drawn, n - 2) &&
      StepAt(strategy, up, hand, drawn, n - 2) == SplitStep &&
      var cur := AfterHits(hand, drawn[..n - 2]);
      l == SplitHalf(cur.cards[0], drawn[n - 2], cur.bet) &&
      r == SplitHalf(cur.cards[1], drawn[n - 1], cur.bet)
  }

  lemma StepAtPrefix(strategy: Strategy, up: Rank, hand: HandState, d: seq<Rank>, e: seq<Rank>, j: nat)
    requires j <= |d|
    ensures StepAt(strategy, up, hand, d + e, j) == StepAt(strategy, up, hand, d, j)
  {
    assert (d + e)[..j] == d[..j];
  }

  /** Dealing more cards does not change what happened before them. */
  lemma HitsContinueExtend(strategy: Strategy, up: Rank, hand: HandState, d: seq<Rank>, e: seq<Rank>, k: nat)
    requires k <= |d| && HitsContinue(strategy, up, hand, d, k)
    ensures HitsContinue(strategy, up, hand, d + e, k)
  {
    forall j | 0 <= j < k
      ensures StepAt(strategy, up, hand, d + e, j) == HitStep && HandValue(hand.cards + (d + e)[..j + 1]) <= 21
    {
      StepAtPrefix(strategy, up, hand, d, e, j);
      assert (d + e)[..j + 1] == d[..j + 1];
    }
  }

  /** One more hit on `hand` after `drawn`. */
  lemma AfterOneMoreHit(hand: HandState, drawn: seq<Rank>, c: Rank)
    ensures AfterHits(hand, drawn + [c]) ==
            AfterHits(hand, drawn).(cards := AfterHits(hand, drawn).cards + [c],
                                    actions := AfterHits(hand, drawn).actions + [Hit])
  {
    assert Hits(|drawn| + 1) == Hits(|drawn|) + [Hit];
  }

  /** A stand ends the turn with the stand logged. */
  lemma StandEnds(strategy: Strategy, up: Rank, hand: HandState, drawn: seq<Rank>, end: TurnEnd)
    requires HitsContinue(strategy, up, hand, drawn, |drawn|)
    requires StepAt(strategy, up, hand, drawn, |drawn|) == StandStep
    requires end == Finished(AfterHits(hand, drawn).(actions := AfterHits(hand, drawn).actions + [Stand]))
    ensures IsTurn(strategy, up, hand, drawn, end)
  {
  }

  /** A hit that keeps the hand at 21 or less lets the turn go on. */
  lemma HitContinues(strategy: Strategy, up: Rank, hand: HandState, drawn: seq<Rank>, c: Rank)
    requires HitsContinue(strategy, up, hand, drawn, |drawn|)
    requires StepAt(strategy, up, hand, drawn, |drawn|) == HitStep
    requires HandValue(hand.cards + drawn + [c]) <= 21
    ensures HitsContinue(strategy, up, hand, drawn + [c], |drawn| + 1)
  {
    HitsContinueExtend(strategy, up, hand, drawn, [c], |drawn|);
    StepAtPrefix(strategy, up, hand, drawn, [c], |drawn|);
    assert (drawn + [c])[..|drawn| + 1] == drawn + [c];
    assert hand.cards + drawn + [c] == hand.cards + (drawn + [c]);
  }

  /** A hit that takes the hand over 21 ends the turn. */
  lemma BustEnds(strategy: Strategy, up: Rank, hand: HandState, drawn: seq<Rank>, c: Rank, end: TurnEnd)
    requires HitsContinue(strategy, up, hand, drawn, |drawn|)
    requires StepAt(strategy, up, hand, drawn, |drawn|) == HitStep
    requires HandValue(hand.cards + drawn + [c]) > 21
    requires end == Finished(AfterHits(hand, drawn + [c]))
    ensures IsTurn(strategy, up, hand, drawn + [c], end)
  {
    HitsContinueExtend(strategy, up, hand, drawn, [c], |drawn|);
    StepAtPrefix(strategy, up, hand, drawn, [c], |drawn|);
    assert (drawn + [c])[..|drawn|] == drawn;
    assert hand.cards + drawn + [c] == hand.cards + (drawn + [c]);
  }

  /** A double takes one card and ends the turn. */
  lemma DoubleEnds(strategy: Strategy, up: Rank, hand: HandState, drawn: seq<Rank>, dealt: seq<Rank>, end: TurnEnd)
    requires HitsContinue(strategy, up, hand, drawn, |drawn|)
    requires StepAt(strategy, up, hand, drawn, |drawn|) == DoubleStep
    requires |dealt| == 1
    requires end == Finished(DoubledDown(AfterHits(hand, drawn), dealt[0]))
    ensures IsTurn(strategy, up, hand, drawn + dealt, end)
  {
    HitsContinueExtend(strategy, up, hand, drawn, dealt, |drawn|);
    StepAtPrefix(strategy, up, hand, drawn, dealt, |drawn|);
    assert (drawn + dealt)[..|drawn|] == drawn;
  }

  /** A split deals one card to each half, left first, and ends the turn. */
  lemma SplitEnds(strategy: Strategy, up: Rank, hand: HandState, drawn: seq<Rank>, dealt: seq<Rank>, end: TurnEnd)
    requires HitsContinue(strategy, up, hand, drawn, |drawn|)
    requires StepAt(strategy, up, hand, drawn, |drawn|) == SplitStep
    requires |dealt| == 2 && |AfterHits(hand, drawn).cards| == 2
    requires end == SplitInto(SplitHalf(AfterHits(hand, drawn).cards[0], dealt[0], AfterHits(hand, drawn).bet),
                              SplitHalf(AfterHits(hand, drawn).cards[1], dealt[1], AfterHits(hand, drawn).bet))
    ensures IsTurn(strategy, up, hand, drawn + dealt, end)
  {
    assert drawn[..|drawn|] == drawn;
    HitsContinueExtend(strategy, up, hand, drawn, dealt, |drawn|);
    StepAtPrefix(strategy, up, hand, drawn, dealt, |drawn|);
    assert (drawn + dealt)[..|drawn|] == drawn;
  }

  /** The turn of `hand` has dealt `drawn` and calls for one more card: the
      hits so far kept the hand at 21 or less and the next step is a hit, a
      double or a split, or a split has dealt its left card only. */
  ghost predicate NeedsCard(strategy: Strategy, up: Rank, hand: HandState, drawn: seq<Rank>)
  {
    (HitsContinue(strategy, up, hand, drawn, |drawn|) && StepAt(strategy, up, hand, drawn, |drawn|) != StandStep) ||
    (|drawn| >= 1 && HitsContinue(strategy, up, hand, drawn, |drawn| - 1) &&
     StepAt(strategy, up, hand, drawn, |drawn| - 1) == SplitStep)
  }

  /** A split that has dealt its left card still needs the right one. */
  lemma SplitNeedsSecond(strategy: Strategy, up: Rank, hand: HandState, drawn: seq<Rank>, c: Rank)
    requires HitsContinue(strategy, up, hand, drawn, |drawn|)
    requires StepAt(strategy, up, hand, drawn, |drawn|) == SplitStep
    ensures NeedsCard(strategy, up, hand, drawn + [c])
  {
    HitsContinueExtend(strategy, up, hand, drawn, [c], |drawn|);
    StepAtPrefix(strategy, up, hand, drawn, [c], |drawn|);
  }

  /** Each of the first `k` cards of a run of hits was a hit that kept the
      hand at 21 or less. */
  lemma HitAt(strategy: Strategy, up: Rank, hand: HandState, drawn: seq<Rank>, k: nat, j: nat)
    requires j < k <= |drawn| && HitsContinue(strategy, up, hand, drawn, k)
    ensures StepAt(strategy, up, hand, drawn, j) == HitStep && HandValue(hand.cards + drawn[..j + 1]) <= 21
  {
  }

  /** A hit, a double or a split after a run of hits calls for a card. */
  lemma MoveNeedsCard(strategy: Strategy, up: Rank, hand: HandState, drawn: seq<Rank>)
    requires HitsContinue(strategy, up, hand, drawn, |drawn|)
    requires StepAt(strategy, up, hand, drawn, |drawn|) != StandStep
    ensures NeedsCard(strategy, up, hand, drawn)
  {
  }

  /** A turn that has ended needs no further card: the cards of a finished
      turn are never those of a turn cut short. */
  lemma EndedNeedsNoCard(strategy: Strategy, up: Rank, hand: HandState, drawn: seq<Rank>, end: TurnEnd)
    requires IsTurn(strategy, up, hand, drawn, end)
    ensures !NeedsCard(strategy, up, hand, drawn)
  {
    match end {
      case Finished(f) => FinishedNeedsNoCard(strategy, up, hand, drawn, f);
      case SplitInto(l, r) => SplitNeedsNoCard(strategy, up, hand, drawn, l, r);
    }
  }

  lemma FinishedNeedsNoCard(strategy: Strategy, up: Rank, hand: HandState, drawn: seq<Rank>, f: HandState)
    requires IsTurn(strategy, up, hand, drawn, Finished(f))
    ensures !NeedsCard(strategy, up, hand, drawn)
  {
    var n := |drawn|;
    if n >= 1 && HitsContinue(strategy, up, hand, drawn, n) {
      HitAt(strategy, up, hand, drawn, n, n - 1);
      assert drawn[..n] == drawn;
    }
  }

  lemma SplitNeedsNoCard(strategy: Strategy, up: Rank, hand: HandState, drawn: seq<Rank>, l: HandState, r: HandState)
    requires IsTurn(strategy, up, hand, drawn, SplitInto(l, r))
    ensures !NeedsCard(strategy, up, hand, drawn)
  {
  }

  /** Doubles down on `current`: twice the stake, one card, then a stand. */
  method DoubleDown(current: HandState, shoe: Shoe) returns (res: Result<HandState>, dealt: seq<Rank>)
    requires shoe.Valid()
    modifies shoe`cards
    ensures shoe.Valid()
    ensures old(shoe.cards) == shoe.cards + Reversed(dealt)
    ensures res.Ok? ==> |dealt| == 1 && res.value == DoubledDown(current, dealt[0])
    ensures res.Err? ==> shoe.cards == [] && dealt == []
  {
    var hand := current.(bet := 2.0 * current.bet, doubled := true, actions := current.actions + [Double]);
    var card := shoe.Pop();
    if card.Err? {
      return Err(card.error), [];
    }
    TakeFromEnd(old(shoe.cards), shoe.cards, [], card.value);
    hand := hand.(cards := hand.cards + [card.value]);
    hand := hand.(actions := hand.actions + [Stand]);
    return Ok(hand), [card.value];
  }

  /** Splits the pair in `current` into two hands of one card each and deals
      one card to each, left first. */
  method SplitPair(current: HandState, shoe: Shoe) returns (res: Result<TurnEnd>, dealt: seq<Rank>)
    requires shoe.Valid()
    requires |current.cards| == 2
    modifies shoe`cards
    ensures shoe.Valid()
    ensures old(shoe.cards) == shoe.cards + Reversed(dealt)
    ensures res.Ok? ==> |dealt| == 2
    ensures res.Ok? ==> res.value == SplitInto(SplitHalf(current.cards[0], dealt[0], current.bet),
                                               SplitHalf(current.cards[1], dealt[1], current.bet))
    ensures res.Err? ==> shoe.cards == [] && |dealt| < 2
  {
    var left := HandState([current.cards[0]], current.bet, [Split], false);
    var right := HandState([current.cards[1]], current.bet, [Split], false);
    dealt := [];
    var c1 := shoe.Pop();
    if c1.Err? {
      return Err(c1.error), dealt;
    }
    TakeFromEnd(old(shoe.cards), shoe.cards, dealt, c1.value);
    dealt := dealt + [c1.value];
    left := left.(cards := left.cards + [c1.value]);
    var c2 := shoe.Pop();
    if c2.Err? {
      return Err(c2.error), dealt;
    }
    TakeFromEnd(old(shoe.cards), shoe.cards, dealt, c2.value);
    dealt := dealt + [c2.value];
    right := right.(cards := right.cards + [c2.value]);
    assert left == SplitHalf(current.cards[0], dealt[0], current.bet);
    assert right == SplitHalf(current.cards[1], dealt[1], current.bet);
    return Ok(SplitInto(left, right)), dealt;
  }

  /** Makes the move that ends a turn: a stand, a double or a split, after
      the hits in `drawn`; `dealt` lists the cards it deals. */
  method EndTurn(hand: HandState, up: Rank, strategy: Strategy, shoe: Shoe, drawn: seq<Rank>, step: Step)
    returns (res: Result<TurnEnd>, dealt: seq<Rank>)
    requires shoe.Valid()
    requires HitsContinue(strategy, up, hand, drawn, |drawn|)
    requires step == StepAt(strategy, up, hand, drawn, |drawn|) && step != HitStep
    modifies shoe`cards
    ensures shoe.Valid()
    ensures old(shoe.cards) == shoe.cards + Reversed(dealt)
    ensures res.Ok? ==> IsTurn(strategy, up, hand, drawn + dealt, res.value)
    ensures res.Err? ==> shoe.cards == [] && NeedsCard(strategy, up, hand, drawn + dealt)
  {
    var current := AfterHits(hand, drawn);
    assert drawn[..|drawn|] == drawn;
    if step == StandStep {
      current := current.(actions := current.actions + [Stand]);
      StandEnds(strategy, up, hand, drawn, Finished(current));
      assert drawn + [] == drawn;
      return Ok(Finished(current)), [];
    } else if step == DoubleStep {
      var doubled;
      doubled, dealt := DoubleDown(current, shoe);
      if doubled.Err? {
        MoveNeedsCard(strategy, up, hand, drawn);
        assert drawn + dealt == drawn;
        return Err(doubled.error), dealt;
      }
      DoubleEnds(strategy, up, hand, drawn, dealt, Finished(doubled.value));
      return Ok(Finished(doubled.value)), dealt;
    } else {
      var split;
      split, dealt := SplitPair(current, shoe);
      if split.Err? {
        if dealt == [] {
          MoveNeedsCard(strategy, up, hand, drawn);
          assert drawn + dealt == drawn;
        } else {
          SplitNeedsSecond(strategy, up, hand, drawn, dealt[0]);
          assert dealt == [dealt[0]];
        }
        return Err(split.error), dealt;
      }
      SplitEnds(strategy, up, hand, drawn, dealt, split.value);
      return Ok(split.value), dealt;
    }
  }

  /** Plays one hand until it stands, busts, doubles or splits. `drawn` lists
      the cards dealt during the turn, in the order dealt. */
  method PlayTurn(hand: HandState, up: Rank, strategy: Strategy, shoe: Shoe)
    returns (res: Result<TurnEnd>, drawn: seq<Rank>)
    requires shoe.Valid()
    modifies shoe`cards
    ensures shoe.Valid()
    ensures old(shoe.cards) == shoe.cards + Reversed(drawn)
    ensures res.Ok? ==> IsTurn(strategy, up, hand, drawn, res.value)
    ensures res.Err? ==> shoe.cards == [] && NeedsCard(strategy, up, hand, drawn)
  {
    var current := hand;
    drawn := [];
    assert AfterHits(hand, []) == hand;
    while true
      invariant shoe.Valid()
      invariant old(shoe.cards) == shoe.cards + Reversed(drawn)
      invariant current == AfterHits(hand, drawn)
      invariant HitsContinue(strategy, up, hand, drawn, |drawn|)
      decreases |shoe.cards|
    {
      var step := Classify(strategy(current, up), current);
      assert drawn[..|drawn|] == drawn;
      assert StepAt(strategy, up, hand, drawn, |drawn|) == step;
      if step != HitStep {
        ghost var mid := shoe.cards;
        var dealt;
        res, dealt := EndTurn(hand, up, strategy, shoe, drawn, step);
        TakeSeveralFromEnd(old(shoe.cards), mid, shoe.cards, drawn, dealt);
        return res, drawn + dealt;
      }
      var card := shoe.Pop();
      if card.Err? {
        MoveNeedsCard(strategy, up, hand, drawn);
        return Err(card.error), drawn;
      }
      TakeFromEnd(old(shoe.cards), shoe.cards, drawn, card.value);
      AfterOneMoreHit(hand, drawn, card.value);
      current := current.(cards := current.cards + [card.value], actions := current.actions + [Hit]);
      if HandValue(current.cards) > 21 {
        BustEnds(strategy, up, hand, drawn, card.value, Finished(current));
        return Ok(Finished(current)), drawn + [card.value];
      }
      HitContinues(strategy, up, hand, drawn, card.value);
      drawn := drawn + [card.value];
    }
  }

  /** A hand waiting to be played: two cards, the round's stake, not doubled,
      and a log that is empty or holds the split that made it. */
  predicate Pending(h: HandState, bet: real)
  {
    |h.cards| == 2 && h.bet == bet && !h.doubled && (h.actions == [] || h.actions == [Split])
  }

  /** A hand whose turn is over: it ended on a stand, or on a hit that took
      it over 21; it is marked doubled exactly when the log holds a double,
      and then its stake is twice the round's. */
  predicate FinalHand(h: HandState, bet: real)
  {
    |h.cards| >= 2 && h.actions != [] &&
    (Last(h.actions) == Stand || (Last(h.actions) == Hit && HandValue(h.cards) > 21)) &&
    h.doubled == (Double in h.actions) &&
    h.bet == (if h.doubled then 2.0 * bet else bet)
  }

  /** The hands a turn leaves in place of the one played. */
  function Replacement(end: TurnEnd): (hs: seq<HandState>)
    ensures end.Finished? ==> hs == [end.hand]
    ensures end.SplitInto? ==> hs == [end.left, end.right]
  {
    match end
    case Finished(f) => [f]
    case SplitInto(l, r) => [l, r]
  }

  /** The cards of each hand, hand by hand. */
  function HandCards(hands: seq<HandState>): (cs: seq<seq<Rank>>)
    ensures |cs| == |hands|
    ensures forall j | 0 <= j < |hands| :: cs[j] == hands[j].cards
  {
    seq(|hands|, j requires 0 <= j < |hands| => hands[j].cards)
  }

  lemma HandCardsAppend(a: seq<HandState>, b: seq<HandState>)
    ensures HandCards(a + b) == HandCards(a) + HandCards(b)
  {
  }

  /** The cards of three runs of hands, taken together. */
  lemma CardsOfThree(a: seq<HandState>, m: seq<HandState>, b: seq<HandState>)
    ensures Flatten(HandCards(a + m + b)) == Flatten(HandCards(a)) + Flatten(HandCards(m)) + Flatten(HandCards(b))
  {
    HandCardsAppend(a + m, b);
    HandCardsAppend(a, m);
    FlattenAppend(HandCards(a) + HandCards(m), HandCards(b));
    FlattenAppend(HandCards(a), HandCards(m));
  }

  /** Putting `repl` in place of hand `i` swaps the cards of hand `i` for the
      cards of `repl` in the pool of all cards held. */
  lemma ReplaceHand(hands: seq<HandState>, i: nat, repl: seq<HandState>)
    requires i < |hands|
    ensures multiset(Flatten(HandCards(hands[..i] + repl + hands[i + 1..]))) + multiset(hands[i].cards) ==
            multiset(Flatten(HandCards(hands))) + multiset(Flatten(HandCards(repl)))
  {
    var a, b := hands[..i], hands[i + 1..];
    assert hands == a + [hands[i]] + b;
    CardsOfThree(a, repl, b);
    CardsOfThree(a, [hands[i]], b);
    assert HandCards([hands[i]]) == [hands[i].cards];
    assert [hands[i].cards][..0] == [];
    assert Flatten(HandCards([hands[i]])) == hands[i].cards;
  }

  lemma HitsOnlyHits(n: nat)
    ensures Double !in Hits(n) && Stand !in Hits(n) && Split !in Hits(n)
  {
  }

  /** A pending hand that stands after some hits is final. */
  lemma StoodIsFinal(hand: HandState, drawn: seq<Rank>, f: HandState, bet: real)
    requires Pending(hand, bet)
    requires f == AfterHits(hand, drawn).(actions := AfterHits(hand, drawn).actions + [Stand])
    ensures FinalHand(f, bet)
    ensures |f.actions| > |hand.actions| && f.actions[..|hand.actions|] == hand.actions
  {
    HitsOnlyHits(|drawn|);
    assert f.actions == hand.actions + Hits(|drawn|) + [Stand];
    assert f.actions[..|hand.actions|] == hand.actions;
  }

  /** A pending hand that busts on a hit is final. */
  lemma BustIsFinal(hand: HandState, drawn: seq<Rank>, f: HandState, bet: real)
    requires Pending(hand, bet) && |drawn| >= 1
    requires HandValue(hand.cards + drawn) > 21 && f == AfterHits(hand, drawn)
    ensures FinalHand(f, bet)
    ensures |f.actions| > |hand.actions| && f.actions[..|hand.actions|] == hand.actions
  {
    HitsOnlyHits(|drawn|);
    assert Last(f.actions) == Hits(|drawn|)[|drawn| - 1] == Hit;
    assert f.actions[..|hand.actions|] == hand.actions;
  }

  /** A pending hand that doubles is final. */
  lemma DoubledIsFinal(hand: HandState, c: Rank, f: HandState, bet: real)
    requires Pending(hand, bet) && f == DoubledDown(hand, c)
    ensures FinalHand(f, bet)
    ensures |f.actions| > |hand.actions| && f.actions[..|hand.actions|] == hand.actions
  {
    assert f.actions[..|hand.actions|] == hand.actions;
  }

  /** A pending hand can double only before any hit. */
  lemma DoubleIsFirstMove(strategy: Strategy, up: Rank, hand: HandState, drawn: seq<Rank>, bet: real)
    requires Pending(hand, bet) && |drawn| >= 1
    requires StepAt(strategy, up, hand, drawn, |drawn| - 1) == DoubleStep
    ensures drawn == [drawn[0]] && AfterHits(hand, drawn[..|drawn| - 1]) == hand
  {
    assert |drawn| == 1;
    assert drawn[..0] == [];
    assert Hits(0) == [];
  }

  /** A pending hand can split only before any hit, and only a pair; the
      halves get the two cards dealt, left first. */
  lemma SplitIsFirstMove(strategy: Strategy, up: Rank, hand: HandState, drawn: seq<Rank>, l: HandState, r: HandState, bet: real)
    requires Pending(hand, bet) && IsTurn(strategy, up, hand, drawn, SplitInto(l, r))
    ensures |drawn| == 2 && CanSplit(hand.cards)
    ensures l == SplitHalf(hand.cards[0], drawn[0], bet) && r == SplitHalf(hand.cards[1], drawn[1], bet)
  {
    assert StepAt(strategy, up, hand, drawn, |drawn| - 2) == SplitStep;
    assert |drawn| == 2;
    assert drawn[..0] == [];
    assert Hits(0) == [];
    assert AfterHits(hand, drawn[..0]) == hand;
  }

  lemma SingleHandCards(f: HandState)
    ensures Flatten(HandCards([f])) == f.cards
  {
    assert HandCards([f]) == [f.cards];
    assert [f.cards][..0] == [];
  }

  lemma PairOfHandsCards(l: HandState, r: HandState)
    ensures Flatten(HandCards([l, r])) == l.cards + r.cards
  {
    var ss := [l.cards, r.cards];
    assert HandCards([l, r]) == ss;
    assert ss[..1] == [l.cards];
    assert Flatten(ss) == Flatten([l.cards]) + r.cards;
    assert [l.cards][..0] == [];
    assert Flatten([l.cards]) == l.cards;
  }

  /** A pending hand's turn that finishes keeps its cards and the start of
      its log, and leaves a final hand. */
  lemma FinishedTurnOfPending(strategy: Strategy, up: Rank, hand: HandState, drawn: seq<Rank>, f: HandState, bet: real)
    requires Pending(hand, bet) && IsTurn(strategy, up, hand, drawn, Finished(f))
    ensures f.cards == hand.cards + drawn && FinalHand(f, bet)
    ensures |f.actions| > |hand.actions| && f.actions[..|hand.actions|] == hand.actions
  {
    var n := |drawn|;
    if n >= 1 && HitsContinue(strategy, up, hand, drawn, n - 1) &&
       StepAt(strategy, up, hand, drawn, n - 1) == DoubleStep &&
       f == DoubledDown(AfterHits(hand, drawn[..n - 1]), drawn[n - 1]) {
      DoubleIsFirstMove(strategy, up, hand, drawn, bet);
      DoubledIsFinal(hand, drawn[0], f, bet);
    } else if f == AfterHits(hand, drawn).(actions := AfterHits(hand, drawn).actions + [Stand]) {
      StoodIsFinal(hand, drawn, f, bet);
    } else {
      BustIsFinal(hand, drawn, f, bet);
    }
  }

  /** The halves of a split pair are pending and hold the pair's cards and
      the two cards dealt. */
  lemma SplitHalvesPending(hand: HandState, drawn: seq<Rank>, l: HandState, r: HandState, bet: real)
    requires |drawn| == 2 && CanSplit(hand.cards)
    requires l == SplitHalf(hand.cards[0], drawn[0], bet) && r == SplitHalf(hand.cards[1], drawn[1], bet)
    ensures Pending(l, bet) && Pending(r, bet) && l.actions == [Split] && r.actions == [Split]
    ensures multiset(l.cards + r.cards) == multiset(hand.cards + drawn)
  {
    assert hand.cards == [hand.cards[0], hand.cards[1]];
    assert drawn == [drawn[0], drawn[1]];
  }

  /** The turn of a pending hand keeps its cards and the start of its log. A
      finished hand satisfies FinalHand. A split happens only on a pair, deals
      exactly two cards, and leaves two pending halves at the same stake. */
  lemma TurnOfPending(strategy: Strategy, up: Rank, hand: HandState, drawn: seq<Rank>, end: TurnEnd, bet: real)
    requires Pending(hand, bet) && IsTurn(strategy, up, hand, drawn, end)
    ensures multiset(Flatten(HandCards(Replacement(end)))) == multiset(hand.cards + drawn)
    ensures end.Finished? ==> end.hand.cards == hand.cards + drawn && FinalHand(end.hand, bet)
    ensures end.Finished? ==> |end.hand.actions| > |hand.actions| && end.hand.actions[..|hand.actions|] == hand.actions
    ensures end.SplitInto? ==> |drawn| == 2 && CanSplit(hand.cards) &&
                               Pending(end.left, bet) && Pending(end.right, bet) &&
                               end.left.actions == [Split] && end.right.actions == [Split]
  {
    match end
    case Finished(f) =>
      SingleHandCards(f);
      FinishedTurnOfPending(strategy, up, hand, drawn, f, bet);
    case SplitInto(l, r) =>
      PairOfHandsCards(l, r);
      SplitIsFirstMove(strategy, up, hand, drawn, l, r, bet);
      SplitHalvesPending(hand, drawn, l, r, bet);
  }

  /** The simplest strategy's step at any point of a turn. */
  lemma SimplestStep(up: Rank, hand: HandState, drawn: seq<Rank>, j: nat)
    requires j <= |drawn|
    ensures StepAt(SimplestStrategy, up, hand, drawn, j) ==
            if HandValue(hand.cards + drawn[..j]) < 17 then HitStep else StandStep
  {
    SimplestStrategySteps(AfterHits(hand, drawn[..j]), up);
  }

  /** Under the simplest strategy every card of a run of hits was taken below 17. */
  lemma SimplestHitsBelowSeventeen(up: Rank, hand: HandState, drawn: seq<Rank>, k: nat)
    requires k <= |drawn| && HitsContinue(SimplestStrategy, up, hand, drawn, k)
    ensures forall j | 0 <= j < k :: HandValue(hand.cards + drawn[..j]) < 17
  {
    forall j | 0 <= j < k
      ensures HandValue(hand.cards + drawn[..j]) < 17
    {
      SimplestStep(up, hand, drawn, j);
    }
  }

  /** A turn under the simplest strategy that ends on a stand. */
  lemma SimplestStandTurn(up: Rank, hand: HandState, drawn: seq<Rank>)
    requires HitsContinue(SimplestStrategy, up, hand, drawn, |drawn|)
    requires StepAt(SimplestStrategy, up, hand, drawn, |drawn|) == StandStep
    ensures HandValue(hand.cards + drawn) >= 17
    ensures forall j | 0 <= j < |drawn| :: HandValue(hand.cards + drawn[..j]) < 17
  {
    SimplestStep(up, hand, drawn, |drawn|);
    assert drawn[..|drawn|] == drawn;
    SimplestHitsBelowSeventeen(up, hand, drawn, |drawn|);
  }

  /** A turn under the simplest strategy that ends on a bust. */
  lemma SimplestBustTurn(up: Rank, hand: HandState, drawn: seq<Rank>)
    requires |drawn| >= 1 && HitsContinue(SimplestStrategy, up, hand, drawn, |drawn| - 1)
    requires StepAt(SimplestStrategy, up, hand, drawn, |drawn| - 1) == HitStep
    ensures forall j | 0 <= j < |drawn| :: HandValue(hand.cards + drawn[..j]) < 17
  {
    SimplestStep(up, hand, drawn, |drawn| - 1);
    SimplestHitsBelowSeventeen(up, hand, drawn, |drawn| - 1);
  }

  /** Under the simplest strategy a turn is the dealer's rule: every card is
      taken below 17, nothing is doubled or split, and the hand left is worth
      17 or more. */
  lemma SimplestTurnIsDealerRule(up: Rank, hand: HandState, drawn: seq<Rank>, end: TurnEnd)
    requires IsTurn(SimplestStrategy, up, hand, drawn, end)
    ensures end.Finished? && end.hand.cards == hand.cards + drawn
    ensures end.hand.bet == hand.bet && end.hand.doubled == hand.doubled
    ensures HandValue(end.hand.cards) >= 17
    ensures forall j | 0 <= j < |drawn| :: HandValue(hand.cards + drawn[..j]) < 17
  {
    var n := |drawn|;
    match end
    case SplitInto(l, r) =>
      assert false;
    case Finished(f) =>
      if HitsContinue(SimplestStrategy, up, hand, drawn, n) && StepAt(SimplestStrategy, up, hand, drawn, n) == StandStep {
        SimplestStandTurn(up, hand, drawn);
      } else {
        SimplestBustTurn(up, hand, drawn);
      }
  }

  /** The hands before `i` are final. */
  ghost predicate FinalBefore(hands: seq<HandState>, i: nat, bet: real)
  {
    i <= |hands| && forall j | 0 <= j < i :: FinalHand(hands[j], bet)
  }

  /** The hands from `i` on are pending. */
  ghost predicate PendingFrom(hands: seq<HandState>, i: nat, bet: real)
  {
    i <= |hands| && forall j | i <= j < |hands| :: Pending(hands[j], bet)
  }

  /** In a split round every hand's log starts with the split. */
  ghost predicate SplitLogged(hands: seq<HandState>)
  {
    |hands| > 1 ==> forall j | 0 <= j < |hands| :: hands[j].actions != [] && hands[j].actions[0] == Split
  }

  /** The state of the hand list while the player's hands are played: the
      hands before `i` are final, the rest are pending, together they hold the
      player's two cards and the cards dealt so far, and every hand of a
      split round starts its log with the split. */
  ghost predicate HandsSoFar(player: HandState, hands: seq<HandState>, i: nat, drawn: seq<Rank>)
  {
    1 <= |hands| &&
    multiset(Flatten(HandCards(hands))) == multiset(player.cards + drawn) &&
    FinalBefore(hands, i, player.bet) && PendingFrom(hands, i, player.bet) && SplitLogged(hands) &&
    (|hands| == 1 && i == 0 ==> hands == [player] && drawn == [])
  }

  lemma FinalBeforeAfterFinish(hands: seq<HandState>, i: nat, f: HandState, bet: real)
    requires FinalBefore(hands, i, bet) && i < |hands| && FinalHand(f, bet)
    ensures FinalBefore(hands[i := f], i + 1, bet)
  {
  }

  lemma PendingFromAfterFinish(hands: seq<HandState>, i: nat, f: HandState, bet: real)
    requires PendingFrom(hands, i, bet) && i < |hands|
    ensures PendingFrom(hands[i := f], i + 1, bet)
  {
  }

  lemma SplitLoggedAfterFinish(hands: seq<HandState>, i: nat, f: HandState, bet: real)
    requires SplitLogged(hands) && PendingFrom(hands, i, bet) && i < |hands|
    requires |f.actions| > |hands[i].actions| && f.actions[..|hands[i].actions|] == hands[i].actions
    ensures SplitLogged(hands[i := f])
  {
    if |hands| > 1 {
      assert hands[i].actions == [Split];
      assert f.actions[..1] == [Split];
    }
  }

  lemma FinalBeforeAfterSplit(hands: seq<HandState>, i: nat, l: HandState, r: HandState, bet: real)
    requires FinalBefore(hands, i, bet) && i < |hands|
    ensures FinalBefore(hands[..i] + [l, r] + hands[i + 1..], i, bet)
  {
    var next := hands[..i] + [l, r] + hands[i + 1..];
    assert forall j | 0 <= j < i :: next[j] == hands[j];
  }

  lemma PendingFromAfterSplit(hands: seq<HandState>, i: nat, l: HandState, r: HandState, bet: real)
    requires PendingFrom(hands, i, bet) && i < |hands| && Pending(l, bet) && Pending(r, bet)
    ensures PendingFrom(hands[..i] + [l, r] + hands[i + 1..], i, bet)
  {
    var next := hands[..i] + [l, r] + hands[i + 1..];
    assert next[i] == l && next[i + 1] == r;
    assert forall j | i + 2 <= j < |next| :: next[j] == hands[j - 1];
  }

  lemma SplitLoggedAfterSplit(hands: seq<HandState>, i: nat, l: HandState, r: HandState)
    requires SplitLogged(hands) && i < |hands| && l.actions == [Split] && r.actions == [Split]
    ensures SplitLogged(hands[..i] + [l, r] + hands[i + 1..])
  {
    var next := hands[..i] + [l, r] + hands[i + 1..];
    assert forall j | 0 <= j < i :: next[j] == hands[j];
    assert next[i] == l && next[i + 1] == r;
    assert forall j | i + 2 <= j < |next| :: next[j] == hands[j - 1];
  }

  /** Putting hands holding the cards of hand `i` plus `dealt` in its place
      adds `dealt` to the pool of all cards held. */
  lemma PoolAfterReplace(hands: seq<HandState>, i: nat, repl: seq<HandState>, pool: seq<Rank>, dealt: seq<Rank>)
    requires i < |hands|
    requires multiset(Flatten(HandCards(hands))) == multiset(pool)
    requires multiset(Flatten(HandCards(repl))) == multiset(hands[i].cards + dealt)
    ensures multiset(Flatten(HandCards(hands[..i] + repl + hands[i + 1..]))) == multiset(pool + dealt)
  {
    var next := multiset(Flatten(HandCards(hands[..i] + repl + hands[i + 1..])));
    var held := multiset(hands[i].cards);
    ReplaceHand(hands, i, repl);
    assert next + held == multiset(pool) + multiset(dealt) + held;
    assert forall x :: next[x] == (multiset(pool) + multiset(dealt))[x] by {
      forall x ensures next[x] == (multiset(pool) + multiset(dealt))[x] {
        assert (next + held)[x] == (multiset(pool) + multiset(dealt) + held)[x];
      }
    }
    assert next == multiset(pool) + multiset(dealt);
  }

  lemma UpdateIsSplice(hands: seq<HandState>, i: nat, f: HandState)
    requires i < |hands|
    ensures hands[..i] + [f] + hands[i + 1..] == hands[i := f]
  {
  }

  /** A finished turn of hand `i` keeps the hand list in shape. */
  lemma AdvanceFinished(strategy: Strategy, up: Rank, player: HandState, hands: seq<HandState>, i: nat, drawn: seq<Rank>, dealt: seq<Rank>, f: HandState)
    requires HandsSoFar(player, hands, i, drawn) && i < |hands|
    requires IsTurn(strategy, up, hands[i], dealt, Finished(f))
    ensures HandsSoFar(player, hands[i := f], i + 1, drawn + dealt)
  {
    FinishedTurnOfPending(strategy, up, hands[i], dealt, f, player.bet);
    SingleHandCards(f);
    PoolAfterReplace(hands, i, [f], player.cards + drawn, dealt);
    UpdateIsSplice(hands, i, f);
    assert player.cards + drawn + dealt == player.cards + (drawn + dealt);
    FinalBeforeAfterFinish(hands, i, f, player.bet);
    PendingFromAfterFinish(hands, i, f, player.bet);
    SplitLoggedAfterFinish(hands, i, f, player.bet);
  }

  /** Two pending halves holding the cards of hand `i` and two more cards
      keep the hand list in shape when they take its place. */
  lemma ReplaceBySplit(player: HandState, hands: seq<HandState>, i: nat, drawn: seq<Rank>, dealt: seq<Rank>,
                       l: HandState, r: HandState)
    requires HandsSoFar(player, hands, i, drawn) && i < |hands|
    requires multiset(l.cards + r.cards) == multiset(hands[i].cards + dealt)
    requires Pending(l, player.bet) && Pending(r, player.bet) && l.actions == [Split] && r.actions == [Split]
    ensures HandsSoFar(player, hands[..i] + [l, r] + hands[i + 1..], i, drawn + dealt)
  {
    PairOfHandsCards(l, r);
    PoolAfterReplace(hands, i, [l, r], player.cards + drawn, dealt);
    assert player.cards + drawn + dealt == player.cards + (drawn + dealt);
    FinalBeforeAfterSplit(hands, i, l, r, player.bet);
    PendingFromAfterSplit(hands, i, l, r, player.bet);
    SplitLoggedAfterSplit(hands, i, l, r);
  }

  /** A split of hand `i` keeps the hand list in shape. */
  lemma AdvanceSplit(strategy: Strategy, up: Rank, player: HandState, hands: seq<HandState>, i: nat,
                     drawn: seq<Rank>, dealt: seq<Rank>, l: HandState, r: HandState)
    requires HandsSoFar(player, hands, i, drawn) && i < |hands|
    requires IsTurn(strategy, up, hands[i], dealt, SplitInto(l, r))
    ensures |dealt| == 2
    ensures HandsSoFar(player, hands[..i] + [l, r] + hands[i + 1..], i, drawn + dealt)
  {
    assert Pending(hands[i], player.bet);
    SplitIsFirstMove(strategy, up, hands[i], dealt, l, r, player.bet);
    SplitHalvesPending(hands[i], dealt, l, r, player.bet);
    ReplaceBySplit(player, hands, i, drawn, dealt, l, r);
  }

  /** One turn of a round: the hand list before it, the index of the hand
      played, the cards dealt during the turn and how the turn ended. */
  datatype Turn = Turn(before: seq<HandState>, index: nat, dealt: seq<Rank>, end: TurnEnd)

  /** The hand list with hand `i` replaced by what its turn left. */
  function Splice(hands: seq<HandState>, i: nat, end: TurnEnd): (spliced: seq<HandState>)
    requires i < |hands|
  {
    hands[..i] + Replacement(end) + hands[i + 1..]
  }

  /** The next hand to play: the following one after a finished turn, the
      left half after a split. */
  function NextIndex(i: nat, end: TurnEnd): (next: nat)
  {
    if end.Finished? then i + 1 else i
  }

  /** `turns` replays the hand loop from the player's single hand to `hands`
      with `i` the next hand to play: each turn is the strategy's turn on the
      hand at its index, and its outcome takes that hand's place. */
  ghost predicate Replays(strategy: Strategy, up: Rank, player: HandState, turns: seq<Turn>,
                          hands: seq<HandState>, i: nat)
    decreases |turns|
  {
    if turns == [] then hands == [player] && i == 0
    else
      var t := turns[|turns| - 1];
      t.index < |t.before| &&
      Replays(strategy, up, player, turns[..|turns| - 1], t.before, t.index) &&
      IsTurn(strategy, up, t.before[t.index], t.dealt, t.end) &&
      hands == Splice(t.before, t.index, t.end) && i == NextIndex(t.index, t.end)
  }

  /** The cards dealt over `turns`, in the order dealt. */
  function DealtIn(turns: seq<Turn>): (dealt: seq<Rank>)
  {
    if turns == [] then [] else DealtIn(turns[..|turns| - 1]) + turns[|turns| - 1].dealt
  }

  /** One more turn, on the next hand to play, extends a replay. */
  lemma ReplaysStep(strategy: Strategy, up: Rank, player: HandState, turns: seq<Turn>,
                    hands: seq<HandState>, i: nat, t: Turn)
    requires Replays(strategy, up, player, turns, hands, i)
    requires t.before == hands && t.index == i && i < |hands|
    requires IsTurn(strategy, up, hands[i], t.dealt, t.end)
    ensures Replays(strategy, up, player, turns + [t], Splice(hands, i, t.end), NextIndex(i, t.end))
    ensures DealtIn(turns + [t]) == DealtIn(turns) + t.dealt
  {
    assert (turns + [t])[..|turns|] == turns;
  }

  /** A replay that comes back to the first hand of a single-hand list has
      not played any turn: a split always leaves two hands. */
  lemma ReplayAtStart(strategy: Strategy, up: Rank, player: HandState, turns: seq<Turn>, hands: seq<HandState>)
    requires Replays(strategy, up, player, turns, hands, 0) && |hands| == 1
    ensures turns == [] && hands == [player]
  {
  }

  /** A replay that ends with a single hand played out is one finished turn
      of the player's hand. */
  lemma ReplayUnsplit(strategy: Strategy, up: Rank, player: HandState, turns: seq<Turn>, hands: seq<HandState>, i: nat)
    requires Replays(strategy, up, player, turns, hands, i) && |hands| == 1 && i == 1
    ensures IsTurn(strategy, up, player, DealtIn(turns), Finished(hands[0]))
  {
    var init, t := turns[..|turns| - 1], turns[|turns| - 1];
    assert t.end.Finished? && |t.before| == 1 && t.index == 0;
    ReplayAtStart(strategy, up, player, init, t.before);
    assert DealtIn(turns) == DealtIn(init) + t.dealt == t.dealt;
  }

  /** Any replay of the hand loop from a fresh hand keeps the hand list in
      shape: the hands hold the player's cards and the cards dealt, the
      hands before `i` are final and the rest pending, and after a split
      every hand's log starts with it. */
  lemma {:induction false} ReplayKeepsShape(strategy: Strategy, up: Rank, player: HandState, turns: seq<Turn>,
                                            hands: seq<HandState>, i: nat)
    requires Pending(player, player.bet) && player.actions == []
    requires Replays(strategy, up, player, turns, hands, i)
    ensures HandsSoFar(player, hands, i, DealtIn(turns))
    decreases |turns|
  {
    if turns == [] {
      SingleHandCards(player);
    } else {
      var init, t := turns[..|turns| - 1], turns[|turns| - 1];
      ReplayKeepsShape(strategy, up, player, init, t.before, t.index);
      match t.end {
        case Finished(f) =>
          AdvanceFinished(strategy, up, player, t.before, t.index, DealtIn(init), t.dealt, f);
          UpdateIsSplice(t.before, t.index, f);
        case SplitInto(l, r) =>
          AdvanceSplit(strategy, up, player, t.before, t.index, DealtIn(init), t.dealt, l, r);
      }
    }
  }

  /** A replay that has played every hand leaves final hands holding the
      player's cards and the cards dealt, and without a split it is one
      finished turn of the player's hand. */
  lemma ReplayPlayedOut(strategy: Strategy, up: Rank, player: HandState, turns: seq<Turn>, hands: seq<HandState>)
    requires Pending(player, player.bet) && player.actions == []
    requires Replays(strategy, up, player, turns, hands, |hands|)
    ensures HandsSoFar(player, hands, |hands|, DealtIn(turns))
    ensures |hands| == 1 ==> IsTurn(strategy, up, player, DealtIn(turns), Finished(hands[0]))
  {
    ReplayKeepsShape(strategy, up, player, turns, hands, |hands|);
    if |hands| == 1 {
      ReplayUnsplit(strategy, up, player, turns, hands, |hands|);
    }
  }

  /** The hand list a trace leads to. */
  function ListAfter(player: HandState, turns: seq<Turn>): (hands: seq<HandState>)
  {
    if turns == [] then [player]
    else
      var t := turns[|turns| - 1];
      if t.index < |t.before| then Splice(t.before, t.index, t.end) else []
  }

  /** The next hand to play after a trace. */
  function IndexAfter(turns: seq<Turn>): (index: nat)
  {
    if turns == [] then 0 else NextIndex(turns[|turns| - 1].index, turns[|turns| - 1].end)
  }

  /** A replay ends on the hand list and the index its trace leads to. */
  lemma ReplaysEnd(strategy: Strategy, up: Rank, player: HandState, turns: seq<Turn>, hands: seq<HandState>, i: nat)
    requires Replays(strategy, up, player, turns, hands, i)
    ensures hands == ListAfter(player, turns) && i == IndexAfter(turns)
  {
  }

  /** `turns` replays the hand loop until every hand has been played. */
  ghost predicate PlayedThrough(strategy: Strategy, up: Rank, player: HandState, turns: seq<Turn>)
  {
    Replays(strategy, up, player, turns, ListAfter(player, turns), |ListAfter(player, turns)|)
  }

  /** The hand loop stopped for want of a card: `turns` replays it up to a
      hand still to be played, and `drawn` is the cards the trace dealt
      followed by those that hand's turn dealt before it called for one more. */
  ghost predicate CutShort(strategy: Strategy, up: Rank, player: HandState, turns: seq<Turn>, drawn: seq<Rank>)
  {
    var dealt, hands, i := DealtIn(turns), ListAfter(player, turns), IndexAfter(turns);
    Replays(strategy, up, player, turns, hands, i) && i < |hands| &&
    |dealt| <= |drawn| && drawn[..|dealt|] == dealt && NeedsCard(strategy, up, hands[i], drawn[|dealt|..])
  }

  /** A hand loop cut short has not played every hand. */
  lemma CutShortNotThrough(strategy: Strategy, up: Rank, player: HandState, turns: seq<Turn>, drawn: seq<Rank>)
    requires CutShort(strategy, up, player, turns, drawn)
    ensures !PlayedThrough(strategy, up, player, turns)
  {
  }

  /** A turn that calls for a card the shoe does not have cuts the hand loop
      short at that hand. */
  lemma CutShortHere(strategy: Strategy, up: Rank, player: HandState, turns: seq<Turn>,
                     hands: seq<HandState>, i: nat, partial: seq<Rank>)
    requires Replays(strategy, up, player, turns, hands, i) && i < |hands|
    requires NeedsCard(strategy, up, hands[i], partial)
    ensures CutShort(strategy, up, player, turns, DealtIn(turns) + partial)
  {
    ReplaysEnd(strategy, up, player, turns, hands, i);
    var drawn := DealtIn(turns) + partial;
    assert drawn[..|DealtIn(turns)|] == DealtIn(turns);
    assert drawn[|DealtIn(turns)|..] == partial;
  }

  /** Plays hand `i` and puts what its turn leaves in its place: the
      finished hand, moving on to the next one, or the two halves of a split,
      the left one to be played next. `dealt` lists the cards dealt and `end`
      is how the turn ended. */
  method PlayHandAt(player: HandState, up: Rank, strategy: Strategy, shoe: Shoe,
                    hands: seq<HandState>, i: nat, ghost turns: seq<Turn>, drawn: seq<Rank>)
    returns (res: Result<(seq<HandState>, nat)>, dealt: seq<Rank>, ghost end: TurnEnd)
    requires shoe.Valid()
    requires Pending(player, player.bet) && player.actions == []
    requires Replays(strategy, up, player, turns, hands, i) && drawn == DealtIn(turns) && i < |hands|
    modifies shoe`cards
    ensures shoe.Valid()
    ensures old(shoe.cards) == shoe.cards + Reversed(dealt)
    ensures res.Err? ==> shoe.cards == [] && NeedsCard(strategy, up, hands[i], dealt)
    ensures res.Ok? ==> IsTurn(strategy, up, hands[i], dealt, end)
    ensures res.Ok? ==> res.value == (Splice(hands, i, end), NextIndex(i, end))
    ensures res.Ok? ==> Replays(strategy, up, player, turns + [Turn(hands, i, dealt, end)], res.value.0, res.value.1)
    ensures res.Ok? ==> DealtIn(turns + [Turn(hands, i, dealt, end)]) == drawn + dealt
    ensures res.Ok? ==> HandsSoFar(player, res.value.0, res.value.1, drawn + dealt)
    ensures res.Ok? ==> (res.value.1 == i + 1 && |res.value.0| == |hands|) ||
                        (res.value.1 == i && |res.value.0| == |hands| + 1 && |dealt| == 2)
  {
    ReplayKeepsShape(strategy, up, player, turns, hands, i);
    var turn;
    turn, dealt := PlayTurn(hands[i], up, strategy, shoe);
    if turn.Err? {
      return Err(turn.error), dealt, Finished(hands[i]);
    }
    end := turn.value;
    match end {
      case Finished(f) =>
        AdvanceFinished(strategy, up, player, hands, i, drawn, dealt, f);
        UpdateIsSplice(hands, i, f);
      case SplitInto(l, r) =>
        AdvanceSplit(strategy, up, player, hands, i, drawn, dealt, l, r);
    }
    ReplaysStep(strategy, up, player, turns, hands, i, Turn(hands, i, dealt, end));
    res := Ok((Splice(hands, i, turn.value), NextIndex(i, turn.value)));
  }

  /** The hand loop: plays hand after hand until every hand is played.
      `drawn` lists the cards dealt, in the order dealt, and `turns` the turns
      played; on success they replay the loop to the final hand list. */
  method PlayAllHands(player: HandState, up: Rank, strategy: Strategy, shoe: Shoe)
    returns (res: Result<seq<HandState>>, drawn: seq<Rank>, ghost turns: seq<Turn>)
    requires shoe.Valid()
    requires Pending(player, player.bet) && player.actions == []
    modifies shoe`cards
    ensures shoe.Valid()
    ensures old(shoe.cards) == shoe.cards + Reversed(drawn)
    ensures res.Err? ==> shoe.cards == [] && CutShort(strategy, up, player, turns, drawn)
    ensures res.Ok? ==> Replays(strategy, up, player, turns, res.value, |res.value|) && drawn == DealtIn(turns)
  {
    var hands := [player];
    var i: nat := 0;
    drawn := [];
    turns := [];
    while i < |hands|
      invariant shoe.Valid()
      invariant old(shoe.cards) == shoe.cards + Reversed(drawn)
      invariant Replays(strategy, up, player, turns, hands, i) && drawn == DealtIn(turns)
      decreases |shoe.cards|, |hands| - i
    {
      ghost var mid := shoe.cards;
      var next, dealt, end := PlayHandAt(player, up, strategy, shoe, hands, i, turns, drawn);
      TakeSeveralFromEnd(old(shoe.cards), mid, shoe.cards, drawn, dealt);
      if next.Err? {
        CutShortHere(strategy, up, player, turns, hands, i, dealt);
        return Err(next.error), drawn + dealt, turns;
      }
      turns := turns + [Turn(hands, i, dealt, end)];
      hands, i := next.value.0, next.value.1;
      drawn := drawn + dealt;
    }
    return Ok(hands), drawn, turns;
  }

  /** Plays every hand of the player in turn; the halves of a split take the
      place of the split hand and are played next, left first. `drawn` lists
      all the cards dealt, in the order dealt, and `turns` the turns played:
      on success they replay the hand loop to the final hand list, dealing
      exactly `drawn`; the hands are then final and hold the player's cards
      and the cards dealt. When the round is not split, its one hand is the
      turn of the player's hand. */
  method PlayHands(player: HandState, up: Rank, strategy: Strategy, shoe: Shoe)
    returns (res: Result<seq<HandState>>, drawn: seq<Rank>, ghost turns: seq<Turn>)
    requires shoe.Valid()
    requires Pending(player, player.bet) && player.actions == []
    modifies shoe`cards
    ensures shoe.Valid()
    ensures old(shoe.cards) == shoe.cards + Reversed(drawn)
    ensures res.Err? ==> shoe.cards == [] && CutShort(strategy, up, player, turns, drawn)
    ensures res.Ok? ==> Replays(strategy, up, player, turns, res.value, |res.value|) && drawn == DealtIn(turns)
    ensures res.Ok? ==> HandsSoFar(player, res.value, |res.value|, drawn)
    ensures res.Ok? && |res.value| == 1 ==> IsTurn(strategy, up, player, drawn, Finished(res.value[0]))
  {
    res, drawn, turns := PlayAllHands(player, up, strategy, shoe);
    if res.Ok? {
      ReplayPlayedOut(strategy, up, player, turns, res.value);
    }
  }

  /** What a played-out hand list holds: final hands, together holding the
      player's two cards and every card dealt to them, and, in a split round,
      only hands whose log starts with the split. */
  lemma PlayedOut(player: HandState, hands: seq<HandState>, drawn: seq<Rank>)
    requires HandsSoFar(player, hands, |hands|, drawn)
    ensures |hands| >= 1
    ensures forall j | 0 <= j < |hands| :: FinalHand(hands[j], player.bet)
    ensures multiset(Flatten(HandCards(hands))) == multiset(player.cards + drawn)
    ensures |hands| > 1 ==> forall j | 0 <= j < |hands| :: hands[j].actions != [] && hands[j].actions[0] == Split
  {
  }
}
