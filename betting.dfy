/** Settlement of a hand against the dealer and bet sizing from the true
    count (game.py:166-193, 228-231). */
module Betting {

  datatype Outcome = Win | Lose | Push

  /** +1 if the player wins, 0 on a push, -1 if the player loses. */
  function Settle(playerValue: int, dealerValue: int): (r: int)
    ensures r in {-1, 0, 1}
    ensures playerValue > 21 ==> r == -1
    ensures playerValue <= 21 && dealerValue > 21 ==> r == 1
    ensures playerValue <= 21 && dealerValue <= 21 ==>
      (r == 0 <==> playerValue == dealerValue) && (r == 1 <==> playerValue > dealerValue)
  {
    if playerValue > 21 then -1
    else if dealerValue > 21 then 1
    else if playerValue > dealerValue then 1
    else if playerValue < dealerValue then -1
    else 0
  }

  /** With neither side bust, swapping the two totals flips the result. */
  lemma SettleAntisymmetric(a: int, b: int)
    requires a <= 21 && b <= 21
    ensures Settle(a, b) == -Settle(b, a)
  {
  }

  /** The result label recorded for a settlement value. */
  function OutcomeOf(s: int): (o: Outcome)
    ensures o == Push <==> s == 0
    ensures o == Win <==> s > 0
    ensures o == Lose <==> s < 0
  {
    if s == 0 then Push else if s > 0 then Win else Lose
  }

  /** "fixed" stakes the base bet every round; any other mode scales it. */
  datatype BetMode = Fixed | CountScaled

  function Min(a: int, b: int): (m: int)
  {
    if a <= b then a else b
  }

  /** The ramp's multiplier: 1 at a non-positive true count, otherwise 1
      plus the whole part of the count, capped at `maxMult`. */
  function Multiplier(tc: real, maxMult: int): (m: int)
    ensures maxMult >= 1 ==> 1 <= m <= maxMult
  {
    if tc <= 0.0 then 1 else Min(maxMult, 1 + tc.Floor)
  }

  /** The ramp: the base bet at a non-positive true count, otherwise the base
      times 1 plus the whole part of the count, capped at `maxMult`. */
  function BetFromTrueCount(tc: real, base: real, maxMult: int): (bet: real)
    ensures tc <= 0.0 ==> bet == base
    ensures tc > 0.0 ==> bet == base * Min(maxMult, 1 + tc.Floor) as real
  {
    base * Multiplier(tc, maxMult) as real
  }

  /** The multiplier used by the round driver. */
  const MaxMultiplier: int := 5

  /** The stake of a round: the base bet in fixed mode, the ramp otherwise. */
  function RoundBet(mode: BetMode, trueCountPrev: real, base: real): (bet: real)
    ensures mode == Fixed ==> bet == base
    ensures mode == CountScaled ==> bet == BetFromTrueCount(trueCountPrev, base, MaxMultiplier)
  {
    if mode == Fixed then base else BetFromTrueCount(trueCountPrev, base, MaxMultiplier)
  }

  /** Scaling by a non-negative base keeps the order of the multipliers. */
  lemma ScaleMonotone(base: real, a: int, b: int)
    requires base >= 0.0 && a <= b
    ensures base * a as real <= base * b as real
  {
    assert base * b as real - base * a as real == base * (b - a) as real;
  }

  /** A scaled bet lies between the base bet and `maxMult` times it. */
  lemma BetWithinRamp(tc: real, base: real, maxMult: int)
    requires base >= 0.0 && maxMult >= 1
    ensures base <= BetFromTrueCount(tc, base, maxMult) <= base * maxMult as real
  {
    ScaleMonotone(base, 1, Multiplier(tc, maxMult));
    ScaleMonotone(base, Multiplier(tc, maxMult), maxMult);
  }

  /** A higher true count never gives a lower multiplier. */
  lemma MultiplierMonotone(tc1: real, tc2: real, maxMult: int)
    requires tc1 <= tc2 && maxMult >= 1
    ensures Multiplier(tc1, maxMult) <= Multiplier(tc2, maxMult)
  {
    assert tc1.Floor as real <= tc1 <= tc2 < tc2.Floor as real + 1.0;
  }

  /** A higher true count never lowers the bet. */
  lemma BetMonotone(tc1: real, tc2: real, base: real, maxMult: int)
    requires tc1 <= tc2 && base >= 0.0 && maxMult >= 1
    ensures BetFromTrueCount(tc1, base, maxMult) <= BetFromTrueCount(tc2, base, maxMult)
  {
    MultiplierMonotone(tc1, tc2, maxMult);
    ScaleMonotone(base, Multiplier(tc1, maxMult), Multiplier(tc2, maxMult));
  }

  /** The ramp's points: 2x at a count of 1, 5x at 4, capped at 5x beyond. */
  lemma BetRampPoints()
    ensures BetFromTrueCount(0.0, 10.0, 5) == 10.0
    ensures BetFromTrueCount(0.5, 10.0, 5) == 10.0
    ensures BetFromTrueCount(1.0, 10.0, 5) == 20.0
    ensures BetFromTrueCount(2.9, 10.0, 5) == 30.0
    ensures BetFromTrueCount(4.0, 10.0, 5) == 50.0
    ensures BetFromTrueCount(10.0, 10.0, 5) == 50.0
    ensures BetFromTrueCount(-3.0, 10.0, 5) == 10.0
  {
    assert (0.5).Floor == 0;
    assert (2.9).Floor == 2;
  }
}
