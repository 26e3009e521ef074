/** The two numbers of the wager: the entry fee and the score-to-earnings rule. */
module Rules {

  /** The entry fee in rupees, charged by the bet page. */
  const EntryFee: int := 50

  /** Earnings in rupees for a final score: `Math.floor(score / 10)`.
      Dafny's `/` with a positive divisor rounds towards minus infinity, as `Math.floor` does. */
  function Earnings(score: int): (e: int)
    ensures 10 * e <= score < 10 * e + 10
    ensures score >= 0 ==> e >= 0
  {
    score / 10
  }

  /** The floor is the only whole number with that property, and it never goes down as the score goes up. */
  lemma EarningsUnique(score: int, e: int)
    requires 10 * e <= score < 10 * e + 10
    ensures e == Earnings(score)
  {
  }

  lemma EarningsMonotone(a: int, b: int)
    requires a <= b
    ensures Earnings(a) <= Earnings(b)
  {
  }

  /** The worked values of the payout table. */
  lemma EarningsExamples()
    ensures Earnings(0) == 0 && Earnings(9) == 0 && Earnings(10) == 1
    ensures Earnings(450) == 45 && Earnings(455) == 45
  {
  }
}
