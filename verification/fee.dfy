/** The house fee of lib/fee.ts.

    The fee is a whole number of basis points of the bet, rounded down, and
    the payout after the fee is what remains of the bet.  All amounts are in
    the smallest monetary unit.  The rate, which the source reads from the
    environment, is an explicit argument here; it is an `int` because nothing
    in the source keeps a configured rate inside [0, 10000], and the facts
    that need the rate in that range say so.  The source computes in
    IEEE doubles; the exact integers here agree with it while the bet times
    the rate stays at most 2^53. */
module Fee {

  /** The rate used when none is configured: 150 basis points, i.e. 1.50%. */
  const DefaultFeeBasisPoints: int := 150

  /** Basis points in a whole: a rate of 10000 takes the entire bet. */
  const BasisPointsPerWhole: int := 10000

  datatype FeeQuote = FeeQuote(fee: int, payoutAfterFee: int)

  /** True when `f` is the floor of `betAmount * feeBasisPoints / 10000`. */
  predicate IsFloorFee(betAmount: nat, feeBasisPoints: int, f: int)
  {
    f * BasisPointsPerWhole <= betAmount * feeBasisPoints < (f + 1) * BasisPointsPerWhole
  }

  /** `calculateFee`: the fee is rounded down and the fee and the payout add
      up to the bet exactly. */
  function CalculateFee(betAmount: nat, feeBasisPoints: int): (q: FeeQuote)
    ensures IsFloorFee(betAmount, feeBasisPoints, q.fee)
    ensures q.fee + q.payoutAfterFee == betAmount
  {
    var fee := betAmount * feeBasisPoints / BasisPointsPerWhole;
    FeeQuote(fee, betAmount - fee)
  }

  /** `calculateFee` with the rate the source uses when none is configured. */
  function CalculateDefaultFee(betAmount: nat): (q: FeeQuote)
    ensures IsFloorFee(betAmount, DefaultFeeBasisPoints, q.fee)
    ensures q.fee + q.payoutAfterFee == betAmount
  {
    CalculateFee(betAmount, DefaultFeeBasisPoints)
  }

  /** The floor is unique: any `f` with the floor property is the fee. */
  lemma FloorFeeUnique(betAmount: nat, feeBasisPoints: int, f: int)
    requires IsFloorFee(betAmount, feeBasisPoints, f)
    ensures CalculateFee(betAmount, feeBasisPoints).fee == f
  {
  }

  /** With a rate in [0, 10000] the fee is between 0 and the bet, so the
      payout is never negative and never exceeds the bet. */
  lemma FeeBounds(betAmount: nat, feeBasisPoints: int)
    requires 0 <= feeBasisPoints <= BasisPointsPerWhole
    ensures 0 <= CalculateFee(betAmount, feeBasisPoints).fee <= betAmount
    ensures 0 <= CalculateFee(betAmount, feeBasisPoints).payoutAfterFee <= betAmount
  {
  }

  /** A larger bet never pays a smaller fee (for a non-negative rate). */
  lemma FeeMonotoneInBet(smaller: nat, larger: nat, feeBasisPoints: int)
    requires smaller <= larger
    requires 0 <= feeBasisPoints
    ensures CalculateFee(smaller, feeBasisPoints).fee <= CalculateFee(larger, feeBasisPoints).fee
  {
  }

  /** A larger bet never yields a smaller payout (for a rate in [0, 10000]). */
  lemma PayoutMonotoneInBet(smaller: nat, larger: nat, feeBasisPoints: int)
    requires smaller <= larger
    requires 0 <= feeBasisPoints <= BasisPointsPerWhole
    ensures CalculateFee(smaller, feeBasisPoints).payoutAfterFee
         <= CalculateFee(larger, feeBasisPoints).payoutAfterFee
  {
  }

  /** A higher rate never yields a smaller fee on the same bet. */
  lemma FeeMonotoneInRate(betAmount: nat, lower: int, higher: int)
    requires lower <= higher
    ensures CalculateFee(betAmount, lower).fee <= CalculateFee(betAmount, higher).fee
  {
  }

  /** A zero rate charges nothing and pays the whole bet. */
  lemma ZeroRateChargesNothing(betAmount: nat)
    ensures CalculateFee(betAmount, 0) == FeeQuote(0, betAmount)
  {
  }

  /** A full rate of 10000 takes the whole bet and pays nothing. */
  lemma FullRateTakesEverything(betAmount: nat)
    ensures CalculateFee(betAmount, BasisPointsPerWhole) == FeeQuote(betAmount, 0)
  {
  }

  /** For a non-negative rate the fee is waived exactly when the bet times the
      rate is below one whole. */
  lemma FeeWaivedIff(betAmount: nat, feeBasisPoints: int)
    requires 0 <= feeBasisPoints
    ensures CalculateFee(betAmount, feeBasisPoints).fee == 0
        <==> betAmount * feeBasisPoints < BasisPointsPerWhole
  {
  }

  /** At the default rate, bets of up to 66 units pay no fee and every larger
      bet pays one. */
  lemma DefaultFeeWaivedIff(betAmount: nat)
    ensures CalculateDefaultFee(betAmount).fee == 0 <==> betAmount <= 66
  {
  }

  /** The two worked examples of the default rate. */
  lemma DefaultFeeExamples()
    ensures CalculateDefaultFee(1000) == FeeQuote(15, 985)
    ensures CalculateDefaultFee(7) == FeeQuote(0, 7)
  {
  }

  /** On a positive bet, a rate below 10000 always leaves part of the bet
      as payout. */
  lemma FeeBelowBet(betAmount: nat, feeBasisPoints: int)
    requires betAmount > 0
    requires 0 <= feeBasisPoints < BasisPointsPerWhole
    ensures CalculateFee(betAmount, feeBasisPoints).fee < betAmount
    ensures CalculateFee(betAmount, feeBasisPoints).payoutAfterFee > 0
  {
    var fee := CalculateFee(betAmount, feeBasisPoints).fee;
    assert betAmount * feeBasisPoints < betAmount * BasisPointsPerWhole;
    assert fee * BasisPointsPerWhole < betAmount * BasisPointsPerWhole;
  }
}
