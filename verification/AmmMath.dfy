// The constant-product arithmetic of src/math/amm_math.rs.
module AmmMath {
  import opened Results
  import opened Integers

  const BPS: int := 10_000

  function CalculateEffectiveInput(amountIn: u64, feeBps: u16): (r: Option<u128>)
    ensures r.Some? <==> feeBps <= BPS
    ensures r.Some? ==> r.value <= amountIn
    ensures r.Some? ==> r.value * BPS <= amountIn * (BPS - feeBps) < (r.value + 1) * BPS
  {
    var amount: u128 := amountIn;
    var feeFactor :- CheckedSubU128(BPS, feeBps);
    MulMono(amount, U64_MAX, feeFactor);
    MulMono(0, amount, feeFactor);
    var product :- CheckedMulU128(amount, feeFactor);
    MulMono(feeFactor, BPS, amount);
    CheckedDivU128(product, BPS)
  }

  // The error domain is exact: narrowing to u64 never fails, because the output
  // cannot exceed the output reserve.
  function CalculateSwapOutput(reserveIn: u64, reserveOut: u64, effectiveInput: u128): (r: Option<u64>)
    ensures r.Some? <==>
            && reserveOut * effectiveInput < U128_LIMIT
            && 0 < reserveIn + effectiveInput < U128_LIMIT
    ensures r.Some? ==> r.value <= reserveOut
    ensures r.Some? ==>
              r.value * (reserveIn + effectiveInput)
              <= reserveOut * effectiveInput
              < (r.value + 1) * (reserveIn + effectiveInput)
  {
    var rIn: u128 := reserveIn;
    var rOut: u128 := reserveOut;
    MulMono(0, rOut, effectiveInput);
    var numerator :- CheckedMulU128(rOut, effectiveInput);
    var denominator :- CheckedAddU128(rIn, effectiveInput);
    if denominator == 0 then None
    else
      var output :- CheckedDivU128(numerator, denominator);
      MulMono(effectiveInput, denominator, rOut);
      FloorLeast(output, rOut, rOut * effectiveInput, denominator);
      NarrowU64(output)
  }

  function VerifyKInvariant(inBefore: u64, outBefore: u64, inAfter: u64, outAfter: u64): (r: Option<bool>)
    ensures r == Some(inAfter * outAfter >= inBefore * outBefore)
  {
    MulMono(inBefore, U64_MAX, outBefore);
    MulMono(inAfter, U64_MAX, outAfter);
    MulMono(outBefore, U64_MAX, U64_MAX);
    MulMono(outAfter, U64_MAX, U64_MAX);
    MulMono(0, inBefore, outBefore);
    MulMono(0, inAfter, outAfter);
    var kBefore :- CheckedMulU128(inBefore, outBefore);
    var kAfter :- CheckedMulU128(inAfter, outAfter);
    Some(kAfter >= kBefore)
  }

  // On u64 inputs, the only ones the quote paths pass, nothing overflows.
  lemma SwapOutputTotalOnU64(reserveIn: u64, reserveOut: u64, effectiveInput: u64)
    ensures CalculateSwapOutput(reserveIn, reserveOut, effectiveInput).Some?
            <==> reserveIn + effectiveInput != 0
  {
    MulMono(effectiveInput, U64_MAX, reserveOut);
    MulMono(reserveOut, U64_MAX, U64_MAX);
  }

  // What the formula is for: of all payouts, the quoted one is the largest that
  // leaves the reserve product no smaller, even when only the post-fee input is
  // credited to the pool.
  lemma SwapOutputIsLargestKeepingK(reserveIn: u64, reserveOut: u64, effectiveInput: u128, payout: int)
    requires CalculateSwapOutput(reserveIn, reserveOut, effectiveInput).Some?
    ensures payout <= CalculateSwapOutput(reserveIn, reserveOut, effectiveInput).value
            <==> (reserveIn + effectiveInput) * (reserveOut - payout) >= reserveIn * reserveOut
  {
    LargestPayout(reserveIn, reserveOut, effectiveInput, payout);
    assert (reserveIn + effectiveInput) * (reserveOut - payout)
        == reserveIn * reserveOut + (reserveOut - payout) * effectiveInput - payout * reserveIn;
  }

  // The same comparison with the common product cancelled.
  lemma LargestPayout(reserveIn: u64, reserveOut: u64, effectiveInput: u128, payout: int)
    requires CalculateSwapOutput(reserveIn, reserveOut, effectiveInput).Some?
    ensures payout <= CalculateSwapOutput(reserveIn, reserveOut, effectiveInput).value
            <==> payout * reserveIn <= (reserveOut - payout) * effectiveInput
  {
    var out: int := CalculateSwapOutput(reserveIn, reserveOut, effectiveInput).value;
    var d: int := reserveIn + effectiveInput;
    assert (reserveOut - payout) * effectiveInput - payout * reserveIn
        == reserveOut * effectiveInput - payout * d;
    if payout <= out {
      MulMono(payout, out, d);
    } else {
      MulMono(out + 1, payout, d);
    }
  }

  // A positive input reserve is never drained of its partner.
  lemma SwapOutputBelowReserve(reserveIn: u64, reserveOut: u64, effectiveInput: u128)
    requires CalculateSwapOutput(reserveIn, reserveOut, effectiveInput).Some?
    requires 0 < reserveIn && 0 < reserveOut
    ensures CalculateSwapOutput(reserveIn, reserveOut, effectiveInput).value < reserveOut
  {
    SwapOutputIsLargestKeepingK(reserveIn, reserveOut, effectiveInput, reserveOut);
    MulMono(1, reserveIn, reserveOut);
  }

  lemma StillAffordable(v: int, in0: int, out0: int, e0: int, in1: int, out1: int, e1: int)
    requires 0 <= v <= out0 <= out1 && 0 <= in1 <= in0 && 0 <= e0 <= e1
    requires v * in0 <= (out0 - v) * e0
    ensures v * in1 <= (out1 - v) * e1
  {
    MulMono(in1, in0, v);
    MulMono(e0, e1, out0 - v);
    MulMono(out0 - v, out1 - v, e1);
  }

  // More input, a smaller input reserve or a larger output reserve never pays less.
  lemma SwapOutputMonotone(in0: u64, out0: u64, e0: u128, in1: u64, out1: u64, e1: u128)
    requires CalculateSwapOutput(in0, out0, e0).Some?
    requires CalculateSwapOutput(in1, out1, e1).Some?
    requires e0 <= e1 && in1 <= in0 && out0 <= out1
    ensures CalculateSwapOutput(in0, out0, e0).value <= CalculateSwapOutput(in1, out1, e1).value
  {
    var v: int := CalculateSwapOutput(in0, out0, e0).value;
    LargestPayout(in0, out0, e0, v);
    StillAffordable(v, in0, out0, e0, in1, out1, e1);
    LargestPayout(in1, out1, e1, v);
  }

  lemma EffectiveInputMonotone(a0: u64, f0: u16, a1: u64, f1: u16)
    requires a0 <= a1 && f1 <= f0 <= BPS
    ensures CalculateEffectiveInput(a0, f0).value <= CalculateEffectiveInput(a1, f1).value
  {
    MulMono(a0, a1, BPS - f0);
    MulMono(BPS - f0, BPS - f1, a1);
  }
}
