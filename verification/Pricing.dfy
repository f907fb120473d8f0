// Whole buy and sell quotes as functions of reserves, rates and an amount
// (SolPoolAmm::quote_buy and quote_sell in src/sol_pool_amm.rs).
module Pricing {
  import opened Results
  import opened Integers
  import opened AmmMath
  import opened TaxMath

  datatype Reserves = Reserves(quote: u64, faction: u64)

  datatype Rates = Rates(lpFeeBps: u16, buyTaxBps: u16, sellTaxBps: u16)

  // A quote without its fee mint; `feePctBps` is the numerator of the reported
  // fee percentage over 10000.
  datatype Fill = Fill(inAmount: u64, outAmount: u64, feeAmount: u64, feePctBps: nat)

  function QuoteBuy(r: Reserves, rates: Rates, amountIn: u64): Result<Fill> {
    var feePct := rates.lpFeeBps + rates.buyTaxBps;
    var tax :- CalculateTax(amountIn, rates.buyTaxBps).OkOr(TaxFailed);
    match CheckedSubU64(amountIn, tax)
    case None => Err(TaxFailed)
    case Some(quoteToSwap) =>
      if quoteToSwap == 0 then Ok(Fill(amountIn, 0, tax, feePct))
      else
        var effectiveInput :- CalculateEffectiveInput(quoteToSwap, rates.lpFeeBps).OkOr(EffectiveInputFailed);
        var outAmount :- CalculateSwapOutput(r.quote, r.faction, effectiveInput).OkOr(SwapOutputFailed);
        var lpFeeQuote := SaturatingSubU64(quoteToSwap, CastU64(effectiveInput));
        var feeAmount := match CheckedAddU64(tax, lpFeeQuote) case Some(fee) => fee case None => tax;
        Ok(Fill(amountIn, outAmount, feeAmount, feePct))
  }

  function GrossSale(r: Reserves, rates: Rates, amountIn: u64): Result<u64> {
    var effectiveInput :- CalculateEffectiveInput(amountIn, rates.lpFeeBps).OkOr(EffectiveInputFailed);
    CalculateSwapOutput(r.faction, r.quote, effectiveInput).OkOr(SwapOutputFailed)
  }

  function QuoteSell(r: Reserves, rates: Rates, amountIn: u64): Result<Fill> {
    var grossQuote :- GrossSale(r, rates, amountIn);
    var tax :- CalculateTax(grossQuote, rates.sellTaxBps).OkOr(TaxFailed);
    match CheckedSubU64(grossQuote, tax)
    case None => Err(TaxFailed)
    case Some(netQuote) => Ok(Fill(amountIn, netQuote, tax, rates.lpFeeBps + rates.sellTaxBps))
  }

  // ----- Exact error domain -----

  // The post-fee input rounds down to zero.
  predicate VanishesAfterFee(amount: u64, feeBps: u16) {
    amount * (BPS - feeBps) < BPS
  }

  // When a buy fails and how, in terms a caller can check beforehand.
  function BuyFailure(r: Reserves, rates: Rates, amountIn: u64): Option<Error> {
    if rates.buyTaxBps > BPS then Some(TaxFailed)
    else if amountIn == 0 || rates.buyTaxBps == BPS then None
    else if rates.lpFeeBps > BPS then Some(EffectiveInputFailed)
    else if r.quote == 0 && VanishesAfterFee(AfterTax(amountIn, rates.buyTaxBps), rates.lpFeeBps)
    then Some(SwapOutputFailed)
    else None
  }

  function SellFailure(r: Reserves, rates: Rates, amountIn: u64): Option<Error> {
    if rates.lpFeeBps > BPS then Some(EffectiveInputFailed)
    else if r.faction == 0 && VanishesAfterFee(amountIn, rates.lpFeeBps) then Some(SwapOutputFailed)
    else if rates.sellTaxBps > BPS then Some(TaxFailed)
    else None
  }

  lemma BuyErrorDomain(r: Reserves, rates: Rates, amountIn: u64)
    ensures match BuyFailure(r, rates, amountIn)
            case Some(error) => QuoteBuy(r, rates, amountIn) == Err(error)
            case None => QuoteBuy(r, rates, amountIn).Ok?
  {
    if rates.buyTaxBps <= BPS {
      AfterTaxZero(amountIn, rates.buyTaxBps);
      if rates.lpFeeBps <= BPS {
        var e := CalculateEffectiveInput(AfterTax(amountIn, rates.buyTaxBps), rates.lpFeeBps).value;
        SwapOutputTotalOnU64(r.quote, r.faction, e);
      }
    }
  }

  lemma SellErrorDomain(r: Reserves, rates: Rates, amountIn: u64)
    ensures match SellFailure(r, rates, amountIn)
            case Some(error) => QuoteSell(r, rates, amountIn) == Err(error)
            case None => QuoteSell(r, rates, amountIn).Ok?
  {
    if rates.lpFeeBps <= BPS {
      var e := CalculateEffectiveInput(amountIn, rates.lpFeeBps).value;
      SwapOutputTotalOnU64(r.faction, r.quote, e);
    }
  }

  // ----- What a fill means -----

  // The amount of the input that reaches the constant-product formula.
  function BuyEffectiveInput(rates: Rates, amountIn: u64): u128
    requires rates.buyTaxBps <= BPS
  {
    var post := AfterTax(amountIn, rates.buyTaxBps);
    if post == 0 then 0
    else match CalculateEffectiveInput(post, rates.lpFeeBps) case Some(e) => e case None => 0
  }

  // Every unit of a buy's input is either reported as fee or swapped, so the
  // narrowing cast, the saturating subtraction and the fallback of the fee sum
  // never lose anything.
  lemma BuyFeeConservation(r: Reserves, rates: Rates, amountIn: u64)
    requires QuoteBuy(r, rates, amountIn).Ok?
    ensures var fill := QuoteBuy(r, rates, amountIn).value;
            && fill.inAmount == amountIn == fill.feeAmount + BuyEffectiveInput(rates, amountIn)
            && fill.outAmount <= r.faction
            && fill.feePctBps == rates.lpFeeBps + rates.buyTaxBps
  {
    var tax := CalculateTax(amountIn, rates.buyTaxBps).value;
    var post := amountIn - tax;
    if post != 0 {
      var e := CalculateEffectiveInput(post, rates.lpFeeBps).value;
      assert CastU64(e) == e;
      assert SaturatingSubU64(post, e) == post - e;
      assert CheckedAddU64(tax, post - e) == Some(amountIn - e);
    }
  }

  // A buy's payout is the largest that keeps the reserve product when only the
  // swapped part of the input is credited; nothing swapped, nothing paid.
  lemma BuyIsLargestKeepingK(r: Reserves, rates: Rates, amountIn: u64, payout: int)
    requires QuoteBuy(r, rates, amountIn).Ok?
    ensures var out := QuoteBuy(r, rates, amountIn).value.outAmount;
            var swapped := BuyEffectiveInput(rates, amountIn);
            && (swapped == 0 ==> out == 0)
            && (swapped != 0 ==>
                  (payout <= out <==> (r.quote + swapped) * (r.faction - payout) >= r.quote * r.faction))
  {
    var swapped := BuyEffectiveInput(rates, amountIn);
    if AfterTax(amountIn, rates.buyTaxBps) != 0 {
      if swapped == 0 {
        LargestPayout(r.quote, r.faction, swapped, 1);
      } else {
        SwapOutputIsLargestKeepingK(r.quote, r.faction, swapped, payout);
      }
    }
  }

  // A sale's gross payout is the largest that keeps the product.
  lemma GrossSaleIsLargestKeepingK(r: Reserves, rates: Rates, amountIn: u64, payout: int)
    requires GrossSale(r, rates, amountIn).Ok?
    ensures var swapped := CalculateEffectiveInput(amountIn, rates.lpFeeBps).value;
            payout <= GrossSale(r, rates, amountIn).value
            <==> (r.faction + swapped) * (r.quote - payout) >= r.faction * r.quote
  {
    var swapped := CalculateEffectiveInput(amountIn, rates.lpFeeBps).value;
    SwapOutputIsLargestKeepingK(r.faction, r.quote, swapped, payout);
  }

  // A sell's payout and its reported fee add up to the gross payout, which the
  // pool can pay, and the fee is the sell tax on that gross, rounded down.
  lemma SellFeeConservation(r: Reserves, rates: Rates, amountIn: u64)
    requires QuoteSell(r, rates, amountIn).Ok?
    ensures var fill := QuoteSell(r, rates, amountIn).value;
            var gross := fill.outAmount + fill.feeAmount;
            && fill.inAmount == amountIn
            && gross <= r.quote
            && GrossSale(r, rates, amountIn) == Ok(gross)
            && fill.feeAmount * BPS <= gross * rates.sellTaxBps < (fill.feeAmount + 1) * BPS
            && fill.feePctBps == rates.lpFeeBps + rates.sellTaxBps
  {
    var fill := QuoteSell(r, rates, amountIn).value;
    assert GrossSale(r, rates, amountIn) == Ok(fill.outAmount + fill.feeAmount);
  }

  // The fee a buy charges, against the rate it reports: it stays within one unit
  // of the reported rate less the cross term tax * lpFee. Scaled by 10000 * 10000.
  lemma BuyReportedRate(r: Reserves, rates: Rates, amountIn: u64)
    requires QuoteBuy(r, rates, amountIn).Ok?
    ensures var fill := QuoteBuy(r, rates, amountIn).value;
            var reported := amountIn * fill.feePctBps * BPS;
            var crossTerm := amountIn * (rates.buyTaxBps * rates.lpFeeBps);
            reported - crossTerm - BPS * BPS < fill.feeAmount * (BPS * BPS) < reported - crossTerm + BPS * BPS
  {
    BuyFeeConservation(r, rates, amountIn);
    var t: int, l: int := rates.buyTaxBps, rates.lpFeeBps;
    var post := AfterTax(amountIn, t);
    var e := BuyEffectiveInput(rates, amountIn);
    if post == 0 {
      AfterTaxZero(amountIn, t);
      assert amountIn * (t + l) * BPS == amountIn * t * BPS + amountIn * (BPS * l);
    } else {
      ChargedFeeBounds(amountIn, t, l, post, e);
    }
  }

  lemma ChargedFeeBounds(a: int, t: int, l: int, post: int, e: int)
    requires 0 <= l <= BPS
    requires (post - 1) * BPS < a * (BPS - t) <= post * BPS
    requires e * BPS <= post * (BPS - l) < (e + 1) * BPS
    ensures var target := a * (t + l) * BPS - a * (t * l);
            target - BPS * BPS < (a - e) * (BPS * BPS) < target + BPS * BPS
  {
    var k := BPS - l;
    var net := a * (BPS - t);
    // scale the tax rounding by the fee factor
    var slack := post * BPS - net;
    MulMono(0, slack, k);
    MulMono(slack, BPS - 1, k);
    assert post * BPS * k == net * k + slack * k;
    assert net * k == a * (BPS * BPS) - (a * (t + l) * BPS - a * (t * l));
    assert post * BPS * k == post * k * BPS;
  }

  // ----- Monotonicity across the three stacked floors -----

  // Paying more, at an LP fee and a buy tax no higher, into reserves no worse, never
  // buys less. The sell tax plays no part: an epoch flip moves it the other way.
  lemma BuyMonotone(r0: Reserves, rates0: Rates, a0: u64, r1: Reserves, rates1: Rates, a1: u64)
    requires QuoteBuy(r0, rates0, a0).Ok? && QuoteBuy(r1, rates1, a1).Ok?
    requires a0 <= a1 && rates1.lpFeeBps <= rates0.lpFeeBps && rates1.buyTaxBps <= rates0.buyTaxBps
    requires r1.quote <= r0.quote && r0.faction <= r1.faction
    ensures QuoteBuy(r0, rates0, a0).value.outAmount <= QuoteBuy(r1, rates1, a1).value.outAmount
  {
    AfterTaxMonotone(a0, rates0.buyTaxBps, a1, rates1.buyTaxBps);
    var post0, post1 := AfterTax(a0, rates0.buyTaxBps), AfterTax(a1, rates1.buyTaxBps);
    if post0 != 0 {
      EffectiveInputMonotone(post0, rates0.lpFeeBps, post1, rates1.lpFeeBps);
      var e0 := CalculateEffectiveInput(post0, rates0.lpFeeBps).value;
      var e1 := CalculateEffectiveInput(post1, rates1.lpFeeBps).value;
      SwapOutputMonotone(r0.quote, r0.faction, e0, r1.quote, r1.faction, e1);
    }
  }

  // The same for a sell, whatever the buy tax does.
  lemma SellMonotone(r0: Reserves, rates0: Rates, a0: u64, r1: Reserves, rates1: Rates, a1: u64)
    requires QuoteSell(r0, rates0, a0).Ok? && QuoteSell(r1, rates1, a1).Ok?
    requires a0 <= a1 && rates1.lpFeeBps <= rates0.lpFeeBps && rates1.sellTaxBps <= rates0.sellTaxBps
    requires r1.faction <= r0.faction && r0.quote <= r1.quote
    ensures QuoteSell(r0, rates0, a0).value.outAmount <= QuoteSell(r1, rates1, a1).value.outAmount
  {
    EffectiveInputMonotone(a0, rates0.lpFeeBps, a1, rates1.lpFeeBps);
    var e0 := CalculateEffectiveInput(a0, rates0.lpFeeBps).value;
    var e1 := CalculateEffectiveInput(a1, rates1.lpFeeBps).value;
    SwapOutputMonotone(r0.faction, r0.quote, e0, r1.faction, r1.quote, e1);
    var gross0, gross1 := GrossSale(r0, rates0, a0).value, GrossSale(r1, rates1, a1).value;
    AfterTaxMonotone(gross0, rates0.sellTaxBps, gross1, rates1.sellTaxBps);
  }

  // ----- Worked quotes -----

  // One unit of 10^9 each way at equal reserves of 10^11, a 1% LP fee, a 4% buy tax
  // and a 14% sell tax.
  lemma WorkedQuotes()
    ensures var r, rates := Reserves(100_000_000_000, 100_000_000_000), Rates(100, 400, 1_400);
            && QuoteBuy(r, rates, 1_000_000_000) == Ok(Fill(1_000_000_000, 941452436, 49600000, 500))
            && QuoteSell(r, rates, 1_000_000_000) == Ok(Fill(1_000_000_000, 843053768, 137241310, 1_500))
  {
    assert CalculateTax(1_000_000_000, 400) == Some(40_000_000);
    assert CalculateEffectiveInput(960_000_000, 100) == Some(950400000);
    assert CalculateSwapOutput(100_000_000_000, 100_000_000_000, 950400000) == Some(941452436);
    assert CalculateEffectiveInput(1_000_000_000, 100) == Some(990000000);
    assert CalculateSwapOutput(100_000_000_000, 100_000_000_000, 990000000) == Some(980295078);
    assert CalculateTax(980295078, 1_400) == Some(137241310);
  }
}
