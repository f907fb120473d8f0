// Splitting one trade into pieces executed in sequence.
module SplitTrades {
  import opened Results
  import opened Integers
  import opened AmmMath
  import opened TaxMath
  import opened Pricing
  import opened SwapRuns

  // A buy and a sell move the reserves alike once tax is out of the way: this is
  // that move, seen as (input reserve, output reserve).
  function Swap(rIn: u64, rOut: u64, feeBps: u16, handed: u64): (u64, u64)
    requires feeBps <= BPS
  {
    var out := CalculateSwapOutput(rIn, rOut, CalculateEffectiveInput(handed, feeBps).value);
    if out.Some? && rIn + handed < U64_LIMIT then (rIn + handed, rOut - out.value) else (rIn, rOut)
  }

  function SwapPieces(rIn: u64, rOut: u64, feeBps: u16, pieces: seq<u64>): (u64, u64)
    requires feeBps <= BPS
    decreases |pieces|
  {
    if pieces == [] then (rIn, rOut)
    else
      var next := Swap(rIn, rOut, feeBps, pieces[0]);
      SwapPieces(next.0, next.1, feeBps, pieces[1..])
  }

  function SumEffective(pieces: seq<u64>, feeBps: u16): nat
    requires feeBps <= BPS
  {
    if pieces == [] then 0
    else CalculateEffectiveInput(pieces[0], feeBps).value + SumEffective(pieces[1..], feeBps)
  }

  // The fee rounds against every piece, so the pieces together are worth no more.
  lemma {:induction false} EffectiveOfPieces(pieces: seq<u64>, feeBps: u16)
    requires feeBps <= BPS && Sum(pieces) < U64_LIMIT
    ensures SumEffective(pieces, feeBps) <= CalculateEffectiveInput(Sum(pieces), feeBps).value
  {
    if pieces != [] {
      var head, rest := pieces[0], Sum(pieces[1..]);
      EffectiveOfPieces(pieces[1..], feeBps);
      FloorsOfParts(head, rest, BPS - feeBps,
                    CalculateEffectiveInput(head, feeBps).value,
                    CalculateEffectiveInput(rest, feeBps).value,
                    CalculateEffectiveInput(Sum(pieces), feeBps).value);
    }
  }

  lemma FloorsOfParts(a: int, b: int, k: int, floorA: int, floorB: int, floorSum: int)
    requires floorA * BPS <= a * k && floorB * BPS <= b * k && (a + b) * k < (floorSum + 1) * BPS
    ensures floorA + floorB <= floorSum
  {
    assert (a + b) * k == a * k + b * k;
  }

  // One piece keeps `output reserve * credited input`, where `credited` is the
  // initial input reserve plus the effective inputs so far. The real input
  // reserve is at least that, because pieces are credited in full.
  lemma SwapKeepsCreditedProduct(rIn: u64, rOut: u64, feeBps: u16, handed: u64, credited: nat)
    requires feeBps <= BPS && credited <= rIn
    ensures var (rIn', rOut') := Swap(rIn, rOut, feeBps, handed);
            var e := CalculateEffectiveInput(handed, feeBps).value;
            || (rIn', rOut') == (rIn, rOut)
            || (credited + e <= rIn' && rOut' * (credited + e) >= rOut * credited)
  {
    var e := CalculateEffectiveInput(handed, feeBps).value;
    var out := CalculateSwapOutput(rIn, rOut, e);
    if out.Some? {
      // out * (rIn + e) <= rOut * e, and credited <= rIn
      MulMono(credited + e, rIn + e, out.value);
      assert (rOut - out.value) * (credited + e) == rOut * credited + rOut * e - out.value * (credited + e);
    }
  }

  lemma {:induction false} PiecesKeepCreditedProduct(
    rIn: u64, rOut: u64, feeBps: u16, pieces: seq<u64>, credited: nat)
    requires feeBps <= BPS && credited <= rIn
    ensures SwapPieces(rIn, rOut, feeBps, pieces).1 * (credited + SumEffective(pieces, feeBps))
            >= rOut * credited
    decreases |pieces|
  {
    if pieces != [] {
      var e := CalculateEffectiveInput(pieces[0], feeBps).value;
      var next := Swap(rIn, rOut, feeBps, pieces[0]);
      var final := SwapPieces(rIn, rOut, feeBps, pieces).1;
      SwapKeepsCreditedProduct(rIn, rOut, feeBps, pieces[0], credited);
      var rest := SumEffective(pieces[1..], feeBps);
      if next == (rIn, rOut) {
        PiecesKeepCreditedProduct(rIn, rOut, feeBps, pieces[1..], credited);
        WidenFactor(rOut * credited, final, credited + rest, credited + (e + rest));
      } else {
        PiecesKeepCreditedProduct(next.0, next.1, feeBps, pieces[1..], credited + e);
        WidenFactor(next.1 * (credited + e), final, credited + e + rest, credited + (e + rest));
      }
    }
  }

  lemma WidenFactor(least: int, factor: int, x: int, y: int)
    requires least <= factor * x && x <= y && 0 <= factor
    ensures least <= factor * y
  {
    MulMono(x, y, factor);
  }

  // Pieces never take more out of the pool than one swap of their sum would.
  lemma PiecesTakeNoMore(rIn: u64, rOut: u64, feeBps: u16, pieces: seq<u64>)
    requires feeBps <= BPS && Sum(pieces) < U64_LIMIT
    requires CalculateSwapOutput(rIn, rOut, CalculateEffectiveInput(Sum(pieces), feeBps).value).Some?
    ensures rOut - SwapPieces(rIn, rOut, feeBps, pieces).1
            <= CalculateSwapOutput(rIn, rOut, CalculateEffectiveInput(Sum(pieces), feeBps).value).value
  {
    var whole := CalculateEffectiveInput(Sum(pieces), feeBps).value;
    var final := SwapPieces(rIn, rOut, feeBps, pieces).1;
    PiecesKeepCreditedProduct(rIn, rOut, feeBps, pieces, rIn);
    EffectiveOfPieces(pieces, feeBps);
    WidenFactor(rOut * rIn, final, rIn + SumEffective(pieces, feeBps), rIn + whole);
    LeavingTheProductTakesNoMore(rIn, rOut, whole, final);
  }

  lemma LeavingTheProductTakesNoMore(rIn: u64, rOut: u64, e: u64, left: nat)
    requires CalculateSwapOutput(rIn, rOut, e).Some?
    requires rOut * rIn <= left * (rIn + e)
    ensures rOut - left <= CalculateSwapOutput(rIn, rOut, e).value
  {
    var payout := rOut - left;
    SwapOutputIsLargestKeepingK(rIn, rOut, e, payout);
  }

  // An input side that holds nothing and is credited nothing moves nothing.
  lemma {:induction false} WorthlessPiecesMoveNothing(rOut: u64, feeBps: u16, pieces: seq<u64>)
    requires feeBps <= BPS && SumEffective(pieces, feeBps) == 0
    ensures SwapPieces(0, rOut, feeBps, pieces) == (0, rOut)
  {
    if pieces != [] {
      WorthlessPiecesMoveNothing(rOut, feeBps, pieces[1..]);
    }
  }

  lemma PiecesTakeAtMostOneSwap(rIn: u64, rOut: u64, feeBps: u16, pieces: seq<u64>)
    requires feeBps <= BPS && Sum(pieces) < U64_LIMIT
    ensures var out := CalculateSwapOutput(rIn, rOut, CalculateEffectiveInput(Sum(pieces), feeBps).value);
            rOut - SwapPieces(rIn, rOut, feeBps, pieces).1 <= if out.Some? then out.value else 0
  {
    var e := CalculateEffectiveInput(Sum(pieces), feeBps).value;
    SwapOutputTotalOnU64(rIn, rOut, e);
    if rIn + e != 0 {
      PiecesTakeNoMore(rIn, rOut, feeBps, pieces);
    } else {
      EffectiveOfPieces(pieces, feeBps);
      WorthlessPiecesMoveNothing(rOut, feeBps, pieces);
    }
  }

  // ----- Sells -----

  function Sells(amounts: seq<u64>, rates: Rates): (trades: seq<Trade>)
    ensures |trades| == |amounts|
  {
    if amounts == [] then [] else [Sell(amounts[0], rates)] + Sells(amounts[1..], rates)
  }

  lemma {:induction false} SellsAreSwaps(r: Reserves, rates: Rates, amounts: seq<u64>)
    requires rates.lpFeeBps <= BPS && rates.sellTaxBps <= BPS
    ensures var end := Run(r, Sells(amounts, rates)).reserves;
            (end.faction, end.quote) == SwapPieces(r.faction, r.quote, rates.lpFeeBps, amounts)
    decreases |amounts|
  {
    if amounts != [] {
      SellsUnfold(r, rates, amounts);
      SellsAreSwaps(Execute(r, Sell(amounts[0], rates)).reserves, rates, amounts[1..]);
    }
  }

  lemma SellsUnfold(r: Reserves, rates: Rates, amounts: seq<u64>)
    requires amounts != []
    ensures var first := Execute(r, Sell(amounts[0], rates));
            Run(r, Sells(amounts, rates)) == Then(first, Run(first.reserves, Sells(amounts[1..], rates)))
  {
    var trades := Sells(amounts, rates);
    assert trades[0] == Sell(amounts[0], rates) && trades[1..] == Sells(amounts[1..], rates);
  }

  // Each net rounds up by at most 9999 / 10000 of a unit.
  lemma {:induction false} SellsNetBound(r: Reserves, rates: Rates, amounts: seq<u64>)
    requires rates.sellTaxBps <= BPS
    ensures var end := Run(r, Sells(amounts, rates));
            && end.quotePaid == 0
            && end.quoteReceived * BPS
               <= (r.quote - end.reserves.quote) * (BPS - rates.sellTaxBps) + |amounts| * (BPS - 1)
    decreases |amounts|
  {
    if amounts != [] {
      var first := Execute(r, Sell(amounts[0], rates));
      var rest := Run(first.reserves, Sells(amounts[1..], rates));
      SellsUnfold(r, rates, amounts);
      SellsNetBound(first.reserves, rates, amounts[1..]);
      SaleNetBound(r, rates, amounts[0]);
      NetsOfParts(r.quote - first.reserves.quote, first.reserves.quote - rest.reserves.quote,
                  BPS - rates.sellTaxBps, first.quoteReceived, rest.quoteReceived, |amounts| - 1);
    }
  }

  lemma SaleNetBound(r: Reserves, rates: Rates, amount: u64)
    requires rates.sellTaxBps <= BPS
    ensures var sale := Execute(r, Sell(amount, rates));
            && sale.quotePaid == 0
            && sale.quoteReceived * BPS <= (r.quote - sale.reserves.quote) * (BPS - rates.sellTaxBps) + (BPS - 1)
  {
    if Executes(r, Sell(amount, rates)) {
      var fill := QuoteSell(r, rates, amount).value;
      SellFeeConservation(r, rates, amount);
      NetBound(fill.outAmount + fill.feeAmount, fill.feeAmount, rates.sellTaxBps);
    }
  }

  lemma NetBound(gross: int, fee: int, taxBps: int)
    requires gross * taxBps < (fee + 1) * BPS
    ensures (gross - fee) * BPS <= gross * (BPS - taxBps) + (BPS - 1)
  {
    assert gross * (BPS - taxBps) == gross * BPS - gross * taxBps;
  }

  // A sale split into n pieces grosses no more than the single sale, and nets at
  // most MaxRoundingGain(n) more, what n roundings of the tax can add up to. Where
  // the single sale cannot be quoted, the pieces bring nothing.
  lemma SplitSellGainsOnlyRounding(r: Reserves, rates: Rates, amounts: seq<u64>)
    requires Sum(amounts) < U64_LIMIT
    ensures var split := Run(r, Sells(amounts, rates));
            match QuoteSell(r, rates, Sum(amounts))
            case Ok(single) =>
              && split.quoteReceived + split.taxCharged <= single.outAmount + single.feeAmount
              && split.quoteReceived <= single.outAmount + MaxRoundingGain(|amounts|)
            case Err(_) => split.quoteReceived == 0 && split.taxCharged == 0
  {
    if QuoteSell(r, rates, Sum(amounts)).Ok? {
      SplitOfQuotableSale(r, rates, amounts);
    } else if rates.lpFeeBps <= BPS && rates.sellTaxBps <= BPS {
      SplitOfWorthlessSale(r, rates, amounts);
    } else {
      InvalidRatesSellNothing(r, rates, amounts);
    }
  }

  lemma SplitOfQuotableSale(r: Reserves, rates: Rates, amounts: seq<u64>)
    requires Sum(amounts) < U64_LIMIT && QuoteSell(r, rates, Sum(amounts)).Ok?
    ensures var single := QuoteSell(r, rates, Sum(amounts)).value;
            var split := Run(r, Sells(amounts, rates));
            && split.quoteReceived + split.taxCharged <= single.outAmount + single.feeAmount
            && split.quoteReceived <= single.outAmount + MaxRoundingGain(|amounts|)
  {
    var single := QuoteSell(r, rates, Sum(amounts)).value;
    var split := Run(r, Sells(amounts, rates));
    SellFeeConservation(r, rates, Sum(amounts));
    RunConservesFunds(r, Sells(amounts, rates));
    SplitSellTakesNoMore(r, rates, amounts);
    SellsNetBound(r, rates, amounts);
    SplitNetBound(r.quote - split.reserves.quote, single.outAmount + single.feeAmount, single.feeAmount,
                  rates.sellTaxBps, split.quoteReceived, |amounts|);
  }

  lemma SplitSellTakesNoMore(r: Reserves, rates: Rates, amounts: seq<u64>)
    requires Sum(amounts) < U64_LIMIT && QuoteSell(r, rates, Sum(amounts)).Ok?
    ensures r.quote - Run(r, Sells(amounts, rates)).reserves.quote <= GrossSale(r, rates, Sum(amounts)).value
  {
    SellsAreSwaps(r, rates, amounts);
    PiecesTakeNoMore(r.faction, r.quote, rates.lpFeeBps, amounts);
  }

  lemma SplitOfWorthlessSale(r: Reserves, rates: Rates, amounts: seq<u64>)
    requires Sum(amounts) < U64_LIMIT && QuoteSell(r, rates, Sum(amounts)).Err?
    requires rates.lpFeeBps <= BPS && rates.sellTaxBps <= BPS
    ensures Run(r, Sells(amounts, rates)).quoteReceived == 0 && Run(r, Sells(amounts, rates)).taxCharged == 0
  {
    SellErrorDomain(r, rates, Sum(amounts));
    RunConservesFunds(r, Sells(amounts, rates));
    SellsNetBound(r, rates, amounts);
    SellsAreSwaps(r, rates, amounts);
    EffectiveOfPieces(amounts, rates.lpFeeBps);
    WorthlessPiecesMoveNothing(r.quote, rates.lpFeeBps, amounts);
  }

  lemma {:induction false} InvalidRatesSellNothing(r: Reserves, rates: Rates, amounts: seq<u64>)
    requires rates.lpFeeBps > BPS || rates.sellTaxBps > BPS
    ensures Run(r, Sells(amounts, rates)) == Idle(r)
    decreases |amounts|
  {
    if amounts != [] {
      SellErrorDomain(r, rates, amounts[0]);
      SellsUnfold(r, rates, amounts);
      InvalidRatesSellNothing(r, rates, amounts[1..]);
    }
  }

  lemma NetsOfParts(gross: int, later: int, keep: int, net: int, laterNet: int, n: int)
    requires net * BPS <= gross * keep + (BPS - 1)
    requires laterNet * BPS <= later * keep + n * (BPS - 1)
    ensures (net + laterNet) * BPS <= (gross + later) * keep + (n + 1) * (BPS - 1)
  {
    assert (gross + later) * keep == gross * keep + later * keep;
  }

  lemma SplitNetBound(taken: int, gross: int, fee: int, taxBps: int, received: int, n: nat)
    requires taken <= gross && 0 <= taxBps <= BPS && fee * BPS <= gross * taxBps
    requires received * BPS <= taken * (BPS - taxBps) + n * (BPS - 1)
    ensures received <= gross - fee + MaxRoundingGain(n)
  {
    MulMono(taken, gross, BPS - taxBps);
    assert gross * (BPS - taxBps) == gross * BPS - gross * taxBps;
  }

  // The bound is attained for every number of pieces the reserves leave room for:
  // at a sell tax of 9999 bps, n sales of one unit each gross and net one unit,
  // while the single sale grosses the same n and is taxed on it.
  lemma SplitSellGainIsAttained(n: u64, square: u64)
    requires 0 < n && square == n * n && square + 2 * n < U64_LIMIT
    ensures var r, rates := Reserves(square + 2 * n, square), Rates(0, 0, 9_999);
            var gain := MaxRoundingGain(n);
            && Sum(Ones(n)) == n
            && QuoteSell(r, rates, n) == Ok(Fill(n, n - gain, gain, 9_999))
            && Run(r, Sells(Ones(n), rates)).quoteReceived == n
  {
    AfterTaxOfPiecesAttained(n);
    SingleSale(n, square);
    UnderTwice(n, square);
    UnitSales(Reserves(square + 2 * n, square), n);
  }

  lemma SingleSale(n: u64, square: u64)
    requires 0 < n && square == n * n && square + 2 * n < U64_LIMIT
    ensures var gain := MaxRoundingGain(n);
            QuoteSell(Reserves(square + 2 * n, square), Rates(0, 0, 9_999), n) == Ok(Fill(n, n - gain, gain, 9_999))
  {
    SingleSaleGross(n, square);
    SaleAtFullTax(Reserves(square + 2 * n, square), n, n);
  }

  lemma SingleSaleGross(n: int, square: int)
    requires 0 < n && square == n * n
    ensures n * (square + n) <= (square + 2 * n) * n < (n + 1) * (square + n)
  {
    assert (square + 2 * n) * n == n * (square + n) + square;
    assert (n + 1) * (square + n) == n * (square + n) + square + n;
  }

  lemma UnderTwice(n: int, square: int)
    requires square == n * n
    ensures square + 2 * n < 2 * (square + 1)
  {
    assert 0 <= (n - 1) * (n - 1) == square - 2 * n + 1;
  }

  // Sales of one unit each gross one while the quote reserve stays above the
  // faction reserve and below twice it.
  lemma {:induction false} UnitSales(r: Reserves, n: nat)
    requires r.faction + 2 * n <= r.quote && r.quote < 2 * (r.faction + 1)
    ensures Run(r, Sells(Ones(n), Rates(0, 0, 9_999))).quoteReceived == n
    decreases n
  {
    if n != 0 {
      UnitSale(r);
      SellsUnfold(r, Rates(0, 0, 9_999), Ones(n));
      assert Ones(n)[1..] == Ones(n - 1);
      UnitSales(Reserves(r.quote - 1, r.faction + 1), n - 1);
    }
  }

  lemma UnitSale(r: Reserves)
    requires r.faction + 2 <= r.quote && r.quote < 2 * (r.faction + 1)
    ensures Execute(r, Sell(1, Rates(0, 0, 9_999))) == Ledger(Reserves(r.quote - 1, r.faction + 1), 0, 1, 0, 1, 0)
  {
    SaleAtFullTax(r, 1, 1);
  }

  // A sale without LP fee at a sell tax of 9999 bps, from its known gross.
  lemma SaleAtFullTax(r: Reserves, amount: u64, gross: u64)
    requires 0 < amount
    requires gross * (r.faction + amount) <= r.quote * amount < (gross + 1) * (r.faction + amount)
    ensures var tax := gross * 9_999 / BPS;
            QuoteSell(r, Rates(0, 0, 9_999), amount) == Ok(Fill(amount, gross - tax, tax, 9_999))
  {
    var rates := Rates(0, 0, 9_999);
    assert CalculateEffectiveInput(amount, 0) == Some(amount);
    SwapOutputTotalOnU64(r.faction, r.quote, amount);
    var out: int := CalculateSwapOutput(r.faction, r.quote, amount).value;
    FloorLeast(out, gross, r.quote * amount, r.faction + amount);
    FloorLeast(gross, out, r.quote * amount, r.faction + amount);
    assert GrossSale(r, rates, amount) == Ok(gross);
  }

  // ----- Buys -----

  function Buys(amounts: seq<u64>, rates: Rates): (trades: seq<Trade>)
    ensures |trades| == |amounts|
  {
    if amounts == [] then [] else [Buy(amounts[0], rates)] + Buys(amounts[1..], rates)
  }

  function PostTaxPieces(amounts: seq<u64>, taxBps: u16): (pieces: seq<u64>)
    requires taxBps <= BPS
    ensures Sum(pieces) == SumAfterTax(amounts, taxBps) <= Sum(amounts)
  {
    if amounts == [] then []
    else
      var rest := PostTaxPieces(amounts[1..], taxBps);
      var pieces := [AfterTax(amounts[0], taxBps)] + rest;
      assert pieces[1..] == rest;
      pieces
  }

  lemma {:induction false} BuysAreSwaps(r: Reserves, rates: Rates, amounts: seq<u64>)
    requires rates.lpFeeBps <= BPS && rates.buyTaxBps <= BPS
    ensures var end := Run(r, Buys(amounts, rates));
            && (end.reserves.quote, end.reserves.faction)
               == SwapPieces(r.quote, r.faction, rates.lpFeeBps, PostTaxPieces(amounts, rates.buyTaxBps))
            && end.factionPaid == 0
    decreases |amounts|
  {
    if amounts != [] {
      var trades := Buys(amounts, rates);
      var pieces := PostTaxPieces(amounts, rates.buyTaxBps);
      assert trades[1..] == Buys(amounts[1..], rates);
      assert pieces[1..] == PostTaxPieces(amounts[1..], rates.buyTaxBps);
      var first := Execute(r, trades[0]);
      BuyIsSwap(r, rates, amounts[0]);
      BuysAreSwaps(first.reserves, rates, amounts[1..]);
      assert Run(r, trades) == Then(first, Run(first.reserves, trades[1..]));
    }
  }

  // Including the early return of a buy whose post-tax amount is zero.
  lemma BuyIsSwap(r: Reserves, rates: Rates, amount: u64)
    requires rates.lpFeeBps <= BPS && rates.buyTaxBps <= BPS
    ensures var after := Execute(r, Buy(amount, rates)).reserves;
            (after.quote, after.faction)
            == Swap(r.quote, r.faction, rates.lpFeeBps, AfterTax(amount, rates.buyTaxBps))
  {
    var post := AfterTax(amount, rates.buyTaxBps);
    var e := CalculateEffectiveInput(post, rates.lpFeeBps).value;
    if post == 0 && CalculateSwapOutput(r.quote, r.faction, e).Some? {
      LargestPayout(r.quote, r.faction, e, 1);
    }
  }

  // A buy split into n pieces yields no more than one swap of the same total
  // post-tax quote (nothing where that swap cannot be quoted); that total is at
  // most MaxRoundingGain(n) above the single buy's.
  lemma SplitBuyGainsOnlyRounding(r: Reserves, rates: Rates, amounts: seq<u64>)
    requires Sum(amounts) < U64_LIMIT
    requires rates.lpFeeBps <= BPS && rates.buyTaxBps <= BPS
    ensures var total := SumAfterTax(amounts, rates.buyTaxBps);
            var single := AfterTax(Sum(amounts), rates.buyTaxBps);
            && single <= total <= single + MaxRoundingGain(|amounts|)
            && total < U64_LIMIT
            && var out := CalculateSwapOutput(
                 r.quote, r.faction, CalculateEffectiveInput(total, rates.lpFeeBps).value);
               Run(r, Buys(amounts, rates)).factionReceived <= (if out.Some? then out.value else 0)
  {
    var pieces := PostTaxPieces(amounts, rates.buyTaxBps);
    AfterTaxOfPieces(amounts, rates.buyTaxBps);
    RunConservesFunds(r, Buys(amounts, rates));
    BuysAreSwaps(r, rates, amounts);
    PiecesTakeAtMostOneSwap(r.quote, r.faction, rates.lpFeeBps, pieces);
  }
}
