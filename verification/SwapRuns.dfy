// Runs of trades executed at their quoted amounts.
//
// The on-chain AMM is not part of this model. Modelling assumption: an executed
// trade adds to the input reserve the whole amount handed to the swap (the
// post-tax quote of a buy, the whole faction amount of a sell) and takes the
// quoted swap output from the other reserve; it executes only when it can be
// quoted and the input reserve still fits u64, and otherwise reverts.
module SwapRuns {
  import opened Results
  import opened Integers
  import opened AmmMath
  import opened TaxMath
  import opened Pricing

  // The rates travel with the trade: taxes change from epoch to epoch.
  datatype Trade = Buy(amount: u64, rates: Rates) | Sell(amount: u64, rates: Rates)

  // Reserves after some trades, and what the traders paid and received.
  datatype Ledger = Ledger(
    reserves: Reserves,
    quotePaid: nat, quoteReceived: nat, taxCharged: nat,
    factionPaid: nat, factionReceived: nat)

  function Idle(r: Reserves): Ledger {
    Ledger(r, 0, 0, 0, 0, 0)
  }

  predicate Executes(r: Reserves, trade: Trade) {
    match trade
    case Buy(amount, rates) =>
      QuoteBuy(r, rates, amount).Ok? && r.quote + AfterTax(amount, rates.buyTaxBps) < U64_LIMIT
    case Sell(amount, rates) =>
      QuoteSell(r, rates, amount).Ok? && r.faction + amount < U64_LIMIT
  }

  function Execute(r: Reserves, trade: Trade): Ledger {
    if !Executes(r, trade) then Idle(r)
    else
      match trade
      case Buy(amount, rates) =>
        var fill := QuoteBuy(r, rates, amount).value;
        BuyFeeConservation(r, rates, amount);
        var post := AfterTax(amount, rates.buyTaxBps);
        Ledger(Reserves(r.quote + post, r.faction - fill.outAmount),
               fill.inAmount, 0, amount - post, 0, fill.outAmount)
      case Sell(amount, rates) =>
        var fill := QuoteSell(r, rates, amount).value;
        SellFeeConservation(r, rates, amount);
        Ledger(Reserves(r.quote - (fill.outAmount + fill.feeAmount), r.faction + amount),
               0, fill.outAmount, fill.feeAmount, fill.inAmount, 0)
  }

  function Then(first: Ledger, rest: Ledger): Ledger {
    Ledger(rest.reserves,
           first.quotePaid + rest.quotePaid,
           first.quoteReceived + rest.quoteReceived,
           first.taxCharged + rest.taxCharged,
           first.factionPaid + rest.factionPaid,
           first.factionReceived + rest.factionReceived)
  }

  function Run(r: Reserves, trades: seq<Trade>): Ledger
    decreases |trades|
  {
    if trades == [] then Idle(r)
    else
      var first := Execute(r, trades[0]);
      Then(first, Run(first.reserves, trades[1..]))
  }

  lemma TwoTrades(r: Reserves, first: Trade, second: Trade)
    ensures var one := Execute(r, first);
            var two := Execute(one.reserves, second);
            Run(r, [first, second]) == Then(one, Then(two, Idle(two.reserves)))
  {
    var one := Execute(r, first);
    assert [first, second][1..] == [second] && [second][1..] == [];
    var two := Execute(one.reserves, second);
    assert Run(one.reserves, [second]) == Then(two, Run(two.reserves, []));
  }

  // ----- The product never decreases -----

  predicate Positive(r: Reserves) {
    0 < r.quote && 0 < r.faction
  }

  function Product(r: Reserves): nat {
    MulMono(0, r.quote, r.faction);
    r.quote * r.faction
  }

  // The check on the step's reserves, and on them with only the post-fee input
  // credited, both as `verify_k_invariant` sees them: input side first.
  predicate StepPassesKCheck(r: Reserves, trade: Trade) {
    var after := Execute(r, trade).reserves;
    match trade
    case Buy(amount, rates) =>
      && VerifyKInvariant(r.quote, r.faction, after.quote, after.faction) == Some(true)
      && (Executes(r, trade) ==>
            var credited := r.quote + BuyEffectiveInput(rates, amount);
            && credited <= after.quote
            && VerifyKInvariant(r.quote, r.faction, credited, after.faction) == Some(true))
    case Sell(amount, rates) =>
      && VerifyKInvariant(r.faction, r.quote, after.faction, after.quote) == Some(true)
      && (Executes(r, trade) ==>
            var credited := r.faction + CalculateEffectiveInput(amount, rates.lpFeeBps).value;
            && credited <= after.faction
            && VerifyKInvariant(r.faction, r.quote, credited, after.quote) == Some(true))
  }

  lemma StepKeepsK(r: Reserves, trade: Trade)
    requires Positive(r)
    ensures Positive(Execute(r, trade).reserves)
    ensures Product(Execute(r, trade).reserves) >= Product(r)
    ensures StepPassesKCheck(r, trade)
  {
    if Executes(r, trade) {
      var after := Execute(r, trade).reserves;
      match trade
      case Buy(amount, rates) =>
        BuyFeeConservation(r, rates, amount);
        var post := AfterTax(amount, rates.buyTaxBps);
        if post != 0 {
          var e := BuyEffectiveInput(rates, amount);
          SwapOutputBelowReserve(r.quote, r.faction, e);
          SwapOutputIsLargestKeepingK(r.quote, r.faction, e, r.faction - after.faction);
          MulMono(r.quote + e, after.quote, after.faction);
        }
      case Sell(amount, rates) =>
        SellFeeConservation(r, rates, amount);
        var e := CalculateEffectiveInput(amount, rates.lpFeeBps).value;
        var gross := GrossSale(r, rates, amount).value;
        GrossSaleIsLargestKeepingK(r, rates, amount, gross);
        SwapOutputBelowReserve(r.faction, r.quote, e);
        MulMono(r.faction + e, after.faction, after.quote);
    }
  }

  predicate EveryStepPassesKCheck(r: Reserves, trades: seq<Trade>)
    decreases |trades|
  {
    trades == []
    || (StepPassesKCheck(r, trades[0]) && EveryStepPassesKCheck(Execute(r, trades[0]).reserves, trades[1..]))
  }

  // Over every run from positive reserves.
  lemma {:induction false} RunKeepsK(r: Reserves, trades: seq<Trade>)
    requires Positive(r)
    ensures Positive(Run(r, trades).reserves)
    ensures Product(Run(r, trades).reserves) >= Product(r)
    ensures EveryStepPassesKCheck(r, trades)
    decreases |trades|
  {
    if trades != [] {
      StepKeepsK(r, trades[0]);
      RunKeepsK(Execute(r, trades[0]).reserves, trades[1..]);
    }
  }

  // ----- No closed run profits -----

  // Every unit is accounted for: what the traders paid, less what they received,
  // is the tax plus the change of the reserve.
  lemma {:induction false} RunConservesFunds(r: Reserves, trades: seq<Trade>)
    ensures var end := Run(r, trades);
            && end.quotePaid == end.quoteReceived + end.taxCharged + end.reserves.quote - r.quote
            && end.factionPaid == end.factionReceived + end.reserves.faction - r.faction
    decreases |trades|
  {
    if trades != [] {
      RunConservesFunds(Execute(r, trades[0]).reserves, trades[1..]);
    }
  }

  lemma ClosedRunNoProfit(r: Reserves, trades: seq<Trade>)
    requires Positive(r)
    ensures var end := Run(r, trades);
            && (end.reserves.faction <= r.faction ==> end.quotePaid - end.quoteReceived >= end.taxCharged)
            && (end.reserves.quote <= r.quote ==> end.factionPaid >= end.factionReceived)
  {
    var end := Run(r, trades);
    RunConservesFunds(r, trades);
    RunKeepsK(r, trades);
    OneSideDownOtherUp(r, end.reserves);
  }

  lemma OneSideDownOtherUp(before: Reserves, after: Reserves)
    requires Positive(before) && Positive(after) && Product(before) <= Product(after)
    ensures after.faction <= before.faction ==> before.quote <= after.quote
    ensures after.quote <= before.quote ==> before.faction <= after.faction
  {
    if after.faction <= before.faction {
      LargerCofactor(before.quote, before.faction, after.quote, after.faction);
    }
    if after.quote <= before.quote {
      LargerCofactor(before.faction, before.quote, after.faction, after.quote);
    }
  }

  lemma LargerCofactor(a: int, b: int, a': int, b': int)
    requires 0 < a' && 0 < b && a * b <= a' * b' && b' <= b
    ensures a <= a'
  {
    MulMono(b', b, a');
    if a' < a {
      MulMono(a' + 1, a, b);
    }
  }

  // Selling back at once what a buy paid out, whatever the rates of the two legs,
  // returns at most the input less both taxes.
  lemma RoundTripLosesTheTaxes(r: Reserves, amount: u64, buyRates: Rates, sellRates: Rates)
    requires Positive(r) && Executes(r, Buy(amount, buyRates))
    ensures var bought := Execute(r, Buy(amount, buyRates));
            var sold := Execute(bought.reserves, Sell(bought.factionReceived, sellRates));
            sold.quoteReceived + bought.taxCharged + sold.taxCharged <= amount
  {
    var buy := Buy(amount, buyRates);
    var sale := Sell(Execute(r, buy).factionReceived, sellRates);
    TwoTrades(r, buy, sale);
    ClosedRunNoProfit(r, [buy, sale]);
  }
}
