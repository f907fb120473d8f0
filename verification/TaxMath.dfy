// The tax arithmetic of src/math/tax_math.rs.
module TaxMath {
  import opened Results
  import opened Integers
  import opened AmmMath

  function CalculateTax(amountLamports: u64, taxBps: u16): (r: Option<u64>)
    ensures r.Some? <==> taxBps <= BPS
    ensures r.Some? ==> r.value <= amountLamports
    ensures r.Some? ==> r.value * BPS <= amountLamports * taxBps < (r.value + 1) * BPS
  {
    if taxBps > BPS then None
    else
      MulMono(amountLamports, U64_MAX, taxBps);
      MulMono(0, amountLamports, taxBps);
      var product :- CheckedMulU128(amountLamports, taxBps);
      var tax :- CheckedDivU128(product, BPS);
      MulMono(taxBps, BPS, amountLamports);
      NarrowU64(tax)
  }

  // What is left after tax: the amount times (10000 - tax) / 10000, rounded up.
  function AfterTax(amount: u64, taxBps: u16): (r: u64)
    requires taxBps <= BPS
    ensures (r - 1) * BPS < amount * (BPS - taxBps) <= r * BPS
    ensures r <= amount
  {
    amount - CalculateTax(amount, taxBps).value
  }

  lemma AfterTaxMonotone(a0: u64, t0: u16, a1: u64, t1: u16)
    requires a0 <= a1 && t1 <= t0 <= BPS
    ensures AfterTax(a0, t0) <= AfterTax(a1, t1)
  {
    MulMono(a0, a1, BPS - t0);
    MulMono(BPS - t0, BPS - t1, a1);
  }

  lemma AfterTaxZero(amount: u64, taxBps: u16)
    requires taxBps <= BPS
    ensures AfterTax(amount, taxBps) == 0 <==> amount == 0 || taxBps == BPS
  {
    if amount != 0 && taxBps != BPS {
      MulMono(1, amount, BPS - taxBps);
    }
  }

  function Sum(amounts: seq<u64>): (s: nat) {
    if amounts == [] then 0 else amounts[0] + Sum(amounts[1..])
  }

  function SumAfterTax(amounts: seq<u64>, taxBps: u16): (s: nat)
    requires taxBps <= BPS
  {
    if amounts == [] then 0 else AfterTax(amounts[0], taxBps) + SumAfterTax(amounts[1..], taxBps)
  }

  // The most that n separate roundings of a tax can add up to, over all rates:
  // n less one unit for every ten thousand pieces begun.
  function MaxRoundingGain(n: nat): (gain: nat)
    ensures gain <= n
    ensures 0 < n ==> gain <= n - 1
  {
    n * (BPS - 1) / BPS
  }

  // Taxing an amount in n pieces never leaves less than taxing it at once, and at
  // most MaxRoundingGain(n) more: each piece's tax rounds down on its own.
  lemma AfterTaxOfPieces(amounts: seq<u64>, taxBps: u16)
    requires taxBps <= BPS && Sum(amounts) < U64_LIMIT
    ensures AfterTax(Sum(amounts), taxBps) <= SumAfterTax(amounts, taxBps)
            <= AfterTax(Sum(amounts), taxBps) + MaxRoundingGain(|amounts|)
  {
    AfterTaxSumBounds(amounts, taxBps);
  }

  lemma {:induction false} AfterTaxSumBounds(amounts: seq<u64>, taxBps: u16)
    requires taxBps <= BPS
    ensures Sum(amounts) * (BPS - taxBps)
            <= SumAfterTax(amounts, taxBps) * BPS
            <= Sum(amounts) * (BPS - taxBps) + |amounts| * (BPS - 1)
  {
    if amounts != [] {
      AfterTaxSumBounds(amounts[1..], taxBps);
      Distributes(amounts[0], Sum(amounts[1..]), BPS - taxBps);
    }
  }

  lemma Distributes(a: int, b: int, f: int)
    ensures (a + b) * f == a * f + b * f
  {
  }

  // n times one unit.
  function Ones(n: nat): (ones: seq<u64>)
    ensures |ones| == n
  {
    if n == 0 then [] else [1] + Ones(n - 1)
  }

  // The bound is attained for every number of pieces: at a tax of 9999 bps single
  // units go untaxed, and together they do not.
  lemma {:induction false} AfterTaxOfPiecesAttained(n: u64)
    ensures Sum(Ones(n)) == n
    ensures SumAfterTax(Ones(n), BPS - 1) == AfterTax(n, BPS - 1) + MaxRoundingGain(n)
  {
    if n != 0 {
      AfterTaxOfPiecesAttained(n - 1);
      assert Ones(n)[1..] == Ones(n - 1);
      assert AfterTax(1, BPS - 1) == 1;
    }
    assert AfterTax(n, BPS - 1) + MaxRoundingGain(n) == n;
  }

  // (staking, carnage, treasury)
  function SplitDistribution(totalTax: u64): (r: Option<(u64, u64, u64)>)
    ensures r.Some?
    ensures r.value.0 + r.value.1 + r.value.2 == totalTax
    ensures totalTax < 4 ==> r.value.1 == 0 && r.value.2 == 0
    ensures -100 < 100 * r.value.0 - 71 * totalTax < 100
    ensures -100 < 100 * r.value.1 - 24 * totalTax <= 0
    ensures -100 < 100 * r.value.2 - 5 * totalTax < 200
    ensures totalTax >= 4 ==> 100 * r.value.0 <= 71 * totalTax
  {
    if totalTax < 4 then Some((totalTax, 0, 0))
    else
      var total: u128 := totalTax;
      var stakingProduct :- CheckedMulU128(total, 7_100);
      var stakingWide :- CheckedDivU128(stakingProduct, BPS);
      var staking :- NarrowU64(stakingWide);
      var carnageProduct :- CheckedMulU128(total, 2_400);
      var carnageWide :- CheckedDivU128(carnageProduct, BPS);
      var carnage :- NarrowU64(carnageWide);
      var afterStaking :- CheckedSubU64(totalTax, staking);
      var treasury :- CheckedSubU64(afterStaking, carnage);
      Some((staking, carnage, treasury))
  }

  // What the three beneficiaries hold after a whole history of distributions.
  function Distributed(taxes: seq<u64>): (nat, nat, nat) {
    if taxes == [] then (0, 0, 0)
    else
      var parts := SplitDistribution(taxes[0]).value;
      var rest := Distributed(taxes[1..]);
      (parts.0 + rest.0, parts.1 + rest.1, parts.2 + rest.2)
  }

  // Nothing is lost over any history, and no share drifts from 71/24/5 by more
  // than one unit a distribution (two above, for the treasury's dust).
  lemma {:induction false} DistributionDrift(taxes: seq<u64>)
    ensures var (staking, carnage, treasury) := Distributed(taxes);
            var n, total := |taxes|, Sum(taxes);
            && staking + carnage + treasury == total
            && -100 * n <= 100 * staking - 71 * total <= 100 * n
            && -100 * n <= 100 * carnage - 24 * total <= 0
            && -100 * n <= 100 * treasury - 5 * total <= 200 * n
  {
    if taxes != [] {
      DistributionDrift(taxes[1..]);
    }
  }

  // The treasury's two units above are approached, not a loose bound.
  lemma TreasuryDustExceedsOneUnit()
    ensures SplitDistribution(4) == Some((2, 0, 2))
    ensures 100 * 2 - 5 * 4 > 100
  {
  }
}
