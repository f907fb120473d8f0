// Fixed-rate conversions: src/math/vault_math.rs and the edge helpers of
// src/vault_amm.rs.
module VaultMath {
  import opened Results
  import opened Integers
  import opened Addresses

  const CONVERSION_RATE: u64 := 100

  const KNOWN_PAIRS: seq<(Pubkey, Pubkey)> := [
    (CRIME_MINT, PROFIT_MINT), (FRAUD_MINT, PROFIT_MINT), (PROFIT_MINT, CRIME_MINT), (PROFIT_MINT, FRAUD_MINT)]

  function ComputeVaultOutput(inputMint: Pubkey, outputMint: Pubkey, amountIn: u64): Option<u64> {
    if amountIn == 0 || inputMint == outputMint then None
    else if IsFaction(inputMint) && outputMint == PROFIT_MINT then
      var out := amountIn / CONVERSION_RATE;
      if out == 0 then None else Some(out)
    else if inputMint == PROFIT_MINT && IsFaction(outputMint) then CheckedMulU64(amountIn, CONVERSION_RATE)
    else None
  }

  // None for a mint the protocol does not know, where one caller panics.
  function VaultForMint(mint: Pubkey): Option<Pubkey> {
    if mint == CRIME_MINT then Some(VAULT_CRIME)
    else if mint == FRAUD_MINT then Some(VAULT_FRAUD)
    else if mint == PROFIT_MINT then Some(VAULT_PROFIT)
    else None
  }

  function ConversionOutputVault(inputMint: Pubkey, outputMint: Pubkey): Option<Pubkey> {
    var intoProfit := (inputMint == CRIME_MINT || inputMint == FRAUD_MINT) && outputMint == PROFIT_MINT;
    var fromProfit := inputMint == PROFIT_MINT && (outputMint == CRIME_MINT || outputMint == FRAUD_MINT);
    if intoProfit || fromProfit then VaultForMint(outputMint) else None
  }

  // Which account of the vault holds which mint.
  predicate VaultHolds(vault: Option<Pubkey>, mint: Pubkey) {
    && (mint == CRIME_MINT ==> vault == Some(VAULT_CRIME))
    && (mint == FRAUD_MINT ==> vault == Some(VAULT_FRAUD))
    && (mint == PROFIT_MINT ==> vault == Some(VAULT_PROFIT))
  }

  // The three descriptions of what the vault converts agree on every mint pair,
  // and each such pair has both its vaults, so no `expect` or panic can fire.
  lemma SupportedEdgesAgree(inputMint: Pubkey, outputMint: Pubkey)
    ensures (inputMint, outputMint) in KNOWN_PAIRS
            <==> exists amount: u64 :: ComputeVaultOutput(inputMint, outputMint, amount).Some?
    ensures (inputMint, outputMint) in KNOWN_PAIRS <==> ConversionOutputVault(inputMint, outputMint).Some?
    ensures (inputMint, outputMint) in KNOWN_PAIRS
            <==> || (IsFaction(inputMint) && outputMint == PROFIT_MINT)
                 || (inputMint == PROFIT_MINT && IsFaction(outputMint))
    ensures (inputMint, outputMint) in KNOWN_PAIRS ==>
              && VaultHolds(VaultForMint(inputMint), inputMint)
              && VaultHolds(ConversionOutputVault(inputMint, outputMint), outputMint)
  {
    if (inputMint, outputMint) in KNOWN_PAIRS {
      assert ComputeVaultOutput(inputMint, outputMint, CONVERSION_RATE).Some?;
    } else {
      assert (inputMint, outputMint) != KNOWN_PAIRS[0] && (inputMint, outputMint) != KNOWN_PAIRS[1];
      assert (inputMint, outputMint) != KNOWN_PAIRS[2] && (inputMint, outputMint) != KNOWN_PAIRS[3];
    }
  }

  // Out of PROFIT and back is the identity whenever the first leg converts.
  lemma ProfitRoundTrip(faction: Pubkey, amount: u64)
    requires ComputeVaultOutput(PROFIT_MINT, faction, amount).Some?
    ensures var out := ComputeVaultOutput(PROFIT_MINT, faction, amount).value;
            ComputeVaultOutput(faction, PROFIT_MINT, out) == Some(amount)
  {
  }

  // A faction token routed through PROFIT comes out as the input less its last two
  // digits, and the second leg cannot overflow.
  lemma FactionThroughProfit(from: Pubkey, to: Pubkey, amount: u64)
    requires IsFaction(from) && IsFaction(to)
    ensures ComputeVaultOutput(from, PROFIT_MINT, amount).Some? <==> 100 <= amount
    ensures 100 <= amount ==>
              var profit := ComputeVaultOutput(from, PROFIT_MINT, amount).value;
              ComputeVaultOutput(PROFIT_MINT, to, profit) == Some(amount - amount % 100)
  {
  }
}
