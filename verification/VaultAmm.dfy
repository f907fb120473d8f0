// The conversion-vault object of src/vault_amm.rs.
module VaultAmmObject {
  import opened Results
  import opened Integers
  import opened Fields
  import opened Addresses
  import opened AmmInterface
  import opened PoolAccounts
  import opened Pricing
  import opened VaultMath

  const VAULT_ACCOUNTS_LEN: nat := 17

  // The fields of `VaultAmm`, less its label.
  datatype VaultFields = VaultFields(
    key: Pubkey, inputMint: Pubkey, outputMint: Pubkey, outputVault: Pubkey, outputVaultBalance: u64)
  {
    function Quote(params: QuoteParams): Result<SwapQuote> {
      if params.swapMode == ExactOut then Err(ExactOutUnsupported)
      else if params.inputMint != inputMint || params.outputMint != outputMint then Err(MintPairMismatch)
      else
        var out :- ComputeVaultOutput(inputMint, outputMint, params.amount).OkOr(ConversionFailed);
        if out > outputVaultBalance then Err(InsufficientLiquidity)
        else Ok(SwapQuote(Fill(params.amount, out, 0, 0), inputMint))
    }

    // The balance `update` would store.
    function RefreshedBalance(accounts: AccountMap): Result<u64> {
      if VAULT_CONFIG_PDA !in accounts then Err(AccountMissing)
      else if accounts[VAULT_CONFIG_PDA].data == [] then Err(EmptyConfig)
      else if outputVault !in accounts then Err(AccountMissing)
      else ParseTokenAccountAmount(accounts[outputVault].data, outputMint)
    }
  }

  // src/state/token_account.rs
  function ParseTokenAccountAmount(data: seq<u8>, expectedMint: Pubkey): Result<u64> {
    if |data| < 72 then Err(AccountTooShort)
    else if PubkeyAt(data[0..32]) != expectedMint then Err(MintMismatch)
    else Ok(U64At(data[64..72]))
  }

  // A token account of either token program: whatever owner and trailing bytes,
  // the parser returns the amount to the right mint and refuses any other.
  lemma TokenAccountAmountRead(mint: Pubkey, owner: Pubkey, amount: u64, rest: seq<u8>, expected: Pubkey)
    ensures ParseTokenAccountAmount(PubkeyBytes(mint) + PubkeyBytes(owner) + U64Bytes(amount) + rest, expected)
            == if expected == mint then Ok(amount) else Err(MintMismatch)
  {
    var data := PubkeyBytes(mint) + PubkeyBytes(owner) + U64Bytes(amount) + rest;
    assert data[0..32] == PubkeyBytes(mint);
    assert data[64..72] == U64Bytes(amount);
  }

  // A faithful account map refreshes an instance to the live balance of the very
  // account its conversions are paid from.
  lemma RefreshReadsLiveBalance(v: VaultFields, accounts: AccountMap, owner: Pubkey, amount: u64, rest: seq<u8>)
    requires VAULT_CONFIG_PDA in accounts && accounts[VAULT_CONFIG_PDA].data != []
    requires v.outputVault in accounts
    requires accounts[v.outputVault].data
             == PubkeyBytes(v.outputMint) + PubkeyBytes(owner) + U64Bytes(amount) + rest
    ensures v.RefreshedBalance(accounts) == Ok(amount)
  {
    TokenAccountAmountRead(v.outputMint, owner, amount, rest, v.outputMint);
  }

  // Exactly when a refresh yields a balance, and which: the config account must hold
  // something, and the output vault's account must be long enough to read and be of
  // the output mint.
  lemma VaultRefreshDomain(v: VaultFields, accounts: AccountMap)
    ensures var read := v.RefreshedBalance(accounts);
            && (read.Ok? <==>
                  && VAULT_CONFIG_PDA in accounts && 0 < |accounts[VAULT_CONFIG_PDA].data|
                  && v.outputVault in accounts && 72 <= |accounts[v.outputVault].data|
                  && PubkeyAt(accounts[v.outputVault].data[0..32]) == v.outputMint)
            && (read.Ok? ==> read.value == U64At(accounts[v.outputVault].data[64..72]))
  {
  }

  // ----- Quotes -----

  // When an instance quotes, and what: zero fee, and the rate in whole units.
  lemma VaultQuoteDomain(v: VaultFields, params: QuoteParams)
    requires VaultSupported(v)
    ensures var quoted := v.Quote(params);
            var asked := params.swapMode == ExactIn
                         && (params.inputMint, params.outputMint) == (v.inputMint, v.outputMint);
            if v.outputMint == PROFIT_MINT
            then && (quoted.Ok? <==> asked && 100 <= params.amount < (v.outputVaultBalance + 1) * 100)
                 && (quoted.Ok? ==> var out := quoted.value.fill.outAmount;
                                    out * 100 <= params.amount < (out + 1) * 100)
            else && (quoted.Ok? <==> asked && 0 < params.amount && params.amount * 100 <= v.outputVaultBalance)
                 && (quoted.Ok? ==> quoted.value.fill.outAmount == params.amount * 100)
    ensures v.Quote(params).Ok? ==>
              var q := v.Quote(params).value;
              q.fill.inAmount == params.amount && q.fill.feeAmount == 0 && q.fill.feePctBps == 0
              && q.feeMint == v.inputMint
  {
    SupportedEdgesAgree(v.inputMint, v.outputMint);
  }

  // ----- Construction -----

  function Instance(key: Pubkey, inputMint: Pubkey, outputMint: Pubkey): Result<VaultFields> {
    var outputVault :- ConversionOutputVault(inputMint, outputMint).OkOr(UnsupportedDirection);
    Ok(VaultFields(key, inputMint, outputMint, outputVault, U64_MAX))
  }

  function KnownInstance(ext: Externals, pair: (Pubkey, Pubkey)): (fields: VaultFields)
    requires pair in KNOWN_PAIRS
    ensures Instance(ext.vaultInstanceKey(pair.0, pair.1), pair.0, pair.1) == Ok(fields)
    ensures VaultSupported(fields) && fields.outputVaultBalance == U64_MAX
  {
    SupportedEdgesAgree(pair.0, pair.1);
    VaultFields(ext.vaultInstanceKey(pair.0, pair.1), pair.0, pair.1, VaultForMint(pair.1).value, U64_MAX)
  }

  // One uncapped instance for each known pair, under the pair's derived key, and
  // each is what construction from those mints would give.
  function KnownInstances(ext: Externals): (instances: seq<VaultFields>)
    ensures |instances| == |KNOWN_PAIRS|
    ensures forall i :: 0 <= i < |instances| ==>
                          && (instances[i].inputMint, instances[i].outputMint) == KNOWN_PAIRS[i]
                          && instances[i].key == ext.vaultInstanceKey(KNOWN_PAIRS[i].0, KNOWN_PAIRS[i].1)
                          && Instance(instances[i].key, KNOWN_PAIRS[i].0, KNOWN_PAIRS[i].1) == Ok(instances[i])
                          && VaultSupported(instances[i]) && instances[i].outputVaultBalance == U64_MAX
  {
    seq(|KNOWN_PAIRS|, i requires 0 <= i < |KNOWN_PAIRS| => KnownInstance(ext, KNOWN_PAIRS[i]))
  }

  // The factory covers the supported conversions exactly: an edge has an output
  // vault iff some instance serves it, and never two.
  lemma KnownInstancesCoverEdges(ext: Externals, inputMint: Pubkey, outputMint: Pubkey)
    ensures var known := KnownInstances(ext);
            && (ConversionOutputVault(inputMint, outputMint).Some?
                <==> exists i :: 0 <= i < |known| && Serves(known[i], inputMint, outputMint))
            && forall i, j :: 0 <= i < |known| && 0 <= j < |known|
                              && Serves(known[i], inputMint, outputMint) && Serves(known[j], inputMint, outputMint)
                              ==> i == j
  {
    var known := KnownInstances(ext);
    SupportedEdgesAgree(inputMint, outputMint);
    if (inputMint, outputMint) in KNOWN_PAIRS {
      var i :| 0 <= i < |KNOWN_PAIRS| && KNOWN_PAIRS[i] == (inputMint, outputMint);
      assert Serves(known[i], inputMint, outputMint);
    }
  }

  predicate Serves(v: VaultFields, inputMint: Pubkey, outputMint: Pubkey) {
    v.inputMint == inputMint && v.outputMint == outputMint
  }

  // `from_keyed_account`: mints from the parameters if given, else the first known
  // instance with this key.
  method FromKeyedAccount(ext: Externals, key: Pubkey, mints: Option<(Pubkey, Pubkey)>)
    returns (r: Result<VaultFields>)
    ensures mints.Some? ==>
              var (inputMint, outputMint) := mints.value;
              && (r.Ok? <==> || (IsFaction(inputMint) && outputMint == PROFIT_MINT)
                             || (inputMint == PROFIT_MINT && IsFaction(outputMint)))
              && (r.Ok? ==> (r.value.key, r.value.inputMint, r.value.outputMint) == (key, inputMint, outputMint))
              && (r.Err? ==> r.error == UnsupportedDirection)
    ensures mints.None? ==>
              var known := KnownInstances(ext);
              if r.Ok?
              then exists i :: 0 <= i < |known| && known[i] == r.value && r.value.key == key
                               && forall j :: 0 <= j < i ==> known[j].key != key
              else r.error == UnknownKey && forall i :: 0 <= i < |known| ==> known[i].key != key
    ensures r.Ok? ==> VaultSupported(r.value) && r.value.outputVaultBalance == U64_MAX
  {
    if mints.Some? {
      SupportedEdgesAgree(mints.value.0, mints.value.1);
      return Instance(key, mints.value.0, mints.value.1);
    }
    var known := KnownInstances(ext);
    for i := 0 to |known|
      invariant forall j :: 0 <= j < i ==> known[j].key != key
    {
      if known[i].key == key {
        SupportedEdgesAgree(KNOWN_PAIRS[i].0, KNOWN_PAIRS[i].1);
        return Ok(known[i]);
      }
    }
    return Err(UnknownKey);
  }

  // Fixed at construction; no refresh changes it.
  predicate VaultSupported(v: VaultFields) {
    && (|| (IsFaction(v.inputMint) && v.outputMint == PROFIT_MINT)
        || (v.inputMint == PROFIT_MINT && IsFaction(v.outputMint)))
    && VaultHolds(Some(v.outputVault), v.outputMint)
  }

  method AllPoolKeys(ext: Externals) returns (keys: seq<Pubkey>)
    ensures keys == [CRIME_SOL_POOL, FRAUD_SOL_POOL,
                     ext.vaultInstanceKey(CRIME_MINT, PROFIT_MINT), ext.vaultInstanceKey(FRAUD_MINT, PROFIT_MINT),
                     ext.vaultInstanceKey(PROFIT_MINT, CRIME_MINT), ext.vaultInstanceKey(PROFIT_MINT, FRAUD_MINT)]
  {
    keys := [CRIME_SOL_POOL, FRAUD_SOL_POOL];
    var known := KnownInstances(ext);
    for i := 0 to |known|
      invariant |keys| == 2 + i
      invariant keys[..2] == [CRIME_SOL_POOL, FRAUD_SOL_POOL]
      invariant forall j :: 0 <= j < i ==> keys[2 + j] == known[j].key
    {
      keys := keys + [known[i].key];
    }
    assert keys[0] == keys[..2][0] && keys[1] == keys[..2][1];
    assert known[0].key == ext.vaultInstanceKey(CRIME_MINT, PROFIT_MINT);
    assert known[1].key == ext.vaultInstanceKey(FRAUD_MINT, PROFIT_MINT);
    assert known[2].key == ext.vaultInstanceKey(PROFIT_MINT, CRIME_MINT);
    assert known[3].key == ext.vaultInstanceKey(PROFIT_MINT, FRAUD_MINT);
    assert forall j :: 0 <= j < 4 ==> keys[2 + j] == known[j].key;
    assert keys == [keys[0], keys[1], keys[2 + 0], keys[2 + 1], keys[2 + 2], keys[2 + 3]];
  }

  // ----- Account list -----

  // None where the source would panic on an unknown mint.
  function VaultMetas(ext: Externals, user: Pubkey, userInput: Pubkey, userOutput: Pubkey,
                      inputMint: Pubkey, outputMint: Pubkey): Option<seq<AccountMeta>>
  {
    var vaultInput :- VaultForMint(inputMint);
    var vaultOutput :- VaultForMint(outputMint);
    Some([ReadonlySigner(user), Readonly(VAULT_CONFIG_PDA), Writable(userInput), Writable(userOutput),
          Readonly(inputMint), Readonly(outputMint), Writable(vaultInput), Writable(vaultOutput),
          Readonly(TOKEN_2022_PROGRAM_ID)]
         + HookMetas(ext, inputMint, userInput, vaultInput)
         + HookMetas(ext, outputMint, vaultOutput, userOutput))
  }

  // No supported instance panics while building its list. The list has the
  // advertised length, pays out of the vault whose balance caps the quotes, and
  // its hooks follow the two transfers: into the vault, then out of it.
  lemma VaultListAgrees(ext: Externals, v: VaultFields, user: Pubkey, userInput: Pubkey, userOutput: Pubkey)
    requires VaultSupported(v)
    ensures var built := VaultMetas(ext, user, userInput, userOutput, v.inputMint, v.outputMint);
            && built.Some?
            && var metas := built.value;
               && |metas| == VAULT_ACCOUNTS_LEN == 17
               && metas[0] == ReadonlySigner(user) && metas[1] == Readonly(VAULT_CONFIG_PDA)
               && metas[2] == Writable(userInput) && metas[3] == Writable(userOutput)
               && metas[4] == Readonly(v.inputMint) && metas[5] == Readonly(v.outputMint)
               && metas[6].isWritable && !metas[6].isSigner && VaultHolds(Some(metas[6].pubkey), v.inputMint)
               && metas[7] == Writable(v.outputVault)
               && metas[8] == Readonly(TOKEN_2022_PROGRAM_ID)
               && HooksAt(ext, metas, 9, v.inputMint, userInput, metas[6].pubkey)
               && HooksAt(ext, metas, 13, v.outputMint, v.outputVault, userOutput)
  {
    SupportedEdgesAgree(v.inputMint, v.outputMint);
  }

  // The four accounts of one hooked transfer.
  predicate HooksAt(ext: Externals, metas: seq<AccountMeta>, at: nat, mint: Pubkey, source: Pubkey, dest: Pubkey) {
    && at + 4 <= |metas|
    && (mint == CRIME_MINT ==> metas[at] == Readonly(CRIME_HOOK_META))
    && (mint == FRAUD_MINT ==> metas[at] == Readonly(FRAUD_HOOK_META))
    && (mint == PROFIT_MINT ==> metas[at] == Readonly(PROFIT_HOOK_META))
    && metas[at + 1] == Readonly(ext.whitelistEntry(source))
    && metas[at + 2] == Readonly(ext.whitelistEntry(dest))
    && metas[at + 3] == Readonly(TRANSFER_HOOK_PROGRAM_ID)
  }

  // ----- The object -----

  class VaultAmm {
    const key: Pubkey
    const inputMint: Pubkey
    const outputMint: Pubkey
    const outputVault: Pubkey
    var outputVaultBalance: u64

    function Fields(): VaultFields
      reads this
    {
      VaultFields(key, inputMint, outputMint, outputVault, outputVaultBalance)
    }

    constructor (fields: VaultFields)
      ensures Fields() == fields
    {
      key, inputMint, outputMint := fields.key, fields.inputMint, fields.outputMint;
      outputVault, outputVaultBalance := fields.outputVault, fields.outputVaultBalance;
    }

    // A failing update keeps the balance it had: unlike the faction pool, the
    // vault goes on quoting against it.
    method Update(accounts: AccountMap) returns (r: Result<()>)
      modifies this`outputVaultBalance
      ensures match old(Fields()).RefreshedBalance(accounts)
              case Ok(balance) => r == Ok(()) && outputVaultBalance == balance
              case Err(error) => r == Err(error) && outputVaultBalance == old(outputVaultBalance)
    {
      if VAULT_CONFIG_PDA !in accounts {
        return Err(AccountMissing);
      }
      if accounts[VAULT_CONFIG_PDA].data == [] {
        return Err(EmptyConfig);
      }
      if outputVault !in accounts {
        return Err(AccountMissing);
      }
      var balance :- ParseTokenAccountAmount(accounts[outputVault].data, outputMint);
      outputVaultBalance := balance;
      return Ok(());
    }

    // What a supported object quotes, in terms of the balance it holds now.
    function Quote(params: QuoteParams): (quoted: Result<SwapQuote>)
      reads this
      ensures VaultSupported(Fields()) && outputMint == PROFIT_MINT ==>
                && (quoted.Ok? <==> && params.swapMode == ExactIn
                                    && params.inputMint == inputMint && params.outputMint == outputMint
                                    && 100 <= params.amount < (outputVaultBalance + 1) * 100)
                && (quoted.Ok? ==> var out := quoted.value.fill.outAmount;
                                   out * 100 <= params.amount < (out + 1) * 100)
      ensures VaultSupported(Fields()) && outputMint != PROFIT_MINT ==>
                && (quoted.Ok? <==> && params.swapMode == ExactIn
                                    && params.inputMint == inputMint && params.outputMint == outputMint
                                    && 0 < params.amount && params.amount * 100 <= outputVaultBalance)
                && (quoted.Ok? ==> quoted.value.fill.outAmount == params.amount * 100)
      ensures VaultSupported(Fields()) && quoted.Ok? ==>
                && quoted.value.feeMint == inputMint
                && quoted.value.fill.inAmount == params.amount
                && quoted.value.fill.feeAmount == 0 && quoted.value.fill.feePctBps == 0
    {
      Fields().Quote(params)
    }

    // The pair is checked and the swap mode is not: an exact-out request that this
    // object refuses to quote still gets its account list.
    method GetSwapAndAccountMetas(ext: Externals, params: SwapParams) returns (r: Result<seq<AccountMeta>>)
      requires VaultSupported(Fields())
      ensures r.Ok? <==> params.sourceMint == inputMint && params.destinationMint == outputMint
      ensures r.Err? ==> r.error == MintPairMismatch
      ensures r.Ok? ==>
                Some(r.value) == VaultMetas(ext, params.tokenTransferAuthority, params.sourceTokenAccount,
                                            params.destinationTokenAccount, inputMint, outputMint)
    {
      if params.sourceMint != inputMint || params.destinationMint != outputMint {
        return Err(MintPairMismatch);
      }
      var user, source, destination :=
        params.tokenTransferAuthority, params.sourceTokenAccount, params.destinationTokenAccount;
      VaultListAgrees(ext, Fields(), user, source, destination);
      return Ok(VaultMetas(ext, user, source, destination, inputMint, outputMint).value);
    }
  }
}
