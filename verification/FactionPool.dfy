// The faction-pool quoting object of src/sol_pool_amm.rs: its fields as a value,
// and every operation on them as a function of that value.
module FactionPool {
  import opened Results
  import opened Integers
  import opened Addresses
  import opened AmmInterface
  import opened PoolState
  import opened EpochState
  import opened Pricing
  import opened Instruction
  import opened PoolAccounts

  datatype FactionRole = Crime | Fraud

  function RoleOf(mint: Pubkey): Option<FactionRole> {
    if mint == CRIME_MINT then Some(Crime)
    else if mint == FRAUD_MINT then Some(Fraud)
    else None
  }

  const ACCOUNTS_LEN: nat := 25

  // The fields of `SolPoolAmm`, less its shared clock.
  datatype PoolFields = PoolFields(
    key: Pubkey,
    pool: ParsedPoolState,
    factionMint: Pubkey, quoteMint: Pubkey, faction: FactionRole,
    buyTaxBps: u16, sellTaxBps: u16,
    pauseEndSlot: u64, tradingPaused: bool,
    epochInitialized: bool, stateRefreshed: bool)
  {
    predicate IsCrime() {
      faction == Crime
    }

    function CurrentReserves(): Reserves {
      if pool.mintA == quoteMint then Reserves(pool.reserveA, pool.reserveB)
      else Reserves(pool.reserveB, pool.reserveA)
    }

    function QuoteTokenProgram(): Pubkey {
      if pool.mintA == quoteMint then pool.tokenProgramA else pool.tokenProgramB
    }

    function CurrentRates(): Rates {
      Rates(pool.lpFeeBps, buyTaxBps, sellTaxBps)
    }

    predicate ValidMintPair(input: Pubkey, output: Pubkey, isBuy: bool) {
      if isBuy then input == quoteMint && output == factionMint
      else input == factionMint && output == quoteMint
    }

    predicate IsActive(slot: u64) {
      && pool.initialized
      && !pool.locked
      && epochInitialized
      && stateRefreshed
      && !tradingPaused
      && slot >= pauseEndSlot
    }

    function Quote(params: QuoteParams, slot: u64): Result<SwapQuote> {
      if params.swapMode == ExactOut then Err(ExactOutUnsupported)
      else
        var isBuy := params.inputMint == quoteMint;
        if !ValidMintPair(params.inputMint, params.outputMint, isBuy) then Err(MintPairMismatch)
        else if !IsActive(slot) then Err(Inactive)
        else
          var fill :- if isBuy then QuoteBuy(CurrentReserves(), CurrentRates(), params.amount)
                      else QuoteSell(CurrentReserves(), CurrentRates(), params.amount);
          Ok(SwapQuote(fill, quoteMint))
    }

    function AccountsToUpdate(): seq<Pubkey> {
      [key, EPOCH_STATE_PDA] + if quoteMint != NATIVE_MINT then [quoteMint] else []
    }

    // ----- update -----

    // The object after `update`, and what `update` returns. The tax and pause
    // fields are written before the last check, the pool after it.
    function Updated(ext: Externals, accounts: AccountMap): (PoolFields, Result<()>) {
      var stale := this.(stateRefreshed := false);
      match RefreshedPool(key, pool, accounts)
      case Err(error) => (stale, Err(error))
      case Ok(parsed) =>
        match RefreshedEpoch(accounts)
        case Err(error) => (stale, Err(error))
        case Ok(epoch) =>
          var taxed := stale.WithEpoch(epoch);
          match QuoteMintCheck(ext, quoteMint, QuoteTokenProgram(), accounts)
          case Err(error) => (taxed, Err(error))
          case Ok(_) => (taxed.(pool := parsed, stateRefreshed := true), Ok(()))
    }

    function WithEpoch(epoch: ParsedEpochState): PoolFields {
      this.(buyTaxBps := epoch.TaxBps(IsCrime(), true),
            sellTaxBps := epoch.TaxBps(IsCrime(), false),
            pauseEndSlot := epoch.pauseEndSlot,
            tradingPaused := epoch.tradingPaused,
            epochInitialized := epoch.initialized)
    }

    // ----- get_swap_and_account_metas -----

    function SwapMetas(ext: Externals, params: SwapParams): Result<seq<AccountMeta>> {
      if params.swapMode == ExactOut then Err(ExactOutUnsupported)
      else
        var isBuy := params.sourceMint == quoteMint;
        if !ValidMintPair(params.sourceMint, params.destinationMint, isBuy) then Err(MintPairMismatch)
        else
          var lane :- LaneForMints(quoteMint, factionMint, params.sourceMint, params.destinationMint)
                      .OkOr(UnsupportedPair);
          LaneMetas(ext, lane, params)
    }

    function LaneMetas(ext: Externals, lane: TaxSwapLane, params: SwapParams): Result<seq<AccountMeta>>
      requires lane != SolBuy
    {
      var user := params.tokenTransferAuthority;
      var source, destination := params.sourceTokenAccount, params.destinationTokenAccount;
      match lane
      case SolBuyWsol => WsolMetas(ext, user, destination, source, key, pool, true)
      case SolSell => WsolMetas(ext, user, source, destination, key, pool, false)
      case SplBuy => SplBuyMetas(ext, user, source, destination, key, pool)
      case SplSell => SplSellMetas(ext, user, source, destination, key, pool)
    }
  }

  // The three fallible stages of `update`.

  function RefreshedPool(key: Pubkey, known: ParsedPoolState, accounts: AccountMap): Result<ParsedPoolState> {
    if key !in accounts then Err(AccountMissing)
    else if accounts[key].owner != AMM_PROGRAM_ID then Err(WrongOwner)
    else
      var parsed :- ParsePoolState(accounts[key].data);
      if parsed.SameIdentity(known) then Ok(parsed) else Err(IdentityChanged)
  }

  function RefreshedEpoch(accounts: AccountMap): Result<ParsedEpochState> {
    if EPOCH_STATE_PDA !in accounts then Err(AccountMissing)
    else if accounts[EPOCH_STATE_PDA].owner != EPOCH_PROGRAM_ID then Err(WrongOwner)
    else ParseEpochState(accounts[EPOCH_STATE_PDA].data)
  }

  function QuoteMintCheck(ext: Externals, quoteMint: Pubkey, program: Pubkey, accounts: AccountMap): Result<()> {
    if quoteMint == NATIVE_MINT then Ok(())
    else if quoteMint !in accounts then Err(AccountMissing)
    else if !ext.quoteMintAccepted(accounts[quoteMint].data, accounts[quoteMint].owner, program)
    then Err(QuoteMintRejected)
    else Ok(())
  }

  // `from_keyed_account`
  function Construct(ext: Externals, key: Pubkey, account: Account): Result<PoolFields> {
    if account.owner != AMM_PROGRAM_ID then Err(WrongOwner)
    else
      var parsed :- ParsePoolState(account.data);
      Admit(ext, key, parsed)
  }

  function Admit(ext: Externals, key: Pubkey, p: ParsedPoolState): Result<PoolFields> {
    if !p.initialized then Err(Uninitialized)
    else if !p.mintA.Before(p.mintB) then Err(MintsOutOfOrder)
    else if key != ext.poolAddress(p.mintA, p.mintB) then Err(NotCanonicalKey)
    else if !IsTokenProgram(p.tokenProgramA) || !IsTokenProgram(p.tokenProgramB) then Err(UnsupportedTokenProgram)
    else
      match (RoleOf(p.mintA), RoleOf(p.mintB))
      case (Some(role), None) => AdmitRoles(key, p, p.mintA, p.mintB, role, p.tokenProgramA)
      case (None, Some(role)) => AdmitRoles(key, p, p.mintB, p.mintA, role, p.tokenProgramB)
      case _ => Err(NotOneFactionMint)
  }

  function AdmitRoles(key: Pubkey, p: ParsedPoolState, factionMint: Pubkey, quoteMint: Pubkey,
                      faction: FactionRole, factionProgram: Pubkey): Result<PoolFields>
  {
    var quoteProgram := if p.mintA == quoteMint then p.tokenProgramA else p.tokenProgramB;
    if factionProgram != TOKEN_2022_PROGRAM_ID then Err(FactionNotToken2022)
    else if quoteMint == NATIVE_MINT && quoteProgram != SPL_TOKEN_PROGRAM_ID then Err(WsolNotClassicSpl)
    else Ok(PoolFields(key, p, factionMint, quoteMint, faction, 0, 0, 0, false, false, false))
  }

  // ----- What construction guarantees -----

  // A pool the protocol could have created at this address, judged by its two
  // sides and not by the order in which construction looks at them.
  predicate Canonical(ext: Externals, key: Pubkey, p: ParsedPoolState) {
    && p.mintA.Before(p.mintB)
    && key == ext.poolAddress(p.mintA, p.mintB)
    && SideAdmitted(p.mintA, p.tokenProgramA)
    && SideAdmitted(p.mintB, p.tokenProgramB)
    && (IsFaction(p.mintA) <==> !IsFaction(p.mintB))
  }

  predicate SideAdmitted(mint: Pubkey, program: Pubkey) {
    if IsFaction(mint) then program == TOKEN_2022_PROGRAM_ID
    else if mint == NATIVE_MINT then program == SPL_TOKEN_PROGRAM_ID
    else program == SPL_TOKEN_PROGRAM_ID || program == TOKEN_2022_PROGRAM_ID
  }

  // The roles an object holds are those of its pool.
  predicate RolesMatch(o: PoolFields) {
    && (|| (o.factionMint == o.pool.mintA && o.quoteMint == o.pool.mintB)
        || (o.factionMint == o.pool.mintB && o.quoteMint == o.pool.mintA))
    && RoleOf(o.factionMint) == Some(o.faction)
    && !IsFaction(o.quoteMint)
  }

  predicate WellFormed(ext: Externals, o: PoolFields) {
    Canonical(ext, o.key, o.pool) && RolesMatch(o)
  }

  // Construction accepts exactly the accounts of the AMM program that hold an
  // initialized canonical pool, and never yields an active object.
  lemma ConstructionDomain(ext: Externals, key: Pubkey, account: Account)
    ensures Construct(ext, key, account).Ok?
            <==> && account.owner == AMM_PROGRAM_ID
                 && ParsePoolState(account.data).Ok?
                 && ParsePoolState(account.data).value.initialized
                 && Canonical(ext, key, ParsePoolState(account.data).value)
    ensures Construct(ext, key, account).Ok? ==>
              var o := Construct(ext, key, account).value;
              && WellFormed(ext, o)
              && o.key == key
              && Ok(o.pool) == ParsePoolState(account.data)
              && !o.stateRefreshed && !o.epochInitialized && !o.tradingPaused
              && o.buyTaxBps == 0 && o.sellTaxBps == 0 && o.pauseEndSlot == 0
  {
    var parsed := ParsePoolState(account.data);
    if parsed.Ok? {
      AdmissionDomain(ext, key, parsed.value);
    }
  }

  lemma AdmissionDomain(ext: Externals, key: Pubkey, p: ParsedPoolState)
    ensures Admit(ext, key, p).Ok? <==> p.initialized && Canonical(ext, key, p)
    ensures Admit(ext, key, p).Ok? ==>
              var o := Admit(ext, key, p).value;
              && WellFormed(ext, o) && o.key == key && o.pool == p
              && !o.stateRefreshed && !o.epochInitialized && !o.tradingPaused
              && o.buyTaxBps == 0 && o.sellTaxBps == 0 && o.pauseEndSlot == 0
  {
  }

  // Every initialized canonical pool, written out, constructs to itself, and such
  // pools exist for both factions and every quote mint.
  lemma CanonicalPoolConstructs(ext: Externals, key: Pubkey, p: ParsedPoolState, poolType: u8)
    requires p.initialized && Canonical(ext, key, p)
    ensures var built := Construct(ext, key, Account(WritePoolState(p, poolType), AMM_PROGRAM_ID));
            built.Ok? && built.value.pool == p
  {
    PoolStateRoundTrip(p, poolType);
    ConstructionDomain(ext, key, Account(WritePoolState(p, poolType), AMM_PROGRAM_ID));
  }

  lemma CanonicalPoolsExist(ext: Externals, faction: FactionRole, quoteMint: Pubkey)
    returns (key: Pubkey, account: Account)
    requires !IsFaction(quoteMint)
    ensures var built := Construct(ext, key, account);
            built.Ok? && built.value.faction == faction && built.value.quoteMint == quoteMint
  {
    var mint := if faction == Crime then CRIME_MINT else FRAUD_MINT;
    var spl, t22 := SPL_TOKEN_PROGRAM_ID, TOKEN_2022_PROGRAM_ID;
    var p := if quoteMint.Before(mint)
             then ParsedPoolState(quoteMint, mint, TREASURY, TREASURY, 1, 1, 100, true, false, 0, 0, 0, spl, t22)
             else ParsedPoolState(mint, quoteMint, TREASURY, TREASURY, 1, 1, 100, true, false, 0, 0, 0, t22, spl);
    key := ext.poolAddress(p.mintA, p.mintB);
    account := Account(WritePoolState(p, 0), AMM_PROGRAM_ID);
    CanonicalPoolConstructs(ext, key, p, 0);
    ConstructionDomain(ext, key, account);
  }

  // With the real addresses, WSOL sorts below both faction mints: a WSOL pool is
  // always stored WSOL first, and the reversed branches of the SOL builders are
  // never taken for a constructed object.
  lemma WsolIsAlwaysSideA(ext: Externals, o: PoolFields)
    requires WellFormed(ext, o) && o.quoteMint == NATIVE_MINT
    ensures o.pool.mintA == NATIVE_MINT && ResolveSides(o.pool).Ok? && !ResolveSides(o.pool).value.tokenOnA
  {
  }
}
