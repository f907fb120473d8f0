// The object itself: fields updated in place, in the source's order.
module SolPoolAmmObject {
  import opened Results
  import opened Integers
  import opened Addresses
  import opened AmmInterface
  import opened PoolState
  import opened EpochState
  import opened Instruction
  import opened PoolAccounts
  import opened FactionPool
  import opened PoolRuns

  // Shared with the router, which moves the slot at any time.
  class ClockRef {
    var slot: u64
  }

  datatype Snapshot = Snapshot(pool: ParsedPoolState, epoch: ParsedEpochState)

  class SolPoolAmm {
    const ext: Externals
    const key: Pubkey
    const factionMint: Pubkey
    const quoteMint: Pubkey
    const faction: FactionRole
    const clock: ClockRef
    var pool: ParsedPoolState
    var buyTaxBps: u16
    var sellTaxBps: u16
    var pauseEndSlot: u64
    var tradingPaused: bool
    var epochInitialized: bool
    var stateRefreshed: bool

    // What the last successful update parsed; kept across failing ones.
    ghost var lastSnapshot: Option<Snapshot>

    function Fields(): PoolFields
      reads this
    {
      PoolFields(key, pool, factionMint, quoteMint, faction, buyTaxBps, sellTaxBps,
                 pauseEndSlot, tradingPaused, epochInitialized, stateRefreshed)
    }

    // A refreshed object is wholly its last snapshot. A torn one is not refreshed.
    ghost predicate Valid()
      reads this
    {
      && WellFormed(ext, Fields())
      && (stateRefreshed ==>
            && lastSnapshot.Some?
            && pool == lastSnapshot.value.pool
            && Fields() == Fields().WithEpoch(lastSnapshot.value.epoch))
    }

    constructor (ext: Externals, fields: PoolFields, clock: ClockRef)
      requires WellFormed(ext, fields) && !fields.stateRefreshed
      ensures Valid() && Fields() == fields && lastSnapshot == None
      ensures this.ext == ext && this.clock == clock
    {
      this.ext, this.key, this.pool, this.clock := ext, fields.key, fields.pool, clock;
      factionMint, quoteMint, faction := fields.factionMint, fields.quoteMint, fields.faction;
      buyTaxBps, sellTaxBps := fields.buyTaxBps, fields.sellTaxBps;
      pauseEndSlot, tradingPaused := fields.pauseEndSlot, fields.tradingPaused;
      epochInitialized, stateRefreshed := fields.epochInitialized, false;
      lastSnapshot := None;
    }

    static method FromKeyedAccount(ext: Externals, key: Pubkey, account: Account, clock: ClockRef)
      returns (r: Result<SolPoolAmm>)
      ensures r.Ok? <==> Construct(ext, key, account).Ok?
      ensures r.Err? ==> Construct(ext, key, account) == Err(r.error)
      ensures r.Ok? ==>
                && fresh(r.value) && r.value.Valid() && r.value.clock == clock && r.value.ext == ext
                && Construct(ext, key, account) == Ok(r.value.Fields())
                && r.value.lastSnapshot == None
    {
      ConstructionDomain(ext, key, account);
      var fields :- Construct(ext, key, account);
      var amm := new SolPoolAmm(ext, fields, clock);
      return Ok(amm);
    }

    method GetAccountsToUpdate() returns (accounts: seq<Pubkey>)
      ensures accounts == Fields().AccountsToUpdate()
      ensures accounts == if quoteMint == NATIVE_MINT then [key, EPOCH_STATE_PDA] else [key, EPOCH_STATE_PDA, quoteMint]
    {
      accounts := [key, EPOCH_STATE_PDA];
      if quoteMint != NATIVE_MINT {
        accounts := accounts + [quoteMint];
      }
    }

    // The source's `update`, stage by stage: each failing stage leaves at once.
    method RefreshFields(accounts: AccountMap) returns (r: Result<()>)
      modifies this`stateRefreshed, this`buyTaxBps, this`sellTaxBps, this`pauseEndSlot,
               this`tradingPaused, this`epochInitialized, this`pool
      ensures var readPool, readEpoch := RefreshedPool(key, old(pool), accounts), RefreshedEpoch(accounts);
              && (readPool.Err? ==> r == Err(readPool.error))
              && (readPool.Ok? && readEpoch.Err? ==> r == Err(readEpoch.error))
              && (readPool.Ok? && readEpoch.Ok? ==>
                    && r == QuoteMintCheck(ext, quoteMint, old(Fields()).QuoteTokenProgram(), accounts)
                    && buyTaxBps == readEpoch.value.TaxBps(IsCrime(), true)
                    && sellTaxBps == readEpoch.value.TaxBps(IsCrime(), false)
                    && pauseEndSlot == readEpoch.value.pauseEndSlot
                    && tradingPaused == readEpoch.value.tradingPaused
                    && epochInitialized == readEpoch.value.initialized)
              && (readPool.Err? || readEpoch.Err? ==>
                    && unchanged(this`buyTaxBps) && unchanged(this`sellTaxBps) && unchanged(this`pauseEndSlot)
                    && unchanged(this`tradingPaused) && unchanged(this`epochInitialized))
              && (r.Err? ==> unchanged(this`pool))
              && (r.Ok? ==> readPool == Ok(pool))
      ensures stateRefreshed <==> r.Ok?
    {
      stateRefreshed := false;

      var poolState :- RefreshedPool(key, pool, accounts);
      var epochState :- RefreshedEpoch(accounts);
      buyTaxBps := epochState.TaxBps(IsCrime(), true);
      sellTaxBps := epochState.TaxBps(IsCrime(), false);
      pauseEndSlot := epochState.pauseEndSlot;
      tradingPaused := epochState.tradingPaused;
      epochInitialized := epochState.initialized;

      var _ :- QuoteMintCheck(ext, quoteMint, Fields().QuoteTokenProgram(), accounts);
      pool := poolState;
      stateRefreshed := true;
      return Ok(());
    }

    // `update`, with the ghost record of what the last success parsed.
    method Update(accounts: AccountMap) returns (r: Result<()>)
      requires Valid()
      modifies this`stateRefreshed, this`buyTaxBps, this`sellTaxBps, this`pauseEndSlot,
               this`tradingPaused, this`epochInitialized, this`pool, this`lastSnapshot
      ensures Valid()
      ensures (Fields(), r) == old(Fields()).Updated(ext, accounts)
      ensures r.Ok? <==> Admissible(ext, key, old(pool), accounts)
      ensures stateRefreshed <==> r.Ok?
      ensures r.Err? ==> pool == old(pool) && lastSnapshot == old(lastSnapshot)
      ensures r.Ok? ==>
                && lastSnapshot.Some?
                && RefreshedPool(key, old(pool), accounts) == Ok(lastSnapshot.value.pool)
                && RefreshedEpoch(accounts) == Ok(lastSnapshot.value.epoch)
    {
      ghost var before := Fields();
      r := RefreshFields(accounts);
      UpdateOutcome(ext, before, accounts);
      assert (Fields(), r) == before.Updated(ext, accounts);
      if r.Ok? {
        lastSnapshot := Some(Snapshot(pool, RefreshedEpoch(accounts).value));
      }
    }

    predicate IsCrime() {
      faction == Crime
    }

    // Active exactly when the latest update succeeded and its snapshot is open for
    // trading at the clock's slot, which may reopen it without another update.
    predicate IsActive(): (active: bool)
      reads this, clock
      ensures Valid() ==>
                (active <==> && stateRefreshed
                             && lastSnapshot.value.pool.initialized && !lastSnapshot.value.pool.locked
                             && lastSnapshot.value.epoch.initialized && !lastSnapshot.value.epoch.tradingPaused
                             && lastSnapshot.value.epoch.pauseEndSlot <= clock.slot)
    {
      Fields().IsActive(clock.slot)
    }

    // A quote never shows anything but the last successful update's snapshot, and
    // shows nothing at all after a failed one.
    function Quote(params: QuoteParams): (r: Result<SwapQuote>)
      requires Valid()
      reads this, clock
      ensures r.Ok? ==> IsActive() && lastSnapshot.Some?
      ensures stateRefreshed ==>
                r == SnapshotQuote(lastSnapshot.value.pool, lastSnapshot.value.epoch, clock.slot, params)
    {
      FreshQuote(params);
      Fields().Quote(params, clock.slot)
    }

    lemma FreshQuote(params: QuoteParams)
      requires Valid()
      ensures stateRefreshed ==>
                Fields().Quote(params, clock.slot)
                == SnapshotQuote(lastSnapshot.value.pool, lastSnapshot.value.epoch, clock.slot, params)
    {
      if stateRefreshed {
        FreshQuoteIsSnapshotQuote(ext, Fields(), lastSnapshot.value.epoch, clock.slot, params);
      }
    }

    method GetSwapAndAccountMetas(params: SwapParams) returns (r: Result<seq<AccountMeta>>)
      ensures r == Fields().SwapMetas(ext, params)
    {
      if params.swapMode == ExactOut {
        return Err(ExactOutUnsupported);
      }
      var isBuy := params.sourceMint == quoteMint;
      if !Fields().ValidMintPair(params.sourceMint, params.destinationMint, isBuy) {
        return Err(MintPairMismatch);
      }
      var lane :- LaneForMints(quoteMint, factionMint, params.sourceMint, params.destinationMint)
                  .OkOr(UnsupportedPair);
      var user := params.tokenTransferAuthority;
      var source, destination := params.sourceTokenAccount, params.destinationTokenAccount;
      match lane {
        case SolBuyWsol =>
          r := BuildWsolIntermediaryMetas(ext, user, destination, source, key, pool, true);
        case SolSell =>
          r := BuildWsolIntermediaryMetas(ext, user, source, destination, key, pool, false);
        case SplBuy =>
          r := BuildSplBuyMetas(ext, user, source, destination, key, pool);
        case SplSell =>
          r := BuildSplSellMetas(ext, user, source, destination, key, pool);
      }
    }
  }
}
