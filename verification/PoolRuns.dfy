// Whole lives of a faction-pool object: construction, then any sequence of
// succeeding and failing updates and clock moves.
module PoolRuns {
  import opened Results
  import opened Integers
  import opened Addresses
  import opened AmmInterface
  import opened PoolState
  import opened EpochState
  import opened Pricing
  import opened SwapRuns
  import opened PoolAccounts
  import opened FactionPool

  // ----- The reference: quoting straight from account bytes -----

  // A quote from one parsed pool and one parsed epoch. It finds the sides with the
  // SPL builders' resolver, knows no object, and remembers nothing.
  function SnapshotQuote(p: ParsedPoolState, e: ParsedEpochState, slot: u64, params: QuoteParams): Result<SwapQuote> {
    if params.swapMode == ExactOut then Err(ExactOutUnsupported)
    else
      var sides :- ResolveFactionSides(p);
      var isBuy := (params.inputMint, params.outputMint) == (sides.quoteMint, sides.factionMint);
      var isSell := (params.inputMint, params.outputMint) == (sides.factionMint, sides.quoteMint);
      if !isBuy && !isSell then Err(MintPairMismatch)
      else if !p.initialized || p.locked || !e.initialized || e.tradingPaused || slot < e.pauseEndSlot
      then Err(Inactive)
      else
        var reserves := if sides.factionIsA then Reserves(p.reserveB, p.reserveA) else Reserves(p.reserveA, p.reserveB);
        var rates := if sides.factionMint == CRIME_MINT then Rates(p.lpFeeBps, e.crimeBuyTaxBps, e.crimeSellTaxBps)
                     else Rates(p.lpFeeBps, e.fraudBuyTaxBps, e.fraudSellTaxBps);
        var fill :- if isBuy then QuoteBuy(reserves, rates, params.amount)
                    else QuoteSell(reserves, rates, params.amount);
        Ok(SwapQuote(fill, sides.quoteMint))
  }

  function QuoteFromBytes(poolData: seq<u8>, epochData: seq<u8>, slot: u64, params: QuoteParams): Result<SwapQuote> {
    var p :- ParsePoolState(poolData);
    var e :- ParseEpochState(epochData);
    SnapshotQuote(p, e, slot, params)
  }

  lemma FreshQuoteIsSnapshotQuote(ext: Externals, o: PoolFields, e: ParsedEpochState, slot: u64, params: QuoteParams)
    requires WellFormed(ext, o) && o.stateRefreshed && o == o.WithEpoch(e)
    ensures o.Quote(params, slot) == SnapshotQuote(o.pool, e, slot, params)
  {
  }

  // ----- One update -----

  // Which account maps refresh an object born at `key` as `born`: the right owners,
  // bytes that parse, the six identity fields and an accepted quote mint. Reserves,
  // fee and lifecycle flags are free, and so is the object's history.
  predicate Admissible(ext: Externals, key: Pubkey, born: ParsedPoolState, accounts: AccountMap) {
    && key in accounts
    && accounts[key].owner == AMM_PROGRAM_ID
    && ParsePoolState(accounts[key].data).Ok?
    && IdentityUnchanged(born, ParsePoolState(accounts[key].data).value)
    && EPOCH_STATE_PDA in accounts
    && accounts[EPOCH_STATE_PDA].owner == EPOCH_PROGRAM_ID
    && ParseEpochState(accounts[EPOCH_STATE_PDA].data).Ok?
    && QuoteMintAdmissible(ext, born, accounts)
  }

  predicate IdentityUnchanged(born: ParsedPoolState, p: ParsedPoolState) {
    && p.mintA == born.mintA && p.mintB == born.mintB
    && p.vaultA == born.vaultA && p.vaultB == born.vaultB
    && p.tokenProgramA == born.tokenProgramA && p.tokenProgramB == born.tokenProgramB
  }

  predicate QuoteMintAdmissible(ext: Externals, born: ParsedPoolState, accounts: AccountMap) {
    var (quoteMint, program) :=
      if IsFaction(born.mintA) then (born.mintB, born.tokenProgramB) else (born.mintA, born.tokenProgramA);
    quoteMint == NATIVE_MINT
    || (quoteMint in accounts
        && ext.quoteMintAccepted(accounts[quoteMint].data, accounts[quoteMint].owner, program))
  }

  // What no update ever changes.
  predicate SameIdentity(o: PoolFields, o': PoolFields) {
    && o'.key == o.key
    && o'.factionMint == o.factionMint && o'.quoteMint == o.quoteMint && o'.faction == o.faction
    && IdentityUnchanged(o.pool, o'.pool)
  }

  lemma UpdateOutcome(ext: Externals, o: PoolFields, accounts: AccountMap)
    requires WellFormed(ext, o)
    ensures var (o', outcome) := o.Updated(ext, accounts);
            && WellFormed(ext, o')
            && SameIdentity(o, o')
            && (outcome.Ok? <==> Admissible(ext, o.key, o.pool, accounts))
            && (o'.stateRefreshed <==> outcome.Ok?)
            && (outcome.Ok? ==>
                  && Ok(o'.pool) == ParsePoolState(accounts[o.key].data)
                  && RefreshedEpoch(accounts).Ok?
                  && o' == o'.WithEpoch(RefreshedEpoch(accounts).value))
            && (outcome.Err? ==> o'.pool == o.pool)
  {
    StagesOfAdmissible(ext, o, accounts);
  }

  // The three stages of an update pass exactly on an admissible map.
  lemma StagesOfAdmissible(ext: Externals, o: PoolFields, accounts: AccountMap)
    requires WellFormed(ext, o)
    ensures var readPool := RefreshedPool(o.key, o.pool, accounts);
            && (Admissible(ext, o.key, o.pool, accounts)
                <==> && readPool.Ok? && RefreshedEpoch(accounts).Ok?
                     && QuoteMintCheck(ext, o.quoteMint, o.QuoteTokenProgram(), accounts).Ok?)
            && (readPool.Ok? ==>
                  && o.key in accounts
                  && readPool == ParsePoolState(accounts[o.key].data)
                  && IdentityUnchanged(o.pool, readPool.value))
  {
  }

  // Any pool that differs from the known one in reserves, fee or flags alone is
  // installed: with an epoch under its program and, off WSOL, an accepted quote
  // mint, the update succeeds, whatever the two accounts' unread bytes hold.
  lemma MovedPoolRefreshes(ext: Externals, o: PoolFields, accounts: AccountMap, p: ParsedPoolState, poolType: u8,
                           e: ParsedEpochState, unread: seq<u8>)
    requires WellFormed(ext, o)
    requires o.pool.mintA == p.mintA && o.pool.mintB == p.mintB
    requires o.pool.vaultA == p.vaultA && o.pool.vaultB == p.vaultB
    requires o.pool.tokenProgramA == p.tokenProgramA && o.pool.tokenProgramB == p.tokenProgramB
    requires o.key in accounts && accounts[o.key] == Account(WritePoolState(p, poolType), AMM_PROGRAM_ID)
    requires |unread| == EPOCH_STATE_LEN
    requires EPOCH_STATE_PDA in accounts
             && accounts[EPOCH_STATE_PDA] == Account(WriteEpochState(e, unread), EPOCH_PROGRAM_ID)
    requires QuoteMintAdmissible(ext, o.pool, accounts)
    ensures var (o', outcome) := o.Updated(ext, accounts);
            && outcome == Ok(())
            && o'.pool == p && o'.stateRefreshed
            && (o'.buyTaxBps, o'.sellTaxBps)
               == (if o.factionMint == CRIME_MINT then (e.crimeBuyTaxBps, e.crimeSellTaxBps)
                   else (e.fraudBuyTaxBps, e.fraudSellTaxBps))
            && o'.pauseEndSlot == e.pauseEndSlot
            && o'.tradingPaused == e.tradingPaused && o'.epochInitialized == e.initialized
  {
    PoolStateRoundTrip(p, poolType);
    EpochStateRoundTrip(e, unread);
    ParsedPoolRefreshes(ext, o, accounts, p, e);
  }

  lemma ParsedPoolRefreshes(ext: Externals, o: PoolFields, accounts: AccountMap,
                            p: ParsedPoolState, e: ParsedEpochState)
    requires WellFormed(ext, o) && IdentityUnchanged(o.pool, p)
    requires o.key in accounts && accounts[o.key].owner == AMM_PROGRAM_ID
    requires ParsePoolState(accounts[o.key].data) == Ok(p)
    requires EPOCH_STATE_PDA in accounts && accounts[EPOCH_STATE_PDA].owner == EPOCH_PROGRAM_ID
    requires ParseEpochState(accounts[EPOCH_STATE_PDA].data) == Ok(e)
    requires QuoteMintAdmissible(ext, o.pool, accounts)
    ensures o.Updated(ext, accounts) == (o.WithEpoch(e).(pool := p, stateRefreshed := true), Ok(()))
  {
    assert RefreshedPool(o.key, o.pool, accounts) == Ok(p);
    assert RefreshedEpoch(accounts) == Ok(e);
    StagesOfAdmissible(ext, o, accounts);
  }

  // A pool account that parses but has changed any of the six is refused as such.
  lemma ChangedIdentityRefused(ext: Externals, o: PoolFields, accounts: AccountMap, p: ParsedPoolState)
    requires o.key in accounts && accounts[o.key].owner == AMM_PROGRAM_ID
    requires ParsePoolState(accounts[o.key].data) == Ok(p)
    requires || o.pool.mintA != p.mintA || o.pool.mintB != p.mintB
             || o.pool.vaultA != p.vaultA || o.pool.vaultB != p.vaultB
             || o.pool.tokenProgramA != p.tokenProgramA || o.pool.tokenProgramB != p.tokenProgramB
    ensures o.Updated(ext, accounts) == (o.(stateRefreshed := false), Err(IdentityChanged))
  {
  }

  // A failing update leaves the object torn, new tax and pause fields beside the
  // old pool, exactly when the pool and the epoch were read and the quote mint
  // check failed. Any other failure only clears the refreshed flag.
  lemma FailedUpdateTearsAtMintCheck(ext: Externals, o: PoolFields, accounts: AccountMap)
    requires o.Updated(ext, accounts).1.Err?
    ensures var o' := o.Updated(ext, accounts).0;
            var stale := o.(stateRefreshed := false);
            if RefreshedPool(o.key, o.pool, accounts).Ok? && RefreshedEpoch(accounts).Ok?
            then QuoteMintCheck(ext, o.quoteMint, o.QuoteTokenProgram(), accounts).Err?
                 && o' == stale.WithEpoch(RefreshedEpoch(accounts).value)
            else o' == stale
    ensures o.quoteMint == NATIVE_MINT ==> o.Updated(ext, accounts).0 == o.(stateRefreshed := false)
  {
  }

  // Torn objects do occur: every object with an SPL quote can be driven to carry
  // any epoch's taxes beside its old pool.
  lemma TornObjectsOccur(ext: Externals, o: PoolFields, e: ParsedEpochState) returns (accounts: AccountMap)
    requires WellFormed(ext, o) && o.quoteMint != NATIVE_MINT
    requires o.key != EPOCH_STATE_PDA && o.quoteMint != o.key && o.quoteMint != EPOCH_STATE_PDA
    ensures o.Updated(ext, accounts) == (o.(stateRefreshed := false).WithEpoch(e), Err(AccountMissing))
  {
    var blank := seq(EPOCH_STATE_LEN, _ => 0);
    PoolStateRoundTrip(o.pool, 0);
    EpochStateRoundTrip(e, blank);
    accounts := TornBy(ext, o, e, WritePoolState(o.pool, 0), WriteEpochState(e, blank));
  }

  lemma TornBy(ext: Externals, o: PoolFields, e: ParsedEpochState, poolData: seq<u8>, epochData: seq<u8>)
    returns (accounts: AccountMap)
    requires o.quoteMint != NATIVE_MINT
    requires o.key != EPOCH_STATE_PDA && o.quoteMint != o.key && o.quoteMint != EPOCH_STATE_PDA
    requires ParsePoolState(poolData) == Ok(o.pool) && ParseEpochState(epochData) == Ok(e)
    ensures o.Updated(ext, accounts) == (o.(stateRefreshed := false).WithEpoch(e), Err(AccountMissing))
  {
    accounts := map[
      o.key := Account(poolData, AMM_PROGRAM_ID),
      EPOCH_STATE_PDA := Account(epochData, EPOCH_PROGRAM_ID)];
    assert RefreshedPool(o.key, o.pool, accounts) == Ok(o.pool);
    assert RefreshedEpoch(accounts) == Ok(e);
    assert o.quoteMint !in accounts;
  }

  // `update` reads nothing outside the accounts the object asks for.
  predicate SameAt(key: Pubkey, accounts: AccountMap, other: AccountMap) {
    (key in accounts <==> key in other) && (key in accounts && key in other ==> accounts[key] == other[key])
  }

  lemma AccountsToUpdateSuffice(ext: Externals, o: PoolFields, accounts: AccountMap, other: AccountMap)
    requires forall key :: key in o.AccountsToUpdate() ==> SameAt(key, accounts, other)
    ensures o.Updated(ext, accounts) == o.Updated(ext, other)
  {
    var asked := o.AccountsToUpdate();
    assert asked[0] == o.key && asked[1] == EPOCH_STATE_PDA;
    assert o.quoteMint != NATIVE_MINT ==> asked[2] == o.quoteMint;
    StagesReadOneAccount(ext, o, accounts, other);
  }

  // It asks for nothing it could do without: missing any one of them, the update
  // fails.
  lemma AccountsToUpdateNeeded(ext: Externals, o: PoolFields, accounts: AccountMap, key: Pubkey)
    requires key in o.AccountsToUpdate() && key !in accounts
    ensures o.Updated(ext, accounts).1.Err?
  {
  }

  lemma StagesReadOneAccount(ext: Externals, o: PoolFields, accounts: AccountMap, other: AccountMap)
    requires SameAt(o.key, accounts, other) && SameAt(EPOCH_STATE_PDA, accounts, other)
    requires o.quoteMint != NATIVE_MINT ==> SameAt(o.quoteMint, accounts, other)
    ensures RefreshedPool(o.key, o.pool, accounts) == RefreshedPool(o.key, o.pool, other)
    ensures RefreshedEpoch(accounts) == RefreshedEpoch(other)
    ensures QuoteMintCheck(ext, o.quoteMint, o.QuoteTokenProgram(), accounts)
            == QuoteMintCheck(ext, o.quoteMint, o.QuoteTokenProgram(), other)
  {
  }

  // ----- Runs -----

  datatype Event = Update(accounts: AccountMap) | ClockMove(slot: u64)

  // The object and the slot its shared clock shows.
  datatype World = World(amm: PoolFields, slot: u64)

  function After(ext: Externals, start: World, events: seq<Event>): World
    decreases |events|
  {
    if events == [] then start
    else
      var before := After(ext, start, events[..|events| - 1]);
      match events[|events| - 1]
      case Update(accounts) => before.(amm := before.amm.Updated(ext, accounts).0)
      case ClockMove(slot) => before.(slot := slot)
  }

  // The account map of the latest update, whether it succeeded or not.
  function LatestAccounts(events: seq<Event>): Option<AccountMap>
    decreases |events|
  {
    if events == [] then None
    else
      match events[|events| - 1]
      case Update(accounts) => Some(accounts)
      case ClockMove(_) => LatestAccounts(events[..|events| - 1])
  }

  // What a run maintains about the object, relative to the one it began with.
  ghost predicate HoldsLatestSnapshot(ext: Externals, born: PoolFields, o: PoolFields, latest: Option<AccountMap>) {
    && WellFormed(ext, o)
    && SameIdentity(born, o)
    && (o.stateRefreshed <==> latest.Some? && Admissible(ext, born.key, born.pool, latest.value))
    && (o.stateRefreshed ==>
          && Ok(o.pool) == ParsePoolState(latest.value[born.key].data)
          && o == o.WithEpoch(RefreshedEpoch(latest.value).value))
  }

  lemma {:induction false} RunHoldsLatestSnapshot(ext: Externals, born: PoolFields, slot: u64, events: seq<Event>)
    requires WellFormed(ext, born) && !born.stateRefreshed
    ensures HoldsLatestSnapshot(ext, born, After(ext, World(born, slot), events).amm, LatestAccounts(events))
    decreases |events|
  {
    if events != [] {
      var earlier := events[..|events| - 1];
      RunHoldsLatestSnapshot(ext, born, slot, earlier);
      var before := After(ext, World(born, slot), earlier).amm;
      match events[|events| - 1]
      case ClockMove(_) =>
      case Update(accounts) =>
        UpdateOutcome(ext, before, accounts);
        AdmissibleByIdentity(ext, born, before, accounts);
    }
  }

  lemma AdmissibleByIdentity(ext: Externals, o: PoolFields, o': PoolFields, accounts: AccountMap)
    requires SameIdentity(o, o')
    ensures Admissible(ext, o.key, o.pool, accounts) <==> Admissible(ext, o'.key, o'.pool, accounts)
  {
  }

  // No torn or stale state is ever quoted. After construction and any run, every
  // quote fails unless the latest update succeeded, and then it is exactly what
  // the pool and epoch bytes of that one account map say at the current slot.
  lemma QuotesOnlyTheLatestSnapshot(ext: Externals, key: Pubkey, account: Account,
                                    slot: u64, events: seq<Event>, params: QuoteParams)
    requires Construct(ext, key, account).Ok?
    ensures var born := Construct(ext, key, account).value;
            var world := After(ext, World(born, slot), events);
            var latest := LatestAccounts(events);
            if latest.Some? && Admissible(ext, key, born.pool, latest.value)
            then world.amm.Quote(params, world.slot)
                 == QuoteFromBytes(latest.value[key].data, latest.value[EPOCH_STATE_PDA].data, world.slot, params)
            else world.amm.Quote(params, world.slot).Err?
  {
    ConstructionDomain(ext, key, account);
    var born := Construct(ext, key, account).value;
    var world := After(ext, World(born, slot), events);
    var latest := LatestAccounts(events);
    RunHoldsLatestSnapshot(ext, born, slot, events);
    if latest.Some? && Admissible(ext, key, born.pool, latest.value) {
      var e := RefreshedEpoch(latest.value).value;
      FreshQuoteIsSnapshotQuote(ext, world.amm, e, world.slot, params);
    }
  }

  // Construction's guarantees hold at every point of every run, and the identity
  // that fixes addresses never moves.
  lemma RunKeepsConstruction(ext: Externals, key: Pubkey, account: Account, slot: u64, events: seq<Event>)
    requires Construct(ext, key, account).Ok?
    ensures var born := Construct(ext, key, account).value;
            var o := After(ext, World(born, slot), events).amm;
            && WellFormed(ext, o)
            && o.key == key
            && SameIdentity(born, o)
            && o.AccountsToUpdate() == born.AccountsToUpdate()
  {
    ConstructionDomain(ext, key, account);
    RunHoldsLatestSnapshot(ext, Construct(ext, key, account).value, slot, events);
  }

  // The account list for given swap parameters is the same at every point of a run.
  lemma AccountListFixedOverRun(ext: Externals, key: Pubkey, account: Account,
                                slot: u64, events: seq<Event>, params: SwapParams)
    requires Construct(ext, key, account).Ok?
    ensures var born := Construct(ext, key, account).value;
            After(ext, World(born, slot), events).amm.SwapMetas(ext, params) == born.SwapMetas(ext, params)
  {
    RunKeepsConstruction(ext, key, account, slot, events);
    var born := Construct(ext, key, account).value;
    MetasByIdentity(ext, born, After(ext, World(born, slot), events).amm, params);
  }

  lemma MetasByIdentity(ext: Externals, o: PoolFields, o': PoolFields, params: SwapParams)
    requires SameIdentity(o, o')
    ensures o.SwapMetas(ext, params) == o'.SwapMetas(ext, params)
  {
    forall user, first, second, isBuy {
      BuildersByIdentity(ext, user, first, second, o.key, o.pool, o'.pool, isBuy);
    }
  }

  // The builders read no field of the pool outside its identity.
  lemma BuildersByIdentity(ext: Externals, user: Pubkey, first: Pubkey, second: Pubkey, key: Pubkey,
                           p: ParsedPoolState, p': ParsedPoolState, isBuy: bool)
    requires IdentityUnchanged(p, p')
    ensures WsolMetas(ext, user, first, second, key, p, isBuy) == WsolMetas(ext, user, first, second, key, p', isBuy)
    ensures SplBuyMetas(ext, user, first, second, key, p) == SplBuyMetas(ext, user, first, second, key, p')
    ensures SplSellMetas(ext, user, first, second, key, p) == SplSellMetas(ext, user, first, second, key, p')
  {
  }

  // ----- Quoting meets executing -----

  // A quote the pool can take executes at exactly the amounts it named, so every
  // result about runs of trades is about runs of quotes.
  lemma QuotedTradeExecutes(o: PoolFields, params: QuoteParams, slot: u64)
    requires o.Quote(params, slot).Ok?
    ensures var fill := o.Quote(params, slot).value.fill;
            var isBuy := params.inputMint == o.quoteMint;
            var trade := if isBuy then Buy(params.amount, o.CurrentRates()) else Sell(params.amount, o.CurrentRates());
            var done := Execute(o.CurrentReserves(), trade);
            Executes(o.CurrentReserves(), trade) ==>
              if isBuy
              then done.quotePaid == fill.inAmount && done.factionReceived == fill.outAmount
                   && done.quoteReceived == 0 && done.factionPaid == 0 && done.taxCharged <= fill.feeAmount
              else done.factionPaid == fill.inAmount && done.quoteReceived == fill.outAmount
                   && done.quotePaid == 0 && done.factionReceived == 0 && done.taxCharged == fill.feeAmount
  {
    if params.inputMint == o.quoteMint {
      BuyFeeConservation(o.CurrentReserves(), o.CurrentRates(), params.amount);
    }
  }
}
