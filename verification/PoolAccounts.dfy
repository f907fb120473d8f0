// Which account goes where: the two side resolvers and the account-list builders
// of src/accounts/sol_pool_accounts.rs and src/accounts/spl_pool_accounts.rs.
module PoolAccounts {
  import opened Results
  import opened Addresses
  import opened AmmInterface
  import opened PoolState

  // Four extra accounts for a hooked transfer of a protocol mint, none otherwise.
  function HookMetas(ext: Externals, mint: Pubkey, source: Pubkey, dest: Pubkey): seq<AccountMeta> {
    if mint == CRIME_MINT then HookList(ext, CRIME_HOOK_META, source, dest)
    else if mint == FRAUD_MINT then HookList(ext, FRAUD_HOOK_META, source, dest)
    else if mint == PROFIT_MINT then HookList(ext, PROFIT_HOOK_META, source, dest)
    else []
  }

  function HookList(ext: Externals, metaList: Pubkey, source: Pubkey, dest: Pubkey): seq<AccountMeta> {
    [Readonly(metaList), Readonly(ext.whitelistEntry(source)), Readonly(ext.whitelistEntry(dest)),
     Readonly(TRANSFER_HOOK_PROGRAM_ID)]
  }

  // ----- SOL lanes -----

  datatype SolSides = SolSides(tokenMint: Pubkey, tokenVault: Pubkey, tokenOnA: bool)

  function ResolveSides(pool: ParsedPoolState): Result<SolSides> {
    var tokenMint :- pool.TokenMint().OkOr(NotSolPool);
    Ok(SolSides(tokenMint, pool.SolAndTokenVaults().1, pool.mintA != NATIVE_MINT))
  }

  // The 21 named accounts shared by the sell and the WSOL buy.
  function WsolNamed(user: Pubkey, userA: Pubkey, userB: Pubkey, poolKey: Pubkey, pool: ParsedPoolState)
    : seq<AccountMeta>
  {
    [ReadonlySigner(user),
     Readonly(EPOCH_STATE_PDA),
     Writable(SWAP_AUTHORITY_PDA),
     Readonly(TAX_AUTHORITY_PDA),
     Writable(poolKey),
     Writable(pool.vaultA),
     Writable(pool.vaultB),
     Readonly(pool.mintA),
     Readonly(pool.mintB),
     Writable(userA),
     Writable(userB),
     Writable(STAKE_POOL_PDA),
     Writable(ESCROW_VAULT_PDA),
     Writable(CARNAGE_SOL_VAULT_PDA),
     Writable(TREASURY),
     Writable(WSOL_INTERMEDIARY_PDA),
     Readonly(AMM_PROGRAM_ID),
     Readonly(pool.tokenProgramA),
     Readonly(pool.tokenProgramB),
     Readonly(SYSTEM_PROGRAM_ID),
     Readonly(STAKING_PROGRAM_ID)]
  }

  // The program and protocol accounts of the WSOL list, by position.
  ghost predicate WsolProgramSlots(metas: seq<AccountMeta>) {
    && 21 <= |metas|
    && metas[1..4] == [Readonly(EPOCH_STATE_PDA), Writable(SWAP_AUTHORITY_PDA), Readonly(TAX_AUTHORITY_PDA)]
    && metas[11..17] == [Writable(STAKE_POOL_PDA), Writable(ESCROW_VAULT_PDA), Writable(CARNAGE_SOL_VAULT_PDA),
                         Writable(TREASURY), Writable(WSOL_INTERMEDIARY_PDA), Readonly(AMM_PROGRAM_ID)]
    && metas[19..21] == [Readonly(SYSTEM_PROGRAM_ID), Readonly(STAKING_PROGRAM_ID)]
  }

  lemma WsolNamedPrograms(user: Pubkey, userA: Pubkey, userB: Pubkey, poolKey: Pubkey, pool: ParsedPoolState)
    ensures |WsolNamed(user, userA, userB, poolKey, pool)| == 21
    ensures WsolProgramSlots(WsolNamed(user, userA, userB, poolKey, pool))
  {
  }

  lemma WsolProgramsKept(named: seq<AccountMeta>, metas: seq<AccountMeta>)
    requires WsolProgramSlots(named) && |named| <= |metas|
    requires forall i :: 0 <= i < |named| ==> metas[i] == named[i]
    ensures WsolProgramSlots(metas)
  {
    assert metas[1..4] == named[1..4];
    assert metas[11..17] == named[11..17];
    assert metas[19..21] == named[19..21];
  }

  function WsolMetas(ext: Externals, user: Pubkey, userToken: Pubkey, userSol: Pubkey,
                     poolKey: Pubkey, pool: ParsedPoolState, isBuy: bool): Result<seq<AccountMeta>>
  {
    var sides :- ResolveSides(pool);
    var (userA, userB) := if sides.tokenOnA then (userToken, userSol) else (userSol, userToken);
    var (source, dest) := if isBuy then (sides.tokenVault, userToken) else (userToken, sides.tokenVault);
    Ok(WsolNamed(user, userA, userB, poolKey, pool) + HookMetas(ext, sides.tokenMint, source, dest))
  }

  method BuildWsolIntermediaryMetas(ext: Externals, user: Pubkey, userToken: Pubkey, userSol: Pubkey,
                                    poolKey: Pubkey, pool: ParsedPoolState, isBuy: bool)
    returns (r: Result<seq<AccountMeta>>)
    ensures r == WsolMetas(ext, user, userToken, userSol, poolKey, pool, isBuy)
    ensures r.Ok? <==> (pool.mintA == NATIVE_MINT) != (pool.mintB == NATIVE_MINT)
    ensures r.Ok? ==>
              && 21 <= |r.value|
              && r.value[9] == Writable(if pool.mintA == NATIVE_MINT then userSol else userToken)
              && r.value[10] == Writable(if pool.mintB == NATIVE_MINT then userSol else userToken)
              && WsolProgramSlots(r.value)
  {
    var sides :- ResolveSides(pool);
    var userA, userB := userSol, userToken;
    if sides.tokenOnA {
      userA, userB := userToken, userSol;
    }
    var metas := WsolNamed(user, userA, userB, poolKey, pool);
    WsolNamedPrograms(user, userA, userB, poolKey, pool);
    ghost var named := metas;
    if isBuy {
      metas := metas + HookMetas(ext, sides.tokenMint, sides.tokenVault, userToken);
    } else {
      metas := metas + HookMetas(ext, sides.tokenMint, userToken, sides.tokenVault);
    }
    WsolProgramsKept(named, metas);
    return Ok(metas);
  }

  // ----- SPL lanes -----

  datatype FactionPoolSides = FactionPoolSides(
    factionMint: Pubkey, quoteMint: Pubkey, factionVault: Pubkey,
    factionIsA: bool, quoteTokenProgram: Pubkey)

  function ResolveFactionSides(pool: ParsedPoolState): Result<FactionPoolSides> {
    if IsFaction(pool.mintA) == IsFaction(pool.mintB) then Err(NotOneFactionMint)
    else
      var sides :=
        if IsFaction(pool.mintA)
        then FactionPoolSides(pool.mintA, pool.mintB, pool.vaultA, true, pool.tokenProgramB)
        else FactionPoolSides(pool.mintB, pool.mintA, pool.vaultB, false, pool.tokenProgramA);
      if !IsTokenProgram(sides.quoteTokenProgram) then Err(UnsupportedTokenProgram) else Ok(sides)
  }

  // Exactly one faction side, and a known token program on the other.
  predicate SplBuildable(pool: ParsedPoolState) {
    var factionA := pool.mintA == CRIME_MINT || pool.mintA == FRAUD_MINT;
    var factionB := pool.mintB == CRIME_MINT || pool.mintB == FRAUD_MINT;
    var quoteProgram := if factionA then pool.tokenProgramB else pool.tokenProgramA;
    factionA != factionB && (quoteProgram == SPL_TOKEN_PROGRAM_ID || quoteProgram == TOKEN_2022_PROGRAM_ID)
  }

  datatype Sweep = Sweep(authority: Pubkey, account: Pubkey)

  function SweepAccounts(ext: Externals, pool: ParsedPoolState): Result<Sweep> {
    var sides :- ResolveFactionSides(pool);
    Ok(Sweep(ext.sweepAuthority, ext.associatedToken(ext.sweepAuthority, sides.quoteMint, sides.quoteTokenProgram)))
  }

  function SplBuyNamed(user: Pubkey, userA: Pubkey, userB: Pubkey, sweep: Sweep,
                       sides: FactionPoolSides, poolKey: Pubkey, pool: ParsedPoolState): seq<AccountMeta>
  {
    [ReadonlySigner(user),
     Readonly(EPOCH_STATE_PDA),
     Writable(poolKey),
     Writable(pool.vaultA),
     Writable(pool.vaultB),
     Readonly(pool.mintA),
     Readonly(pool.mintB),
     Writable(userA),
     Writable(userB),
     Readonly(SWAP_AUTHORITY_PDA),
     Readonly(sweep.authority),
     Readonly(sides.quoteMint),
     Writable(sweep.account),
     Readonly(sides.quoteTokenProgram),
     Readonly(pool.tokenProgramA),
     Readonly(pool.tokenProgramB),
     Readonly(AMM_PROGRAM_ID)]
  }

  // The program accounts of an SPL list; the AMM program comes last of the named.
  ghost predicate SplProgramSlots(metas: seq<AccountMeta>, ammAt: nat) {
    && 10 <= ammAt < |metas|
    && metas[1] == Readonly(EPOCH_STATE_PDA)
    && metas[9] == Readonly(SWAP_AUTHORITY_PDA)
    && metas[ammAt] == Readonly(AMM_PROGRAM_ID)
  }

  lemma SplBuyNamedPrograms(user: Pubkey, userA: Pubkey, userB: Pubkey, sweep: Sweep,
                            sides: FactionPoolSides, poolKey: Pubkey, pool: ParsedPoolState)
    ensures SplProgramSlots(SplBuyNamed(user, userA, userB, sweep, sides, poolKey, pool), 16)
  {
  }

  lemma SplSellNamedPrograms(user: Pubkey, userA: Pubkey, userB: Pubkey, userQuote: Pubkey, sweep: Sweep,
                             sides: FactionPoolSides, poolKey: Pubkey, pool: ParsedPoolState)
    ensures SplProgramSlots(SplSellNamed(user, userA, userB, userQuote, sweep, sides, poolKey, pool), 17)
  {
  }

  function SplBuyMetas(ext: Externals, user: Pubkey, userQuote: Pubkey, userFaction: Pubkey,
                       poolKey: Pubkey, pool: ParsedPoolState): Result<seq<AccountMeta>>
  {
    var sides :- ResolveFactionSides(pool);
    var sweep :- SweepAccounts(ext, pool);
    var (userA, userB) := if sides.factionIsA then (userFaction, userQuote) else (userQuote, userFaction);
    Ok(SplBuyNamed(user, userA, userB, sweep, sides, poolKey, pool)
       + HookMetas(ext, sides.factionMint, sides.factionVault, userFaction))
  }

  method BuildSplBuyMetas(ext: Externals, user: Pubkey, userQuote: Pubkey, userFaction: Pubkey,
                          poolKey: Pubkey, pool: ParsedPoolState)
    returns (r: Result<seq<AccountMeta>>)
    ensures r == SplBuyMetas(ext, user, userQuote, userFaction, poolKey, pool)
    ensures r.Ok? <==> SplBuildable(pool)
    ensures r.Ok? ==>
              && 17 <= |r.value|
              && r.value[7] == Writable(if IsFaction(pool.mintA) then userFaction else userQuote)
              && r.value[8] == Writable(if IsFaction(pool.mintB) then userFaction else userQuote)
              && SplProgramSlots(r.value, 16)
  {
    var sides :- ResolveFactionSides(pool);
    match SweepAccounts(ext, pool) {
      case Err(error) => return Err(error);
      case Ok(sweep) =>
        var userA, userB := userQuote, userFaction;
        if sides.factionIsA {
          userA, userB := userFaction, userQuote;
        }
        var metas := SplBuyNamed(user, userA, userB, sweep, sides, poolKey, pool);
        SplBuyNamedPrograms(user, userA, userB, sweep, sides, poolKey, pool);
        metas := metas + HookMetas(ext, sides.factionMint, sides.factionVault, userFaction);
        return Ok(metas);
    }
  }

  function SplSellNamed(user: Pubkey, userA: Pubkey, userB: Pubkey, userQuote: Pubkey, sweep: Sweep,
                        sides: FactionPoolSides, poolKey: Pubkey, pool: ParsedPoolState): seq<AccountMeta>
  {
    [ReadonlySigner(user),
     Readonly(EPOCH_STATE_PDA),
     Writable(poolKey),
     Writable(pool.vaultA),
     Writable(pool.vaultB),
     Readonly(pool.mintA),
     Readonly(pool.mintB),
     Writable(userA),
     Writable(userB),
     Readonly(SWAP_AUTHORITY_PDA),
     Readonly(sweep.authority),
     Readonly(sides.quoteMint),
     Writable(sweep.account),
     Writable(userQuote),
     Readonly(sides.quoteTokenProgram),
     Readonly(pool.tokenProgramA),
     Readonly(pool.tokenProgramB),
     Readonly(AMM_PROGRAM_ID)]
  }

  function SplSellMetas(ext: Externals, user: Pubkey, userFaction: Pubkey, userQuote: Pubkey,
                        poolKey: Pubkey, pool: ParsedPoolState): Result<seq<AccountMeta>>
  {
    var sides :- ResolveFactionSides(pool);
    var sweep :- SweepAccounts(ext, pool);
    var (userA, userB) := if sides.factionIsA then (userFaction, sweep.account) else (sweep.account, userFaction);
    Ok(SplSellNamed(user, userA, userB, userQuote, sweep, sides, poolKey, pool)
       + HookMetas(ext, sides.factionMint, userFaction, sides.factionVault))
  }

  method BuildSplSellMetas(ext: Externals, user: Pubkey, userFaction: Pubkey, userQuote: Pubkey,
                           poolKey: Pubkey, pool: ParsedPoolState)
    returns (r: Result<seq<AccountMeta>>)
    ensures r == SplSellMetas(ext, user, userFaction, userQuote, poolKey, pool)
    ensures r.Ok? <==> SplBuildable(pool)
    ensures r.Ok? ==>
              && 18 <= |r.value|
              && r.value[if IsFaction(pool.mintA) then 7 else 8] == Writable(userFaction)
              && r.value[if IsFaction(pool.mintA) then 8 else 7] == r.value[12]
              && r.value[13] == Writable(userQuote)
              && SplProgramSlots(r.value, 17)
  {
    var sides :- ResolveFactionSides(pool);
    match SweepAccounts(ext, pool) {
      case Err(error) => return Err(error);
      case Ok(sweep) =>
        var userA, userB := sweep.account, userFaction;
        if sides.factionIsA {
          userA, userB := userFaction, sweep.account;
        }
        var metas := SplSellNamed(user, userA, userB, userQuote, sweep, sides, poolKey, pool);
        SplSellNamedPrograms(user, userA, userB, userQuote, sweep, sides, poolKey, pool);
        metas := metas + HookMetas(ext, sides.factionMint, userFaction, sides.factionVault);
        return Ok(metas);
    }
  }
}
