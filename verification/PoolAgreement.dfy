// The source resolves a pool's sides in seven places, each on its own. On every
// well-formed object, and so at every point of every run, they agree.
module PoolAgreement {
  import opened Results
  import opened Integers
  import opened Addresses
  import opened AmmInterface
  import opened PoolState
  import opened Instruction
  import opened PoolAccounts
  import opened Pricing
  import opened FactionPool

  // The vault, reserve and token program stored on the side of a given mint.
  function VaultOf(p: ParsedPoolState, mint: Pubkey): Pubkey {
    if mint == p.mintA then p.vaultA else p.vaultB
  }

  function ReserveOf(p: ParsedPoolState, mint: Pubkey): u64 {
    if mint == p.mintA then p.reserveA else p.reserveB
  }

  function ProgramOf(p: ParsedPoolState, mint: Pubkey): Pubkey {
    if mint == p.mintA then p.tokenProgramA else p.tokenProgramB
  }

  lemma SideResolversAgree(ext: Externals, o: PoolFields)
    requires WellFormed(ext, o)
    ensures var p, faction, quote := o.pool, o.factionMint, o.quoteMint;
            && o.CurrentReserves() == Reserves(ReserveOf(p, quote), ReserveOf(p, faction))
            && o.QuoteTokenProgram() == ProgramOf(p, quote)
            && ResolveFactionSides(p)
               == Ok(FactionPoolSides(faction, quote, VaultOf(p, faction), faction == p.mintA, ProgramOf(p, quote)))
            && ResolveSides(p)
               == (if quote == NATIVE_MINT then Ok(SolSides(faction, VaultOf(p, faction), faction == p.mintA))
                   else Err(NotSolPool))
            && p.TokenMint() == (if quote == NATIVE_MINT then Some(faction) else None)
            && (quote == NATIVE_MINT ==>
                  p.SolAndTokenReserves() == (o.CurrentReserves().quote, o.CurrentReserves().faction))
  {
  }

  // ----- Account lists -----

  // When a list is built at all, and why not: only an exact-in swap between the
  // object's two mints, in either direction.
  lemma SwapMetasDomain(ext: Externals, o: PoolFields, params: SwapParams)
    requires WellFormed(ext, o)
    ensures var built := o.SwapMetas(ext, params);
            var buys := params.sourceMint == o.quoteMint && params.destinationMint == o.factionMint;
            var sells := params.sourceMint == o.factionMint && params.destinationMint == o.quoteMint;
            && (built.Ok? <==> params.swapMode == ExactIn && (buys || sells))
            && (params.swapMode == ExactOut ==> built == Err(ExactOutUnsupported))
            && (params.swapMode == ExactIn && !buys && !sells ==> built == Err(MintPairMismatch))
  {
    if params.swapMode == ExactIn
       && o.ValidMintPair(params.sourceMint, params.destinationMint, params.sourceMint == o.quoteMint)
    {
      AccountListAgrees(ext, o, params);
    }
  }

  // The user's account for a mint, going by the parameters alone.
  function UserAccountOf(params: SwapParams, mint: Pubkey): Pubkey {
    if mint == params.sourceMint then params.sourceTokenAccount else params.destinationTokenAccount
  }

  // Where each lane's list puts the two sides of the pool.
  datatype Slots = Slots(pool: nat, vaultA: nat, mintA: nat, userA: nat, programA: nat)

  function SlotsOf(lane: TaxSwapLane): Slots {
    match lane
    case SplBuy => Slots(2, 3, 5, 7, 14)
    case SplSell => Slots(2, 3, 5, 7, 15)
    case _ => Slots(4, 5, 7, 9, 17)
  }

  function ListLength(lane: TaxSwapLane): nat {
    match lane
    case SplBuy => 21
    case SplSell => 22
    case _ => 25
  }

  // The account in the positional user slot of a side: the user's account of that
  // side's mint, except that an SPL sell pays its quote to the sweep account.
  function UserSlotAccount(ext: Externals, o: PoolFields, lane: TaxSwapLane, params: SwapParams, mint: Pubkey): Pubkey {
    if lane == SplSell && mint == o.quoteMint
    then ext.associatedToken(ext.sweepAuthority, mint, ProgramOf(o.pool, mint))
    else UserAccountOf(params, mint)
  }

  ghost predicate Positional(metas: seq<AccountMeta>, at: Slots, user: Pubkey, key: Pubkey, p: ParsedPoolState,
                             userA: Pubkey, userB: Pubkey)
  {
    && at.programA + 1 < |metas| && at.pool < at.vaultA < at.mintA < at.userA < at.programA
    && metas[0] == ReadonlySigner(user)
    && metas[at.pool] == Writable(key)
    && metas[at.vaultA] == Writable(p.vaultA) && metas[at.vaultA + 1] == Writable(p.vaultB)
    && metas[at.mintA] == Readonly(p.mintA) && metas[at.mintA + 1] == Readonly(p.mintB)
    && metas[at.userA] == Writable(userA) && metas[at.userA + 1] == Writable(userB)
    && metas[at.programA] == Readonly(p.tokenProgramA) && metas[at.programA + 1] == Readonly(p.tokenProgramB)
  }

  ghost predicate PositionalSlotsAgree(ext: Externals, o: PoolFields, lane: TaxSwapLane, params: SwapParams,
                                       metas: seq<AccountMeta>)
  {
    Positional(metas, SlotsOf(lane), params.tokenTransferAuthority, o.key, o.pool,
               UserSlotAccount(ext, o, lane, params, o.pool.mintA),
               UserSlotAccount(ext, o, lane, params, o.pool.mintB))
  }

  // The SPL lanes' tax side: the sweep authority and its account of the quote mint
  // under the quote's own token program. A sell adds the user's quote account.
  ghost predicate SweepSlotsAgree(ext: Externals, o: PoolFields, lane: TaxSwapLane, params: SwapParams,
                                  metas: seq<AccountMeta>)
  {
    && 14 < |metas|
    && metas[10] == Readonly(ext.sweepAuthority)
    && metas[11] == Readonly(o.quoteMint)
    && metas[12] == Writable(ext.associatedToken(ext.sweepAuthority, o.quoteMint, ProgramOf(o.pool, o.quoteMint)))
    && metas[if lane == SplBuy then 13 else 14] == Readonly(ProgramOf(o.pool, o.quoteMint))
    && (lane == SplSell ==> metas[13] == Writable(params.destinationTokenAccount))
  }

  // The last four accounts serve the faction token's hooked transfer: out of the
  // pool's faction vault to the user on a buy, back into it on a sell.
  ghost predicate HooksFollowTransfer(ext: Externals, o: PoolFields, isBuy: bool, params: SwapParams,
                                      metas: seq<AccountMeta>)
    requires 4 <= |metas|
  {
    var vault := VaultOf(o.pool, o.factionMint);
    var (source, dest) :=
      if isBuy then (vault, params.destinationTokenAccount) else (params.sourceTokenAccount, vault);
    var first := if o.faction == Crime then CRIME_HOOK_META else FRAUD_HOOK_META;
    metas[|metas| - 4..] == [Readonly(first), Readonly(ext.whitelistEntry(source)),
                             Readonly(ext.whitelistEntry(dest)), Readonly(TRANSFER_HOOK_PROGRAM_ID)]
  }

  // A lane exists exactly for the two pairs a quote accepts, and it follows from
  // the quote mint and the direction.
  lemma LaneFollowsRoles(ext: Externals, o: PoolFields, params: SwapParams)
    requires WellFormed(ext, o)
    ensures var isBuy := params.sourceMint == o.quoteMint;
            LaneForMints(o.quoteMint, o.factionMint, params.sourceMint, params.destinationMint)
            == (if !o.ValidMintPair(params.sourceMint, params.destinationMint, isBuy) then None
                else Some(match (o.quoteMint == NATIVE_MINT, isBuy)
                          case (true, true) => SolBuyWsol
                          case (true, false) => SolSell
                          case (false, true) => SplBuy
                          case (false, false) => SplSell))
  {
  }

  // Once the mint pair passes, a lane is always found, its builder never fails,
  // every positional slot holds what its side needs, and the list fits the
  // advertised length.
  lemma AccountListAgrees(ext: Externals, o: PoolFields, params: SwapParams)
    requires WellFormed(ext, o) && params.swapMode == ExactIn
    requires o.ValidMintPair(params.sourceMint, params.destinationMint, params.sourceMint == o.quoteMint)
    ensures var isBuy := params.sourceMint == o.quoteMint;
            var found := LaneForMints(o.quoteMint, o.factionMint, params.sourceMint, params.destinationMint);
            var built := o.SwapMetas(ext, params);
            && found.Some? && built.Ok?
            && var lane, metas := found.value, built.value;
               && |metas| == ListLength(lane) <= ACCOUNTS_LEN
               && PositionalSlotsAgree(ext, o, lane, params, metas)
               && HooksFollowTransfer(ext, o, isBuy, params, metas)
               && (lane == SplBuy || lane == SplSell ==> SweepSlotsAgree(ext, o, lane, params, metas))
               && (match lane
                   case SplBuy => SplProgramSlots(metas, 16)
                   case SplSell => SplProgramSlots(metas, 17)
                   case _ => WsolProgramSlots(metas))
  {
    LaneFollowsRoles(ext, o, params);
    SideResolversAgree(ext, o);
    if o.quoteMint == NATIVE_MINT {
      WsolListAgrees(ext, o, params);
    } else if params.sourceMint == o.quoteMint {
      SplBuyListAgrees(ext, o, params);
    } else {
      SplSellListAgrees(ext, o, params);
    }
  }

  // Each list is its named accounts followed by four hook accounts.
  lemma WsolListAgrees(ext: Externals, o: PoolFields, params: SwapParams)
    requires WellFormed(ext, o) && o.quoteMint == NATIVE_MINT
    requires o.ValidMintPair(params.sourceMint, params.destinationMint, params.sourceMint == o.quoteMint)
    ensures var isBuy := params.sourceMint == o.quoteMint;
            var lane := if isBuy then SolBuyWsol else SolSell;
            var built := o.LaneMetas(ext, lane, params);
            && built.Ok? && |built.value| == ListLength(lane)
            && PositionalSlotsAgree(ext, o, lane, params, built.value)
            && HooksFollowTransfer(ext, o, isBuy, params, built.value)
            && WsolProgramSlots(built.value)
  {
    SideResolversAgree(ext, o);
    var isBuy := params.sourceMint == o.quoteMint;
    var lane := if isBuy then SolBuyWsol else SolSell;
    var user := params.tokenTransferAuthority;
    var userA, userB := UserAccountOf(params, o.pool.mintA), UserAccountOf(params, o.pool.mintB);
    var named := WsolNamed(user, userA, userB, o.key, o.pool);
    var metas := o.LaneMetas(ext, lane, params).value;
    WsolNamedSlots(user, userA, userB, o.key, o.pool);
    WsolNamedPrograms(user, userA, userB, o.key, o.pool);
    HooksAppended(ext, o, isBuy, params, named, SlotsOf(lane), userA, userB, metas);
    WsolProgramsKept(named, metas);
  }

  lemma SplBuyListAgrees(ext: Externals, o: PoolFields, params: SwapParams)
    requires WellFormed(ext, o)
    requires o.ValidMintPair(params.sourceMint, params.destinationMint, true)
    ensures var built := o.LaneMetas(ext, SplBuy, params);
            && built.Ok? && |built.value| == ListLength(SplBuy)
            && PositionalSlotsAgree(ext, o, SplBuy, params, built.value)
            && HooksFollowTransfer(ext, o, true, params, built.value)
            && SweepSlotsAgree(ext, o, SplBuy, params, built.value)
            && SplProgramSlots(built.value, 16)
  {
    SideResolversAgree(ext, o);
    var user, sides := params.tokenTransferAuthority, ResolveFactionSides(o.pool).value;
    var sweep := SweepAccounts(ext, o.pool).value;
    var userA, userB := UserAccountOf(params, o.pool.mintA), UserAccountOf(params, o.pool.mintB);
    var metas := o.LaneMetas(ext, SplBuy, params).value;
    var named := SplBuyNamed(user, userA, userB, sweep, sides, o.key, o.pool);
    SplBuyNamedSlots(user, userA, userB, sweep, sides, o.key, o.pool);
    HooksAppended(ext, o, true, params, named, SlotsOf(SplBuy), userA, userB, metas);
    SweepSlotsKept(ext, o, SplBuy, params, sides, named, metas);
    SplBuyNamedPrograms(user, userA, userB, sweep, sides, o.key, o.pool);
  }

  lemma SplSellListAgrees(ext: Externals, o: PoolFields, params: SwapParams)
    requires WellFormed(ext, o)
    requires o.ValidMintPair(params.sourceMint, params.destinationMint, false)
    ensures var built := o.LaneMetas(ext, SplSell, params);
            && built.Ok? && |built.value| == ListLength(SplSell)
            && PositionalSlotsAgree(ext, o, SplSell, params, built.value)
            && HooksFollowTransfer(ext, o, false, params, built.value)
            && SweepSlotsAgree(ext, o, SplSell, params, built.value)
            && SplProgramSlots(built.value, 17)
  {
    SideResolversAgree(ext, o);
    var user, sides := params.tokenTransferAuthority, ResolveFactionSides(o.pool).value;
    var sweep := SweepAccounts(ext, o.pool).value;
    var userA := UserSlotAccount(ext, o, SplSell, params, o.pool.mintA);
    var userB := UserSlotAccount(ext, o, SplSell, params, o.pool.mintB);
    var metas := o.LaneMetas(ext, SplSell, params).value;
    var named := SplSellNamed(user, userA, userB, params.destinationTokenAccount, sweep, sides, o.key, o.pool);
    SplSellNamedSlots(user, userA, userB, params.destinationTokenAccount, sweep, sides, o.key, o.pool);
    HooksAppended(ext, o, false, params, named, SlotsOf(SplSell), userA, userB, metas);
    SweepSlotsKept(ext, o, SplSell, params, sides, named, metas);
    SplSellNamedPrograms(user, userA, userB, params.destinationTokenAccount, sweep, sides, o.key, o.pool);
  }

  lemma SweepSlotsKept(ext: Externals, o: PoolFields, lane: TaxSwapLane, params: SwapParams, sides: FactionPoolSides,
                       named: seq<AccountMeta>, metas: seq<AccountMeta>)
    requires lane == SplBuy || lane == SplSell
    requires sides.quoteMint == o.quoteMint && sides.quoteTokenProgram == ProgramOf(o.pool, o.quoteMint)
    requires 15 <= |named| < |metas| && metas[10..15] == named[10..15]
    requires var account := ext.associatedToken(ext.sweepAuthority, sides.quoteMint, sides.quoteTokenProgram);
             var tail := if lane == SplBuy then [Readonly(sides.quoteTokenProgram)]
                         else [Writable(params.destinationTokenAccount), Readonly(sides.quoteTokenProgram)];
             named[10..13 + |tail|]
             == [Readonly(ext.sweepAuthority), Readonly(sides.quoteMint), Writable(account)] + tail
    ensures SweepSlotsAgree(ext, o, lane, params, metas)
  {
    var n := if lane == SplBuy then 14 else 15;
    assert named[10..n][0] == metas[10..15][0] && named[10..n][1] == metas[10..15][1];
    assert named[10..n][2] == metas[10..15][2] && named[10..n][3] == metas[10..15][3];
    assert lane == SplSell ==> named[10..n][4] == metas[10..15][4];
  }

  lemma WsolNamedSlots(user: Pubkey, userA: Pubkey, userB: Pubkey, key: Pubkey, p: ParsedPoolState)
    ensures Positional(WsolNamed(user, userA, userB, key, p), SlotsOf(SolSell), user, key, p, userA, userB)
    ensures |WsolNamed(user, userA, userB, key, p)| == 21
  {
  }

  lemma SplBuyNamedSlots(user: Pubkey, userA: Pubkey, userB: Pubkey, sweep: Sweep,
                         sides: FactionPoolSides, key: Pubkey, p: ParsedPoolState)
    ensures Positional(SplBuyNamed(user, userA, userB, sweep, sides, key, p),
                       SlotsOf(SplBuy), user, key, p, userA, userB)
    ensures |SplBuyNamed(user, userA, userB, sweep, sides, key, p)| == 17
    ensures SplBuyNamed(user, userA, userB, sweep, sides, key, p)[10..14]
            == [Readonly(sweep.authority), Readonly(sides.quoteMint), Writable(sweep.account),
                Readonly(sides.quoteTokenProgram)]
  {
  }

  lemma SplSellNamedSlots(user: Pubkey, userA: Pubkey, userB: Pubkey, userQuote: Pubkey, sweep: Sweep,
                          sides: FactionPoolSides, key: Pubkey, p: ParsedPoolState)
    ensures Positional(SplSellNamed(user, userA, userB, userQuote, sweep, sides, key, p),
                       SlotsOf(SplSell), user, key, p, userA, userB)
    ensures |SplSellNamed(user, userA, userB, userQuote, sweep, sides, key, p)| == 18
    ensures SplSellNamed(user, userA, userB, userQuote, sweep, sides, key, p)[10..15]
            == [Readonly(sweep.authority), Readonly(sides.quoteMint), Writable(sweep.account),
                Writable(userQuote), Readonly(sides.quoteTokenProgram)]
  {
  }

  lemma HooksAppended(ext: Externals, o: PoolFields, isBuy: bool, params: SwapParams, named: seq<AccountMeta>,
                      at: Slots, userA: Pubkey, userB: Pubkey, metas: seq<AccountMeta>)
    requires RoleOf(o.factionMint) == Some(o.faction)
    requires Positional(named, at, params.tokenTransferAuthority, o.key, o.pool, userA, userB)
    requires var vault := VaultOf(o.pool, o.factionMint);
             metas == named + (if isBuy then HookMetas(ext, o.factionMint, vault, params.destinationTokenAccount)
                               else HookMetas(ext, o.factionMint, params.sourceTokenAccount, vault))
    ensures |metas| == |named| + 4
    ensures Positional(metas, at, params.tokenTransferAuthority, o.key, o.pool, userA, userB)
    ensures HooksFollowTransfer(ext, o, isBuy, params, metas)
    ensures forall i :: 0 <= i < |named| ==> metas[i] == named[i]
  {
    assert metas[|named|..] == metas[|metas| - 4..];
  }

  // ----- Orientation -----

  // Storing the pool the other way round changes no quote: pricing depends only
  // on which mint plays which role.
  lemma OrientationSymmetry(o: PoolFields, mirrored: ParsedPoolState, params: QuoteParams, slot: u64)
    requires RolesMatch(o)
    requires mirrored.mintA == o.pool.mintB && mirrored.mintB == o.pool.mintA
    requires mirrored.reserveA == o.pool.reserveB && mirrored.reserveB == o.pool.reserveA
    requires mirrored.lpFeeBps == o.pool.lpFeeBps
    requires mirrored.initialized == o.pool.initialized && mirrored.locked == o.pool.locked
    ensures o.(pool := mirrored).Quote(params, slot) == o.Quote(params, slot)
  {
    var other := o.(pool := mirrored);
    assert other.CurrentReserves() == o.CurrentReserves();
    assert other.CurrentRates() == o.CurrentRates();
  }
}
