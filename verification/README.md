# Verified model of the Dr. Fraudsworth Jupiter adapter

The adapter quotes swaps for a router. A faction pool sells and buys CRIME or FRAUD
against a quote token at a constant product, with an LP fee and a per-epoch tax; a
conversion vault exchanges CRIME, FRAUD and PROFIT at a fixed 100:1. Both are objects
that refresh themselves from account bytes and then answer quotes and build account
lists.

This project models that behaviour in Dafny and proves what it promises: no run of
trades closes at a profit, splitting a trade gains at most what its tax roundings add up to, no torn or
stale state is ever quoted, all places that decide which side of a pool is which agree,
and conversions conserve the vault's worth. `dafny verify dfyconfig.toml` checks it.

## How it is laid out

| file | what it holds |
|---|---|
| Prelude.dfy | `Option`, `Result` and the error cases; Rust's unsigned widths and checked operations |
| AmmMath.dfy, TaxMath.dfy, VaultMath.dfy | the three arithmetic files of `src/math` |
| Pricing.dfy | whole buy and sell quotes: error domain, conservation, reported rate, monotonicity |
| SwapRuns.dfy, SplitTrades.dfy | runs of executed trades; splitting one trade into pieces |
| Addresses.dfy, AmmInterface.dfy, Bytes.dfy, Fields.dfy | addresses by value, the router's types, byte encodings |
| PoolState.dfy, EpochState.dfy, Instruction.dfy | account and instruction formats |
| FactionPool.dfy | the fields of `SolPoolAmm` as a value and each operation as a function of it |
| SolPoolAmm.dfy | the object: a class whose `Update` assigns fields in the source's order |
| PoolRuns.dfy | whole lives of the object: updates that succeed and fail, clock moves |
| PoolAccounts.dfy, PoolAgreement.dfy | side resolvers, account-list builders, and their agreement |
| VaultAmm.dfy, VaultRuns.dfy | the conversion vault object and runs of it |

## Modelling assumptions

- Program-derived and associated-token addresses, and the unpacking of a quote mint's
  Token-2022 extensions, are arbitrary functions collected in `Addresses.Externals`;
  every result holds for every choice of them. Literal addresses have their real values.
- The on-chain programs are not part of this model. An executed swap adds to the input
  reserve the amount handed to the swap (the post-tax quote of a buy, the whole faction
  amount of a sell) and removes the quoted output; it executes only if it can be quoted
  and the reserve still fits u64, and otherwise changes nothing. An executed conversion
  moves the quoted amounts between the user and the vault's accounts, and only if the
  live balances allow it.
- The shared clock is a slot that the environment may set at any time.
- `fee_pct` is represented by its numerator over 10000.

## Where the code and its own comments differ

The model follows the code.

- `src/vault_amm.rs:12-13` says quotes never exceed the liquidity available. The cap is
  the balance at the last successful refresh, starts uncapped, and survives a failing
  refresh, so a quote can exceed what is held. `VaultRuns.UnrefreshedInstanceOverquotes`
  gives an input and `VaultRuns.QuotesCoveredIff` the exact condition.
- `src/sol_pool_amm.rs:405` gives 24 accounts for a buy and 25 for a sell. The lists the
  object builds have 25 (both WSOL lanes), 21 (SPL buy) and 22 (SPL sell).
- `src/math/amm_math.rs:36` lists an output above u64::MAX as a failure. It cannot occur:
  the output never exceeds the output reserve.
- The SOL builders handle WSOL on either side. With the real addresses WSOL sorts below
  both faction mints, so on a constructed object it is always side A
  (`FactionPool.WsolIsAlwaysSideA`).

## Model

| member | source | states |
|---|---|---|
| AmmMath.CalculateEffectiveInput | src/math/amm_math.rs:17-21 | defined exactly for fees up to 10000 bps; the result is the amount less the fee, rounded down, and never above the amount |
| AmmMath.CalculateSwapOutput | src/math/amm_math.rs:37-55 | exact error domain on all u128 inputs; the output is the floor of the constant-product payout and never exceeds the output reserve |
| AmmMath.VerifyKInvariant | src/math/amm_math.rs:60-69 | total on u64, and true exactly when the product did not decrease |
| AmmMath.SwapOutputTotalOnU64 | src/math/amm_math.rs:37-55 | on u64 inputs the only failure is a zero denominator |
| AmmMath.SwapOutputIsLargestKeepingK | src/math/amm_math.rs:23-55 | a payout is at most the computed output iff paying it keeps the reserve product, crediting only the post-fee input |
| AmmMath.SwapOutputBelowReserve | src/math/amm_math.rs:37-55 | positive reserves are never drained |
| AmmMath.SwapOutputMonotone | src/math/amm_math.rs:37-55 | more input, a smaller input reserve or a larger output reserve never pays less |
| AmmMath.EffectiveInputMonotone | src/math/amm_math.rs:17-21 | grows with the amount, falls with the fee |
| TaxMath.CalculateTax | src/math/tax_math.rs:17-28 | defined exactly for rates up to 10000 bps; the tax is the floor and never exceeds the amount |
| TaxMath.AfterTax | src/sol_pool_amm.rs:522-524 | what tax leaves is the amount times (10000 - rate) / 10000 rounded up |
| TaxMath.AfterTaxZero | src/sol_pool_amm.rs:526-534 | the early return of a buy is taken exactly for a zero amount or a full tax |
| TaxMath.AfterTaxOfPieces | src/math/tax_math.rs:17-28 | taxing in n pieces leaves at least as much as taxing once, and at most n * 9999 / 10000 (rounded down) units more |
| TaxMath.AfterTaxOfPiecesAttained | src/math/tax_math.rs:17-28 | for every n below 2^64 that bound is reached: n single units at a tax of 9999 bps |
| TaxMath.SplitDistribution | src/math/tax_math.rs:41-61 | total on u64, sums exactly, each share within one unit of 71/24/5 percent (two above for treasury), micro amounts all to staking |
| TaxMath.DistributionDrift | src/math/tax_math.rs:41-61 | over any n distributions nothing is lost and each share drifts by at most n units (2n above for treasury) |
| TaxMath.TreasuryDustExceedsOneUnit | src/math/tax_math.rs:41-61 | a distribution whose treasury share is more than one unit high, so the asymmetric bound is needed |
| Pricing.BuyErrorDomain | src/sol_pool_amm.rs:515-553 | a buy fails iff a condition on rates, amount and reserves holds, and with which error; no checked operation or narrowing fails otherwise |
| Pricing.SellErrorDomain | src/sol_pool_amm.rs:558-587 | the same for a sell |
| Pricing.BuyFeeConservation | src/sol_pool_amm.rs:515-553 | the input is exactly the reported fee plus the swapped part, so cast, saturating subtraction and fallback lose nothing |
| Pricing.BuyIsLargestKeepingK | src/sol_pool_amm.rs:515-553 | the payout is the largest that keeps the product with only the swapped part credited; nothing swapped, nothing paid |
| Pricing.GrossSaleIsLargestKeepingK | src/sol_pool_amm.rs:561-567 | the gross payout of a sell is the largest that keeps the product |
| Pricing.SellFeeConservation | src/sol_pool_amm.rs:558-587 | payout plus reported fee is the gross, within the reserve, and the fee is the sell tax on it rounded down |
| Pricing.BuyReportedRate | src/sol_pool_amm.rs:590-593 | for every successful buy the charged fee is within one unit of the reported rate less the cross term tax times LP fee |
| Pricing.BuyMonotone | src/sol_pool_amm.rs:515-553 | paying more, at an LP fee, buy tax and reserves no worse, never buys less, whatever the sell tax does, across all floors and the early return |
| Pricing.SellMonotone | src/sol_pool_amm.rs:558-587 | the same for a sell in its LP fee and sell tax, whatever the buy tax does |
| SwapRuns.StepKeepsK | src/math/amm_math.rs:57-69 | a step from positive reserves keeps them positive, keeps the product, and passes the k check, also with only the post-fee input credited |
| SwapRuns.RunKeepsK | src/math/amm_math.rs:57-69 | the same at every step of every run, with rates changing from trade to trade |
| SwapRuns.RunConservesFunds | src/sol_pool_amm.rs:515-587 | over any run, what traders paid less what they received is the tax plus the change of the reserve, on both sides |
| SwapRuns.ClosedRunNoProfit | src/sol_pool_amm.rs:515-587 | if the faction reserve ends no higher, traders lost at least the tax charged; dually for faction tokens |
| SwapRuns.RoundTripLosesTheTaxes | src/sol_pool_amm.rs:515-587 | selling back what a buy paid out returns at most the input less both taxes, whatever the rates of the legs |
| SplitTrades.SwapKeepsCreditedProduct | src/math/amm_math.rs:37-55 | the inductive step of splitting: output reserve times credited input never falls |
| SplitTrades.PiecesTakeNoMore | src/sol_pool_amm.rs:558-587 | pieces never take more out of the pool than one swap of their sum |
| SplitTrades.SplitSellGainsOnlyRounding | src/sol_pool_amm.rs:558-587 | a sell in n pieces grosses no more than one sale and nets at most n * 9999 / 10000 (rounded down) units more; where one sale cannot be quoted the pieces bring nothing |
| SplitTrades.SplitSellGainIsAttained | src/sol_pool_amm.rs:558-587 | for every n whose reserves n * n and n * n + 2n fit u64, n sales of one unit net exactly that bound above the single sale |
| SplitTrades.BuyIsSwap | src/sol_pool_amm.rs:515-553 | a buy moves the reserves as a swap of its post-tax amount, early return included |
| SplitTrades.SplitBuyGainsOnlyRounding | src/sol_pool_amm.rs:515-553 | a buy in n pieces yields no more than one swap of the same post-tax total (nothing where that swap cannot be quoted), and that total is at most n * 9999 / 10000 (rounded down) above the single buy's |
| Bytes.ByteOrderIsNumericOrder | src/sol_pool_amm.rs:119-123 | comparing address bytes, first difference deciding, is comparing the numbers they spell |
| PoolState.ParsePoolState | src/state/pool_state.rs:72-87 | an accepted buffer has the deployed length and begins with the discriminator |
| PoolState.PoolStateRoundTrip | src/state/pool_state.rs:72-126 | parsing undoes a layout-faithful writer for all field values |
| PoolState.PoolStateIsItsFields | src/state/pool_state.rs:72-126 | writing back an accepted buffer's fields reproduces it |
| PoolState.PoolStateParsesAlike | src/state/pool_state.rs:72-126 | two accepted buffers parse alike iff they agree everywhere except byte 8 |
| EpochState.ParseEpochState | src/state/epoch_state.rs:53-70 | an accepted buffer has the exact length and begins with the discriminator |
| EpochState.EpochStateRoundTrip | src/state/epoch_state.rs:53-93 | parsing undoes the writer, whatever the unread bytes hold |
| EpochState.EpochStateIsItsFields | src/state/epoch_state.rs:53-93 | writing back an accepted buffer's fields over it reproduces it |
| EpochState.EpochStateParsesAlike | src/state/epoch_state.rs:53-93 | two accepted buffers parse alike iff they agree on the 18 bytes read |
| Instruction.LaneForMints | src/instruction.rs:27-45 | a buy lane exactly for quote to faction, a sell lane exactly for faction to quote, a SOL lane only for WSOL and an SPL lane only otherwise, never the legacy buy |
| Instruction.TaxSwapLane.Encode | src/instruction.rs:52-74 | each lane's discriminator, then amount and minimum in place, then on the two lanes that carry it the faction bit, and nothing more |
| Instruction.DiscriminatorsDistinct | src/constants.rs:45-50 | the five Tax discriminators are pairwise distinct |
| Instruction.TaxEncodingUnique | src/instruction.rs:65-74 | a buffer decodes to given arguments iff it is their encoding |
| Instruction.EncodeConvert | src/instruction.rs:95-102 | appends 32 bytes from which discriminator, amount, minimum and pre-route balance read back in that order |
| Instruction.ConvertDataLayout | src/instruction.rs:95-102 | input amount, minimum output and pre-route balance can be read back, in that order |
| Instruction.EncodeExact | src/instruction.rs:86-88 | discriminator, amount, minimum and a zero pre-route balance read back from 32 bytes |
| Instruction.EncodeDelta | src/instruction.rs:91-93 | discriminator, a zero amount, minimum and pre-route balance read back from 32 bytes |
| Instruction.ExactAndDeltaCoincide | src/instruction.rs:86-93 | the two modes coincide iff both mode amounts are zero and the minimums are equal |
| FactionPool.ConstructionDomain | src/sol_pool_amm.rs:96-209 | construction accepts exactly the AMM program's initialized canonical pools, and yields a well-formed, unrefreshed object |
| FactionPool.CanonicalPoolConstructs | src/sol_pool_amm.rs:96-209 | every initialized canonical pool, written in the documented layout, constructs to itself |
| FactionPool.CanonicalPoolsExist | src/sol_pool_amm.rs:150-177 | there is a constructible pool for each faction and every quote mint, whatever the derived addresses |
| FactionPool.WsolIsAlwaysSideA | src/accounts/sol_pool_accounts.rs:41-51 | on a well-formed WSOL pool the token is never on side A |
| SolPoolAmmObject.SolPoolAmm.FromKeyedAccount | src/sol_pool_amm.rs:96-209 | a fresh valid object with the constructed fields, or the same error |
| SolPoolAmmObject.SolPoolAmm.GetAccountsToUpdate | src/sol_pool_amm.rs:228-235 | the pool, the epoch state, and an SPL quote mint |
| SolPoolAmmObject.SolPoolAmm.RefreshFields | src/sol_pool_amm.rs:237-290 | which stage fails and exactly which fields each outcome has overwritten |
| SolPoolAmmObject.SolPoolAmm.Update | src/sol_pool_amm.rs:237-290 | keeps the object valid, equals the value-level update, succeeds iff owners, parses, the six identity fields and the quote mint are right, and records the snapshot only on success |
| SolPoolAmmObject.SolPoolAmm.IsActive | src/sol_pool_amm.rs:409-416 | active iff refreshed and the last snapshot is initialized, unlocked, unpaused and past its slot gate at the clock |
| SolPoolAmmObject.SolPoolAmm.Quote | src/sol_pool_amm.rs:292-322 | a quote is that of the last successful update's snapshot, and there is none unless the object is refreshed |
| SolPoolAmmObject.SolPoolAmm.GetSwapAndAccountMetas | src/sol_pool_amm.rs:324-394 | the account list of the value-level model |
| PoolRuns.FreshQuoteIsSnapshotQuote | src/sol_pool_amm.rs:292-322 | a refreshed object quotes what an independent reference computes from the parsed pool and epoch |
| PoolRuns.UpdateOutcome | src/sol_pool_amm.rs:237-290 | success depends only on owners, bytes that parse, six identity fields and the quote mint, all spelled out; identity never changes; success installs one snapshot; failure keeps the pool |
| PoolRuns.MovedPoolRefreshes | src/sol_pool_amm.rs:242-286 | a pool that moved in reserves, fee or flags alone is always installed, with the epoch's four tax and pause values for the object's faction |
| PoolRuns.ChangedIdentityRefused | src/sol_pool_amm.rs:253-264 | a pool account with any of the six identity fields changed is refused, and only the refreshed flag is touched |
| PoolRuns.FailedUpdateTearsAtMintCheck | src/sol_pool_amm.rs:266-284 | a failing update leaves new taxes beside the old pool exactly when the quote-mint check failed, never for WSOL |
| PoolRuns.TornObjectsOccur | src/sol_pool_amm.rs:274-284 | every SPL-quoted object can be driven into such a torn state |
| PoolRuns.AccountsToUpdateSuffice | src/sol_pool_amm.rs:228-290 | an update reads nothing outside the accounts the object asks for |
| PoolRuns.AccountsToUpdateNeeded | src/sol_pool_amm.rs:228-290 | missing any account the object asks for, the update fails |
| PoolRuns.RunHoldsLatestSnapshot | src/sol_pool_amm.rs:237-290 | over every run, refreshed means the latest update was admissible and the fields are wholly its snapshot |
| PoolRuns.QuotesOnlyTheLatestSnapshot | src/sol_pool_amm.rs:237-322 | after any run every quote fails unless the latest update succeeded, and then it is a function of that map's pool and epoch bytes, the slot and the request |
| PoolRuns.RunKeepsConstruction | src/sol_pool_amm.rs:96-290 | construction's guarantees and the identity hold at every point of every run |
| PoolRuns.AccountListFixedOverRun | src/sol_pool_amm.rs:324-394 | the account list for given parameters is the same at every point of a run |
| PoolRuns.QuotedTradeExecutes | src/sol_pool_amm.rs:515-587 | a quote that executes does so at the amounts it named |
| PoolAccounts.BuildWsolIntermediaryMetas | src/accounts/sol_pool_accounts.rs:177-249 | succeeds exactly with one WSOL side, puts the user's WSOL and token accounts in the slots of their own sides, and every program and protocol account in its position with its flags |
| PoolAccounts.BuildSplBuyMetas | src/accounts/spl_pool_accounts.rs:88-128 | succeeds exactly with one faction side and a known quote program, with each user account in the slot of its side and the program accounts in theirs |
| PoolAccounts.BuildSplSellMetas | src/accounts/spl_pool_accounts.rs:130-171 | succeeds on the same pools, with the sweep account in the quote slot, the user's quote account apart and the program accounts in theirs |
| PoolAgreement.SideResolversAgree | src/sol_pool_amm.rs:475-489 | reserves, token program, both resolvers and the pool's own helpers name the same sides, and the SOL resolver fails exactly off WSOL |
| PoolAgreement.LaneFollowsRoles | src/instruction.rs:27-45 | a lane is found exactly for the pairs a quote accepts, and is fixed by quote mint and direction |
| PoolAgreement.WsolListAgrees | src/accounts/sol_pool_accounts.rs:177-249 | on a well-formed WSOL object both lists have 25 accounts and every one of them is stated: positional, protocol and hook slots |
| PoolAgreement.SplBuyListAgrees | src/accounts/spl_pool_accounts.rs:88-128 | the same for all 21 accounts of an SPL buy, with the sweep slots |
| PoolAgreement.SplSellListAgrees | src/accounts/spl_pool_accounts.rs:130-171 | the same for all 22 accounts of an SPL sell |
| PoolAgreement.AccountListAgrees | src/sol_pool_amm.rs:324-407 | after the pair check no builder fails, each positional slot holds its side's account, hooks follow the transfer, and the list fits the advertised length |
| PoolAgreement.SwapMetasDomain | src/sol_pool_amm.rs:324-345 | a list is built iff the request is exact-in between the object's two mints, and otherwise which refusal is given |
| PoolAgreement.OrientationSymmetry | src/sol_pool_amm.rs:475-489 | exchanging the stored sides changes no quote |
| VaultMath.SupportedEdgesAgree | src/vault_amm.rs:286-359 | the three descriptions of the supported conversions agree on every pair, no `expect` fires, and each mint is held by its own vault account |
| VaultMath.ProfitRoundTrip | src/math/vault_math.rs:23-55 | out of PROFIT and back is the identity |
| VaultMath.FactionThroughProfit | src/math/vault_math.rs:23-55 | through PROFIT returns the input less its remainder by 100, and the second leg never overflows |
| VaultAmmObject.TokenAccountAmountRead | src/state/token_account.rs:17-41 | reads the amount of an account of the expected mint and refuses any other mint |
| VaultAmmObject.RefreshReadsLiveBalance | src/vault_amm.rs:134-148 | a faithful map refreshes the cap to the balance of the account the conversions are paid from |
| VaultAmmObject.VaultRefreshDomain | src/vault_amm.rs:134-148 | exactly when a refresh yields a balance (config present and not empty, account long enough and of the output mint) and which |
| VaultAmmObject.VaultQuoteDomain | src/vault_amm.rs:150-187 | exactly when an instance quotes, the rate it quotes at, and that it charges nothing |
| VaultAmmObject.KnownInstances | src/vault_amm.rs:286-309 | one uncapped instance for each known pair, under its derived key, paying from the vault account of its output mint, equal to what construction from those mints gives |
| VaultAmmObject.KnownInstancesCoverEdges | src/vault_amm.rs:286-359 | an edge is convertible iff some factory instance serves it, and never two do |
| VaultAmmObject.FromKeyedAccount | src/vault_amm.rs:56-110 | from given mints exactly on the four conversions, or the first known instance with the key; every result is uncapped and pays from its output mint's vault |
| VaultAmmObject.AllPoolKeys | src/vault_amm.rs:315-328 | the two SOL pools and the four instance keys, in order |
| VaultAmmObject.VaultListAgrees | src/accounts/vault_accounts.rs:29-87 | no supported instance panics, and all 17 accounts are stated, each mint with its own vault and the hooks of both transfers |
| VaultAmmObject.VaultAmm.Update | src/vault_amm.rs:134-148 | stores the parsed balance on success and keeps the old one on failure |
| VaultAmmObject.VaultAmm.Quote | src/vault_amm.rs:150-187 | exactly when the object quotes, at which rate and at no fee, in terms of the balance it holds |
| VaultAmmObject.VaultAmm.GetSwapAndAccountMetas | src/vault_amm.rs:189-204 | a list exactly for the instance's own pair, exact-out included |
| VaultRuns.InstancesAreKnown | src/vault_amm.rs:286-309 | the instances of a run are the factory's: same pair, same starting cap, same quotes |
| VaultRuns.RefreshIsUpdate | src/vault_amm.rs:134-148 | a map showing the live output balance refreshes the known instance exactly as a run's refresh does |
| VaultRuns.StepConservesWorth | src/vault_amm.rs:150-187 | an event changes CRIME + FRAUD + 100 PROFIT by exactly its dust |
| VaultRuns.RunConservesWorth | src/vault_amm.rs:134-187 | over any run the worth grows by exactly the sum of input mod 100 over executed conversions into PROFIT |
| VaultRuns.RefreshedQuotesAreCovered | src/vault_amm.rs:141-178 | after a refresh, until something else is paid from the same account, no quote exceeds what is held |
| VaultRuns.QuotesCoveredIff | src/vault_amm.rs:169-178 | all quotes of an instance are covered iff the largest output its cap admits is held |
| VaultRuns.UnrefreshedInstanceOverquotes | src/vault_amm.rs:50-52 | a never refreshed instance quotes a payout from an empty vault |

## Left out

- Token-2022 mint unpacking (`src/state/mint_state.rs`): one abstract outcome of `update`.
- Hashing: derived addresses are arbitrary functions, and the origin of the discriminator bytes is not modelled.
- JSON parameters and address strings of `VaultAmm::from_keyed_account`: its mints arrive parsed.
- Labels, error texts, `clone_amm`, `program_dependencies`, `underlying_liquidities`, `new_for_testing`: plumbing that would only add easy members.
- The legacy native-tax buy builder and the constant-based builders: the object never reaches them.
- Atomic ordering of the clock: the slot is a field that may change between calls.
- Equality with on-chain execution beyond the swap and convert steps stated above.
