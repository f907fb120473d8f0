// Runs of refreshes, quotes and conversions over the four vault instances.
//
// The on-chain vault is not part of this model. Modelling assumption: an executed
// conversion moves the quoted amounts, the input into the vault's account of the
// input mint and the output out of its account of the output mint; it executes
// only when it can be quoted, the live output balance covers it and the input
// balance still fits u64, and otherwise reverts.
module VaultRuns {
  import opened Results
  import opened Integers
  import opened Fields
  import opened Addresses
  import opened AmmInterface
  import opened VaultMath
  import opened VaultAmmObject

  // One of the four instances, named by its faction token and direction.
  datatype Edge = Edge(crime: bool, intoProfit: bool) {
    function Faction(): Pubkey {
      if crime then CRIME_MINT else FRAUD_MINT
    }

    function Input(): Pubkey {
      if intoProfit then Faction() else PROFIT_MINT
    }

    function Output(): Pubkey {
      if intoProfit then PROFIT_MINT else Faction()
    }
  }

  // The live balances of the vault's three token accounts.
  datatype Holdings = Holdings(crime: u64, fraud: u64, profit: u64) {
    function Of(mint: Pubkey): u64 {
      if mint == CRIME_MINT then crime else if mint == FRAUD_MINT then fraud else profit
    }

    function With(mint: Pubkey, balance: u64): Holdings {
      if mint == CRIME_MINT then this.(crime := balance)
      else if mint == FRAUD_MINT then this.(fraud := balance)
      else this.(profit := balance)
    }

    // In faction units: one PROFIT converts to a hundred.
    function Worth(): nat {
      crime + fraud + CONVERSION_RATE * profit
    }
  }

  // The live balances, and the cap each instance has cached.
  datatype VaultWorld = VaultWorld(held: Holdings, caps: map<Edge, u64>) {
    function Cap(edge: Edge): u64 {
      if edge in caps then caps[edge] else U64_MAX
    }

    // The edge's instance. Its key plays no part in a quote.
    function InstanceOf(edge: Edge): VaultFields {
      var outputVault := VaultForMint(edge.Output()).value;
      VaultFields(outputVault, edge.Input(), edge.Output(), outputVault, Cap(edge))
    }

    function QuotedOutput(edge: Edge, amount: u64): Option<u64> {
      match InstanceOf(edge).Quote(QuoteParams(amount, edge.Input(), edge.Output(), ExactIn))
      case Ok(q) => Some(q.fill.outAmount) case Err(_) => None
    }

    predicate Converts(edge: Edge, amount: u64) {
      && QuotedOutput(edge, amount).Some?
      && QuotedOutput(edge, amount).value <= held.Of(edge.Output())
      && held.Of(edge.Input()) + amount < U64_LIMIT
    }

    function Convert(edge: Edge, amount: u64): VaultWorld {
      if !Converts(edge, amount) then this
      else
        var paid := held.With(edge.Output(), held.Of(edge.Output()) - QuotedOutput(edge, amount).value);
        this.(held := paid.With(edge.Input(), held.Of(edge.Input()) + amount))
    }

    function Step(event: VaultEvent): VaultWorld {
      match event
      case Refresh(edge) => this.(caps := caps[edge := held.Of(edge.Output())])
      case FailedRefresh(_) => this
      case Quoted(_, _) => this
      case Conversion(edge, amount) => Convert(edge, amount)
    }
  }

  datatype VaultEvent =
    | Refresh(edge: Edge)
    | FailedRefresh(edge: Edge)
    | Quoted(edge: Edge, amount: u64)
    | Conversion(edge: Edge, amount: u64)

  function RunVault(world: VaultWorld, events: seq<VaultEvent>): VaultWorld
    decreases |events|
  {
    if events == [] then world else RunVault(world.Step(events[0]), events[1..])
  }

  // ----- The run's instances are the factory's -----

  // An edge's known instance, holding a world's cap, quotes as the run does; it
  // starts at the cap of a world nobody refreshed; and an account map that shows
  // the live balance of its output vault refreshes it as the run's Refresh does.
  lemma InstancesAreKnown(ext: Externals, world: VaultWorld, edge: Edge, params: QuoteParams)
    ensures (edge.Input(), edge.Output()) in KNOWN_PAIRS
    ensures var known := KnownInstance(ext, (edge.Input(), edge.Output()));
            && known.outputVaultBalance == VaultWorld(world.held, map[]).Cap(edge)
            && known.(outputVaultBalance := world.Cap(edge)).Quote(params) == world.InstanceOf(edge).Quote(params)
  {
    PairKnown(edge);
  }

  lemma RefreshIsUpdate(ext: Externals, world: VaultWorld, edge: Edge, accounts: AccountMap,
                        owner: Pubkey, rest: seq<u8>)
    requires VAULT_CONFIG_PDA in accounts && accounts[VAULT_CONFIG_PDA].data != []
    requires var vault := VaultForMint(edge.Output()).value;
             && vault in accounts
             && accounts[vault].data
                == PubkeyBytes(edge.Output()) + PubkeyBytes(owner) + U64Bytes(world.held.Of(edge.Output())) + rest
    ensures (edge.Input(), edge.Output()) in KNOWN_PAIRS
    ensures KnownInstance(ext, (edge.Input(), edge.Output())).RefreshedBalance(accounts)
            == Ok(world.Step(Refresh(edge)).Cap(edge))
  {
    PairKnown(edge);
    var known := KnownInstance(ext, (edge.Input(), edge.Output()));
    RefreshReadsLiveBalance(known, accounts, owner, world.held.Of(edge.Output()), rest);
  }

  lemma PairKnown(edge: Edge)
    ensures (edge.Input(), edge.Output()) in KNOWN_PAIRS
  {
    SupportedEdgesAgree(edge.Input(), edge.Output());
  }

  // ----- Conservation -----

  // What one event leaves in the vault: the last two digits of an executed
  // conversion into PROFIT.
  function Dust(world: VaultWorld, event: VaultEvent): nat {
    match event
    case Conversion(edge, amount) =>
      if edge.intoProfit && world.Converts(edge, amount) then amount % CONVERSION_RATE else 0
    case _ => 0
  }

  function TotalDust(world: VaultWorld, events: seq<VaultEvent>): nat
    decreases |events|
  {
    if events == [] then 0
    else Dust(world, events[0]) + TotalDust(world.Step(events[0]), events[1..])
  }

  lemma StepConservesWorth(world: VaultWorld, event: VaultEvent)
    ensures world.Step(event).held.Worth() == world.held.Worth() + Dust(world, event)
  {
    if event.Conversion? && world.Converts(event.edge, event.amount) {
      var out := world.QuotedOutput(event.edge, event.amount).value;
      assert ComputeVaultOutput(event.edge.Input(), event.edge.Output(), event.amount) == Some(out);
    }
  }

  // Over any run the vault's worth grows by exactly the dust it keeps: conversions
  // create nothing for the traders and lose nothing of the vault. (The balances
  // are u64, so they are never negative.)
  lemma {:induction false} RunConservesWorth(world: VaultWorld, events: seq<VaultEvent>)
    ensures RunVault(world, events).held.Worth() == world.held.Worth() + TotalDust(world, events)
    decreases |events|
  {
    if events != [] {
      StepConservesWorth(world, events[0]);
      RunConservesWorth(world.Step(events[0]), events[1..]);
    }
  }

  // ----- Liquidity -----

  predicate PaysFrom(event: VaultEvent, mint: Pubkey) {
    event.Conversion? && event.edge.Output() == mint
  }

  lemma StepKeepsCapCovered(world: VaultWorld, event: VaultEvent, edge: Edge)
    requires world.Cap(edge) <= world.held.Of(edge.Output())
    requires !PaysFrom(event, edge.Output())
    ensures world.Step(event).Cap(edge) <= world.Step(event).held.Of(edge.Output())
  {
  }

  lemma {:induction false} RunKeepsCapCovered(world: VaultWorld, events: seq<VaultEvent>, edge: Edge)
    requires world.Cap(edge) <= world.held.Of(edge.Output())
    requires forall event :: event in events ==> !PaysFrom(event, edge.Output())
    ensures RunVault(world, events).Cap(edge) <= RunVault(world, events).held.Of(edge.Output())
    decreases |events|
  {
    if events != [] {
      StepKeepsCapCovered(world, events[0], edge);
      RunKeepsCapCovered(world.Step(events[0]), events[1..], edge);
    }
  }

  // After a successful refresh, and until something else is paid out of the same
  // account, a quote never exceeds what the vault holds.
  lemma RefreshedQuotesAreCovered(world: VaultWorld, edge: Edge, later: seq<VaultEvent>, amount: u64)
    requires forall event :: event in later ==> !PaysFrom(event, edge.Output())
    ensures var now := RunVault(world.Step(Refresh(edge)), later);
            now.QuotedOutput(edge, amount).Some? ==>
              now.QuotedOutput(edge, amount).value <= now.held.Of(edge.Output())
  {
    RunKeepsCapCovered(world.Step(Refresh(edge)), later, edge);
  }

  // The largest output an instance can quote under its cap.
  function LargestQuotable(edge: Edge, cap: u64): u64 {
    if !edge.intoProfit then cap - cap % CONVERSION_RATE
    else if cap <= U64_MAX / CONVERSION_RATE then cap
    else U64_MAX / CONVERSION_RATE
  }

  // In general the source's promise that quotes never exceed the available
  // liquidity fails, because the cap is only as fresh as the last successful
  // refresh. It holds for an instance, over all amounts, exactly when the largest
  // output its cap admits is held.
  lemma QuotesCoveredIff(world: VaultWorld, edge: Edge)
    ensures (forall amount: u64 :: world.QuotedOutput(edge, amount).Some? ==>
                                     world.QuotedOutput(edge, amount).value <= world.held.Of(edge.Output()))
            <==> LargestQuotable(edge, world.Cap(edge)) <= world.held.Of(edge.Output())
  {
    var top := LargestQuotable(edge, world.Cap(edge));
    forall amount: u64 | world.QuotedOutput(edge, amount).Some?
      ensures world.QuotedOutput(edge, amount).value <= top
    {
      assert ComputeVaultOutput(edge.Input(), edge.Output(), amount) == world.QuotedOutput(edge, amount);
    }
    if top > 0 {
      var amount: u64 := if edge.intoProfit then top * CONVERSION_RATE else top / CONVERSION_RATE;
      assert ComputeVaultOutput(edge.Input(), edge.Output(), amount) == Some(top);
      assert world.QuotedOutput(edge, amount) == Some(top);
    }
  }

  // A concrete failure: an instance that was never refreshed quotes a payout from
  // an empty vault.
  lemma UnrefreshedInstanceOverquotes()
    ensures var world := VaultWorld(Holdings(0, 0, 0), map[]);
            world.QuotedOutput(Edge(true, false), 1) == Some(100)
  {
  }
}
