// The PoolState account format of src/state/pool_state.rs.
module PoolState {
  import opened Results
  import opened Integers
  import opened Fields
  import opened Addresses

  const POOL_STATE_LEN: int := 224
  const POOL_STATE_DISCRIMINATOR: seq<u8> := [0xf7, 0xed, 0xe3, 0xf5, 0xd7, 0xc3, 0xde, 0x46]

  datatype ParsedPoolState = ParsedPoolState(
    mintA: Pubkey, mintB: Pubkey,
    vaultA: Pubkey, vaultB: Pubkey,
    reserveA: u64, reserveB: u64,
    lpFeeBps: u16,
    initialized: bool, locked: bool,
    bump: u8, vaultABump: u8, vaultBBump: u8,
    tokenProgramA: Pubkey, tokenProgramB: Pubkey)
  {
    // Some(the other mint) exactly when one side, and only one, is WSOL.
    function TokenMint(): Option<Pubkey> {
      if mintA == NATIVE_MINT && mintB != NATIVE_MINT then Some(mintB)
      else if mintB == NATIVE_MINT && mintA != NATIVE_MINT then Some(mintA)
      else None
    }

    function SolAndTokenReserves(): (u64, u64) {
      if mintA == NATIVE_MINT then (reserveA, reserveB) else (reserveB, reserveA)
    }

    function SolAndTokenVaults(): (Pubkey, Pubkey) {
      if mintA == NATIVE_MINT then (vaultA, vaultB) else (vaultB, vaultA)
    }

    // The fields no refresh may change.
    predicate SameIdentity(other: ParsedPoolState) {
      && mintA == other.mintA && mintB == other.mintB
      && vaultA == other.vaultA && vaultB == other.vaultB
      && tokenProgramA == other.tokenProgramA && tokenProgramB == other.tokenProgramB
    }
  }

  function ParsePoolState(data: seq<u8>): (r: Result<ParsedPoolState>)
    ensures r.Ok? ==> |data| == 224 && data[0..8] == [0xf7, 0xed, 0xe3, 0xf5, 0xd7, 0xc3, 0xde, 0x46]
  {
    if |data| != POOL_STATE_LEN then Err(BadLength)
    else if data[0..8] != POOL_STATE_DISCRIMINATOR then Err(BadDiscriminator)
    else
      var initialized :- BoolAt(data[155]);
      var locked :- BoolAt(data[156]);
      Ok(ParsedPoolState(
           PubkeyAt(data[9..41]), PubkeyAt(data[41..73]),
           PubkeyAt(data[73..105]), PubkeyAt(data[105..137]),
           U64At(data[137..145]), U64At(data[145..153]),
           U16At(data[153..155]),
           initialized, locked,
           data[157], data[158], data[159],
           PubkeyAt(data[160..192]), PubkeyAt(data[192..224])))
  }

  // The documented layout. Byte 8, the pool type, is not read.
  function WritePoolState(p: ParsedPoolState, poolType: u8): (data: seq<u8>)
    ensures |data| == POOL_STATE_LEN
  {
    POOL_STATE_DISCRIMINATOR + [poolType]
    + PubkeyBytes(p.mintA) + PubkeyBytes(p.mintB)
    + PubkeyBytes(p.vaultA) + PubkeyBytes(p.vaultB)
    + U64Bytes(p.reserveA) + U64Bytes(p.reserveB)
    + U16Bytes(p.lpFeeBps)
    + [BoolByte(p.initialized), BoolByte(p.locked), p.bump, p.vaultABump, p.vaultBBump]
    + PubkeyBytes(p.tokenProgramA) + PubkeyBytes(p.tokenProgramB)
  }

  // Parsing undoes writing, for all field values and either pool type byte.
  lemma PoolStateRoundTrip(p: ParsedPoolState, poolType: u8)
    ensures ParsePoolState(WritePoolState(p, poolType)) == Ok(p)
  {
    var data := WritePoolState(p, poolType);
    assert data[0..8] == POOL_STATE_DISCRIMINATOR;
    assert data[9..41] == PubkeyBytes(p.mintA);
    assert data[41..73] == PubkeyBytes(p.mintB);
    assert data[73..105] == PubkeyBytes(p.vaultA);
    assert data[105..137] == PubkeyBytes(p.vaultB);
    assert data[137..145] == U64Bytes(p.reserveA);
    assert data[145..153] == U64Bytes(p.reserveB);
    assert data[153..155] == U16Bytes(p.lpFeeBps);
    assert data[160..192] == PubkeyBytes(p.tokenProgramA);
    assert data[192..224] == PubkeyBytes(p.tokenProgramB);
  }

  // Writing undoes parsing, so an accepted buffer holds nothing but its fields
  // and the pool type byte.
  lemma PoolStateIsItsFields(data: seq<u8>)
    requires ParsePoolState(data).Ok?
    ensures WritePoolState(ParsePoolState(data).value, data[8]) == data
  {
    var p := ParsePoolState(data).value;
    assert data == data[0..8] + [data[8]] + data[9..41] + data[41..73] + data[73..105] + data[105..137]
                   + data[137..145] + data[145..153] + data[153..155]
                   + [data[155], data[156], data[157], data[158], data[159]] + data[160..192] + data[192..224];
  }

  // Two accepted buffers parse alike iff they agree everywhere except byte 8.
  lemma PoolStateParsesAlike(x: seq<u8>, y: seq<u8>)
    requires ParsePoolState(x).Ok? && ParsePoolState(y).Ok?
    ensures ParsePoolState(x) == ParsePoolState(y)
            <==> forall i :: 0 <= i < POOL_STATE_LEN && i != 8 ==> x[i] == y[i]
  {
    PoolStateIsItsFields(x);
    PoolStateIsItsFields(y);
    if forall i :: 0 <= i < POOL_STATE_LEN && i != 8 ==> x[i] == y[i] {
      assert x[8 := y[8]] == y;
      PoolTypeIsNotRead(x, y[8]);
    } else {
      if ParsePoolState(x) == ParsePoolState(y) {
        SameFieldsSameBytes(ParsePoolState(x).value, x[8], y[8]);
      }
    }
  }

  lemma SameFieldsSameBytes(p: ParsedPoolState, typeX: u8, typeY: u8)
    ensures WritePoolState(p, typeX)[8 := typeY] == WritePoolState(p, typeY)
  {
  }

  lemma PoolTypeIsNotRead(data: seq<u8>, poolType: u8)
    requires |data| == POOL_STATE_LEN
    ensures ParsePoolState(data[8 := poolType]) == ParsePoolState(data)
  {
    var other := data[8 := poolType];
    assert other[0..8] == data[0..8];
    assert other[9..41] == data[9..41];
    assert other[41..73] == data[41..73];
    assert other[73..105] == data[73..105];
    assert other[105..137] == data[105..137];
    assert other[137..145] == data[137..145];
    assert other[145..153] == data[145..153];
    assert other[153..155] == data[153..155];
    assert other[160..192] == data[160..192];
    assert other[192..224] == data[192..224];
  }
}
