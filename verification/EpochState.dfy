// The EpochState account format of src/state/epoch_state.rs.
module EpochState {
  import opened Results
  import opened Integers
  import opened Fields

  const EPOCH_STATE_LEN: int := 172
  const PAUSE_END_SLOT_OFFSET: int := 106
  const TRADING_PAUSED_OFFSET: int := 114
  const EPOCH_INITIALIZED_OFFSET: int := 170
  const EPOCH_STATE_DISCRIMINATOR: seq<u8> := [0xbf, 0x3f, 0x8b, 0xed, 0x90, 0x0c, 0xdf, 0xd2]

  datatype ParsedEpochState = ParsedEpochState(
    crimeBuyTaxBps: u16, crimeSellTaxBps: u16,
    fraudBuyTaxBps: u16, fraudSellTaxBps: u16,
    pauseEndSlot: u64, tradingPaused: bool, initialized: bool)
  {
    function TaxBps(isCrime: bool, isBuy: bool): u16 {
      match (isCrime, isBuy)
      case (true, true) => crimeBuyTaxBps
      case (true, false) => crimeSellTaxBps
      case (false, true) => fraudBuyTaxBps
      case (false, false) => fraudSellTaxBps
    }
  }

  function ParseEpochState(data: seq<u8>): (r: Result<ParsedEpochState>)
    ensures r.Ok? ==> |data| == 172 && data[0..8] == [0xbf, 0x3f, 0x8b, 0xed, 0x90, 0x0c, 0xdf, 0xd2]
  {
    if |data| != EPOCH_STATE_LEN then Err(BadLength)
    else if data[0..8] != EPOCH_STATE_DISCRIMINATOR then Err(BadDiscriminator)
    else
      var tradingPaused :- BoolAt(data[TRADING_PAUSED_OFFSET]);
      var initialized :- BoolAt(data[EPOCH_INITIALIZED_OFFSET]);
      Ok(ParsedEpochState(
           U16At(data[33..35]), U16At(data[35..37]),
           U16At(data[37..39]), U16At(data[39..41]),
           U64At(data[PAUSE_END_SLOT_OFFSET..PAUSE_END_SLOT_OFFSET + 8]),
           tradingPaused, initialized))
  }

  // The documented layout, over whatever the unread bytes hold.
  function WriteEpochState(e: ParsedEpochState, unread: seq<u8>): (data: seq<u8>)
    requires |unread| == EPOCH_STATE_LEN
    ensures |data| == EPOCH_STATE_LEN
  {
    EPOCH_STATE_DISCRIMINATOR + unread[8..33]
    + U16Bytes(e.crimeBuyTaxBps) + U16Bytes(e.crimeSellTaxBps)
    + U16Bytes(e.fraudBuyTaxBps) + U16Bytes(e.fraudSellTaxBps)
    + unread[41..106] + U64Bytes(e.pauseEndSlot) + [BoolByte(e.tradingPaused)]
    + unread[115..170] + [BoolByte(e.initialized)] + unread[171..]
  }

  lemma EpochStateRoundTrip(e: ParsedEpochState, unread: seq<u8>)
    requires |unread| == EPOCH_STATE_LEN
    ensures ParseEpochState(WriteEpochState(e, unread)) == Ok(e)
  {
    var data := WriteEpochState(e, unread);
    assert data[0..8] == EPOCH_STATE_DISCRIMINATOR;
    assert data[33..35] == U16Bytes(e.crimeBuyTaxBps);
    assert data[35..37] == U16Bytes(e.crimeSellTaxBps);
    assert data[37..39] == U16Bytes(e.fraudBuyTaxBps);
    assert data[39..41] == U16Bytes(e.fraudSellTaxBps);
    assert data[106..114] == U64Bytes(e.pauseEndSlot);
  }

  // Writing an accepted buffer's fields back over it changes nothing.
  lemma EpochStateIsItsFields(data: seq<u8>)
    requires ParseEpochState(data).Ok?
    ensures WriteEpochState(ParseEpochState(data).value, data) == data
  {
    assert data == data[0..8] + data[8..33] + data[33..35] + data[35..37] + data[37..39] + data[39..41]
                   + data[41..106] + data[106..114] + [data[114]] + data[115..170] + [data[170]] + data[171..];
  }

  // Two accepted buffers parse alike iff they agree on the 18 bytes that are read.
  lemma EpochStateParsesAlike(x: seq<u8>, y: seq<u8>)
    requires ParseEpochState(x).Ok? && ParseEpochState(y).Ok?
    ensures ParseEpochState(x) == ParseEpochState(y)
            <==> x[33..41] == y[33..41] && x[106..115] == y[106..115] && x[170] == y[170]
  {
    SplitReads(x);
    SplitReads(y);
    EpochStateIsItsFields(x);
    EpochStateIsItsFields(y);
  }

  lemma SplitReads(data: seq<u8>)
    requires |data| == EPOCH_STATE_LEN
    ensures data[33..35] == data[33..41][0..2] && data[35..37] == data[33..41][2..4]
    ensures data[37..39] == data[33..41][4..6] && data[39..41] == data[33..41][6..8]
    ensures data[33..41] == data[33..35] + data[35..37] + data[37..39] + data[39..41]
    ensures data[106..114] == data[106..115][0..8] && data[114] == data[106..115][8]
    ensures data[106..115] == data[106..114] + [data[114]]
  {
    var taxes := data[33..41];
    assert data[33..35] == taxes[0..2];
    assert data[35..37] == taxes[2..4];
    assert data[37..39] == taxes[4..6];
    assert data[39..41] == taxes[6..8];
  }
}
