// Instruction encodings of src/instruction.rs.
module Instruction {
  import opened Results
  import opened Integers
  import opened Fields
  import opened Addresses

  datatype TaxSwapLane = SolBuy | SolBuyWsol | SolSell | SplBuy | SplSell {
    predicate HasFactionWitness() {
      SolBuy? || SolSell?
    }

    function Discriminator(): (bytes: seq<u8>)
      ensures |bytes| == 8
    {
      match this
      case SolBuy => [158, 213, 169, 65, 11, 116, 176, 25]
      case SolBuyWsol => [10, 131, 6, 8, 42, 57, 81, 88]
      case SolSell => [136, 242, 218, 149, 17, 222, 250, 240]
      case SplBuy => [145, 254, 202, 19, 150, 31, 185, 146]
      case SplSell => [250, 17, 196, 68, 180, 202, 218, 155]
    }

    // The encoding appends to one buffer, field by field.
    method Encode(amountIn: u64, minimumOutput: u64, isCrime: bool) returns (data: seq<u8>)
      ensures data == TaxData(TaxArgs(this, amountIn, minimumOutput, WitnessFor(this, isCrime)))
      ensures |data| == (match this case SolBuy => 25 case SolSell => 25 case _ => 24)
      ensures data[..8] == (match this
                            case SolBuy => [158, 213, 169, 65, 11, 116, 176, 25]
                            case SolBuyWsol => [10, 131, 6, 8, 42, 57, 81, 88]
                            case SolSell => [136, 242, 218, 149, 17, 222, 250, 240]
                            case SplBuy => [145, 254, 202, 19, 150, 31, 185, 146]
                            case SplSell => [250, 17, 196, 68, 180, 202, 218, 155])
      ensures U64At(data[8..16]) == amountIn && U64At(data[16..24]) == minimumOutput
      ensures |data| == 25 ==> data[24] == if isCrime then 1 else 0
    {
      data := Discriminator();
      data := data + U64Bytes(amountIn);
      data := data + U64Bytes(minimumOutput);
      if HasFactionWitness() {
        data := data + [BoolByte(isCrime)];
      }
      assert data[8..16] == U64Bytes(amountIn) && data[16..24] == U64Bytes(minimumOutput);
    }
  }

  // Select the entrypoint from the pool's two roles and the requested pair.
  function LaneForMints(quoteMint: Pubkey, factionMint: Pubkey, inputMint: Pubkey, outputMint: Pubkey)
    : (lane: Option<TaxSwapLane>)
    ensures lane != Some(SolBuy)
    ensures (lane == Some(SolBuyWsol) || lane == Some(SplBuy)) <==> inputMint == quoteMint && outputMint == factionMint
    ensures (lane == Some(SolSell) || lane == Some(SplSell))
            <==> inputMint == factionMint && outputMint == quoteMint && quoteMint != factionMint
    ensures lane == Some(SolBuyWsol) || lane == Some(SolSell) ==> quoteMint == NATIVE_MINT
    ensures lane == Some(SplBuy) || lane == Some(SplSell) ==> quoteMint != NATIVE_MINT
  {
    var isSol := quoteMint == NATIVE_MINT;
    match (inputMint == quoteMint, outputMint == factionMint)
    case (true, true) => Some(if isSol then SolBuyWsol else SplBuy)
    case (false, false) =>
      if inputMint == factionMint && outputMint == quoteMint
      then Some(if isSol then SolSell else SplSell)
      else None
    case _ => None
  }

  // What a Tax instruction says. The witness bit is part of it only on the lanes
  // that carry one.
  datatype TaxArgs = TaxArgs(lane: TaxSwapLane, amountIn: u64, minimumOutput: u64, isCrime: Option<bool>) {
    predicate WellFormed() {
      isCrime.Some? <==> lane.HasFactionWitness()
    }
  }

  function WitnessFor(lane: TaxSwapLane, isCrime: bool): Option<bool> {
    if lane.HasFactionWitness() then Some(isCrime) else None
  }

  function TaxData(args: TaxArgs): seq<u8> {
    args.lane.Discriminator() + U64Bytes(args.amountIn) + U64Bytes(args.minimumOutput)
    + match args.isCrime case Some(b) => [BoolByte(b)] case None => []
  }

  function LaneOf(discriminator: seq<u8>): Option<TaxSwapLane> {
    if discriminator == SolBuy.Discriminator() then Some(SolBuy)
    else if discriminator == SolBuyWsol.Discriminator() then Some(SolBuyWsol)
    else if discriminator == SolSell.Discriminator() then Some(SolSell)
    else if discriminator == SplBuy.Discriminator() then Some(SplBuy)
    else if discriminator == SplSell.Discriminator() then Some(SplSell)
    else None
  }

  // A strict reader of Tax instructions, the partner of the encoder.
  function DecodeTax(data: seq<u8>): (args: Option<TaxArgs>)
    ensures args.Some? ==> args.value.WellFormed()
  {
    if |data| < 24 then None
    else
      var lane :- LaneOf(data[..8]);
      var amountIn, minimumOutput := U64At(data[8..16]), U64At(data[16..24]);
      if !lane.HasFactionWitness() then
        if |data| == 24 then Some(TaxArgs(lane, amountIn, minimumOutput, None)) else None
      else if |data| != 25 then None
      else
        match BoolAt(data[24])
        case Ok(isCrime) => Some(TaxArgs(lane, amountIn, minimumOutput, Some(isCrime)))
        case Err(_) => None
  }

  lemma DiscriminatorsDistinct(x: TaxSwapLane, y: TaxSwapLane)
    ensures x.Discriminator() == y.Discriminator() <==> x == y
  {
    assert x.Discriminator()[0] == y.Discriminator()[0] <==> x == y;
  }

  // Encodings and arguments correspond one to one: every encoding decodes to its
  // lane, amounts and witness, and nothing else decodes to them.
  lemma TaxEncodingUnique(args: TaxArgs, data: seq<u8>)
    requires args.WellFormed()
    ensures DecodeTax(data) == Some(args) <==> data == TaxData(args)
  {
    if data == TaxData(args) {
      assert data[..8] == args.lane.Discriminator();
      assert data[8..16] == U64Bytes(args.amountIn);
      assert data[16..24] == U64Bytes(args.minimumOutput);
      LaneOfDiscriminator(args.lane);
    }
    if DecodeTax(data) == Some(args) {
      assert data == data[..8] + data[8..16] + data[16..24] + data[24..];
      assert |data| == 25 ==> data[24..] == [data[24]];
      assert data[..8] == args.lane.Discriminator();
    }
  }

  lemma LaneOfDiscriminator(lane: TaxSwapLane)
    ensures LaneOf(lane.Discriminator()) == Some(lane)
  {
    DiscriminatorsDistinct(lane, SolBuy);
    DiscriminatorsDistinct(lane, SolBuyWsol);
    DiscriminatorsDistinct(lane, SolSell);
    DiscriminatorsDistinct(lane, SplBuy);
    DiscriminatorsDistinct(lane, SplSell);
  }

  // ----- Conversion Vault `convert_v2` -----

  const CONVERT_V2_DISCRIMINATOR: seq<u8> := [2, 169, 12, 141, 64, 38, 20, 20]

  function ConvertData(amountIn: u64, minimumOutput: u64, preBalance: u64): (data: seq<u8>) {
    CONVERT_V2_DISCRIMINATOR + U64Bytes(amountIn) + U64Bytes(minimumOutput) + U64Bytes(preBalance)
  }

  method EncodeConvert(amountIn: u64, minimumOutput: u64, preBalance: u64) returns (data: seq<u8>)
    ensures data == ConvertData(amountIn, minimumOutput, preBalance)
    ensures |data| == 32 && data[..8] == [2, 169, 12, 141, 64, 38, 20, 20]
    ensures (U64At(data[8..16]), U64At(data[16..24]), U64At(data[24..32])) == (amountIn, minimumOutput, preBalance)
  {
    ConvertDataLayout(amountIn, minimumOutput, preBalance);
    data := CONVERT_V2_DISCRIMINATOR;
    data := data + U64Bytes(amountIn);
    data := data + U64Bytes(minimumOutput);
    data := data + U64Bytes(preBalance);
  }

  // The wire order is input amount, minimum output, pre-route balance.
  lemma ConvertDataLayout(amountIn: u64, minimumOutput: u64, preBalance: u64)
    ensures var data := ConvertData(amountIn, minimumOutput, preBalance);
            && |data| == 32
            && data[..8] == [2, 169, 12, 141, 64, 38, 20, 20]
            && U64At(data[8..16]) == amountIn
            && U64At(data[16..24]) == minimumOutput
            && U64At(data[24..32]) == preBalance
  {
    var data := ConvertData(amountIn, minimumOutput, preBalance);
    assert data[..8] == CONVERT_V2_DISCRIMINATOR;
    assert data[8..16] == U64Bytes(amountIn);
    assert data[16..24] == U64Bytes(minimumOutput);
    assert data[24..32] == U64Bytes(preBalance);
  }

  // Exact mode carries the amount and a zero pre-route balance.
  function EncodeExact(amountIn: u64, minimumOutput: u64): (data: seq<u8>)
    ensures |data| == 32 && data[..8] == [2, 169, 12, 141, 64, 38, 20, 20]
    ensures U64At(data[8..16]) == amountIn && U64At(data[16..24]) == minimumOutput && U64At(data[24..32]) == 0
  {
    ConvertDataLayout(amountIn, minimumOutput, 0);
    ConvertData(amountIn, minimumOutput, 0)
  }

  // Delta mode carries a zero amount and the balance held before the route.
  function EncodeDelta(minimumOutput: u64, preBalance: u64): (data: seq<u8>)
    ensures |data| == 32 && data[..8] == [2, 169, 12, 141, 64, 38, 20, 20]
    ensures U64At(data[8..16]) == 0 && U64At(data[16..24]) == minimumOutput && U64At(data[24..32]) == preBalance
  {
    ConvertDataLayout(0, minimumOutput, preBalance);
    ConvertData(0, minimumOutput, preBalance)
  }

  // The two modes can be confused only when neither amount says anything.
  lemma ExactAndDeltaCoincide(amountIn: u64, minimumExact: u64, minimumDelta: u64, preBalance: u64)
    ensures EncodeExact(amountIn, minimumExact) == EncodeDelta(minimumDelta, preBalance)
            <==> amountIn == 0 && preBalance == 0 && minimumExact == minimumDelta
  {
    ConvertDataLayout(amountIn, minimumExact, 0);
    ConvertDataLayout(0, minimumDelta, preBalance);
  }
}
