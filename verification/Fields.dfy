// The field encodings shared by every account and instruction layout. Each reader
// and its writer are inverse to each other.
module Fields {
  import opened Results
  import opened Integers
  import opened Bytes
  import opened Addresses

  function PubkeyAt(bytes: seq<u8>): (key: Pubkey)
    requires |bytes| == 32
    ensures key.number < Pow256(32) && ToBe(key.number, 32) == bytes
  {
    Widths();
    BeUnique(bytes);
    Pubkey(FromBe(bytes))
  }

  function PubkeyBytes(key: Pubkey): (bytes: seq<u8>)
    ensures |bytes| == 32 && PubkeyAt(bytes) == key
  {
    Widths();
    BeRoundTrip(key.number, 32);
    ToBe(key.number, 32)
  }

  function U64At(bytes: seq<u8>): (n: u64)
    requires |bytes| == 8
    ensures n < Pow256(8) && ToLe(n, 8) == bytes
  {
    Widths();
    LeUnique(bytes);
    FromLe(bytes)
  }

  function U64Bytes(n: u64): (bytes: seq<u8>)
    ensures |bytes| == 8 && U64At(bytes) == n
  {
    Widths();
    LeRoundTrip(n, 8);
    ToLe(n, 8)
  }

  function U16At(bytes: seq<u8>): (n: u16)
    requires |bytes| == 2
    ensures n < Pow256(2) && ToLe(n, 2) == bytes
  {
    Widths();
    LeUnique(bytes);
    FromLe(bytes)
  }

  function U16Bytes(n: u16): (bytes: seq<u8>)
    ensures |bytes| == 2 && U16At(bytes) == n
  {
    Widths();
    LeRoundTrip(n, 2);
    ToLe(n, 2)
  }

  function BoolAt(byte: u8): (b: Result<bool>) {
    if byte == 0 then Ok(false) else if byte == 1 then Ok(true) else Err(BadBoolByte)
  }

  function BoolByte(b: bool): (byte: u8)
    ensures BoolAt(byte) == Ok(b)
  {
    if b then 1 else 0
  }
}
