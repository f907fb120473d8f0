// What the router hands to a quoting object and gets back.
module AmmInterface {
  import opened Integers
  import opened Addresses
  import opened Pricing

  datatype Account = Account(data: seq<u8>, owner: Pubkey)

  type AccountMap = map<Pubkey, Account>

  datatype AccountMeta = AccountMeta(pubkey: Pubkey, isSigner: bool, isWritable: bool)

  function Writable(key: Pubkey): (meta: AccountMeta)
    ensures meta.pubkey == key && !meta.isSigner && meta.isWritable
  {
    AccountMeta(key, false, true)
  }

  function Readonly(key: Pubkey): (meta: AccountMeta)
    ensures meta.pubkey == key && !meta.isSigner && !meta.isWritable
  {
    AccountMeta(key, false, false)
  }

  function ReadonlySigner(key: Pubkey): (meta: AccountMeta)
    ensures meta.pubkey == key && meta.isSigner && !meta.isWritable
  {
    AccountMeta(key, true, false)
  }

  datatype SwapMode = ExactIn | ExactOut

  datatype QuoteParams = QuoteParams(amount: u64, inputMint: Pubkey, outputMint: Pubkey, swapMode: SwapMode)

  datatype SwapQuote = SwapQuote(fill: Fill, feeMint: Pubkey)

  datatype SwapParams = SwapParams(
    swapMode: SwapMode,
    sourceMint: Pubkey, destinationMint: Pubkey,
    sourceTokenAccount: Pubkey, destinationTokenAccount: Pubkey,
    tokenTransferAuthority: Pubkey)
}
