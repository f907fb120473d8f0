// The addresses of src/accounts/addresses.rs, by value.
module Addresses {
  import opened Integers

  const ADDRESS_LIMIT: int := U64_LIMIT * U64_LIMIT * U64_LIMIT * U64_LIMIT

  type AddressNumber = n: int | 0 <= n < ADDRESS_LIMIT

  // 32 bytes, as the number they spell most significant first (Bytes.FromBe).
  datatype Pubkey = Pubkey(number: AddressNumber) {
    predicate Before(other: Pubkey) {
      number < other.number
    }
  }

  const AMM_PROGRAM_ID := Pubkey(0x4002a5ab775b3b4d931b2b47c03c77f2df865dc81c36c4abd9ba1d7e1f8ac6ba)
  const TRANSFER_HOOK_PROGRAM_ID := Pubkey(0xae0bcffcd3713fec674533285e5f5f0c910d67e5105f9cd8f11f6ad730ec1232)
  const TAX_PROGRAM_ID := Pubkey(0x2d41d172b79e0e2e60af8fd5ae07ea87419ef81e2ef2f126cd1e0a1df5528d80)
  const EPOCH_PROGRAM_ID := Pubkey(0x30d723275cfffcb1ff3bd70e8a0ffc2ae0fb7c3fe753e296bc67f2cd301be0d1)
  const STAKING_PROGRAM_ID := Pubkey(0x6814b3b3448f00f1e25951f8e16bdf9208537372afd64a4945955d65fc723a)
  const CRIME_MINT := Pubkey(0x9134573ad65aad688e3a59dbac1022ea9152f3e64e6753c6c8b8f4c88d85d27)
  const FRAUD_MINT := Pubkey(0xdcb6edb69e6c5568401b5cbe4ef39fb349f28a21600af3ff6570c64ec4158f10)
  const PROFIT_MINT := Pubkey(0xc26562cfbeefda2f08c5e444fad4b64a5720f5f098bd1d378ea5240f1ab3448)
  const NATIVE_MINT := Pubkey(0x69b8857feab8184fb687f634618c035dac439dc1aeb3b5598a0f00000000001)
  const EPOCH_STATE_PDA := Pubkey(0xdada31db6dc7d8b167006c7c129474bcc88a94c5c400de9a158d5a52b436e96b)
  const SWAP_AUTHORITY_PDA := Pubkey(0xaf466cb6b02c83736d3f102539673ee904373dab334530797198bc2dade9f022)
  const TAX_AUTHORITY_PDA := Pubkey(0x76cb19c780735fce3c8d3efda6b17dbe72e57e2bf45b034c39bab39af270ca2b)
  const STAKE_POOL_PDA := Pubkey(0x3e27bc8d487a43056c15382951fc25da899960c95accdbd0658afc707526d007)
  const ESCROW_VAULT_PDA := Pubkey(0x35a5c1b0cf4d9c397ae7c9c8a402125de53a88cabe5e83ab025bc57be0e9009)
  const CARNAGE_SOL_VAULT_PDA := Pubkey(0x3d83730eecce3d612497c0a4cebac7c750760fba61787f39b9a2fecc5bb222c8)
  const TREASURY := Pubkey(0xe2156455b8382840ca37be0a1c5849e52921b3867978380d8e7bda635a44f643)
  const WSOL_INTERMEDIARY_PDA := Pubkey(0x130e4620650a130f65502a94a1d13c7b75a8cf1dc5d2c82eb9fb62e1c050307e)
  const VAULT_CONFIG_PDA := Pubkey(0x75a6588f99a6750637cb0f663e04b031851c0026796d263c3650ea5ba8321ace)
  const VAULT_CRIME := Pubkey(0xe9280927fe32c1c537486e7c2caaa7a0a2a8565c2a4f2e7f63f5be2b8d37d741)
  const VAULT_FRAUD := Pubkey(0xb752a7e3af63e6229cb228ba74fb045efd069692aafefa943543881adb71e8ef)
  const VAULT_PROFIT := Pubkey(0xb4f3518ef73efe2b343fc2677708309ca234b4cab3791ad2a7299e6b8d061d78)
  const CRIME_SOL_POOL := Pubkey(0x853e9d654356c34aa5ff52c93f646bd2c4edeb14007e28cf9da857bb5719fd2)
  const FRAUD_SOL_POOL := Pubkey(0x916d758567eb73aadc0052130d25300aea2fd2a5493410dd07c8a21bab86e1b8)
  const CRIME_HOOK_META := Pubkey(0xaa1244bf63da29cfbe06b89216114ebcc3479ba46fb7b318d7310ac8f41c32b7)
  const FRAUD_HOOK_META := Pubkey(0x5f1c598fc6e2139dabb04aafe3d1d73b9aea92ab64897fe8cb52bb8a57ac0ece)
  const PROFIT_HOOK_META := Pubkey(0xfd8526a0b0095aa2b795408145eee1fe302aa3df540129b6cc0e35eb050e851c)
  const SPL_TOKEN_PROGRAM_ID := Pubkey(0x6ddf6e1d765a193d9cbe146ceeb79ac1cb485ed5f5b37913a8cf5857eff00a9)
  const TOKEN_2022_PROGRAM_ID := Pubkey(0x6ddf6e1ee758fde18425dbce46ccddab61afc4d83b90d27febdf928d8a18bfc)
  const SYSTEM_PROGRAM_ID := Pubkey(0)

  predicate IsFaction(mint: Pubkey) {
    mint == CRIME_MINT || mint == FRAUD_MINT
  }

  predicate IsTokenProgram(program: Pubkey) {
    program == SPL_TOKEN_PROGRAM_ID || program == TOKEN_2022_PROGRAM_ID
  }

  // What this model does not compute: derived addresses and the unpacking of a
  // quote mint's extensions. Every result holds for every choice of these.
  datatype Externals = Externals(
    poolAddress: (Pubkey, Pubkey) -> Pubkey,
    sweepAuthority: Pubkey,
    associatedToken: (Pubkey, Pubkey, Pubkey) -> Pubkey,
    whitelistEntry: Pubkey -> Pubkey,
    vaultInstanceKey: (Pubkey, Pubkey) -> Pubkey,
    quoteMintAccepted: (seq<u8>, Pubkey, Pubkey) -> bool)
}
