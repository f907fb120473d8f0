// Option and Result stand for the source's `Option` and `anyhow::Result`; both
// work with `:-`, which reads like the source's `?`.
module Results {
  datatype Option<+T> = None | Some(value: T) {
    predicate IsFailure() { None? }

    function PropagateFailure<U>(): Option<U> { None }

    function Extract(): T
      requires Some?
    {
      value
    }

    // The source's `ok_or_else(...)?`.
    function OkOr(error: Error): Result<T> {
      if Some? then Ok(value) else Err(error)
    }
  }

  // One constructor per early return of the modelled functions.
  datatype Error =
    | AccountMissing
    | WrongOwner
    | BadLength
    | BadDiscriminator
    | BadBoolByte
    | Uninitialized
    | MintsOutOfOrder
    | NotCanonicalKey
    | UnsupportedTokenProgram
    | NotOneFactionMint
    | FactionNotToken2022
    | WsolNotClassicSpl
    | IdentityChanged
    | QuoteMintRejected
    | ExactOutUnsupported
    | MintPairMismatch
    | Inactive
    | TaxFailed
    | EffectiveInputFailed
    | SwapOutputFailed
    | NotSolPool
    | UnsupportedPair
    | EmptyConfig
    | AccountTooShort
    | MintMismatch
    | UnsupportedDirection
    | UnknownKey
    | ConversionFailed
    | InsufficientLiquidity

  datatype Result<+T> = Ok(value: T) | Err(error: Error) {
    predicate IsFailure() { Err? }

    function PropagateFailure<U>(): Result<U>
      requires Err?
    {
      Err(error)
    }

    function Extract(): T
      requires Ok?
    {
      value
    }
  }
}

// Rust's unsigned widths, as ranges of the unbounded integers, and the checked
// operations that return `None` where the width is exceeded.
module Integers {
  import opened Results

  const U8_LIMIT: int := 0x100
  const U16_LIMIT: int := 0x1_0000
  const U64_LIMIT: int := 0x1_0000_0000_0000_0000
  const U64_MAX: int := U64_LIMIT - 1
  const U128_LIMIT: int := 0x1_0000_0000_0000_0000_0000_0000_0000_0000

  type u8 = n: int | 0 <= n < U8_LIMIT
  type u16 = n: int | 0 <= n < U16_LIMIT
  type u64 = n: int | 0 <= n < U64_LIMIT
  type u128 = n: int | 0 <= n < U128_LIMIT

  function CheckedAddU64(x: u64, y: u64): Option<u64> {
    if x + y < U64_LIMIT then Some(x + y) else None
  }

  function CheckedSubU64(x: u64, y: u64): Option<u64> {
    if y <= x then Some(x - y) else None
  }

  function CheckedMulU64(x: u64, y: u64): Option<u64> {
    var product := x * y;
    if 0 <= product < U64_LIMIT then Some(product) else None
  }

  function SaturatingSubU64(x: u64, y: u64): u64 {
    if y <= x then x - y else 0
  }

  function CheckedAddU128(x: u128, y: u128): Option<u128> {
    if x + y < U128_LIMIT then Some(x + y) else None
  }

  function CheckedSubU128(x: u128, y: u128): Option<u128> {
    if y <= x then Some(x - y) else None
  }

  function CheckedMulU128(x: u128, y: u128): Option<u128> {
    var product := x * y;
    if 0 <= product < U128_LIMIT then Some(product) else None
  }

  function CheckedDivU128(x: u128, y: u128): (r: Option<u128>)
    ensures r.Some? <==> y != 0
    ensures r.Some? ==> r.value * y <= x < (r.value + 1) * y
  {
    if y == 0 then None
    else
      DivBetween(x, y);
      Some(x / y)
  }

  // `u64::try_from(x).ok()`
  function NarrowU64(x: u128): Option<u64> {
    if x < U64_LIMIT then Some(x) else None
  }

  // `x as u64`: the cast keeps the low 64 bits.
  function CastU64(x: u128): u64 {
    x % U64_LIMIT
  }

  // Facts about floor division that the pricing proofs rest on.

  lemma DivBetween(n: int, d: int)
    requires 0 <= n && 0 < d
    ensures 0 <= n / d <= n
    ensures n / d * d <= n < (n / d + 1) * d
  {
    assert n == n / d * d + n % d;
    if n < n / d {
      MulMono(1, d, n / d);
    }
  }

  lemma MulMono(a: int, b: int, c: int)
    requires a <= b && 0 <= c
    ensures a * c <= b * c
  {
  }

  // q * d <= n pins a floor from below, n < (q + 1) * d from above.
  lemma FloorLeast(low: int, q: int, n: int, d: int)
    requires 0 < d && low * d <= n < (q + 1) * d
    ensures low <= q
  {
    if q + 1 <= low {
      MulMono(q + 1, low, d);
    }
  }
}
