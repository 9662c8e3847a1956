/**
 * Fixed-width integers of the node arguments (`u16`, `u64`, `usize`, `U256`),
 * the two pieces of machine arithmetic the launcher uses (saturating 256-bit
 * multiplication and the wrapping increment of an atomic counter), and the
 * foreign types the launcher only carries around.
 */
module Primitives {

  const U16_LIMIT: int := 0x1_0000
  const U64_LIMIT: int := 0x1_0000_0000_0000_0000
  const U256_LIMIT: int := 0x1_0000_0000_0000_0000_0000_0000_0000_0000_0000_0000_0000_0000_0000_0000_0000_0000

  type U16 = x: int | 0 <= x < U16_LIMIT
  type U64 = x: int | 0 <= x < U64_LIMIT
  type U256 = x: int | 0 <= x < U256_LIMIT

  /** `usize` on a 64-bit target. */
  type USize = U64

  const U256_MAX: U256 := U256_LIMIT - 1

  /** The number of wei in one ether, 10^18, as a 256-bit value. */
  const WEI_IN_ETHER: U256 := 1_000_000_000_000_000_000

  /**
   * `U256::saturating_mul`: the exact product when it fits in 256 bits,
   * otherwise the largest 256-bit value (never a wrapped-around product).
   */
  function SaturatingMul(a: U256, b: U256): (r: U256)
    ensures r <= a * b
    ensures r == a * b || r == U256_MAX
    ensures a * b < U256_LIMIT <==> r == a * b
  {
    if a * b < U256_LIMIT then a * b else U256_MAX
  }

  /**
   * The new value stored by `AtomicUsize::fetch_add(1, _)`: one more than
   * before, wrapping around to zero past the largest `usize`.
   */
  function WrappingIncrement(x: USize): (r: USize)
    ensures r == 0 <==> x == U64_LIMIT - 1
    ensures r != 0 ==> r == x + 1
  {
    (x + 1) % U64_LIMIT
  }

  /** `std::time::Duration`, whole seconds plus nanoseconds. */
  datatype Duration = Duration(secs: U64, nanos: nat)

  /** `Duration::from_secs`. */
  function DurationFromSecs(secs: U64): Duration {
    Duration(secs, 0)
  }

  /**
   * Foreign types whose parsing belongs to other crates. Each is kept as the
   * text it was selected by; nothing in the launcher looks inside them.
   */
  datatype Hardfork = Hardfork(name: string)
  datatype TransactionOrder = TransactionOrder(name: string)
  datatype IpAddr = IpAddr(text: string)

  /** The flattened server options (`anvil_server::ServerConfig`), carried through unchanged. */
  datatype ServerConfig = ServerConfig(options: seq<(string, string)>)
}
