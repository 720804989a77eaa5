/** Primitive protocol types that the content operations are built from.
    Fixed-width unsigned integers are newtypes over `int`; a C++ narrowing
    conversion is written out as reduction modulo the width. */
module ProtocolTypes {

  const U16_LIMIT: int := 0x1_0000
  const U32_LIMIT: int := 0x1_0000_0000
  const U64_LIMIT: int := 0x1_0000_0000_0000_0000

  newtype uint16 = x: int | 0 <= x < U16_LIMIT
  newtype uint32 = x: int | 0 <= x < U32_LIMIT
  newtype uint64 = x: int | 0 <= x < U64_LIMIT

  /** `account_uid_type`: an account is named by a 64-bit unsigned id. */
  type Uid = uint64

  /** `post_pid_type`: a post is numbered by a 64-bit unsigned id within its poster. */
  type PostPid = uint64

  /** Conversion of a non-negative value to `uint64_t`, keeping the low 64 bits. */
  function ToUint64(x: nat): (r: uint64)
    ensures x < U64_LIMIT ==> r as int == x
    ensures (r as int - x) % U64_LIMIT == 0
  {
    (x % U64_LIMIT) as uint64
  }

  /** Conversion of a non-negative value to `uint32_t`, keeping the low 32 bits. */
  function ToUint32(x: nat): (r: uint32)
    ensures x < U32_LIMIT ==> r as int == x
    ensures (r as int - x) % U32_LIMIT == 0
  {
    (x % U32_LIMIT) as uint32
  }

  /** `fc::optional<T>`: a field that may be absent. */
  datatype Option<T> = None | Some(value: T)

  /** `asset`: an amount in some asset. Its definition lives outside the
      content header, so the model keeps it abstract. */
  type Asset

  /** `fee_type`: the fee an operation claims to pay (abstract, as `Asset`). */
  type FeeType

  /** `extensions_type`: the open extension bag every operation and every
      fee-parameter record carries (abstract). */
  type Extensions
}
