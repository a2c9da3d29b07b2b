/** Fixed-width integers, account names and the success/failure wrappers shared by the
    platform, casino and events contracts and by the test helpers. */
module Types {

  newtype u8 = x: int | 0 <= x < 0x100
  newtype u16 = x: int | 0 <= x < 0x1_0000
  newtype u32 = x: int | 0 <= x < 0x1_0000_0000
  newtype u64 = x: int | 0 <= x < 0x1_0000_0000_0000_0000

  const U64_MODULUS: int := 0x1_0000_0000_0000_0000

  /** An eosio account name: a 64-bit value. */
  datatype Name = Name(value: u64)

  /** `std::vector<char>` payloads (row meta, event data), kept opaque. */
  type Bytes = seq<u8>

  /** A value that may be absent (a table row that may not exist). */
  datatype Option<+T> = None | Some(value: T)

  /** The outcome of an action: it either commits, or aborts with an error and changes nothing. */
  datatype Outcome<+E> = Pass | Fail(error: E)

  /** The result of an operation that computes a value or throws. */
  datatype Result<+T, +E> = Success(value: T) | Failure(error: E)
}
