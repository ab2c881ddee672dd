/** Types shared by every handler of the gateway: optional values, the
    faults that abort a request (an `unwrap` on a missing value), fixed-width
    integers and the pagination stub of Cosmos list responses. */
module Common {

  datatype Option<+T> = None | Some(value: T)

  /** Why a request is aborted instead of answered. */
  datatype Fault =
    | MissingField(field: string)       // an `unwrap` on an absent sub-message
    | MalformedIdentity(input: string)  // an identity key string that does not parse

  datatype Result<+T> = Ok(value: T) | Err(error: Fault)

  type Bytes = seq<bv8>

  /** A validator's identity key, as the native chain stores it. */
  datatype IdentityKey = IdentityKey(bytes: Bytes)

  const TWO_63: int := 0x8000_0000_0000_0000
  const TWO_64: int := 0x1_0000_0000_0000_0000
  const I64_MIN: int := -TWO_63
  const I64_MAX: int := TWO_63 - 1

  type U64 = x: int | 0 <= x < 0x1_0000_0000_0000_0000

  /** Rust's `x as i64` on a `u64`: the same 64 bits read as two's complement. */
  function AsI64(x: U64): (r: int)
    ensures I64_MIN <= r <= I64_MAX
    ensures (r - x) % TWO_64 == 0
    ensures x < TWO_63 ==> r == x
  {
    if x < TWO_63 then x else x - TWO_64
  }

  /** Rust's `x as i64` on an `f64`, with the float idealised as a real:
      truncation toward zero, saturating at the ends of the `i64` range. */
  function TruncateToI64(x: real): (t: int)
    ensures I64_MIN <= t <= I64_MAX
    ensures I64_MAX as real <= x ==> t == I64_MAX
    ensures x <= I64_MIN as real ==> t == I64_MIN
    ensures 0.0 <= x < I64_MAX as real ==> t as real <= x < t as real + 1.0
    ensures I64_MIN as real < x < 0.0 ==> t as real - 1.0 < x <= t as real
  {
    if I64_MAX as real <= x then I64_MAX
    else if x <= I64_MIN as real then I64_MIN
    else if 0.0 <= x then x.Floor
    else -((-x).Floor)
  }

  /** The cast keeps the order of its arguments. */
  lemma TruncateMonotone(x: real, y: real)
    requires x <= y
    ensures TruncateToI64(x) <= TruncateToI64(y)
  {
  }

  /** A whole number of seconds inside the `i64` range is cast exactly. */
  lemma TruncateWhole(n: int)
    requires I64_MIN <= n <= I64_MAX
    ensures TruncateToI64(n as real) == n
  {
  }

  /** The pagination object of a Cosmos list response. */
  datatype Pagination = Pagination(nextKey: Option<string>, total: string)
}
