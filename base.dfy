/** Option and Result, the two failure-carrying shapes the Rust code uses
    everywhere (`Option<T>` and `Result<T, String>`). */
module Base {

  datatype Option<+T> = None | Some(value: T) {
    function GetOr(default: T): T {
      match this
      case Some(v) => v
      case None => default
    }

    /** `Option::or`: this value when present, otherwise the alternative. */
    function Or(other: Option<T>): Option<T> {
      if Some? then this else other
    }

    /** Support for `:-`, playing the role of Rust's `?` on an `Option`. */
    predicate IsFailure() { None? }

    function PropagateFailure<U>(): Option<U>
      requires None?
    {
      None
    }

    function Extract(): T
      requires Some?
    {
      value
    }
  }

  /** Errors are the human-readable strings the commands return. */
  datatype Result<+T> = Ok(value: T) | Err(error: string) {
    predicate IsFailure() { Err? }

    function PropagateFailure<U>(): Result<U>
      requires Err?
    {
      Err(error)
    }

    function Extract(): T
      requires Ok?
    {
      value
    }
  }

  /** `u32::MAX + 1`: unsigned 32-bit values are the naturals below it. */
  const U32_LIMIT: int := 0x1_0000_0000

  predicate IsU32(n: int) { 0 <= n < U32_LIMIT }

  /** `as i32` on a u32: values from 2^31 up wrap to negatives. */
  function U32AsI32(n: nat): (r: int)
    requires IsU32(n)
    ensures -0x8000_0000 <= r < 0x8000_0000
    ensures n < 0x8000_0000 ==> r == n
  {
    if n < 0x8000_0000 then n else n - U32_LIMIT
  }

  /** `as u32` on a u64: keeps the low 32 bits. */
  function TruncateU32(n: nat): (r: nat)
    ensures IsU32(r)
    ensures IsU32(n) ==> r == n
  {
    n % U32_LIMIT
  }

  /** `as i32` on a `usize`: keeps the low 32 bits as a signed value. */
  function UsizeAsI32(n: nat): (r: int)
    ensures -0x8000_0000 <= r < 0x8000_0000
    ensures n < 0x8000_0000 ==> r == n
  {
    U32AsI32(TruncateU32(n))
  }
}
