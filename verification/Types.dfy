/**
 Machine integers, byte strings and the two result shapes shared by every module.
 */
module Types {

  type byte = b: int | 0 <= b < 256
  type bytes = seq<byte>

  const U32_MAX: int := 0xFFFF_FFFF
  const U64_MAX: int := 0xFFFF_FFFF_FFFF_FFFF
  const I64_MAX: int := 0x7FFF_FFFF_FFFF_FFFF

  type u32 = n: int | 0 <= n <= U32_MAX
  type u64 = n: int | 0 <= n <= U64_MAX
  type i64 = n: int | -I64_MAX - 1 <= n <= I64_MAX

  type Hash20 = b: bytes | |b| == 20 witness seq(20, _ => 0)
  type Hash32 = b: bytes | |b| == 32 witness seq(32, _ => 0)

  datatype Option<+T> = None | Some(value: T)

  /** Failure-compatible: `:-` propagates `Err`. */
  datatype Result<+T> = Ok(value: T) | Err {
    predicate IsFailure() { Err? }

    function PropagateFailure<U>(): Result<U>
      requires Err?
    {
      Err
    }

    function Extract(): T
      requires Ok?
    {
      value
    }
  }

  /** `u32::saturating_add`. */
  function SaturatingAdd(a: u32, b: u32): (r: u32)
    ensures r == a + b || (r == U32_MAX && a + b > U32_MAX)
  {
    if a + b <= U32_MAX then a + b else U32_MAX
  }
}
