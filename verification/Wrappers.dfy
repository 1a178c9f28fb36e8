/** Optional values, as the modelled program uses them for nullable columns and lookups. */
module Wrappers {
  datatype Option<+T> = None | Some(value: T)

  const U32_MAX: nat := 0xFFFF_FFFF
  const U64_MAX: nat := 0xFFFF_FFFF_FFFF_FFFF

  function Min(a: nat, b: nat): nat {
    if a <= b then a else b
  }

  function Max(a: nat, b: nat): nat {
    if a >= b then a else b
  }

  /** Unsigned subtraction that stops at zero. */
  function SatSub(a: nat, b: nat): nat {
    if a >= b then a - b else 0
  }

  /** Unsigned 32-bit addition that stops at the largest value. */
  function SatAdd32(a: nat, b: nat): nat {
    Min(a + b, U32_MAX)
  }
}
