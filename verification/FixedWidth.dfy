/** Machine integers of the contracts: the ranges of `i128`, `u64` and `u32`, and the checked and
    saturating operations the Rust code calls on them.  `Plus` and `Minus` stand for the plain
    operators: their preconditions are proof that no overflow is reached.  Only the additions on the
    ID counter and on a nonce can reach the end of their range; they are modelled as trapping there. */
module FixedWidth {

  const I128_MAX: int := 0x7FFF_FFFF_FFFF_FFFF_FFFF_FFFF_FFFF_FFFF
  const I128_MIN: int := -0x8000_0000_0000_0000_0000_0000_0000_0000
  const U64_MAX: int := 0xFFFF_FFFF_FFFF_FFFF
  const U32_MAX: int := 0xFFFF_FFFF

  datatype Option<+T> = None | Some(value: T)

  predicate IsI128(x: int) { I128_MIN <= x <= I128_MAX }
  predicate IsU64(x: int) { 0 <= x <= U64_MAX }

  /** Argument types of the entry points. */
  type i128 = x: int | IsI128(x)
  type u64 = x: int | IsU64(x)
  type u32 = x: int | 0 <= x <= U32_MAX

  function Min(x: int, y: int): int { if x <= y then x else y }
  function Max(x: int, y: int): int { if x >= y then x else y }
  function Clamp(x: int, lo: int, hi: int): int { Max(Min(x, hi), lo) }

  function Checked(x: int): Option<int> { if IsI128(x) then Some(x) else None }
  function CheckedMul(x: int, y: int): Option<int> { Checked(x * y) }
  function SaturatingAdd(x: int, y: int): int { Clamp(x + y, I128_MIN, I128_MAX) }
  function SaturatingSub(x: int, y: int): int { Clamp(x - y, I128_MIN, I128_MAX) }
  function CheckedAddU64(x: int, y: int): Option<int> { if IsU64(x + y) then Some(x + y) else None }
  function SaturatingSubU64(x: int, y: int): int { Max(x - y, 0) }

  function Plus(x: int, y: int): int
    requires IsI128(x + y)
  {
    x + y
  }

  function Minus(x: int, y: int): int
    requires IsI128(x - y)
  {
    x - y
  }

  /** Subtraction of `u64` and `u32` values. */
  function MinusUnsigned(x: int, y: int): nat
    requires y <= x
  {
    x - y
  }
}
