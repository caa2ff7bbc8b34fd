/** Machine-integer limits, saturating arithmetic and the two result wrappers shared by all modules. */
module Common {

  const U32_MAX: nat := 0xFFFF_FFFF
  const U64_MAX: nat := 0xFFFF_FFFF_FFFF_FFFF
  const U128_MAX: nat := 0xFFFF_FFFF_FFFF_FFFF_FFFF_FFFF_FFFF_FFFF

  datatype Option<+T> = None | Some(value: T)

  datatype Result<+T, +E> = Ok(value: T) | Err(error: E) {
    function GetOr(default: T): T { if Ok? then value else default }
  }

  function Min(a: int, b: int): int { if a <= b then a else b }

  function Max(a: int, b: int): int { if a >= b then a else b }

  /** `a.saturating_add(b)` for an unsigned type whose largest value is `limit`. */
  function SatAdd(a: nat, b: nat, limit: nat): nat { Min(a + b, limit) }

  /** `a.saturating_sub(b)` for any unsigned type. */
  function SatSub(a: nat, b: nat): nat { if a < b then 0 else a - b }

  /** `m.get(k)` */
  function Get<K, V>(m: map<K, V>, k: K): Option<V> { if k in m then Some(m[k]) else None }
}
