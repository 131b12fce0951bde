/** Small vocabulary shared by every module: options, results and 32-bit counters. */
module Basics {
  datatype Option<+T> = None | Some(value: T)

  datatype Result<+T, +E> = Ok(value: T) | Err(error: E)

  const TWO_TO_THE_32: int := 0x1_0000_0000

  /** Go's uint32. */
  type U32 = x: int | 0 <= x < TWO_TO_THE_32

  /** `x + n` in uint32 arithmetic: it wraps. */
  function WrapAdd(x: U32, n: nat): U32 {
    (x + n) % TWO_TO_THE_32
  }

  /** Go's two-valued map lookup. */
  function Lookup<K, V>(m: map<K, V>, k: K): Option<V> {
    if k in m then Some(m[k]) else None
  }
}
