/** Small value types shared by the other modules. */
module Basics {

  datatype Option<T> = None | Some(value: T)

  const UINT32_LIMIT: nat := 0x1_0000_0000
  const UINT64_LIMIT: int := 0x1_0000_0000_0000_0000
  const INT32_LIMIT: int := 0x8000_0000
  const INT64_LIMIT: int := 0x8000_0000_0000_0000

  /** The values of the C++ type uint32_t. */
  type uint32 = x: int | 0 <= x < 0x1_0000_0000

  /** uint32_t addition, which wraps around. */
  function Plus32(a: uint32, n: nat): (r: uint32) {
    (a + n) % UINT32_LIMIT
  }

  /** uint32_t decrement, which wraps around. */
  function Minus32(a: uint32, n: nat): (r: uint32) {
    (a - n) % UINT32_LIMIT
  }

  /** No element occurs twice. */
  ghost predicate Distinct<T>(xs: seq<T>) {
    forall i, j :: 0 <= i < j < |xs| ==> xs[i] != xs[j]
  }

  /** Wrapping around early or late makes no difference. */
  lemma Wraps32(a: int, b: int)
    ensures (a % 0x1_0000_0000 + b) % 0x1_0000_0000 == (a + b) % 0x1_0000_0000
  {
    var q := a / 0x1_0000_0000;
    assert a == q * 0x1_0000_0000 + a % 0x1_0000_0000;
  }
}
