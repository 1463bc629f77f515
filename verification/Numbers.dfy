/** The arithmetic the source does on machine integers. */
module Numbers {
  const U64_MAX := 0xFFFF_FFFF_FFFF_FFFF

  /** What a `u64` holds. */
  type U64 = n: nat | n <= U64_MAX

  function Min(a: int, b: int): int {
    if a < b then a else b
  }

  function Max(a: int, b: int): int {
    if a < b then b else a
  }

  function SatAdd(a: nat, b: nat): (r: U64)
    ensures a + b <= U64_MAX ==> r == a + b
  {
    Min(a + b, U64_MAX)
  }

  function SatSub(a: nat, b: nat): nat {
    if a < b then 0 else a - b
  }

  function SatMul(a: nat, b: nat): (r: U64)
    ensures a * b <= U64_MAX ==> r == a * b
  {
    assert a * b >= 0;
    Min(a * b, U64_MAX)
  }
}
