/** Small data types shared by every module. */
module Common {

  datatype Option<+T> = None | Some(value: T)

  const MAX_UINT64: nat := 0xFFFF_FFFF_FFFF_FFFF
  const MAX_INT64: int := 0x7FFF_FFFF_FFFF_FFFF
  const MIN_INT64: int := -0x8000_0000_0000_0000

  /** How the units of a batch ended. */
  datatype BatchOutcome = BatchOutcome(succeeded: int, failed: int, uncertain: int) {
    function Count(): int {
      succeeded + failed + uncertain
    }

    predicate NonNegative() {
      succeeded >= 0 && failed >= 0 && uncertain >= 0
    }
  }

  /** Two's-complement wrap-around of 64-bit signed arithmetic. */
  function Wrap64(x: int): (r: int)
    ensures MIN_INT64 <= r <= MAX_INT64
    ensures MIN_INT64 <= x <= MAX_INT64 ==> r == x
  {
    (x - MIN_INT64) % 0x1_0000_0000_0000_0000 + MIN_INT64
  }

  lemma WrapOfSum(a: int, b: int)
    ensures Wrap64(Wrap64(a) + b) == Wrap64(a + b)
  {
  }

  predicate Int64(x: int) {
    MIN_INT64 <= x <= MAX_INT64
  }

  function Max(a: int, b: int): int {
    if a < b then b else a
  }

  function Last<T>(s: seq<T>): T
    requires s != []
  {
    s[|s| - 1]
  }
}
