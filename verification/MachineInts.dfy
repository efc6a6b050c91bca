/** The fixed-width integers of the Rust sources and the casts between them. */
module MachineInts {
  const TWO_31: int := 0x8000_0000
  const TWO_32: int := 0x1_0000_0000
  const TWO_64: int := 0x1_0000_0000_0000_0000

  type i32 = x: int | -0x8000_0000 <= x < 0x8000_0000
  type u32 = x: int | 0 <= x < 0x1_0000_0000
  type u64 = x: int | 0 <= x < 0x1_0000_0000_0000_0000
  type u128 = x: int | 0 <= x < 0x1_0000_0000_0000_0000_0000_0000_0000_0000

  /** `n as i32` for an unsigned n: the low 32 bits, read as two's complement. */
  function AsI32(n: nat): i32 {
    var low := n % TWO_32;
    if low < TWO_31 then low else low - TWO_32
  }

  /** `try_into().unwrap_or_default()` from i32 to u32. */
  function I32ToU32(v: i32): u32 {
    if v < 0 then 0 else v
  }

  /** The cast count compares with the limit as the count itself does. */
  predicate ComparesFaithfully(n: nat, limit: i32) {
    AsI32(n) >= limit <==> n >= limit
  }

  /** The cast of a count decides every comparison with a limit correctly exactly
      below 2^31, or when its low 32 bits happen to be the largest i32. */
  lemma CastComparesFaithfully(n: nat)
    ensures (forall limit: i32 :: ComparesFaithfully(n, limit))
            <==> n < TWO_31 || n % TWO_32 == TWO_31 - 1
  {
    var top: i32 := 0x7fff_ffff;
    if n >= TWO_31 && n % TWO_32 != TWO_31 - 1 {
      assert !ComparesFaithfully(n, top);
    }
  }

  /** A cast keeps the low 32 bits: it changes a number by a multiple of 2^32. */
  lemma CastKeepsLowBits(n: nat)
    ensures (n - AsI32(n)) % TWO_32 == 0
  {
  }

  /** A u32 stored through an i32 column that refuses negative values is either
      refused, exactly from 2^31 on, or read back unchanged. */
  lemma StoredU32ReadsBack(v: u32)
    ensures AsI32(v) < 0 <==> v >= TWO_31
    ensures AsI32(v) >= 0 ==> I32ToU32(AsI32(v)) == v
    ensures forall x: i32 :: x < 0 ==> I32ToU32(x) == 0
  {
  }
}
