/** The 64-bit entries of the bad-block page: 1 bit acknowledged, 54 bits start, 9 bits length minus one. */
module BadBlockPacking {

  function Pack(a: bv64, len: bv64, ack: bool): bv64 {
    (a << 9) | (len - 1) | (if ack then 0x8000000000000000 else 0)
  }

  function Offset(x: bv64): bv64 { (x & 0x7FFFFFFFFFFFFE00) >> 9 }
  function Length(x: bv64): bv64 { (x & 0x1FF) + 1 }
  predicate Acked(x: bv64) { x & 0x8000000000000000 != 0 }

  /** An entry gives back what was packed exactly for 54-bit starts and lengths 1..512. */
  lemma PackedRangeReadsBack(a: bv64, len: bv64, ack: bool)
    ensures (Offset(Pack(a, len, ack)) == a && Length(Pack(a, len, ack)) == len && Acked(Pack(a, len, ack)) == ack)
            <==> a <= 0x3FFFFFFFFFFFFF && 1 <= len <= 512
  {
    var x := Pack(a, len, ack);
    assert Offset(x) <= 0x3FFFFFFFFFFFFF;
    assert 1 <= Length(x) <= 512;
  }

  /** A length of zero or less, in two's complement, yields an acknowledged entry at the very last start. */
  lemma NonPositiveLengthPacksToTheEnd(a: bv64, len: bv64, ack: bool)
    requires (len - 1) & 0xFFFFFFFFFFFFFE00 == 0xFFFFFFFFFFFFFE00
    ensures Offset(Pack(a, len, ack)) == 0x3FFFFFFFFFFFFF && Acked(Pack(a, len, ack))
    ensures Length(Pack(a, len, ack)) == ((len - 1) & 0x1FF) + 1
  {
  }
}
