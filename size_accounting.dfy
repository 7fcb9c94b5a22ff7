/**
 * Size accounting for the message transcoders: the EdsLib_SizeInfo_t pair of
 * a bit count and a byte count, and the size_t arithmetic the transcoders do
 * on them.  size_t is 64 bits wide on the target; every subtraction,
 * addition and octets-to-bits conversion below wraps modulo 2^64 exactly as
 * the C does, and the lemmas say when it does not.
 */
module SizeAccounting {

  const SIZE_MODULUS: int := 0x1_0000_0000_0000_0000

  /** A value of C type size_t. */
  type SizeT = x: int | 0 <= x < SIZE_MODULUS

  /**
   * EdsLib_SizeInfo_t.  The two counts are updated independently: Bits is the
   * exact amount of wire data, Bytes the byte-aligned amount of native data.
   */
  datatype SizeInfo = SizeInfo(Bits: SizeT, Bytes: SizeT)

  /** The zeroed SizeInfo that both pipelines start from (memset to 0). */
  const ZeroSize: SizeInfo := SizeInfo(0, 0)

  /** Both counts of p are at most those of max. */
  predicate Within(p: SizeInfo, max: SizeInfo)
  {
    p.Bits <= max.Bits && p.Bytes <= max.Bytes
  }

  /**
   * EdsLib_BITS_TO_OCTETS: the number of whole octets needed to hold the bits,
   * i.e. ceiling division by 8.  The macro itself is not part of this model;
   * this is the definition assumed for it.
   */
  function BitsToOctets(bits: SizeT): (n: SizeT)
    ensures 8 * n - 7 <= bits <= 8 * n
  {
    (bits + 7) / 8
  }

  /** EdsLib_OCTETS_TO_BITS: multiplication by 8 in size_t, which wraps. */
  function OctetsToBits(n: SizeT): (b: SizeT)
    ensures n < SIZE_MODULUS / 8 ==> b == 8 * n
    ensures b % 8 == 0
  {
    (8 * n) % SIZE_MODULUS
  }

  /** size_t subtraction a - b, which wraps when b > a. */
  function SizeSub(a: SizeT, b: SizeT): (d: SizeT)
    ensures (d + b) % SIZE_MODULUS == a
    ensures b <= a ==> d == a - b
    ensures b > a ==> d > a
  {
    if b <= a then a - b else a - b + SIZE_MODULUS
  }

  /** size_t addition, which wraps on overflow. */
  function SizeAdd(a: SizeT, b: SizeT): (s: SizeT)
    ensures (s - a - b) % SIZE_MODULUS == 0
    ensures a + b < SIZE_MODULUS ==> s == a + b
  {
    (a + b) % SIZE_MODULUS
  }

  /** Converting octets to bits and back loses the multiples of 2^61 only. */
  lemma OctetsBitsOctets(n: SizeT)
    ensures BitsToOctets(OctetsToBits(n)) == n % (SIZE_MODULUS / 8)
    ensures BitsToOctets(OctetsToBits(n)) <= n
  {
  }

  /** Converting a whole number of octets' worth of bits to octets and back is exact. */
  lemma BitsOctetsBits(n: SizeT)
    requires n < SIZE_MODULUS / 8
    ensures BitsToOctets(OctetsToBits(n)) == n
  {
  }

  /** BITS_TO_OCTETS is monotone, so a part never needs more octets than the whole. */
  lemma BitsToOctetsMonotone(a: SizeT, b: SizeT)
    requires a <= b
    ensures BitsToOctets(a) <= BitsToOctets(b)
  {
  }
}
