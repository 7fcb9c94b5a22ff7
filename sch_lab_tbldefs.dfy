/**
 * The scheduler table's SCH_PACK_32BIT macro: a 32-bit command argument laid
 * out as two consecutive 16-bit words of an entry's MessageBuffer, low word
 * first unless the software is built for big bit order.  The arithmetic is
 * that of the macro, on 32-bit values; a word is a 32-bit value that the
 * (uint16) cast keeps whole.
 */
module SchLabTableDefs {

  /** A uint16 table word, held in the 32-bit arithmetic of the macro. */
  type Word16 = x: bv32 | x <= 0xFFFF

  /** Whether SOFTWARE_BIG_BIT_ORDER is defined. */
  datatype BitOrder = LittleBitOrder | BigBitOrder

  /** Two consecutive MessageBuffer words, in table order. */
  datatype WordPair = WordPair(First: Word16, Second: Word16)

  /** (value & 0xFFFF0000) >> 16: the quotient of the value by 2^16, which always fits in a uint16. */
  function HighHalf(v: bv32): (h: Word16)
    ensures h == v / 0x1_0000
  {
    (v & 0xFFFF_0000) >> 16
  }

  /** value & 0x0000FFFF: the remainder of the value by 2^16. */
  function LowHalf(v: bv32): (l: Word16)
    ensures l == v % 0x1_0000
  {
    v & 0x0000_FFFF
  }

  /**
   * SCH_PACK_32BIT(value) under the given bit order: two words that, read back
   * in the same order, stand for the value.  SchPackUnique shows they are the
   * only such words.
   */
  function SchPack32(v: bv32, order: BitOrder): (w: WordPair)
    ensures SchUnpack32(w, order) == v
  {
    HalvesRecombine(v);
    match order
    case LittleBitOrder => WordPair(LowHalf(v), HighHalf(v))
    case BigBitOrder => WordPair(HighHalf(v), LowHalf(v))
  }

  /** The 32-bit value a pair of table words stands for, read in the given bit order. */
  function SchUnpack32(w: WordPair, order: BitOrder): bv32
  {
    match order
    case LittleBitOrder => (w.Second << 16) | w.First
    case BigBitOrder => (w.First << 16) | w.Second
  }

  /** The high half shifted back up, or-ed with the low half, is the value. */
  lemma HalvesRecombine(v: bv32)
    ensures ((v >> 16) << 16) | (v & 0xFFFF) == v
  {
  }

  /** Two words put together as high and low half come apart again unchanged. */
  lemma RecombinedHalves(h: Word16, l: Word16)
    ensures ((h << 16) | l) >> 16 == h && ((h << 16) | l) & 0xFFFF == l
  {
  }

  /** The packing is the only pair of words that stands for the value in that bit order. */
  lemma SchPackUnique(v: bv32, order: BitOrder, w: WordPair)
    requires SchUnpack32(w, order) == v
    ensures w == SchPack32(v, order)
  {
    SchUnpackRoundTrip(w, order);
  }

  /** Packing the value a pair of words stands for gives the same words: every pair is some packing. */
  lemma {:induction false} SchUnpackRoundTrip(w: WordPair, order: BitOrder)
    ensures SchPack32(SchUnpack32(w, order), order) == w
  {
    match order
    case LittleBitOrder =>
      RecombinedHalves(w.Second, w.First);
    case BigBitOrder =>
      RecombinedHalves(w.First, w.Second);
  }

  /** The pair swapped. */
  function Swap(w: WordPair): WordPair
  {
    WordPair(w.Second, w.First)
  }

  /** The two bit orders produce the same two words, swapped. */
  lemma SchPackOrdersSwapped(v: bv32)
    ensures SchPack32(v, BigBitOrder) == Swap(SchPack32(v, LittleBitOrder))
  {
  }
}
