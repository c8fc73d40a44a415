/** The `bitfield` crate's `BitRange` over a 16-bit word: a field declared
    `name, set_name: msb, lsb;` covers bits `lsb..=msb`, inclusive at both ends. */
module Bitfield {
  import opened ByteOrder

  /** The 16-bit word an unsigned 16-bit integer stores. */
  function Word16(u: uint16): bv16 {
    u as bv16
  }

  /** The unsigned integer a 16-bit word stores; inverse of `Word16`. */
  function Uint16Of(w: bv16): (u: uint16)
    ensures Word16(u) == w
  {
    w as int as uint16
  }

  /** An inclusive bit range `lsb..=msb` of a 16-bit word. */
  datatype Range = Range(msb: bv16, lsb: bv16) {
    predicate Valid() {
      lsb <= msb < 16
    }

    function Width(): bv16
      requires Valid()
    {
      msb - lsb + 1
    }
  }

  /** The lowest `width` bits set: 2^width - 1. */
  function LowMask(width: bv16): bv16
    requires 1 <= width <= 16
  {
    0xFFFF >> (16 - width)
  }

  /** The bits of the word that belong to the range. */
  function FieldMask(rg: Range): bv16
    requires rg.Valid()
  {
    LowMask(rg.Width()) << rg.lsb
  }

  /** The getter: `(w >> lsb) & (2^(msb-lsb+1) - 1)`. */
  function BitRange(w: bv16, rg: Range): (r: bv16)
    requires rg.Valid()
    ensures r <= LowMask(rg.Width())
  {
    (w >> rg.lsb) & LowMask(rg.Width())
  }

  /** The setter: clears the range and ors in the value shifted to `lsb`,
      truncated to the range's width. Bits outside the range are kept. */
  function SetBitRange(w: bv16, rg: Range, v: bv16): (r: bv16)
    requires rg.Valid()
    ensures r & !FieldMask(rg) == w & !FieldMask(rg)
  {
    (w & !FieldMask(rg)) | ((v << rg.lsb) & FieldMask(rg))
  }

  /** Setting a range twice keeps only the second value. */
  lemma SetTwice(w: bv16, rg: Range, v: bv16, u: bv16)
    requires rg.Valid()
    ensures SetBitRange(SetBitRange(w, rg, v), rg, u) == SetBitRange(w, rg, u)
  {
    assert ((v << rg.lsb) & FieldMask(rg)) & !FieldMask(rg) == 0;
  }
}
