/** `WallStats`: the attribute register of a wall, a 16-bit word with one accessor pair per field. */
module WallBits {
  import opened Bitfield

  datatype WallField = Blocking | Swap | Align | XFlip | Masking | One | Blocking2 | Translucent | YFlip | TranslucentReversed | Unk

  /** The `msb, lsb` pair of each accessor, in declaration order. Neighbouring
      ranges share their boundary bit. */
  function WallRange(f: WallField): (rg: Range)
    ensures rg.Valid()
  {
    match f
    case Blocking => Range(1, 0)  // blocking
    case Swap => Range(2, 1)  // swap
    case Align => Range(3, 2)  // align
    case XFlip => Range(4, 3)  // xflip
    case Masking => Range(5, 4)  // masking
    case One => Range(6, 5)  // one
    case Blocking2 => Range(7, 6)  // blocking2
    case Translucent => Range(8, 7)  // translucent
    case YFlip => Range(9, 8)  // yflip
    case TranslucentReversed => Range(10, 9)  // translucent_reversed
    case Unk => Range(15, 10)  // unk
  }

  datatype WallStats = WallStats(bits: bv16) {

    /** The getter `f()`. */
    function Get(f: WallField): (v: bv16)
      ensures v <= LowMask(WallRange(f).Width())
    {
      BitRange(bits, WallRange(f))
    }

    /** The setter `set_f(v)`: bits outside the field keep their values. */
    function Set(f: WallField, v: bv16): (s: WallStats)
      ensures s.bits & !FieldMask(WallRange(f)) == bits & !FieldMask(WallRange(f))
    {
      WallStats(SetBitRange(bits, WallRange(f), v))
    }
  }

  /** The getter agrees with the crate's own formulation, which shifts the
      bits above `msb` out to the left and then those below `lsb` out to the right. */
  lemma WallGetShifts(s: WallStats, f: WallField)
    ensures s.Get(f) == (s.bits << (15 - WallRange(f).msb)) >> (15 - WallRange(f).msb + WallRange(f).lsb)
  {
    match f
    case Blocking =>
    case Swap =>
    case Align =>
    case XFlip =>
    case Masking =>
    case One =>
    case Blocking2 =>
    case Translucent =>
    case YFlip =>
    case TranslucentReversed =>
    case Unk =>
  }

  /** A second set of the same field overrides the first. */
  lemma WallSetSet(s: WallStats, f: WallField, v: bv16, u: bv16)
    ensures s.Set(f, v).Set(f, u) == s.Set(f, u)
  {
    SetTwice(s.bits, WallRange(f), v, u);
  }

  /** Reading a field back after setting it gives the value truncated to the field's width. */
  lemma WallGetSet(s: WallStats, f: WallField, v: bv16)
    ensures s.Set(f, v).Get(f) == v & LowMask(WallRange(f).Width())
  {
    match f
    case Blocking =>
    case Swap =>
    case Align =>
    case XFlip =>
    case Masking =>
    case One =>
    case Blocking2 =>
    case Translucent =>
    case YFlip =>
    case TranslucentReversed =>
    case Unk =>
  }

  /** Writing back the value a field already holds leaves the register unchanged. */
  lemma WallSetGet(s: WallStats, f: WallField)
    ensures s.Set(f, s.Get(f)) == s
  {
    match f
    case Blocking =>
    case Swap =>
    case Align =>
    case XFlip =>
    case Masking =>
    case One =>
    case Blocking2 =>
    case Translucent =>
    case YFlip =>
    case TranslucentReversed =>
    case Unk =>
  }

  /** The fields together cover the word: setting each, in declaration order,
      on an empty register rebuilds the original word bit for bit. */
  lemma WallRebuild(s: WallStats)
    ensures WallStats(0)
      .Set(Blocking, s.Get(Blocking)).Set(Swap, s.Get(Swap))
      .Set(Align, s.Get(Align)).Set(XFlip, s.Get(XFlip))
      .Set(Masking, s.Get(Masking)).Set(One, s.Get(One))
      .Set(Blocking2, s.Get(Blocking2)).Set(Translucent, s.Get(Translucent))
      .Set(YFlip, s.Get(YFlip)).Set(TranslucentReversed, s.Get(TranslucentReversed))
      .Set(Unk, s.Get(Unk)) == s
  {
  }

  /** Bit 1 belongs to both `blocking` (bits 0..=1) and `swap` (bits 1..=2). */
  lemma WallOverlap()
    ensures WallStats(2).Get(Blocking) == 2
    ensures WallStats(2).Get(Swap) == 1
  {
  }

  /** `unk` spans six bits, so it is below 64. */
  lemma WallUnkBound(s: WallStats)
    ensures s.Get(Unk) < 64
  {
  }
}
