/** `SectorStats`: the ceiling and floor attribute register of a sector, a 16-bit word with one accessor pair per field. */
module SectorBits {
  import opened Bitfield

  datatype SectorField = Parallaxing | Slopped | Swap | Double | XFlip | YFlip | Align | Unk

  /** The `msb, lsb` pair of each accessor, in declaration order. Neighbouring
      ranges share their boundary bit. */
  function SectorRange(f: SectorField): (rg: Range)
    ensures rg.Valid()
  {
    match f
    case Parallaxing => Range(1, 0)  // parallaxing
    case Slopped => Range(2, 1)  // slopped
    case Swap => Range(3, 2)  // swap
    case Double => Range(4, 3)  // double
    case XFlip => Range(5, 4)  // xflip
    case YFlip => Range(6, 5)  // yflip
    case Align => Range(7, 6)  // align
    case Unk => Range(15, 7)  // unk
  }

  datatype SectorStats = SectorStats(bits: bv16) {

    /** The getter `f()`. */
    function Get(f: SectorField): (v: bv16)
      ensures v <= LowMask(SectorRange(f).Width())
    {
      BitRange(bits, SectorRange(f))
    }

    /** The setter `set_f(v)`: bits outside the field keep their values. */
    function Set(f: SectorField, v: bv16): (s: SectorStats)
      ensures s.bits & !FieldMask(SectorRange(f)) == bits & !FieldMask(SectorRange(f))
    {
      SectorStats(SetBitRange(bits, SectorRange(f), v))
    }
  }

  /** The getter agrees with the crate's own formulation, which shifts the
      bits above `msb` out to the left and then those below `lsb` out to the right. */
  lemma SectorGetShifts(s: SectorStats, f: SectorField)
    ensures s.Get(f) == (s.bits << (15 - SectorRange(f).msb)) >> (15 - SectorRange(f).msb + SectorRange(f).lsb)
  {
    match f
    case Parallaxing =>
    case Slopped =>
    case Swap =>
    case Double =>
    case XFlip =>
    case YFlip =>
    case Align =>
    case Unk =>
  }

  /** A second set of the same field overrides the first. */
  lemma SectorSetSet(s: SectorStats, f: SectorField, v: bv16, u: bv16)
    ensures s.Set(f, v).Set(f, u) == s.Set(f, u)
  {
    SetTwice(s.bits, SectorRange(f), v, u);
  }

  /** Reading a field back after setting it gives the value truncated to the field's width. */
  lemma SectorGetSet(s: SectorStats, f: SectorField, v: bv16)
    ensures s.Set(f, v).Get(f) == v & LowMask(SectorRange(f).Width())
  {
    match f
    case Parallaxing =>
    case Slopped =>
    case Swap =>
    case Double =>
    case XFlip =>
    case YFlip =>
    case Align =>
    case Unk =>
  }

  /** Writing back the value a field already holds leaves the register unchanged. */
  lemma SectorSetGet(s: SectorStats, f: SectorField)
    ensures s.Set(f, s.Get(f)) == s
  {
    match f
    case Parallaxing =>
    case Slopped =>
    case Swap =>
    case Double =>
    case XFlip =>
    case YFlip =>
    case Align =>
    case Unk =>
  }

  /** The fields together cover the word: setting each, in declaration order,
      on an empty register rebuilds the original word bit for bit. */
  lemma SectorRebuild(s: SectorStats)
    ensures SectorStats(0)
      .Set(Parallaxing, s.Get(Parallaxing)).Set(Slopped, s.Get(Slopped))
      .Set(Swap, s.Get(Swap)).Set(Double, s.Get(Double))
      .Set(XFlip, s.Get(XFlip)).Set(YFlip, s.Get(YFlip))
      .Set(Align, s.Get(Align)).Set(Unk, s.Get(Unk)) == s
  {
  }

  /** Ranges are inclusive at both ends: a word with bits 0 and 1 set reads 3
      through `parallaxing`, and bit 1 is seen by both `parallaxing` and `slopped`. */
  lemma SectorOverlap()
    ensures SectorStats(3).Get(Parallaxing) == 3
    ensures SectorStats(0).Set(Slopped, 1).Get(Parallaxing) == 2
  {
  }

  /** `unk` spans nine bits, so it is below 512. */
  lemma SectorUnkBound(s: SectorStats)
    ensures s.Get(Unk) < 512
  {
  }
}
