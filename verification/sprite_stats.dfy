/** `SpriteStats`: the attribute register of a sprite, a 16-bit word with one accessor pair per field. */
module SpriteBits {
  import opened Bitfield

  datatype SpriteField = Blocking | Translucent | XFlip | YFlip | SpriteType | OneSided | RealCenter | Blocking2 | ReverseTranclucent | NoAutoShading | Unk | Invisible

  /** The `msb, lsb` pair of each accessor, in declaration order. Neighbouring
      ranges share their boundary bit. */
  function SpriteRange(f: SpriteField): (rg: Range)
    ensures rg.Valid()
  {
    match f
    case Blocking => Range(1, 0)  // blocking
    case Translucent => Range(2, 1)  // translucent
    case XFlip => Range(3, 2)  // xflip
    case YFlip => Range(4, 3)  // yflip
    case SpriteType => Range(5, 4)  // sprite_type
    case OneSided => Range(6, 5)  // onesided
    case RealCenter => Range(7, 6)  // real_center
    case Blocking2 => Range(8, 7)  // blocking2
    case ReverseTranclucent => Range(9, 8)  // reverse_tranclucent
    case NoAutoShading => Range(10, 9)  // noautoshading
    case Unk => Range(14, 10)  // unk
    case Invisible => Range(15, 14)  // invisible
  }

  datatype SpriteStats = SpriteStats(bits: bv16) {

    /** The getter `f()`. */
    function Get(f: SpriteField): (v: bv16)
      ensures v <= LowMask(SpriteRange(f).Width())
    {
      BitRange(bits, SpriteRange(f))
    }

    /** The setter `set_f(v)`: bits outside the field keep their values. */
    function Set(f: SpriteField, v: bv16): (s: SpriteStats)
      ensures s.bits & !FieldMask(SpriteRange(f)) == bits & !FieldMask(SpriteRange(f))
    {
      SpriteStats(SetBitRange(bits, SpriteRange(f), v))
    }
  }

  /** The getter agrees with the crate's own formulation, which shifts the
      bits above `msb` out to the left and then those below `lsb` out to the right. */
  lemma SpriteGetShifts(s: SpriteStats, f: SpriteField)
    ensures s.Get(f) == (s.bits << (15 - SpriteRange(f).msb)) >> (15 - SpriteRange(f).msb + SpriteRange(f).lsb)
  {
    match f
    case Blocking =>
    case Translucent =>
    case XFlip =>
    case YFlip =>
    case SpriteType =>
    case OneSided =>
    case RealCenter =>
    case Blocking2 =>
    case ReverseTranclucent =>
    case NoAutoShading =>
    case Unk =>
    case Invisible =>
  }

  /** A second set of the same field overrides the first. */
  lemma SpriteSetSet(s: SpriteStats, f: SpriteField, v: bv16, u: bv16)
    ensures s.Set(f, v).Set(f, u) == s.Set(f, u)
  {
    SetTwice(s.bits, SpriteRange(f), v, u);
  }

  /** Reading a field back after setting it gives the value truncated to the field's width. */
  lemma SpriteGetSet(s: SpriteStats, f: SpriteField, v: bv16)
    ensures s.Set(f, v).Get(f) == v & LowMask(SpriteRange(f).Width())
  {
    match f
    case Blocking =>
    case Translucent =>
    case XFlip =>
    case YFlip =>
    case SpriteType =>
    case OneSided =>
    case RealCenter =>
    case Blocking2 =>
    case ReverseTranclucent =>
    case NoAutoShading =>
    case Unk =>
    case Invisible =>
  }

  /** Writing back the value a field already holds leaves the register unchanged. */
  lemma SpriteSetGet(s: SpriteStats, f: SpriteField)
    ensures s.Set(f, s.Get(f)) == s
  {
    match f
    case Blocking =>
    case Translucent =>
    case XFlip =>
    case YFlip =>
    case SpriteType =>
    case OneSided =>
    case RealCenter =>
    case Blocking2 =>
    case ReverseTranclucent =>
    case NoAutoShading =>
    case Unk =>
    case Invisible =>
  }

  /** The fields together cover the word: setting each, in declaration order,
      on an empty register rebuilds the original word bit for bit. */
  lemma SpriteRebuild(s: SpriteStats)
    ensures SpriteStats(0)
      .Set(Blocking, s.Get(Blocking)).Set(Translucent, s.Get(Translucent))
      .Set(XFlip, s.Get(XFlip)).Set(YFlip, s.Get(YFlip))
      .Set(SpriteType, s.Get(SpriteType)).Set(OneSided, s.Get(OneSided))
      .Set(RealCenter, s.Get(RealCenter)).Set(Blocking2, s.Get(Blocking2))
      .Set(ReverseTranclucent, s.Get(ReverseTranclucent)).Set(NoAutoShading, s.Get(NoAutoShading))
      .Set(Unk, s.Get(Unk)).Set(Invisible, s.Get(Invisible)) == s
  {
  }

  /** Bit 14 belongs to both `unk` (bits 10..=14) and `invisible` (bits 14..=15). */
  lemma SpriteOverlap()
    ensures SpriteStats(0x4000).Get(Unk) == 16
    ensures SpriteStats(0x4000).Get(Invisible) == 1
  {
  }

  /** `unk` spans five bits, so it is below 32. */
  lemma SpriteUnkBound(s: SpriteStats)
    ensures s.Get(Unk) < 32
  {
  }
}
