/** Fixed-width integers and their little-endian byte layout, as the
    `byteorder` crate reads them off a `std::io::Read` stream. */
module ByteOrder {
  import opened Wrappers

  newtype uint8 = x: int | 0 <= x < 0x100
  newtype int8 = x: int | -0x80 <= x < 0x80
  newtype uint16 = x: int | 0 <= x < 0x1_0000
  newtype int16 = x: int | -0x8000 <= x < 0x8000
  newtype uint32 = x: int | 0 <= x < 0x1_0000_0000
  newtype int32 = x: int | -0x8000_0000 <= x < 0x8000_0000

  // ---------------------------------------------------------------------
  // Two's complement reinterpretation (Rust's `as` between same-width types)
  // ---------------------------------------------------------------------

  function ToInt8(u: uint8): (r: int8)
    ensures r < 0 <==> u >= 0x80
  {
    if u < 0x80 then u as int8 else (u as int - 0x100) as int8
  }

  function ToInt16(u: uint16): (r: int16)
    ensures r < 0 <==> u >= 0x8000
  {
    if u < 0x8000 then u as int16 else (u as int - 0x1_0000) as int16
  }

  function ToInt32(u: uint32): (r: int32)
    ensures r < 0 <==> u >= 0x8000_0000
  {
    if u < 0x8000_0000 then u as int32 else (u as int - 0x1_0000_0000) as int32
  }

  /** The reinterpretation keeps the value modulo 2^n: it is two's complement. */
  lemma TwosComplement(u8: uint8, u16: uint16, u32: uint32)
    ensures (ToInt8(u8) as int - u8 as int) % 0x100 == 0
    ensures (ToInt16(u16) as int - u16 as int) % 0x1_0000 == 0
    ensures (ToInt32(u32) as int - u32 as int) % 0x1_0000_0000 == 0
  {
  }

  function FromInt8(i: int8): (u: uint8)
    ensures ToInt8(u) == i
  {
    if i < 0 then (i as int + 0x100) as uint8 else i as uint8
  }

  function FromInt16(i: int16): (u: uint16)
    ensures ToInt16(u) == i
  {
    if i < 0 then (i as int + 0x1_0000) as uint16 else i as uint16
  }

  function FromInt32(i: int32): (u: uint32)
    ensures ToInt32(u) == i
  {
    if i < 0 then (i as int + 0x1_0000_0000) as uint32 else i as uint32
  }

  // ---------------------------------------------------------------------
  // Little-endian decoding at an offset of a byte sequence
  // ---------------------------------------------------------------------

  function U8At(b: seq<uint8>, i: nat): uint8
    requires i + 1 <= |b|
  {
    b[i]
  }

  function U16At(b: seq<uint8>, i: nat): uint16
    requires i + 2 <= |b|
  {
    (b[i] as int + 0x100 * b[i + 1] as int) as uint16
  }

  function U32At(b: seq<uint8>, i: nat): uint32
    requires i + 4 <= |b|
  {
    (U16At(b, i) as int + 0x1_0000 * U16At(b, i + 2) as int) as uint32
  }

  function I8At(b: seq<uint8>, i: nat): int8
    requires i + 1 <= |b|
  {
    ToInt8(U8At(b, i))
  }

  function I16At(b: seq<uint8>, i: nat): int16
    requires i + 2 <= |b|
  {
    ToInt16(U16At(b, i))
  }

  function I32At(b: seq<uint8>, i: nat): int32
    requires i + 4 <= |b|
  {
    ToInt32(U32At(b, i))
  }

  // ---------------------------------------------------------------------
  // Little-endian encoding (the layout the decoders above invert)
  // ---------------------------------------------------------------------

  function LeU16(x: uint16): (b: seq<uint8>)
    ensures |b| == 2
  {
    [(x as int % 0x100) as uint8, (x as int / 0x100) as uint8]
  }

  function LeU32(x: uint32): (b: seq<uint8>)
    ensures |b| == 4
  {
    LeU16((x as int % 0x1_0000) as uint16) + LeU16((x as int / 0x1_0000) as uint16)
  }

  function LeI8(x: int8): (b: seq<uint8>)
    ensures |b| == 1
  {
    [FromInt8(x)]
  }

  function LeI16(x: int16): (b: seq<uint8>)
    ensures |b| == 2
  {
    LeU16(FromInt16(x))
  }

  function LeI32(x: int32): (b: seq<uint8>)
    ensures |b| == 4
  {
    LeU32(FromInt32(x))
  }

  // ---------------------------------------------------------------------
  // Decoding and encoding are inverse to each other
  // ---------------------------------------------------------------------

  /** A value written little-endian inside any stream reads back unchanged. */
  lemma U16RoundTrip(p: seq<uint8>, x: uint16, q: seq<uint8>)
    ensures U16At(p + LeU16(x) + q, |p|) == x
  {
    var b := p + LeU16(x) + q;
    assert b[|p|] == LeU16(x)[0] && b[|p| + 1] == LeU16(x)[1];
  }

  lemma U32RoundTrip(p: seq<uint8>, x: uint32, q: seq<uint8>)
    ensures U32At(p + LeU32(x) + q, |p|) == x
  {
    var lo, hi := (x as int % 0x1_0000) as uint16, (x as int / 0x1_0000) as uint16;
    assert p + LeU32(x) + q == p + LeU16(lo) + (LeU16(hi) + q);
    assert p + LeU32(x) + q == (p + LeU16(lo)) + LeU16(hi) + q;
    U16RoundTrip(p, lo, LeU16(hi) + q);
    U16RoundTrip(p + LeU16(lo), hi, q);
  }

  lemma I16RoundTrip(p: seq<uint8>, x: int16, q: seq<uint8>)
    ensures I16At(p + LeI16(x) + q, |p|) == x
  {
    U16RoundTrip(p, FromInt16(x), q);
  }

  lemma I32RoundTrip(p: seq<uint8>, x: int32, q: seq<uint8>)
    ensures I32At(p + LeI32(x) + q, |p|) == x
  {
    U32RoundTrip(p, FromInt32(x), q);
  }

  /** The other direction: every two bytes are the encoding of what they decode to. */
  lemma U16Bytes(b: seq<uint8>, i: nat)
    requires i + 2 <= |b|
    ensures LeU16(U16At(b, i)) == b[i..i + 2]
  {
  }

  lemma U32Bytes(b: seq<uint8>, i: nat)
    requires i + 4 <= |b|
    ensures LeU32(U32At(b, i)) == b[i..i + 4]
  {
    U16Bytes(b, i);
    U16Bytes(b, i + 2);
    assert b[i..i + 4] == b[i..i + 2] + b[i + 2..i + 4];
  }

  /** Bytes `FF FF` read as a signed 16-bit value give the -1 sentinel. */
  lemma AllOnesI16(b: seq<uint8>, i: nat)
    requires i + 2 <= |b| && b[i] == 0xFF && b[i + 1] == 0xFF
    ensures I16At(b, i) == -1
  {
  }

  // ---------------------------------------------------------------------
  // The stream: a byte sequence and a cursor
  // ---------------------------------------------------------------------

  /** A readable byte stream. `read_exact` either fills its whole buffer and
      advances the cursor past it, or fails at end of input; a failed read
      leaves the stream exhausted. */
  class Reader {
    const data: seq<uint8>
    var pos: nat

    /** The cursor never runs past the end of the stream. */
    ghost predicate Valid()
      reads this
    {
      pos <= |data|
    }

    constructor (bytes: seq<uint8>)
      ensures data == bytes && pos == 0 && Valid()
    {
      data := bytes;
      pos := 0;
    }

    /** `std::io::Read::read_exact` into an `n`-byte buffer. */
    method ReadExact(n: nat) returns (r: Result<seq<uint8>>)
      modifies this
      ensures Valid()
      ensures old(pos) + n <= |data| ==> r == Ok(data[old(pos)..old(pos) + n]) && pos == old(pos) + n
      ensures old(pos) + n > |data| ==> r == Err(UnexpectedEof) && pos == |data|
    {
      if pos + n <= |data| {
        r := Ok(data[pos..pos + n]);
        pos := pos + n;
      } else {
        r := Err(UnexpectedEof);
        pos := |data|;
      }
    }

    method ReadU8() returns (ok: bool, v: uint8)
      modifies this
      ensures Valid()
      ensures ok <==> old(pos) + 1 <= |data|
      ensures ok ==> pos == old(pos) + 1 && v == U8At(data, old(pos))
      ensures !ok ==> pos == |data|
    {
      var buf := ReadExact(1);
      if buf.Err? {
        return false, 0;
      }
      ok, v := true, U8At(buf.value, 0);
    }

    method ReadI8() returns (ok: bool, v: int8)
      modifies this
      ensures Valid()
      ensures ok <==> old(pos) + 1 <= |data|
      ensures ok ==> pos == old(pos) + 1 && v == I8At(data, old(pos))
      ensures !ok ==> pos == |data|
    {
      var buf := ReadExact(1);
      if buf.Err? {
        return false, 0;
      }
      ok, v := true, I8At(buf.value, 0);
    }

    method ReadU16() returns (ok: bool, v: uint16)
      modifies this
      ensures Valid()
      ensures ok <==> old(pos) + 2 <= |data|
      ensures ok ==> pos == old(pos) + 2 && v == U16At(data, old(pos))
      ensures !ok ==> pos == |data|
    {
      var buf := ReadExact(2);
      if buf.Err? {
        return false, 0;
      }
      ok, v := true, U16At(buf.value, 0);
    }

    method ReadI16() returns (ok: bool, v: int16)
      modifies this
      ensures Valid()
      ensures ok <==> old(pos) + 2 <= |data|
      ensures ok ==> pos == old(pos) + 2 && v == I16At(data, old(pos))
      ensures !ok ==> pos == |data|
    {
      var buf := ReadExact(2);
      if buf.Err? {
        return false, 0;
      }
      ok, v := true, I16At(buf.value, 0);
    }

    method ReadU32() returns (ok: bool, v: uint32)
      modifies this
      ensures Valid()
      ensures ok <==> old(pos) + 4 <= |data|
      ensures ok ==> pos == old(pos) + 4 && v == U32At(data, old(pos))
      ensures !ok ==> pos == |data|
    {
      var buf := ReadExact(4);
      if buf.Err? {
        return false, 0;
      }
      ok, v := true, U32At(buf.value, 0);
    }

    method ReadI32() returns (ok: bool, v: int32)
      modifies this
      ensures Valid()
      ensures ok <==> old(pos) + 4 <= |data|
      ensures ok ==> pos == old(pos) + 4 && v == I32At(data, old(pos))
      ensures !ok ==> pos == |data|
    {
      var buf := ReadExact(4);
      if buf.Err? {
        return false, 0;
      }
      ok, v := true, I32At(buf.value, 0);
    }
  }
}
