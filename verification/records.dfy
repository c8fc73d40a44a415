/** The four fixed-layout records of a map file and their little-endian
    layouts: which field sits at which byte offset, how it is read off the
    stream one field at a time, and how it is written back. A header takes
    20 bytes, a sector 40, a wall 32 and a sprite 44. */
module Records {
  import opened Wrappers
  import opened ByteOrder
  import opened SectorBits
  import opened WallBits
  import opened SpriteBits
  import opened Bitfield

  datatype Header = Header(
    version: uint32,
    posx: int32,
    posy: int32,
    posz: int32,
    ang: uint16,
    cursectnum: uint16)

  datatype Sector = Sector(
    wallptr: uint16,
    wallnum: uint16,
    ceilingz: int32,
    floorz: int32,
    ceilingstat: SectorStats,
    floorstat: SectorStats,
    ceilingpicnum: uint16,
    ceilingheinum: int16,
    ceilingshade: int8,
    ceilingpal: uint8,
    ceilingxpanning: uint8,
    ceilingypanning: uint8,
    floorpicnum: uint16,
    floorheinum: int16,
    floorshade: int8,
    floorpal: uint8,
    floorxpanning: uint8,
    floorypanning: uint8,
    visibility: int8,
    filler: int8,
    lotag: uint16,
    hitag: uint16,
    extra: uint16)

  datatype Wall = Wall(
    x: int32,
    y: int32,
    point2: uint16,
    nextwall: int16,
    nextsector: int16,
    cstat: WallStats,
    picnum: uint16,
    overpicnum: uint16,
    shade: int8,
    pal: uint8,
    xrepeat: uint8,
    yrepeat: uint8,
    xpanning: uint8,
    ypanning: uint8,
    lotag: uint16,
    hitag: uint16,
    extra: uint16)

  datatype Sprite = Sprite(
    x: int32,
    y: int32,
    z: int32,
    cstat: SpriteStats,
    picnum: uint16,
    shade: int8,
    pal: uint8,
    clipdist: uint8,
    filler: uint8,
    xrepeat: uint8,
    yrepeat: uint8,
    xoffset: uint8,
    yoffset: uint8,
    sectnum: uint16,
    statnum: uint16,
    ang: uint16,
    owner: uint16,
    xvel: int16,
    yvel: int16,
    zvel: int16,
    lotag: uint16,
    hitag: uint16,
    extra: uint16)

  // ---------------------------------------------------------------------
  // Layouts: each field at its fixed offset from the start of the record
  // ---------------------------------------------------------------------

  function HeaderAt(b: seq<uint8>, at: nat): Header
    requires at + 20 <= |b|
  {
    Header(U32At(b, at), I32At(b, at + 4), I32At(b, at + 8), I32At(b, at + 12),
           U16At(b, at + 16), U16At(b, at + 18))
  }

  function SectorAt(b: seq<uint8>, at: nat): Sector
    requires at + 40 <= |b|
  {
    Sector(
      U16At(b, at), U16At(b, at + 2), I32At(b, at + 4), I32At(b, at + 8),
      SectorStats(Word16(U16At(b, at + 12))), SectorStats(Word16(U16At(b, at + 14))),
      U16At(b, at + 16), I16At(b, at + 18), I8At(b, at + 20), U8At(b, at + 21), U8At(b, at + 22), U8At(b, at + 23),
      U16At(b, at + 24), I16At(b, at + 26), I8At(b, at + 28), U8At(b, at + 29), U8At(b, at + 30), U8At(b, at + 31),
      I8At(b, at + 32), I8At(b, at + 33),
      U16At(b, at + 34), U16At(b, at + 36), U16At(b, at + 38))
  }

  function WallAt(b: seq<uint8>, at: nat): Wall
    requires at + 32 <= |b|
  {
    Wall(
      I32At(b, at), I32At(b, at + 4), U16At(b, at + 8), I16At(b, at + 10), I16At(b, at + 12),
      WallStats(Word16(U16At(b, at + 14))), U16At(b, at + 16), U16At(b, at + 18),
      I8At(b, at + 20), U8At(b, at + 21), U8At(b, at + 22), U8At(b, at + 23), U8At(b, at + 24), U8At(b, at + 25),
      U16At(b, at + 26), U16At(b, at + 28), U16At(b, at + 30))
  }

  function SpriteAt(b: seq<uint8>, at: nat): Sprite
    requires at + 44 <= |b|
  {
    Sprite(
      I32At(b, at), I32At(b, at + 4), I32At(b, at + 8),
      SpriteStats(Word16(U16At(b, at + 12))), U16At(b, at + 14),
      I8At(b, at + 16), U8At(b, at + 17), U8At(b, at + 18), U8At(b, at + 19), U8At(b, at + 20), U8At(b, at + 21), U8At(b, at + 22), U8At(b, at + 23),
      U16At(b, at + 24), U16At(b, at + 26), U16At(b, at + 28), U16At(b, at + 30),
      I16At(b, at + 32), I16At(b, at + 34), I16At(b, at + 36),
      U16At(b, at + 38), U16At(b, at + 40), U16At(b, at + 42))
  }

  /** A record reads only its own bytes: cutting the input after them
      changes nothing. */
  lemma HeaderAtPrefix(b: seq<uint8>, k: nat, at: nat)
    requires at + 20 <= k <= |b|
    ensures HeaderAt(b[..k], at) == HeaderAt(b, at)
  {
  }

  lemma SectorAtPrefix(b: seq<uint8>, k: nat, at: nat)
    requires at + 40 <= k <= |b|
    ensures SectorAt(b[..k], at) == SectorAt(b, at)
  {
  }

  lemma WallAtPrefix(b: seq<uint8>, k: nat, at: nat)
    requires at + 32 <= k <= |b|
    ensures WallAt(b[..k], at) == WallAt(b, at)
  {
  }

  lemma SpriteAtPrefix(b: seq<uint8>, k: nat, at: nat)
    requires at + 44 <= k <= |b|
    ensures SpriteAt(b[..k], at) == SpriteAt(b, at)
  {
  }

  // ---------------------------------------------------------------------
  // Encodings: the bytes a record occupies in the file
  // ---------------------------------------------------------------------

  function EncodeHeader(h: Header): (e: seq<uint8>)
    ensures |e| == 20
  {
    LeU32(h.version) + LeI32(h.posx) + LeI32(h.posy) + LeI32(h.posz) + LeU16(h.ang) + LeU16(h.cursectnum)
  }

  function EncodeSector(s: Sector): (e: seq<uint8>)
    ensures |e| == 40
  {
    LeU16(s.wallptr) + LeU16(s.wallnum) + LeI32(s.ceilingz) + LeI32(s.floorz)
    + LeU16(Uint16Of(s.ceilingstat.bits)) + LeU16(Uint16Of(s.floorstat.bits))
    + LeU16(s.ceilingpicnum) + LeI16(s.ceilingheinum) + LeI8(s.ceilingshade)
    + [s.ceilingpal, s.ceilingxpanning, s.ceilingypanning]
    + LeU16(s.floorpicnum) + LeI16(s.floorheinum) + LeI8(s.floorshade)
    + [s.floorpal, s.floorxpanning, s.floorypanning]
    + LeI8(s.visibility) + LeI8(s.filler)
    + LeU16(s.lotag) + LeU16(s.hitag) + LeU16(s.extra)
  }

  function EncodeWall(w: Wall): (e: seq<uint8>)
    ensures |e| == 32
  {
    LeI32(w.x) + LeI32(w.y) + LeU16(w.point2) + LeI16(w.nextwall) + LeI16(w.nextsector)
    + LeU16(Uint16Of(w.cstat.bits)) + LeU16(w.picnum) + LeU16(w.overpicnum)
    + LeI8(w.shade) + [w.pal, w.xrepeat, w.yrepeat, w.xpanning, w.ypanning]
    + LeU16(w.lotag) + LeU16(w.hitag) + LeU16(w.extra)
  }

  function EncodeSprite(s: Sprite): (e: seq<uint8>)
    ensures |e| == 44
  {
    LeI32(s.x) + LeI32(s.y) + LeI32(s.z) + LeU16(Uint16Of(s.cstat.bits)) + LeU16(s.picnum)
    + LeI8(s.shade) + [s.pal, s.clipdist, s.filler, s.xrepeat, s.yrepeat, s.xoffset, s.yoffset]
    + LeU16(s.sectnum) + LeU16(s.statnum) + LeU16(s.ang) + LeU16(s.owner)
    + LeI16(s.xvel) + LeI16(s.yvel) + LeI16(s.zvel)
    + LeU16(s.lotag) + LeU16(s.hitag) + LeU16(s.extra)
  }

  // ---------------------------------------------------------------------
  // Round trips: a record encoded anywhere in a stream decodes back
  // ---------------------------------------------------------------------

  lemma HeaderRoundTrip(p: seq<uint8>, h: Header, q: seq<uint8>)
    ensures HeaderAt(p + EncodeHeader(h) + q, |p|) == h
  {
    var b := p + EncodeHeader(h) + q;
    assert b[|p|..|p| + 20] == EncodeHeader(h);
    HeaderAtSlice(b, |p|);
    HeaderDecodesEncoding(h);
  }

  /** A header decodes the same wherever its 20 bytes sit. */
  lemma HeaderAtSlice(b: seq<uint8>, at: nat)
    requires at + 20 <= |b|
    ensures HeaderAt(b, at) == HeaderAt(b[at..at + 20], 0)
  {
  }

  /** The encoding of a header, on its own, decodes back to it. */
  lemma HeaderDecodesEncoding(h: Header)
    ensures HeaderAt(EncodeHeader(h), 0) == h
  {
  }

  lemma SectorRoundTrip(p: seq<uint8>, s: Sector, q: seq<uint8>)
    ensures SectorAt(p + EncodeSector(s) + q, |p|) == s
  {
    var b := p + EncodeSector(s) + q;
    assert b[|p|..|p| + 40] == EncodeSector(s);
    SectorAtSlice(b, |p|);
    SectorDecodesEncoding(s);
  }

  /** A sector decodes the same wherever its 40 bytes sit. */
  lemma SectorAtSlice(b: seq<uint8>, at: nat)
    requires at + 40 <= |b|
    ensures SectorAt(b, at) == SectorAt(b[at..at + 40], 0)
  {
  }

  /** The encoding of a sector, on its own, decodes back to it. */
  lemma SectorDecodesEncoding(s: Sector)
    ensures SectorAt(EncodeSector(s), 0) == s
  {
  }

  lemma WallRoundTrip(p: seq<uint8>, w: Wall, q: seq<uint8>)
    ensures WallAt(p + EncodeWall(w) + q, |p|) == w
  {
    var b := p + EncodeWall(w) + q;
    assert b[|p|..|p| + 32] == EncodeWall(w);
    WallAtSlice(b, |p|);
    WallDecodesEncoding(w);
  }

  /** A wall decodes the same wherever its 32 bytes sit. */
  lemma WallAtSlice(b: seq<uint8>, at: nat)
    requires at + 32 <= |b|
    ensures WallAt(b, at) == WallAt(b[at..at + 32], 0)
  {
  }

  /** The encoding of a wall, on its own, decodes back to it. */
  lemma WallDecodesEncoding(w: Wall)
    ensures WallAt(EncodeWall(w), 0) == w
  {
  }

  lemma SpriteRoundTrip(p: seq<uint8>, s: Sprite, q: seq<uint8>)
    ensures SpriteAt(p + EncodeSprite(s) + q, |p|) == s
  {
    var b := p + EncodeSprite(s) + q;
    assert b[|p|..|p| + 44] == EncodeSprite(s);
    SpriteAtSlice(b, |p|);
    SpriteDecodesEncoding(s);
  }

  /** A sprite decodes the same wherever its 44 bytes sit. */
  lemma SpriteAtSlice(b: seq<uint8>, at: nat)
    requires at + 44 <= |b|
    ensures SpriteAt(b, at) == SpriteAt(b[at..at + 44], 0)
  {
  }

  /** The encoding of a sprite, on its own, decodes back to it. */
  lemma SpriteDecodesEncoding(s: Sprite)
    ensures SpriteAt(EncodeSprite(s), 0) == s
  {
  }

  // ---------------------------------------------------------------------
  // Readers: one field at a time off the stream, aborting on the first
  // short read
  // ---------------------------------------------------------------------

  method ReadHeader(r: Reader) returns (res: Result<Header>)
    modifies r
    ensures r.Valid()
    ensures res.Ok? <==> old(r.pos) + 20 <= |r.data|
    ensures res.Ok? ==> r.pos == old(r.pos) + 20 && res.value == HeaderAt(r.data, old(r.pos))
    ensures res.Err? ==> r.pos == |r.data| && res.error == UnexpectedEof
  {
    ghost var start := r.pos;
    var okVersion, version := r.ReadU32();
    if !okVersion { return Err(UnexpectedEof); }
    assert r.pos == start + 4;
    var okPosx, posx := r.ReadI32();
    if !okPosx { return Err(UnexpectedEof); }
    assert r.pos == start + 8;
    var okPosy, posy := r.ReadI32();
    if !okPosy { return Err(UnexpectedEof); }
    assert r.pos == start + 12;
    var okPosz, posz := r.ReadI32();
    if !okPosz { return Err(UnexpectedEof); }
    assert r.pos == start + 16;
    var okAng, ang := r.ReadU16();
    if !okAng { return Err(UnexpectedEof); }
    assert r.pos == start + 18;
    var okCursectnum, cursectnum := r.ReadU16();
    if !okCursectnum { return Err(UnexpectedEof); }
    assert r.pos == start + 20;
    res := Ok(Header(version, posx, posy, posz, ang, cursectnum));
  }

  method ReadSectorStats(r: Reader) returns (ok: bool, s: SectorStats)
    modifies r
    ensures r.Valid()
    ensures ok <==> old(r.pos) + 2 <= |r.data|
    ensures ok ==> r.pos == old(r.pos) + 2 && s == SectorStats(Word16(U16At(r.data, old(r.pos))))
    ensures !ok ==> r.pos == |r.data|
  {
    var bits;
    ok, bits := r.ReadU16();
    s := SectorStats(Word16(bits));
  }

  method ReadSector(r: Reader) returns (res: Result<Sector>)
    modifies r
    ensures r.Valid()
    ensures res.Ok? <==> old(r.pos) + 40 <= |r.data|
    ensures res.Ok? ==> r.pos == old(r.pos) + 40 && res.value == SectorAt(r.data, old(r.pos))
    ensures res.Err? ==> r.pos == |r.data| && res.error == UnexpectedEof
  {
    ghost var start := r.pos;
    var okWallptr, wallptr := r.ReadU16();
    if !okWallptr { return Err(UnexpectedEof); }
    assert r.pos == start + 2;
    var okWallnum, wallnum := r.ReadU16();
    if !okWallnum { return Err(UnexpectedEof); }
    assert r.pos == start + 4;
    var okCeilingz, ceilingz := r.ReadI32();
    if !okCeilingz { return Err(UnexpectedEof); }
    assert r.pos == start + 8;
    var okFloorz, floorz := r.ReadI32();
    if !okFloorz { return Err(UnexpectedEof); }
    assert r.pos == start + 12;
    var okCeilingstat, ceilingstat := ReadSectorStats(r);
    if !okCeilingstat { return Err(UnexpectedEof); }
    assert r.pos == start + 14;
    var okFloorstat, floorstat := ReadSectorStats(r);
    if !okFloorstat { return Err(UnexpectedEof); }
    assert r.pos == start + 16;
    var okCeilingpicnum, ceilingpicnum := r.ReadU16();
    if !okCeilingpicnum { return Err(UnexpectedEof); }
    assert r.pos == start + 18;
    var okCeilingheinum, ceilingheinum := r.ReadI16();
    if !okCeilingheinum { return Err(UnexpectedEof); }
    assert r.pos == start + 20;
    var okCeilingshade, ceilingshade := r.ReadI8();
    if !okCeilingshade { return Err(UnexpectedEof); }
    assert r.pos == start + 21;
    var okCeilingpal, ceilingpal := r.ReadU8();
    if !okCeilingpal { return Err(UnexpectedEof); }
    assert r.pos == start + 22;
    var okCeilingxpanning, ceilingxpanning := r.ReadU8();
    if !okCeilingxpanning { return Err(UnexpectedEof); }
    assert r.pos == start + 23;
    var okCeilingypanning, ceilingypanning := r.ReadU8();
    if !okCeilingypanning { return Err(UnexpectedEof); }
    assert r.pos == start + 24;
    var okFloorpicnum, floorpicnum := r.ReadU16();
    if !okFloorpicnum { return Err(UnexpectedEof); }
    assert r.pos == start + 26;
    var okFloorheinum, floorheinum := r.ReadI16();
    if !okFloorheinum { return Err(UnexpectedEof); }
    assert r.pos == start + 28;
    var okFloorshade, floorshade := r.ReadI8();
    if !okFloorshade { return Err(UnexpectedEof); }
    assert r.pos == start + 29;
    var okFloorpal, floorpal := r.ReadU8();
    if !okFloorpal { return Err(UnexpectedEof); }
    assert r.pos == start + 30;
    var okFloorxpanning, floorxpanning := r.ReadU8();
    if !okFloorxpanning { return Err(UnexpectedEof); }
    assert r.pos == start + 31;
    var okFloorypanning, floorypanning := r.ReadU8();
    if !okFloorypanning { return Err(UnexpectedEof); }
    assert r.pos == start + 32;
    var okVisibility, visibility := r.ReadI8();
    if !okVisibility { return Err(UnexpectedEof); }
    assert r.pos == start + 33;
    var okFiller, filler := r.ReadI8();
    if !okFiller { return Err(UnexpectedEof); }
    assert r.pos == start + 34;
    var okLotag, lotag := r.ReadU16();
    if !okLotag { return Err(UnexpectedEof); }
    assert r.pos == start + 36;
    var okHitag, hitag := r.ReadU16();
    if !okHitag { return Err(UnexpectedEof); }
    assert r.pos == start + 38;
    var okExtra, extra := r.ReadU16();
    if !okExtra { return Err(UnexpectedEof); }
    assert r.pos == start + 40;
    res := Ok(Sector(
      wallptr, wallnum, ceilingz, floorz, ceilingstat, floorstat,
      ceilingpicnum, ceilingheinum, ceilingshade, ceilingpal, ceilingxpanning, ceilingypanning,
      floorpicnum, floorheinum, floorshade, floorpal, floorxpanning, floorypanning,
      visibility, filler, lotag, hitag, extra));
  }

  method ReadWallStats(r: Reader) returns (ok: bool, s: WallStats)
    modifies r
    ensures r.Valid()
    ensures ok <==> old(r.pos) + 2 <= |r.data|
    ensures ok ==> r.pos == old(r.pos) + 2 && s == WallStats(Word16(U16At(r.data, old(r.pos))))
    ensures !ok ==> r.pos == |r.data|
  {
    var bits;
    ok, bits := r.ReadU16();
    s := WallStats(Word16(bits));
  }

  method ReadWall(r: Reader) returns (res: Result<Wall>)
    modifies r
    ensures r.Valid()
    ensures res.Ok? <==> old(r.pos) + 32 <= |r.data|
    ensures res.Ok? ==> r.pos == old(r.pos) + 32 && res.value == WallAt(r.data, old(r.pos))
    ensures res.Err? ==> r.pos == |r.data| && res.error == UnexpectedEof
  {
    ghost var start := r.pos;
    var okX, x := r.ReadI32();
    if !okX { return Err(UnexpectedEof); }
    assert r.pos == start + 4;
    var okY, y := r.ReadI32();
    if !okY { return Err(UnexpectedEof); }
    assert r.pos == start + 8;
    var okPoint2, point2 := r.ReadU16();
    if !okPoint2 { return Err(UnexpectedEof); }
    assert r.pos == start + 10;
    var okNextwall, nextwall := r.ReadI16();
    if !okNextwall { return Err(UnexpectedEof); }
    assert r.pos == start + 12;
    var okNextsector, nextsector := r.ReadI16();
    if !okNextsector { return Err(UnexpectedEof); }
    assert r.pos == start + 14;
    var okCstat, cstat := ReadWallStats(r);
    if !okCstat { return Err(UnexpectedEof); }
    assert r.pos == start + 16;
    var okPicnum, picnum := r.ReadU16();
    if !okPicnum { return Err(UnexpectedEof); }
    assert r.pos == start + 18;
    var okOverpicnum, overpicnum := r.ReadU16();
    if !okOverpicnum { return Err(UnexpectedEof); }
    assert r.pos == start + 20;
    var okShade, shade := r.ReadI8();
    if !okShade { return Err(UnexpectedEof); }
    assert r.pos == start + 21;
    var okPal, pal := r.ReadU8();
    if !okPal { return Err(UnexpectedEof); }
    assert r.pos == start + 22;
    var okXrepeat, xrepeat := r.ReadU8();
    if !okXrepeat { return Err(UnexpectedEof); }
    assert r.pos == start + 23;
    var okYrepeat, yrepeat := r.ReadU8();
    if !okYrepeat { return Err(UnexpectedEof); }
    assert r.pos == start + 24;
    var okXpanning, xpanning := r.ReadU8();
    if !okXpanning { return Err(UnexpectedEof); }
    assert r.pos == start + 25;
    var okYpanning, ypanning := r.ReadU8();
    if !okYpanning { return Err(UnexpectedEof); }
    assert r.pos == start + 26;
    var okLotag, lotag := r.ReadU16();
    if !okLotag { return Err(UnexpectedEof); }
    assert r.pos == start + 28;
    var okHitag, hitag := r.ReadU16();
    if !okHitag { return Err(UnexpectedEof); }
    assert r.pos == start + 30;
    var okExtra, extra := r.ReadU16();
    if !okExtra { return Err(UnexpectedEof); }
    assert r.pos == start + 32;
    res := Ok(Wall(
      x, y, point2, nextwall, nextsector, cstat, picnum, overpicnum,
      shade, pal, xrepeat, yrepeat, xpanning, ypanning, lotag, hitag, extra));
  }

  method ReadSpriteStats(r: Reader) returns (ok: bool, s: SpriteStats)
    modifies r
    ensures r.Valid()
    ensures ok <==> old(r.pos) + 2 <= |r.data|
    ensures ok ==> r.pos == old(r.pos) + 2 && s == SpriteStats(Word16(U16At(r.data, old(r.pos))))
    ensures !ok ==> r.pos == |r.data|
  {
    var bits;
    ok, bits := r.ReadU16();
    s := SpriteStats(Word16(bits));
  }

  method ReadSprite(r: Reader) returns (res: Result<Sprite>)
    modifies r
    ensures r.Valid()
    ensures res.Ok? <==> old(r.pos) + 44 <= |r.data|
    ensures res.Ok? ==> r.pos == old(r.pos) + 44 && res.value == SpriteAt(r.data, old(r.pos))
    ensures res.Err? ==> r.pos == |r.data| && res.error == UnexpectedEof
  {
    ghost var start := r.pos;
    var okX, x := r.ReadI32();
    if !okX { return Err(UnexpectedEof); }
    assert r.pos == start + 4;
    var okY, y := r.ReadI32();
    if !okY { return Err(UnexpectedEof); }
    assert r.pos == start + 8;
    var okZ, z := r.ReadI32();
    if !okZ { return Err(UnexpectedEof); }
    assert r.pos == start + 12;
    var okCstat, cstat := ReadSpriteStats(r);
    if !okCstat { return Err(UnexpectedEof); }
    assert r.pos == start + 14;
    var okPicnum, picnum := r.ReadU16();
    if !okPicnum { return Err(UnexpectedEof); }
    assert r.pos == start + 16;
    var okShade, shade := r.ReadI8();
    if !okShade { return Err(UnexpectedEof); }
    assert r.pos == start + 17;
    var okPal, pal := r.ReadU8();
    if !okPal { return Err(UnexpectedEof); }
    assert r.pos == start + 18;
    var okClipdist, clipdist := r.ReadU8();
    if !okClipdist { return Err(UnexpectedEof); }
    assert r.pos == start + 19;
    var okFiller, filler := r.ReadU8();
    if !okFiller { return Err(UnexpectedEof); }
    assert r.pos == start + 20;
    var okXrepeat, xrepeat := r.ReadU8();
    if !okXrepeat { return Err(UnexpectedEof); }
    assert r.pos == start + 21;
    var okYrepeat, yrepeat := r.ReadU8();
    if !okYrepeat { return Err(UnexpectedEof); }
    assert r.pos == start + 22;
    var okXoffset, xoffset := r.ReadU8();
    if !okXoffset { return Err(UnexpectedEof); }
    assert r.pos == start + 23;
    var okYoffset, yoffset := r.ReadU8();
    if !okYoffset { return Err(UnexpectedEof); }
    assert r.pos == start + 24;
    var okSectnum, sectnum := r.ReadU16();
    if !okSectnum { return Err(UnexpectedEof); }
    assert r.pos == start + 26;
    var okStatnum, statnum := r.ReadU16();
    if !okStatnum { return Err(UnexpectedEof); }
    assert r.pos == start + 28;
    var okAng, ang := r.ReadU16();
    if !okAng { return Err(UnexpectedEof); }
    assert r.pos == start + 30;
    var okOwner, owner := r.ReadU16();
    if !okOwner { return Err(UnexpectedEof); }
    assert r.pos == start + 32;
    var okXvel, xvel := r.ReadI16();
    if !okXvel { return Err(UnexpectedEof); }
    assert r.pos == start + 34;
    var okYvel, yvel := r.ReadI16();
    if !okYvel { return Err(UnexpectedEof); }
    assert r.pos == start + 36;
    var okZvel, zvel := r.ReadI16();
    if !okZvel { return Err(UnexpectedEof); }
    assert r.pos == start + 38;
    var okLotag, lotag := r.ReadU16();
    if !okLotag { return Err(UnexpectedEof); }
    assert r.pos == start + 40;
    var okHitag, hitag := r.ReadU16();
    if !okHitag { return Err(UnexpectedEof); }
    assert r.pos == start + 42;
    var okExtra, extra := r.ReadU16();
    if !okExtra { return Err(UnexpectedEof); }
    assert r.pos == start + 44;
    res := Ok(Sprite(
      x, y, z, cstat, picnum, shade, pal, clipdist, filler, xrepeat, yrepeat, xoffset, yoffset,
      sectnum, statnum, ang, owner, xvel, yvel, zvel, lotag, hitag, extra));
  }
}
