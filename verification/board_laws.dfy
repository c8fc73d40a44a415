/** What a decoded board says about the bytes it came from: where each
    record sits, which bytes it depends on, what a shortened input gives,
    and an encoding that `Board::read` inverts. */
module BoardLaws {
  import opened Wrappers
  import opened ByteOrder
  import opened Records
  import opened Runs
  import opened Boards

  // ---------------------------------------------------------------------
  // Runs of sectors
  // ---------------------------------------------------------------------

  /** The Sector decoder reads a record from any 40 bytes and looks at nothing else. */
  lemma SectorAtLocal()
    ensures Decodes(SectorAt, 40) && Local(SectorAt, 40)
  {
    forall b: seq<uint8>, k: nat, x: nat | x + 40 <= k <= |b|
      ensures SectorAt(b[..k], x) == SectorAt(b, x)
    {
      SectorAtPrefix(b, k, x);
    }
  }

  /** The Sector decoder reads back what the Sector encoder writes. */
  lemma SectorAtInverts()
    ensures Decodes(SectorAt, 40) && Inverts(SectorAt, EncodeSector, 40)
  {
    forall p: seq<uint8>, v: Sector, q: seq<uint8>
      ensures SectorAt(p + EncodeSector(v) + q, |p|) == v
    {
      SectorRoundTrip(p, v, q);
    }
  }

  /** A decoded run of sectors: as many records as its unsigned 16-bit count
      says, the `i`-th one 40 * i bytes after the count, and the run ends
      right after the last one. */
  lemma SectorRunLayout(b: seq<uint8>, at: nat)
    requires SectorRunAt(b, at).Ok?
    ensures at + 2 <= |b|
    ensures |SectorRunAt(b, at).value.0| == U16At(b, at) as nat
    ensures SectorRunAt(b, at).value.1 == at + 2 + 40 * |SectorRunAt(b, at).value.0| <= |b|
    ensures forall i :: 0 <= i < |SectorRunAt(b, at).value.0| ==>
      SectorRunAt(b, at).value.0[i] == SectorAt(b, at + 2 + 40 * i)
  {
    var n := U16At(b, at) as nat;
    forall i | 0 <= i < n ensures SectorRunAt(b, at).value.0[i] == SectorAt(b, at + 2 + 40 * i) {
      RecordsAtIndex(SectorAt, 40, b, at + 2, n, i);
    }
  }

  /** A run of sectors reads nothing past its end: cutting the input there, or
      anywhere later, gives the same run. */
  lemma SectorRunPrefix(b: seq<uint8>, at: nat, k: nat)
    requires SectorRunAt(b, at).Ok? && SectorRunAt(b, at).value.1 <= k <= |b|
    ensures SectorRunAt(b[..k], at) == SectorRunAt(b, at)
  {
    assert b[..k][at] == b[at] && b[..k][at + 1] == b[at + 1];
    SectorAtLocal();
    RecordsAtPrefix(SectorAt, 40, b, k, at + 2, U16At(b, at) as nat);
  }

  /** Bytes after a run of sectors do not change it. */
  lemma SectorRunExtend(b: seq<uint8>, extra: seq<uint8>, at: nat)
    requires SectorRunAt(b, at).Ok?
    ensures SectorRunAt(b + extra, at) == SectorRunAt(b, at)
  {
    var c := b + extra;
    assert c[..|b|] == b;
    assert c[at] == b[at] && c[at + 1] == b[at + 1];
    SectorAtLocal();
    RecordsAtPrefix(SectorAt, 40, c, |b|, at + 2, U16At(b, at) as nat);
  }

  /** A run of sectors cut anywhere before its end fails with end of input. */
  lemma SectorRunTruncated(b: seq<uint8>, at: nat, k: nat)
    requires SectorRunAt(b, at).Ok? && at <= k < SectorRunAt(b, at).value.1
    ensures SectorRunAt(b[..k], at) == Err(UnexpectedEof)
  {
    if at + 2 <= k {
      assert b[..k][at] == b[at] && b[..k][at + 1] == b[at + 1];
    }
  }

  /** Sectors written back to back. */
  function EncodeSectors(sectors: seq<Sector>): (e: seq<uint8>)
    ensures |e| == 40 * |sectors|
  {
    EncodeAll(EncodeSector, 40, sectors)
  }

  /** A run of sectors as the file holds it: the unsigned 16-bit count, then the records. */
  function EncodeSectorRun(sectors: seq<Sector>): (e: seq<uint8>)
    requires |sectors| < 0x1_0000
    ensures |e| == 2 + 40 * |sectors|
  {
    LeU16(|sectors| as uint16) + EncodeSectors(sectors)
  }

  /** Sectors written back to back anywhere in a stream read back in order. */
  lemma SectorsRoundTrip(p: seq<uint8>, sectors: seq<Sector>, q: seq<uint8>)
    ensures SectorsAt(p + EncodeSectors(sectors) + q, |p|, |sectors|) == sectors
  {
    SectorAtInverts();
    RecordsRoundTrip(SectorAt, EncodeSector, 40, p, sectors, q);
  }

  /** An encoded run of sectors decodes back to the same records and ends
      right after them. */
  lemma SectorRunRoundTrip(p: seq<uint8>, sectors: seq<Sector>, q: seq<uint8>)
    requires |sectors| < 0x1_0000
    ensures SectorRunAt(p + EncodeSectorRun(sectors) + q, |p|) == Ok((sectors, |p| + 2 + 40 * |sectors|))
  {
    assert p + EncodeSectorRun(sectors) + q == p + LeU16(|sectors| as uint16) + (EncodeSectors(sectors) + q);
    U16RoundTrip(p, |sectors| as uint16, EncodeSectors(sectors) + q);
    assert p + EncodeSectorRun(sectors) + q == (p + LeU16(|sectors| as uint16)) + EncodeSectors(sectors) + q;
    SectorsRoundTrip(p + LeU16(|sectors| as uint16), sectors, q);
  }

  // ---------------------------------------------------------------------
  // Runs of walls
  // ---------------------------------------------------------------------

  /** The Wall decoder reads a record from any 32 bytes and looks at nothing else. */
  lemma WallAtLocal()
    ensures Decodes(WallAt, 32) && Local(WallAt, 32)
  {
    forall b: seq<uint8>, k: nat, x: nat | x + 32 <= k <= |b|
      ensures WallAt(b[..k], x) == WallAt(b, x)
    {
      WallAtPrefix(b, k, x);
    }
  }

  /** The Wall decoder reads back what the Wall encoder writes. */
  lemma WallAtInverts()
    ensures Decodes(WallAt, 32) && Inverts(WallAt, EncodeWall, 32)
  {
    forall p: seq<uint8>, v: Wall, q: seq<uint8>
      ensures WallAt(p + EncodeWall(v) + q, |p|) == v
    {
      WallRoundTrip(p, v, q);
    }
  }

  /** A decoded run of walls: as many records as its signed 16-bit count says (none
      for a negative count), the `i`-th one 32 * i bytes after the count,
      and the run ends right after the last one. */
  lemma WallRunLayout(b: seq<uint8>, at: nat)
    requires WallRunAt(b, at).Ok?
    ensures at + 2 <= |b|
    ensures |WallRunAt(b, at).value.0| == WallCount(I16At(b, at))
    ensures WallRunAt(b, at).value.1 == at + 2 + 32 * |WallRunAt(b, at).value.0| <= |b|
    ensures forall i :: 0 <= i < |WallRunAt(b, at).value.0| ==>
      WallRunAt(b, at).value.0[i] == WallAt(b, at + 2 + 32 * i)
  {
    var n := WallCount(I16At(b, at));
    forall i | 0 <= i < n ensures WallRunAt(b, at).value.0[i] == WallAt(b, at + 2 + 32 * i) {
      RecordsAtIndex(WallAt, 32, b, at + 2, n, i);
    }
  }

  /** A run of walls reads nothing past its end: cutting the input there, or
      anywhere later, gives the same run. */
  lemma WallRunPrefix(b: seq<uint8>, at: nat, k: nat)
    requires WallRunAt(b, at).Ok? && WallRunAt(b, at).value.1 <= k <= |b|
    ensures WallRunAt(b[..k], at) == WallRunAt(b, at)
  {
    assert b[..k][at] == b[at] && b[..k][at + 1] == b[at + 1];
    WallAtLocal();
    RecordsAtPrefix(WallAt, 32, b, k, at + 2, WallCount(I16At(b, at)));
  }

  /** Bytes after a run of walls do not change it. */
  lemma WallRunExtend(b: seq<uint8>, extra: seq<uint8>, at: nat)
    requires WallRunAt(b, at).Ok?
    ensures WallRunAt(b + extra, at) == WallRunAt(b, at)
  {
    var c := b + extra;
    assert c[..|b|] == b;
    assert c[at] == b[at] && c[at + 1] == b[at + 1];
    WallAtLocal();
    RecordsAtPrefix(WallAt, 32, c, |b|, at + 2, WallCount(I16At(b, at)));
  }

  /** A run of walls cut anywhere before its end fails with end of input. */
  lemma WallRunTruncated(b: seq<uint8>, at: nat, k: nat)
    requires WallRunAt(b, at).Ok? && at <= k < WallRunAt(b, at).value.1
    ensures WallRunAt(b[..k], at) == Err(UnexpectedEof)
  {
    if at + 2 <= k {
      assert b[..k][at] == b[at] && b[..k][at + 1] == b[at + 1];
    }
  }

  /** Walls written back to back. */
  function EncodeWalls(walls: seq<Wall>): (e: seq<uint8>)
    ensures |e| == 32 * |walls|
  {
    EncodeAll(EncodeWall, 32, walls)
  }

  /** A run of walls as the file holds it: the signed 16-bit count, then the records. */
  function EncodeWallRun(walls: seq<Wall>): (e: seq<uint8>)
    requires |walls| < 0x8000
    ensures |e| == 2 + 32 * |walls|
  {
    LeI16(|walls| as int16) + EncodeWalls(walls)
  }

  /** Walls written back to back anywhere in a stream read back in order. */
  lemma WallsRoundTrip(p: seq<uint8>, walls: seq<Wall>, q: seq<uint8>)
    ensures WallsAt(p + EncodeWalls(walls) + q, |p|, |walls|) == walls
  {
    WallAtInverts();
    RecordsRoundTrip(WallAt, EncodeWall, 32, p, walls, q);
  }

  /** An encoded run of walls decodes back to the same records and ends
      right after them. */
  lemma WallRunRoundTrip(p: seq<uint8>, walls: seq<Wall>, q: seq<uint8>)
    requires |walls| < 0x8000
    ensures WallRunAt(p + EncodeWallRun(walls) + q, |p|) == Ok((walls, |p| + 2 + 32 * |walls|))
  {
    assert p + EncodeWallRun(walls) + q == p + LeI16(|walls| as int16) + (EncodeWalls(walls) + q);
    I16RoundTrip(p, |walls| as int16, EncodeWalls(walls) + q);
    assert p + EncodeWallRun(walls) + q == (p + LeI16(|walls| as int16)) + EncodeWalls(walls) + q;
    WallsRoundTrip(p + LeI16(|walls| as int16), walls, q);
  }

  // ---------------------------------------------------------------------
  // Runs of sprites
  // ---------------------------------------------------------------------

  /** The Sprite decoder reads a record from any 44 bytes and looks at nothing else. */
  lemma SpriteAtLocal()
    ensures Decodes(SpriteAt, 44) && Local(SpriteAt, 44)
  {
    forall b: seq<uint8>, k: nat, x: nat | x + 44 <= k <= |b|
      ensures SpriteAt(b[..k], x) == SpriteAt(b, x)
    {
      SpriteAtPrefix(b, k, x);
    }
  }

  /** The Sprite decoder reads back what the Sprite encoder writes. */
  lemma SpriteAtInverts()
    ensures Decodes(SpriteAt, 44) && Inverts(SpriteAt, EncodeSprite, 44)
  {
    forall p: seq<uint8>, v: Sprite, q: seq<uint8>
      ensures SpriteAt(p + EncodeSprite(v) + q, |p|) == v
    {
      SpriteRoundTrip(p, v, q);
    }
  }

  /** A decoded run of sprites: as many records as its unsigned 16-bit count
      says, the `i`-th one 44 * i bytes after the count, and the run ends
      right after the last one. */
  lemma SpriteRunLayout(b: seq<uint8>, at: nat)
    requires SpriteRunAt(b, at).Ok?
    ensures at + 2 <= |b|
    ensures |SpriteRunAt(b, at).value.0| == U16At(b, at) as nat
    ensures SpriteRunAt(b, at).value.1 == at + 2 + 44 * |SpriteRunAt(b, at).value.0| <= |b|
    ensures forall i :: 0 <= i < |SpriteRunAt(b, at).value.0| ==>
      SpriteRunAt(b, at).value.0[i] == SpriteAt(b, at + 2 + 44 * i)
  {
    var n := U16At(b, at) as nat;
    forall i | 0 <= i < n ensures SpriteRunAt(b, at).value.0[i] == SpriteAt(b, at + 2 + 44 * i) {
      RecordsAtIndex(SpriteAt, 44, b, at + 2, n, i);
    }
  }

  /** A run of sprites reads nothing past its end: cutting the input there, or
      anywhere later, gives the same run. */
  lemma SpriteRunPrefix(b: seq<uint8>, at: nat, k: nat)
    requires SpriteRunAt(b, at).Ok? && SpriteRunAt(b, at).value.1 <= k <= |b|
    ensures SpriteRunAt(b[..k], at) == SpriteRunAt(b, at)
  {
    assert b[..k][at] == b[at] && b[..k][at + 1] == b[at + 1];
    SpriteAtLocal();
    RecordsAtPrefix(SpriteAt, 44, b, k, at + 2, U16At(b, at) as nat);
  }

  /** Bytes after a run of sprites do not change it. */
  lemma SpriteRunExtend(b: seq<uint8>, extra: seq<uint8>, at: nat)
    requires SpriteRunAt(b, at).Ok?
    ensures SpriteRunAt(b + extra, at) == SpriteRunAt(b, at)
  {
    var c := b + extra;
    assert c[..|b|] == b;
    assert c[at] == b[at] && c[at + 1] == b[at + 1];
    SpriteAtLocal();
    RecordsAtPrefix(SpriteAt, 44, c, |b|, at + 2, U16At(b, at) as nat);
  }

  /** A run of sprites cut anywhere before its end fails with end of input. */
  lemma SpriteRunTruncated(b: seq<uint8>, at: nat, k: nat)
    requires SpriteRunAt(b, at).Ok? && at <= k < SpriteRunAt(b, at).value.1
    ensures SpriteRunAt(b[..k], at) == Err(UnexpectedEof)
  {
    if at + 2 <= k {
      assert b[..k][at] == b[at] && b[..k][at + 1] == b[at + 1];
    }
  }

  /** Sprites written back to back. */
  function EncodeSprites(sprites: seq<Sprite>): (e: seq<uint8>)
    ensures |e| == 44 * |sprites|
  {
    EncodeAll(EncodeSprite, 44, sprites)
  }

  /** A run of sprites as the file holds it: the unsigned 16-bit count, then the records. */
  function EncodeSpriteRun(sprites: seq<Sprite>): (e: seq<uint8>)
    requires |sprites| < 0x1_0000
    ensures |e| == 2 + 44 * |sprites|
  {
    LeU16(|sprites| as uint16) + EncodeSprites(sprites)
  }

  /** Sprites written back to back anywhere in a stream read back in order. */
  lemma SpritesRoundTrip(p: seq<uint8>, sprites: seq<Sprite>, q: seq<uint8>)
    ensures SpritesAt(p + EncodeSprites(sprites) + q, |p|, |sprites|) == sprites
  {
    SpriteAtInverts();
    RecordsRoundTrip(SpriteAt, EncodeSprite, 44, p, sprites, q);
  }

  /** An encoded run of sprites decodes back to the same records and ends
      right after them. */
  lemma SpriteRunRoundTrip(p: seq<uint8>, sprites: seq<Sprite>, q: seq<uint8>)
    requires |sprites| < 0x1_0000
    ensures SpriteRunAt(p + EncodeSpriteRun(sprites) + q, |p|) == Ok((sprites, |p| + 2 + 44 * |sprites|))
  {
    assert p + EncodeSpriteRun(sprites) + q == p + LeU16(|sprites| as uint16) + (EncodeSprites(sprites) + q);
    U16RoundTrip(p, |sprites| as uint16, EncodeSprites(sprites) + q);
    assert p + EncodeSpriteRun(sprites) + q == (p + LeU16(|sprites| as uint16)) + EncodeSprites(sprites) + q;
    SpritesRoundTrip(p + LeU16(|sprites| as uint16), sprites, q);
  }

  /** A negative wall count is an empty range: no wall is read. */
  lemma NegativeWallCount(b: seq<uint8>, at: nat)
    requires at + 2 <= |b| && I16At(b, at) < 0
    ensures WallRunAt(b, at) == Ok(([], at + 2))
  {
  }

  // ---------------------------------------------------------------------
  // Whole boards
  // ---------------------------------------------------------------------

  /** A successful decode is exactly a header followed by three successful
      runs, each starting where the previous one ends. */
  lemma BoardRuns(b: seq<uint8>, at: nat, board: Board, end: nat, wallsAt: nat, spritesAt: nat)
    requires at + 20 <= |b|
    ensures DecodeBoard(b, at) == Ok((board, end)) &&
            SectorRunAt(b, at + 20).Ok? && SectorRunAt(b, at + 20).value.1 == wallsAt &&
            WallRunAt(b, wallsAt).Ok? && WallRunAt(b, wallsAt).value.1 == spritesAt
        <==>
            board.header == HeaderAt(b, at) &&
            SectorRunAt(b, at + 20) == Ok((board.sectors, wallsAt)) &&
            WallRunAt(b, wallsAt) == Ok((board.walls, spritesAt)) &&
            SpriteRunAt(b, spritesAt) == Ok((board.sprites, end))
  {
  }

  /** Where everything of a decoded board comes from: the header at the
      start, each count right before its run, each record at its fixed
      offset in stream order, and the board ends right after the last
      sprite. */
  lemma BoardLayout(b: seq<uint8>, at: nat, board: Board, end: nat)
    requires DecodeBoard(b, at) == Ok((board, end))
    ensures end == at + 26 + 40 * |board.sectors| + 32 * |board.walls| + 44 * |board.sprites| <= |b|
    ensures board.header == HeaderAt(b, at)
    ensures |board.sectors| == U16At(b, at + 20) as nat
    ensures |board.walls| == WallCount(I16At(b, at + 22 + 40 * |board.sectors|))
    ensures |board.sprites| == U16At(b, at + 24 + 40 * |board.sectors| + 32 * |board.walls|) as nat
    ensures forall i :: 0 <= i < |board.sectors| ==>
      board.sectors[i] == SectorAt(b, at + 22 + 40 * i)
    ensures forall i :: 0 <= i < |board.walls| ==>
      board.walls[i] == WallAt(b, at + 24 + 40 * |board.sectors| + 32 * i)
    ensures forall i :: 0 <= i < |board.sprites| ==>
      board.sprites[i] == SpriteAt(b, at + 26 + 40 * |board.sectors| + 32 * |board.walls| + 44 * i)
  {
    var wallsAt := SectorRunAt(b, at + 20).value.1;
    var spritesAt := WallRunAt(b, wallsAt).value.1;
    BoardRuns(b, at, board, end, wallsAt, spritesAt);
    SectorRunLayout(b, at + 20);
    WallRunLayout(b, wallsAt);
    SpriteRunLayout(b, spritesAt);
  }

  /** A board reads nothing past its end: cutting the input there, or
      anywhere later, gives the same board. */
  lemma BoardPrefix(b: seq<uint8>, at: nat, k: nat)
    requires DecodeBoard(b, at).Ok? && DecodeBoard(b, at).value.1 <= k <= |b|
    ensures DecodeBoard(b[..k], at) == DecodeBoard(b, at)
  {
    var wallsAt := SectorRunAt(b, at + 20).value.1;
    var spritesAt := WallRunAt(b, wallsAt).value.1;
    HeaderAtPrefix(b, k, at);
    SectorRunPrefix(b, at + 20, k);
    WallRunPrefix(b, wallsAt, k);
    SpriteRunPrefix(b, spritesAt, k);
  }

  /** Bytes after a board do not change it. */
  lemma TrailingBytes(b: seq<uint8>, extra: seq<uint8>, at: nat)
    requires DecodeBoard(b, at).Ok?
    ensures DecodeBoard(b + extra, at) == DecodeBoard(b, at)
  {
    var wallsAt := SectorRunAt(b, at + 20).value.1;
    var spritesAt := WallRunAt(b, wallsAt).value.1;
    assert (b + extra)[..|b|] == b;
    HeaderAtPrefix(b + extra, |b|, at);
    SectorRunExtend(b, extra, at + 20);
    WallRunExtend(b, extra, wallsAt);
    SpriteRunExtend(b, extra, spritesAt);
  }

  /** A board cut anywhere before its end fails with end of input: the first
      short read aborts it, and no partial board is returned. */
  lemma BoardTruncated(b: seq<uint8>, at: nat, k: nat)
    requires DecodeBoard(b, at).Ok? && at <= k < DecodeBoard(b, at).value.1
    ensures DecodeBoard(b[..k], at) == Err(UnexpectedEof)
  {
    if at + 20 <= k {
      var wallsAt := SectorRunAt(b, at + 20).value.1;
      if k < wallsAt {
        SectorRunTruncated(b, at + 20, k);
      } else {
        SectorRunPrefix(b, at + 20, k);
        var spritesAt := WallRunAt(b, wallsAt).value.1;
        if k < spritesAt {
          WallRunTruncated(b, wallsAt, k);
        } else {
          WallRunPrefix(b, wallsAt, k);
          SpriteRunTruncated(b, spritesAt, k);
        }
      }
    }
  }

  /** A board as a map file holds it. The counts must fit their fields: at
      most 65535 sectors and sprites, at most 32767 walls. */
  function EncodeBoard(board: Board): (e: seq<uint8>)
    requires |board.sectors| < 0x1_0000 && |board.walls| < 0x8000 && |board.sprites| < 0x1_0000
    ensures |e| == 26 + 40 * |board.sectors| + 32 * |board.walls| + 44 * |board.sprites|
  {
    EncodeHeader(board.header) + EncodeSectorRun(board.sectors)
    + EncodeWallRun(board.walls) + EncodeSpriteRun(board.sprites)
  }

  /** Regrouping the parts of an encoded board in a stream, around each part. */
  lemma RegroupHeader(p: seq<uint8>, h: seq<uint8>, s: seq<uint8>, w: seq<uint8>, sp: seq<uint8>, q: seq<uint8>)
    ensures p + (h + s + w + sp) + q == p + h + (s + w + sp + q)
  {
  }

  lemma RegroupSectors(p: seq<uint8>, h: seq<uint8>, s: seq<uint8>, w: seq<uint8>, sp: seq<uint8>, q: seq<uint8>)
    ensures p + (h + s + w + sp) + q == (p + h) + s + (w + sp + q)
  {
  }

  lemma RegroupWalls(p: seq<uint8>, h: seq<uint8>, s: seq<uint8>, w: seq<uint8>, sp: seq<uint8>, q: seq<uint8>)
    ensures p + (h + s + w + sp) + q == (p + h + s) + w + (sp + q)
  {
  }

  lemma RegroupSprites(p: seq<uint8>, h: seq<uint8>, s: seq<uint8>, w: seq<uint8>, sp: seq<uint8>, q: seq<uint8>)
    ensures p + (h + s + w + sp) + q == (p + h + s + w) + sp + q
  {
  }

  /** The header of an encoded board reads back. */
  lemma HeaderInBoard(p: seq<uint8>, board: Board, q: seq<uint8>)
    requires |board.sectors| < 0x1_0000 && |board.walls| < 0x8000 && |board.sprites| < 0x1_0000
    ensures HeaderAt(p + EncodeBoard(board) + q, |p|) == board.header
  {
    var h, s, w, sp := EncodeHeader(board.header), EncodeSectorRun(board.sectors), EncodeWallRun(board.walls), EncodeSpriteRun(board.sprites);
    RegroupHeader(p, h, s, w, sp, q);
    HeaderRoundTrip(p, board.header, s + w + sp + q);
  }

  /** The sector run of an encoded board reads back. */
  lemma SectorsInBoard(p: seq<uint8>, board: Board, q: seq<uint8>)
    requires |board.sectors| < 0x1_0000 && |board.walls| < 0x8000 && |board.sprites| < 0x1_0000
    ensures SectorRunAt(p + EncodeBoard(board) + q, |p| + 20) ==
            Ok((board.sectors, |p| + 22 + 40 * |board.sectors|))
  {
    var h, s, w, sp := EncodeHeader(board.header), EncodeSectorRun(board.sectors), EncodeWallRun(board.walls), EncodeSpriteRun(board.sprites);
    RegroupSectors(p, h, s, w, sp, q);
    SectorRunRoundTrip(p + h, board.sectors, w + sp + q);
  }

  /** The wall run of an encoded board reads back. */
  lemma WallsInBoard(p: seq<uint8>, board: Board, q: seq<uint8>)
    requires |board.sectors| < 0x1_0000 && |board.walls| < 0x8000 && |board.sprites| < 0x1_0000
    ensures WallRunAt(p + EncodeBoard(board) + q, |p| + 22 + 40 * |board.sectors|) ==
            Ok((board.walls, |p| + 24 + 40 * |board.sectors| + 32 * |board.walls|))
  {
    var h, s, w, sp := EncodeHeader(board.header), EncodeSectorRun(board.sectors), EncodeWallRun(board.walls), EncodeSpriteRun(board.sprites);
    RegroupWalls(p, h, s, w, sp, q);
    WallRunRoundTrip(p + h + s, board.walls, sp + q);
  }

  /** The sprite run of an encoded board reads back. */
  lemma SpritesInBoard(p: seq<uint8>, board: Board, q: seq<uint8>)
    requires |board.sectors| < 0x1_0000 && |board.walls| < 0x8000 && |board.sprites| < 0x1_0000
    ensures SpriteRunAt(p + EncodeBoard(board) + q, |p| + 24 + 40 * |board.sectors| + 32 * |board.walls|) ==
            Ok((board.sprites, |p| + |EncodeBoard(board)|))
  {
    var h, s, w, sp := EncodeHeader(board.header), EncodeSectorRun(board.sectors), EncodeWallRun(board.walls), EncodeSpriteRun(board.sprites);
    RegroupSprites(p, h, s, w, sp, q);
    SpriteRunRoundTrip(p + h + s + w, board.sprites, q);
  }

  /** An encoded board, anywhere in a stream, decodes back to the same board
      and ends right after it. */
  lemma BoardRoundTrip(p: seq<uint8>, board: Board, q: seq<uint8>)
    requires |board.sectors| < 0x1_0000 && |board.walls| < 0x8000 && |board.sprites| < 0x1_0000
    ensures DecodeBoard(p + EncodeBoard(board) + q, |p|) == Ok((board, |p| + |EncodeBoard(board)|))
  {
    var wallsAt := |p| + 22 + 40 * |board.sectors|;
    var spritesAt := |p| + 24 + 40 * |board.sectors| + 32 * |board.walls|;
    HeaderInBoard(p, board, q);
    SectorsInBoard(p, board, q);
    WallsInBoard(p, board, q);
    SpritesInBoard(p, board, q);
    BoardFromRuns(p + EncodeBoard(board) + q, |p|, board, |p| + |EncodeBoard(board)|, wallsAt, spritesAt);
  }

  /** A header followed by three chained runs decodes as a board. */
  lemma BoardFromRuns(b: seq<uint8>, at: nat, board: Board, end: nat, wallsAt: nat, spritesAt: nat)
    requires at + 20 <= |b|
    requires board.header == HeaderAt(b, at)
    requires SectorRunAt(b, at + 20) == Ok((board.sectors, wallsAt))
    requires WallRunAt(b, wallsAt) == Ok((board.walls, spritesAt))
    requires SpriteRunAt(b, spritesAt) == Ok((board.sprites, end))
    ensures DecodeBoard(b, at) == Ok((board, end))
  {
  }

  /** A file holding only a header is truncated. */
  lemma HeaderOnly(h: Header)
    ensures DecodeBoard(EncodeHeader(h), 0) == Err(UnexpectedEof)
  {
  }

  /** The smallest board: a header, no sectors, a wall count of -1 (bytes
      `FF FF`) and no sprites. */
  lemma EmptyBoard(h: Header)
    ensures DecodeBoard(EncodeHeader(h) + [0, 0, 0xFF, 0xFF, 0, 0], 0) == Ok((Board(h, [], [], []), 26))
  {
    var b := EncodeHeader(h) + [0, 0, 0xFF, 0xFF, 0, 0];
    assert b == [] + EncodeHeader(h) + [0, 0, 0xFF, 0xFF, 0, 0];
    HeaderRoundTrip([], h, [0, 0, 0xFF, 0xFF, 0, 0]);
    AllOnesI16(b, 22);
  }
}
