/** A whole map file: a 20-byte header followed by three counted runs of
    records. Each run starts with its little-endian count (sectors: unsigned
    16 bits, walls: signed 16 bits, sprites: unsigned 16 bits) and then holds
    that many fixed-size records back to back. */
module Boards {
  import opened Wrappers
  import opened ByteOrder
  import opened Records
  import opened Runs

  datatype Board = Board(
    header: Header,
    sectors: seq<Sector>,
    walls: seq<Wall>,
    sprites: seq<Sprite>)

  // ---------------------------------------------------------------------
  // The layout of a board in a byte sequence
  // ---------------------------------------------------------------------

  /** `n` consecutive sectors starting at offset `at`, in stream order. */
  function SectorsAt(b: seq<uint8>, at: nat, n: nat): (ss: seq<Sector>)
    requires at + 40 * n <= |b|
    ensures |ss| == n
  {
    RecordsAt(SectorAt, 40, b, at, n)
  }

  /** `n` consecutive walls starting at offset `at`, in stream order. */
  function WallsAt(b: seq<uint8>, at: nat, n: nat): (ws: seq<Wall>)
    requires at + 32 * n <= |b|
    ensures |ws| == n
  {
    RecordsAt(WallAt, 32, b, at, n)
  }

  /** `n` consecutive sprites starting at offset `at`, in stream order. */
  function SpritesAt(b: seq<uint8>, at: nat, n: nat): (ss: seq<Sprite>)
    requires at + 44 * n <= |b|
    ensures |ss| == n
  {
    RecordsAt(SpriteAt, 44, b, at, n)
  }

  /** How many walls a loop from zero up to a signed count reads: a negative
      count is an empty range. */
  function WallCount(n: int16): (c: nat)
    ensures c >= n as int && (c == 0 || c == n as int)
  {
    if n < 0 then 0 else n as nat
  }

  /** The run of sectors at offset `at`: its count, then the records it announces.
      Yields the records and the offset just past them, or the end-of-input
      error when the bytes run out first. */
  function SectorRunAt(b: seq<uint8>, at: nat): (r: Result<(seq<Sector>, nat)>)
    ensures r.Ok? ==> at + 2 <= r.value.1 <= |b|
    ensures r.Err? ==> r.error == UnexpectedEof
  {
    if |b| < at + 2 then Err(UnexpectedEof)
    else
      var n := U16At(b, at) as nat;
      if |b| < at + 2 + 40 * n then Err(UnexpectedEof)
      else Ok((SectorsAt(b, at + 2, n), at + 2 + 40 * n))
  }

  /** The run of walls at offset `at`: its count, then the records it announces.
      Yields the records and the offset just past them, or the end-of-input
      error when the bytes run out first. */
  function WallRunAt(b: seq<uint8>, at: nat): (r: Result<(seq<Wall>, nat)>)
    ensures r.Ok? ==> at + 2 <= r.value.1 <= |b|
    ensures r.Err? ==> r.error == UnexpectedEof
  {
    if |b| < at + 2 then Err(UnexpectedEof)
    else
      var n := WallCount(I16At(b, at));
      if |b| < at + 2 + 32 * n then Err(UnexpectedEof)
      else Ok((WallsAt(b, at + 2, n), at + 2 + 32 * n))
  }

  /** The run of sprites at offset `at`: its count, then the records it announces.
      Yields the records and the offset just past them, or the end-of-input
      error when the bytes run out first. */
  function SpriteRunAt(b: seq<uint8>, at: nat): (r: Result<(seq<Sprite>, nat)>)
    ensures r.Ok? ==> at + 2 <= r.value.1 <= |b|
    ensures r.Err? ==> r.error == UnexpectedEof
  {
    if |b| < at + 2 then Err(UnexpectedEof)
    else
      var n := U16At(b, at) as nat;
      if |b| < at + 2 + 44 * n then Err(UnexpectedEof)
      else Ok((SpritesAt(b, at + 2, n), at + 2 + 44 * n))
  }

  /** `Board::read` on the bytes from offset `at`: the board and the offset
      just past it, or the end-of-input error when the bytes run out before
      the board does. */
  function DecodeBoard(b: seq<uint8>, at: nat): (r: Result<(Board, nat)>)
    ensures r.Ok? ==> at + 26 <= r.value.1 <= |b|
    ensures r.Err? ==> r.error == UnexpectedEof
  {
    if |b| < at + 20 then Err(UnexpectedEof)
    else
      var (sectors, wallsAt) :- SectorRunAt(b, at + 20);
      var (walls, spritesAt) :- WallRunAt(b, wallsAt);
      var (sprites, end) :- SpriteRunAt(b, spritesAt);
      Ok((Board(HeaderAt(b, at), sectors, walls, sprites), end))
  }

  /** The squared length of wall `id`: the squared distance from its start
      point to the start point of `point2`, the next wall of its loop. Both
      indices must be in range and the arithmetic must stay within `i32`,
      whose overflow panics. */
  function WallLengthSquared(walls: seq<Wall>, id: nat): (d: int)
    requires id < |walls| && walls[id].point2 as nat < |walls|
    requires var dx := walls[id].x as int - walls[walls[id].point2].x as int;
             var dy := walls[id].y as int - walls[walls[id].point2].y as int;
             -0x8000_0000 <= dx < 0x8000_0000 && -0x8000_0000 <= dy < 0x8000_0000 &&
             dx * dx + dy * dy < 0x8000_0000
    ensures 0 <= d < 0x8000_0000
    ensures d == 0 <==> walls[id].x == walls[walls[id].point2].x && walls[id].y == walls[walls[id].point2].y
  {
    var w1, w2 := walls[id], walls[walls[id].point2];
    var dx, dy := w1.x as int - w2.x as int, w1.y as int - w2.y as int;
    SquareSign(dx);
    SquareSign(dy);
    dx * dx + dy * dy
  }

  lemma SquareSign(x: int)
    ensures x * x >= 0 && (x * x == 0 <==> x == 0)
  {
  }

  // ---------------------------------------------------------------------
  // Reading a board off the stream
  // ---------------------------------------------------------------------

  /** The sector run of `Board::read`: an unsigned 16-bit count, then a loop
      that reads that many sectors and appends each one. */
  method ReadSectors(r: Reader) returns (res: Result<seq<Sector>>)
    requires r.Valid()
    modifies r
    ensures r.Valid()
    ensures res.Ok? <==> SectorRunAt(r.data, old(r.pos)).Ok?
    ensures res.Ok? ==> res.value == SectorRunAt(r.data, old(r.pos)).value.0 && r.pos == SectorRunAt(r.data, old(r.pos)).value.1
    ensures res.Err? ==> res.error == UnexpectedEof && r.pos == |r.data|
  {
    var ok, numsectors := r.ReadU16();
    if !ok {
      return Err(UnexpectedEof);
    }
    ghost var start := r.pos;
    var sectors := [];
    var i := 0;
    while i < numsectors as int
      invariant 0 <= i <= numsectors as int
      invariant r.pos == start + 40 * i <= |r.data|
      invariant sectors == SectorsAt(r.data, start, i)
    {
      var sector := ReadSector(r);
      if sector.Err? {
        return Err(UnexpectedEof);
      }
      sectors := sectors + [sector.value];
      i := i + 1;
    }
    return Ok(sectors);
  }

  /** The wall run of `Board::read`: a signed 16-bit count, then a loop that
      reads that many walls and appends each one. The loop ranges from zero
      up to the count, so a negative count reads no wall. */
  method ReadWalls(r: Reader) returns (res: Result<seq<Wall>>)
    requires r.Valid()
    modifies r
    ensures r.Valid()
    ensures res.Ok? <==> WallRunAt(r.data, old(r.pos)).Ok?
    ensures res.Ok? ==> res.value == WallRunAt(r.data, old(r.pos)).value.0 && r.pos == WallRunAt(r.data, old(r.pos)).value.1
    ensures res.Err? ==> res.error == UnexpectedEof && r.pos == |r.data|
  {
    var ok, numwalls := r.ReadI16();
    if !ok {
      return Err(UnexpectedEof);
    }
    ghost var start := r.pos;
    var walls := [];
    var i := 0;
    while i < numwalls as int
      invariant 0 <= i <= WallCount(numwalls)
      invariant r.pos == start + 32 * i <= |r.data|
      invariant walls == WallsAt(r.data, start, i)
    {
      var wall := ReadWall(r);
      if wall.Err? {
        return Err(UnexpectedEof);
      }
      walls := walls + [wall.value];
      i := i + 1;
    }
    return Ok(walls);
  }

  /** The sprite run of `Board::read`: an unsigned 16-bit count, then a loop
      that reads that many sprites and appends each one. */
  method ReadSprites(r: Reader) returns (res: Result<seq<Sprite>>)
    requires r.Valid()
    modifies r
    ensures r.Valid()
    ensures res.Ok? <==> SpriteRunAt(r.data, old(r.pos)).Ok?
    ensures res.Ok? ==> res.value == SpriteRunAt(r.data, old(r.pos)).value.0 && r.pos == SpriteRunAt(r.data, old(r.pos)).value.1
    ensures res.Err? ==> res.error == UnexpectedEof && r.pos == |r.data|
  {
    var ok, numsprites := r.ReadU16();
    if !ok {
      return Err(UnexpectedEof);
    }
    ghost var start := r.pos;
    var sprites := [];
    var i := 0;
    while i < numsprites as int
      invariant 0 <= i <= numsprites as int
      invariant r.pos == start + 44 * i <= |r.data|
      invariant sprites == SpritesAt(r.data, start, i)
    {
      var sprite := ReadSprite(r);
      if sprite.Err? {
        return Err(UnexpectedEof);
      }
      sprites := sprites + [sprite.value];
      i := i + 1;
    }
    return Ok(sprites);
  }

  /** `Board::read`: the header, then the three runs. The first short read
      aborts the whole board. */
  method ReadBoard(r: Reader) returns (res: Result<Board>)
    requires r.Valid()
    modifies r
    ensures r.Valid()
    ensures res.Ok? <==> DecodeBoard(r.data, old(r.pos)).Ok?
    ensures res.Ok? ==> (res.value, r.pos) == DecodeBoard(r.data, old(r.pos)).value
    ensures res.Err? ==> res.error == UnexpectedEof && r.pos == |r.data|
  {
    var header :- ReadHeader(r);
    var sectors :- ReadSectors(r);
    var walls :- ReadWalls(r);
    var sprites :- ReadSprites(r);
    return Ok(Board(header, sectors, walls, sprites));
  }
}
