/** The board assembly `main` does inline, over the same record decoders.
    Its board has no header: the header is read first and only printed. */
module MainProgram {
  import opened Wrappers
  import opened ByteOrder
  import opened Records
  import Boards

  /** The board `main` builds: the records of a map without its header. */
  datatype Board = Board(sectors: seq<Sector>, walls: seq<Wall>, sprites: seq<Sprite>)

  /** The reading part of `main`: the header, then the sector, wall and
      sprite runs, exactly as `Board::read` reads them. The first short
      read ends `main` with the error. */
  method LoadBoard(r: Reader) returns (res: Result<Board>)
    requires r.Valid()
    modifies r
    ensures r.Valid()
    ensures res.Ok? <==> Boards.DecodeBoard(r.data, old(r.pos)).Ok?
    ensures res.Ok? ==> var d := Boards.DecodeBoard(r.data, old(r.pos)).value.0; res.value == Board(d.sectors, d.walls, d.sprites)
    ensures res.Ok? ==> r.pos == Boards.DecodeBoard(r.data, old(r.pos)).value.1
    ensures res.Err? ==> res.error == UnexpectedEof && r.pos == |r.data|
  {
    var header :- ReadHeader(r);
    var sectors :- Boards.ReadSectors(r);
    var walls :- Boards.ReadWalls(r);
    var sprites :- Boards.ReadSprites(r);
    return Ok(Board(sectors, walls, sprites));
  }
}
