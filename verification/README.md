# buildlib map decoder, modelled in Dafny

buildlib reads a Build-engine level ("map") file: a little-endian byte
stream holding a 20-byte header and then three counted runs of fixed-size
records. There are sectors of 40 bytes, walls of 32 bytes and sprites of 44
bytes. Each record is read field by field in declaration order. Four
record fields hold 16-bit attribute registers of three types: a sector's
`ceilingstat` and `floorstat` (`SectorStats`), a wall's `cstat`
(`WallStats`) and a sprite's `cstat` (`SpriteStats`). A register's named
accessors cover inclusive bit ranges `lsb..=msb`. Any short read aborts the
whole parse.

`src/main.rs` is an earlier copy of the same decoders and bitfields. It has
the same field orders and the same bit ranges. Its `main` assembles a board
without a header inline. The shared parts are modelled once and both files
are cited.

Modules (one per file):

- `Wrappers` (`wrappers.dfy`): `Result` and the end-of-input error.
- `ByteOrder` (`byteorder.dfy`): the fixed-width integer types and their
  little-endian layout. Also the `Reader` class: a byte sequence with a
  cursor. Each read either gets all its bytes and advances, or fails at end
  of input.
- `Bitfield` (`bitfield.dfy`): the getter and setter that the `bitfield`
  crate generates for an inclusive bit range of a 16-bit word.
- `SectorBits`, `WallBits`, `SpriteBits` (`sector_stats.dfy`,
  `wall_stats.dfy`, `sprite_stats.dfy`): the three attribute registers, with
  one field enum per register and its declared `msb, lsb` ranges.
- `Records` (`records.dfy`): `Header`, `Sector`, `Wall`, `Sprite`. For each
  there is its layout in a byte sequence (`SectorAt`), an encoder
  (`EncodeSector`) and the imperative `read` method (`ReadSector`). Each read
  method is proved against the layout.
- `Runs` (`runs.dfy`): a run of fixed-size records back to back, for any
  record type.
- `Boards` (`board.dfy`): the board, and the layout of a whole map file
  (`DecodeBoard`). It holds the three counted loops of `Board::read`
  (`ReadSectors`, `ReadWalls`, `ReadSprites`), each proved against its run,
  and `ReadBoard`.
- `BoardLaws` (`board_laws.dfy`): what a decoded board says about its bytes.
  This covers counts, offsets, bytes consumed, truncation, trailing bytes,
  and an encoder that decoding inverts.
- `MainProgram` (`main.dfy`): `main`'s header-less board and its inline
  reading sequence.

## Model

| member | source | states |
|---|---|---|
| ByteOrder.ToInt8 | src/structs.rs:162 | an `i8` field is negative exactly when its byte has the top bit set |
| ByteOrder.ToInt16 | src/structs.rs:161 | an `i16` field is negative exactly when its 16-bit word is at least 0x8000 |
| ByteOrder.ToInt32 | src/structs.rs:156-157 | an `i32` field is negative exactly when its 32-bit word is at least 2^31 |
| ByteOrder.TwosComplement | src/structs.rs:156-162 | the signed reading equals the unsigned one modulo 2^8, 2^16 and 2^32 (two's complement) |
| ByteOrder.FromInt16 | src/structs.rs:161 | every `i16` value is the signed reading of some 16-bit word |
| ByteOrder.U16RoundTrip | src/structs.rs:154 | a `u16` written little-endian anywhere in a stream reads back unchanged |
| ByteOrder.U32RoundTrip | src/structs.rs:251 | a `u32` written little-endian anywhere in a stream reads back unchanged |
| ByteOrder.I16RoundTrip | src/structs.rs:161 | an `i16` written little-endian anywhere in a stream reads back unchanged |
| ByteOrder.I32RoundTrip | src/structs.rs:156 | an `i32` written little-endian anywhere in a stream reads back unchanged |
| ByteOrder.U16Bytes | src/structs.rs:154 | any two bytes are the little-endian encoding of the `u16` they decode to |
| ByteOrder.U32Bytes | src/structs.rs:251 | any four bytes are the little-endian encoding of the `u32` they decode to |
| ByteOrder.AllOnesI16 | src/structs.rs:193-194 | bytes `FF FF` in `nextwall` or `nextsector` read as -1 |
| ByteOrder.Reader.ReadExact | src/structs.rs:147 | the buffer read under every `read_*`: with `n` bytes left it returns exactly those bytes and advances by `n`; otherwise it fails with end of input and leaves the stream exhausted |
| ByteOrder.Reader.ReadU8 | src/structs.rs:163 | with a byte left: returns it and advances by 1; otherwise fails and leaves the stream exhausted |
| ByteOrder.Reader.ReadI8 | src/structs.rs:162 | with a byte left: returns its signed reading and advances by 1; otherwise fails |
| ByteOrder.Reader.ReadU16 | src/structs.rs:154 | with 2 bytes left: returns their little-endian `u16` and advances by 2; otherwise fails |
| ByteOrder.Reader.ReadI16 | src/structs.rs:161 | with 2 bytes left: returns their little-endian `i16` and advances by 2; otherwise fails |
| ByteOrder.Reader.ReadU32 | src/structs.rs:251 | with 4 bytes left: returns their little-endian `u32` and advances by 4; otherwise fails |
| ByteOrder.Reader.ReadI32 | src/structs.rs:156 | with 4 bytes left: returns their little-endian `i32` and advances by 4; otherwise fails |
| Bitfield.BitRange | src/structs.rs:3-47 | a getter over `lsb..=msb` yields at most `msb - lsb + 1` bits |
| Bitfield.SetBitRange | src/structs.rs:3-47 | a setter leaves every bit outside `lsb..=msb` unchanged |
| Bitfield.SetTwice | src/structs.rs:3-47 | setting a range twice keeps only the second value |
| SectorBits.SectorRange | src/structs.rs:6-13 | every declared `msb, lsb` pair is an inclusive range inside the 16-bit word |
| SectorBits.SectorStats.Set | src/structs.rs:6-13 | `set_*` leaves the bits outside its range unchanged |
| SectorBits.SectorStats.Get | src/structs.rs:6-13 | each getter `f()` returns below 2^(msb-lsb+1) for its field's range |
| SectorBits.SectorGetShifts | src/structs.rs:3-14 | the getter `(w >> lsb) & (2^(msb-lsb+1)-1)` equals the crate's shift-left-then-right formulation; the copy at src/main.rs:4-15 behaves the same |
| SectorBits.SectorSetSet | src/structs.rs:3-14 | a second `set_*` of the same field overrides the first |
| SectorBits.SectorGetSet | src/structs.rs:3-14 | getting after setting returns the value masked to the field's width |
| SectorBits.SectorSetGet | src/structs.rs:3-14 | setting a field to its current value changes nothing |
| SectorBits.SectorRebuild | src/structs.rs:3-14 | setting every field of an empty register, in declaration order, rebuilds any register exactly |
| SectorBits.SectorOverlap | src/structs.rs:6-7 | a word of 3 reads 3 through `parallaxing`; setting `slopped` to 1 in an empty register makes `parallaxing` read 2, since the two share bit 1 |
| SectorBits.SectorUnkBound | src/structs.rs:13 | `unk` (bits 7..=15) is below 512 |
| WallBits.WallRange | src/structs.rs:19-29 | every declared `msb, lsb` pair is an inclusive range inside the 16-bit word |
| WallBits.WallStats.Set | src/structs.rs:19-29 | `set_*` leaves the bits outside its range unchanged |
| WallBits.WallStats.Get | src/structs.rs:19-29 | each getter `f()` returns below 2^(msb-lsb+1) for its field's range |
| WallBits.WallGetShifts | src/structs.rs:16-30 | the getter equals the crate's shift-left-then-right formulation; the copy at src/main.rs:80-94 behaves the same |
| WallBits.WallSetSet | src/structs.rs:16-30 | a second `set_*` of the same field overrides the first |
| WallBits.WallGetSet | src/structs.rs:16-30 | getting after setting returns the value masked to the field's width |
| WallBits.WallSetGet | src/structs.rs:16-30 | setting a field to its current value changes nothing |
| WallBits.WallRebuild | src/structs.rs:16-30 | setting every field of an empty register, in declaration order, rebuilds any register exactly |
| WallBits.WallOverlap | src/structs.rs:19-20 | a word of 2 reads 2 through `blocking` and 1 through `swap`: the shared bit 1 |
| WallBits.WallUnkBound | src/structs.rs:29 | `unk` (bits 10..=15) is below 64 |
| SpriteBits.SpriteRange | src/structs.rs:35-46 | every declared `msb, lsb` pair is an inclusive range inside the 16-bit word |
| SpriteBits.SpriteStats.Set | src/structs.rs:35-46 | `set_*` leaves the bits outside its range unchanged |
| SpriteBits.SpriteStats.Get | src/structs.rs:35-46 | each getter `f()` returns below 2^(msb-lsb+1) for its field's range |
| SpriteBits.SpriteGetShifts | src/structs.rs:32-47 | the getter equals the crate's shift-left-then-right formulation; the copy at src/main.rs:147-162 behaves the same |
| SpriteBits.SpriteSetSet | src/structs.rs:32-47 | a second `set_*` of the same field overrides the first |
| SpriteBits.SpriteGetSet | src/structs.rs:32-47 | getting after setting returns the value masked to the field's width |
| SpriteBits.SpriteSetGet | src/structs.rs:32-47 | setting a field to its current value changes nothing |
| SpriteBits.SpriteRebuild | src/structs.rs:32-47 | setting every field of an empty register, in declaration order, rebuilds any register exactly |
| SpriteBits.SpriteOverlap | src/structs.rs:45-46 | a word of 0x4000 reads 16 through `unk` (10..=14) and 1 through `invisible` (14..=15), which share bit 14 |
| SpriteBits.SpriteUnkBound | src/structs.rs:45 | `unk` (bits 10..=14) is below 32 |
| Records.HeaderAt | src/structs.rs:249-257 | the header layout: each field at its fixed offset, in declaration order, with its width and sign |
| Records.SectorAt | src/structs.rs:152-177 | the sector layout: each field at its fixed offset, in declaration order, with its width and sign |
| Records.WallAt | src/structs.rs:188-207 | the wall layout: each field at its fixed offset, in declaration order, with its width and sign |
| Records.SpriteAt | src/structs.rs:219-245 | the sprite layout: each field at its fixed offset, in declaration order, with its width and sign |
| Records.HeaderAtPrefix | src/structs.rs:249-257 | a header depends on its own 20 bytes only |
| Records.SectorAtPrefix | src/structs.rs:152-177 | a sector depends on its own 40 bytes only |
| Records.WallAtPrefix | src/structs.rs:188-207 | a wall depends on its own 32 bytes only |
| Records.SpriteAtPrefix | src/structs.rs:219-245 | a sprite depends on its own 44 bytes only |
| Records.EncodeHeader | src/structs.rs:249-257 | a header occupies 20 bytes |
| Records.EncodeSector | src/structs.rs:152-177 | a sector occupies 40 bytes |
| Records.EncodeWall | src/structs.rs:188-207 | a wall occupies 32 bytes |
| Records.EncodeSprite | src/structs.rs:219-245 | a sprite occupies 44 bytes |
| Records.HeaderRoundTrip | src/structs.rs:249-257 | the header layout (u32, i32, i32, i32 at 0/4/8/12, u16, u16 at 16/18) reads back any encoded header |
| Records.SectorRoundTrip | src/structs.rs:152-177 | the sector layout reads back any encoded sector, register words and signed bytes included |
| Records.WallRoundTrip | src/structs.rs:188-207 | the wall layout reads back any encoded wall, signed `nextwall`/`nextsector` included |
| Records.SpriteRoundTrip | src/structs.rs:219-245 | the sprite layout reads back any encoded sprite, signed velocities included |
| Records.HeaderAtSlice | src/structs.rs:249-257 | a header decodes the same wherever its 20 bytes sit in a stream |
| Records.HeaderDecodesEncoding | src/structs.rs:249-257 | the 20-byte encoding of any header, on its own, decodes back to it |
| Records.SectorAtSlice | src/structs.rs:152-177 | a sector decodes the same wherever its 40 bytes sit in a stream |
| Records.SectorDecodesEncoding | src/structs.rs:152-177 | the 40-byte encoding of any sector, on its own, decodes back to it |
| Records.WallAtSlice | src/structs.rs:188-207 | a wall decodes the same wherever its 32 bytes sit in a stream |
| Records.WallDecodesEncoding | src/structs.rs:188-207 | the 32-byte encoding of any wall, on its own, decodes back to it |
| Records.SpriteAtSlice | src/structs.rs:219-245 | a sprite decodes the same wherever its 44 bytes sit in a stream |
| Records.SpriteDecodesEncoding | src/structs.rs:219-245 | the 44-byte encoding of any sprite, on its own, decodes back to it |
| Records.ReadHeader | src/structs.rs:249-257 | with 20 bytes left: consumes exactly 20 and returns the header at the cursor; otherwise fails with end of input; the copy at src/main.rs:239-248 behaves the same |
| Records.ReadSectorStats | src/structs.rs:146-148 | reads one little-endian word into the register, or fails; the copy at src/main.rs:18-20 behaves the same |
| Records.ReadSector | src/structs.rs:152-177 | with 40 bytes left: consumes exactly 40 and returns the sector at the cursor; otherwise fails; the copy at src/main.rs:51-77 behaves the same |
| Records.ReadWallStats | src/structs.rs:182-184 | reads one little-endian word into the register, or fails; the copy at src/main.rs:97-99 behaves the same |
| Records.ReadWall | src/structs.rs:188-207 | with 32 bytes left: consumes exactly 32 and returns the wall at the cursor; otherwise fails; the copy at src/main.rs:124-144 behaves the same |
| Records.ReadSpriteStats | src/structs.rs:212-215 | reads one little-endian word into the register, or fails; the copy at src/main.rs:165-168 behaves the same |
| Records.ReadSprite | src/structs.rs:219-245 | with 44 bytes left: consumes exactly 44 and returns the sprite at the cursor; otherwise fails; the copy at src/main.rs:199-225 behaves the same |
| Runs.RecordsAt | src/structs.rs:265-268 | a run of `n` records holds `n` records |
| Runs.RecordsAtSnoc | src/structs.rs:266-268 | one more loop iteration appends the next record at the end of the run |
| Runs.RecordsAtIndex | src/structs.rs:266-268 | the `i`-th record pushed was decoded `size * i` bytes into the run |
| Runs.RecordsAtPrefix | src/structs.rs:266-268 | a run depends on its own bytes only |
| Runs.EncodeAll | src/structs.rs:266-268 | `n` encoded records take `size * n` bytes |
| Runs.RecordsRoundTrip | src/structs.rs:266-268 | records encoded back to back read back in order |
| Boards.WallCount | src/structs.rs:269-271 | the number of iterations of `0..numwalls` is max(numwalls, 0) |
| Boards.SectorRunAt | src/structs.rs:264-268 | the sector run: when it decodes, it ends within the input and after its 2-byte count; its only error is end of input |
| Boards.WallRunAt | src/structs.rs:269-273 | the wall run: when it decodes, it ends within the input and after its 2-byte count; its only error is end of input |
| Boards.SpriteRunAt | src/structs.rs:274-278 | the sprite run: when it decodes, it ends within the input and after its 2-byte count; its only error is end of input |
| Boards.DecodeBoard | src/structs.rs:262-281 | `Board::read` as a function: a decoded board takes at least 26 bytes and ends within the input; its only error is end of input |
| Boards.SectorsAt | src/structs.rs:265-268 | `n` sectors decoded back to back |
| Boards.WallsAt | src/structs.rs:270-273 | `n` walls decoded back to back |
| Boards.SpritesAt | src/structs.rs:275-278 | `n` sprites decoded back to back |
| Boards.WallLengthSquared | src/structs.rs:283-288 | the squared wall length is non-negative, fits `i32`, and is 0 exactly when the wall's two end points coincide; the copy at src/main.rs:258-262 behaves the same |
| Boards.ReadSectors | src/structs.rs:264-268 | succeeds exactly when the sector run fits; returns its sectors in stream order and leaves the cursor after them; otherwise fails; the copy at src/main.rs:274-278 behaves the same |
| Boards.ReadWalls | src/structs.rs:269-273 | same for the wall run, whose count is signed: a negative count reads no wall; the copy at src/main.rs:280-284 behaves the same |
| Boards.ReadSprites | src/structs.rs:274-278 | same for the sprite run; the copy at src/main.rs:286-290 behaves the same |
| Boards.ReadBoard | src/structs.rs:262-281 | succeeds exactly when the whole board fits; returns the decoded board and leaves the cursor after it; the first short read fails the whole call |
| BoardLaws.SectorAtLocal | src/structs.rs:152-177 | the sector decoder reads any 40 bytes and only them |
| BoardLaws.WallAtLocal | src/structs.rs:188-207 | the wall decoder reads any 32 bytes and only them |
| BoardLaws.SpriteAtLocal | src/structs.rs:219-245 | the sprite decoder reads any 44 bytes and only them |
| BoardLaws.SectorAtInverts | src/structs.rs:152-177 | the sector decoder inverts the sector encoder |
| BoardLaws.WallAtInverts | src/structs.rs:188-207 | the wall decoder inverts the wall encoder |
| BoardLaws.SpriteAtInverts | src/structs.rs:219-245 | the sprite decoder inverts the sprite encoder |
| BoardLaws.SectorRunLayout | src/structs.rs:264-268 | a decoded sector run holds as many sectors as its `u16` count; the `i`-th one sits 40·i bytes after the count; the run ends after the last one |
| BoardLaws.WallRunLayout | src/structs.rs:269-273 | a decoded wall run holds max(count, 0) walls for its `i16` count, at 32·i bytes after the count |
| BoardLaws.SpriteRunLayout | src/structs.rs:274-278 | a decoded sprite run holds as many sprites as its `u16` count, at 44·i bytes after the count |
| BoardLaws.SectorRunPrefix | src/structs.rs:264-268 | cutting the input at or after the end of a sector run leaves the run unchanged |
| BoardLaws.WallRunPrefix | src/structs.rs:269-273 | cutting the input at or after the end of a wall run leaves the run unchanged |
| BoardLaws.SpriteRunPrefix | src/structs.rs:274-278 | cutting the input at or after the end of a sprite run leaves the run unchanged |
| BoardLaws.SectorRunExtend | src/structs.rs:264-268 | bytes appended after a sector run do not change it |
| BoardLaws.WallRunExtend | src/structs.rs:269-273 | bytes appended after a wall run do not change it |
| BoardLaws.SpriteRunExtend | src/structs.rs:274-278 | bytes appended after a sprite run do not change it |
| BoardLaws.SectorRunTruncated | src/structs.rs:264-268 | a sector run cut anywhere before its end fails with end of input |
| BoardLaws.WallRunTruncated | src/structs.rs:269-273 | a wall run cut anywhere before its end fails with end of input |
| BoardLaws.SpriteRunTruncated | src/structs.rs:274-278 | a sprite run cut anywhere before its end fails with end of input |
| BoardLaws.EncodeSectors | src/structs.rs:266-268 | `n` encoded sectors take 40·n bytes |
| BoardLaws.EncodeWalls | src/structs.rs:271-273 | `n` encoded walls take 32·n bytes |
| BoardLaws.EncodeSprites | src/structs.rs:276-278 | `n` encoded sprites take 44·n bytes |
| BoardLaws.EncodeSectorRun | src/structs.rs:264-268 | an encoded sector run is a 2-byte count followed by 40·n bytes |
| BoardLaws.EncodeWallRun | src/structs.rs:269-273 | an encoded wall run is a 2-byte count followed by 32·n bytes |
| BoardLaws.EncodeSpriteRun | src/structs.rs:274-278 | an encoded sprite run is a 2-byte count followed by 44·n bytes |
| BoardLaws.SectorsRoundTrip | src/structs.rs:266-268 | sectors encoded back to back read back in order |
| BoardLaws.WallsRoundTrip | src/structs.rs:271-273 | walls encoded back to back read back in order |
| BoardLaws.SpritesRoundTrip | src/structs.rs:276-278 | sprites encoded back to back read back in order |
| BoardLaws.SectorRunRoundTrip | src/structs.rs:264-268 | an encoded sector run reads back and ends right after its last sector |
| BoardLaws.WallRunRoundTrip | src/structs.rs:269-273 | an encoded wall run reads back and ends right after its last wall |
| BoardLaws.SpriteRunRoundTrip | src/structs.rs:274-278 | an encoded sprite run reads back and ends right after its last sprite |
| BoardLaws.NegativeWallCount | src/structs.rs:269-273 | a negative wall count reads no wall; the sprite count follows immediately; the copy at src/main.rs:280-284 behaves the same |
| BoardLaws.BoardRuns | src/structs.rs:262-281 | a board decodes exactly when a header is followed by three successful runs, each starting where the previous one ends |
| BoardLaws.BoardFromRuns | src/structs.rs:262-281 | a header followed by a sector, a wall and a sprite run, each starting where the previous one ends, decodes as that board |
| BoardLaws.BoardLayout | src/structs.rs:262-281 | on success: sectors = Ns, walls = max(Nw, 0), sprites = Np; bytes consumed = 20+2+40·Ns+2+32·max(Nw,0)+2+44·Np; every record is at its offset in stream order; `main` reads the same sequence at src/main.rs:272-292 |
| BoardLaws.BoardPrefix | src/structs.rs:262-281 | a board reads nothing past its end |
| BoardLaws.TrailingBytes | src/structs.rs:262-281 | bytes after a board do not change it |
| BoardLaws.BoardTruncated | src/structs.rs:263-277 | an input cut anywhere before the end of a board gives end of input and no partial board; `main` reads the same sequence at src/main.rs:272-292 |
| BoardLaws.EncodeBoard | src/structs.rs:262-281 | an encoded board takes 26 + 40·Ns + 32·Nw + 44·Np bytes |
| BoardLaws.HeaderInBoard | src/structs.rs:263 | the header of an encoded board reads back |
| BoardLaws.SectorsInBoard | src/structs.rs:264-268 | the sector run of an encoded board reads back right after the header |
| BoardLaws.WallsInBoard | src/structs.rs:269-273 | the wall run of an encoded board reads back right after the sectors |
| BoardLaws.SpritesInBoard | src/structs.rs:274-278 | the sprite run of an encoded board reads back right after the walls |
| BoardLaws.BoardRoundTrip | src/structs.rs:262-281 | any board within the count limits, encoded anywhere in a stream, decodes back to itself and ends right after it |
| BoardLaws.HeaderOnly | src/structs.rs:264 | a file holding only a header fails at the sector count |
| BoardLaws.EmptyBoard | src/structs.rs:262-281 | a header, sector count 0, wall count `FF FF` (-1) and sprite count 0 give an empty board of 26 bytes |
| MainProgram.LoadBoard | src/main.rs:251-292 | succeeds exactly when `Board::read` would; yields that board's sectors, walls and sprites without its header (the `Board` of src/main.rs:251-255) and stops at the same place; otherwise fails with end of input |

## Left out

- Opening the file, every `println!` (including the header printout in
  `main`) and the hard-coded `walllen(554)` call in `main` are left out.
  They are I/O and console output. The reader takes the file's bytes as
  its input.
- `walllen` ends in an `f32` square root and is not modelled.
  `Boards.WallLengthSquared` keeps only the integer squared distance before
  the conversion to `f32`.
- Boards.WallLengthSquared: requires that the subtractions and the squares
  stay within `i32`. Outside that range the source panics in a debug build
  and wraps in a release build; neither is modelled.
- `byteorder` and `std::io::Read` internals are not modelled. A read either
  gets all its bytes or fails with end of input. Partial reads,
  interrupted reads and operating-system errors are not modelled. After a
  failed read the cursor is set to the end of the stream, and no caller
  observes it afterwards.
- The `Debug` formatting that `#[derive(Debug)]` and `bitfield!` generate is
  not modelled.
- Cross-reference consistency is not checked by the source and is not
  stated: `wallptr + wallnum` within the wall count, `point2` loops
  closing, and `nextwall`/`nextsector` in range.
- The internals of the `bitfield` crate are not modelled. The getter is
  the mask-and-shift `(w >> lsb) & (2^(msb-lsb+1) - 1)`, and the setter
  follows the mask of the crate's `set_bit_range`. `SectorGetShifts` and its
  wall and sprite counterparts relate the getter to the crate's
  shift-left-then-right formulation.
- Runs.RecordsAt and its instances (`Boards.SectorsAt` and the others)
  state only the length in their contracts. Where each record comes from
  is stated by `Runs.RecordsAtIndex` and the `*RunLayout` lemmas.
- BoardLaws.EncodeBoard: the encoder has no counterpart in the source. It
  exists as an independent partner for the decoder. It accepts only
  boards whose counts fit their fields: at most 65535 sectors and sprites,
  and at most 32767 walls.
- `Vec` growth, allocation failure and moving the values into the result
  are not modelled. The loops append to Dafny sequences.
