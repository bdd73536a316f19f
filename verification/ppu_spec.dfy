/** Pure definitions behind the 2C02 model in Ppu.java: the fields of the
    15-bit scroll/address registers `v` and `t`, what each register write does
    to them, the background fetch addresses, the shifters and the
    colour of a background pixel. */
module PpuSpec {
  import opened Common

  /** Java's `(byte)` cast of an `int`: keep the low eight bits. */
  function ToByte(x: bv32): (b: bv8)
    ensures b as bv32 == x & 0xFF
  {
    (x & 0xFF) as bv8
  }

  // ----- The 15-bit address registers: 0yyy NNYY YYYX XXXX -----

  function CoarseX(a: bv32): bv32 { a & 0x1F }
  function CoarseY(a: bv32): bv32 { (a >> 5) & 0x1F }
  function NametableSelect(a: bv32): bv32 { (a >> 10) & 0x3 }
  function FineY(a: bv32): bv32 { (a >> 12) & 0x7 }

  /** Below 0x8000 an address register is determined by its four fields. */
  lemma FieldsDetermine(a: bv32, b: bv32)
    requires a < 0x8000 && b < 0x8000
    requires CoarseX(a) == CoarseX(b) && CoarseY(a) == CoarseY(b)
    requires NametableSelect(a) == NametableSelect(b) && FineY(a) == FineY(b)
    ensures a == b
  {
  }

  // ----- CPU-facing register file -----

  /** The register a CPU address reaches: `addr & 7`, so the eight registers
      repeat every eight addresses. */
  function RegisterSelect(addr: bv32): (r: bv32)
    ensures r < 8
  {
    addr & 0x0007
  }

  /** The register is the CPU address modulo 8, so `addr` and `addr + 8` reach
      the same register. */
  lemma RegisterSelectMirrors(addr: bv32)
    ensures RegisterSelect(addr) == addr % 8
    ensures RegisterSelect(addr + 8) == RegisterSelect(addr)
  {
  }

  const PPUCTRL: bv32 := 0
  const PPUMASK: bv32 := 1
  const PPUSTATUS: bv32 := 2
  const OAMADDR: bv32 := 3
  const OAMDATA: bv32 := 4
  const PPUSCROLL: bv32 := 5
  const PPUADDR: bv32 := 6
  const PPUDATA: bv32 := 7

  /** A PPUSTATUS read: the top three status bits over the low five bits of the
      read buffer. */
  function StatusReadValue(status: bv8, buffer: bv8): (r: bv8)
    ensures r & 0xE0 == status & 0xE0
    ensures r & 0x1F == buffer & 0x1F
  {
    ToByte((Int(status) & 0xE0) | (Int(buffer) & 0x1F))
  }

  /** The status after a PPUSTATUS read: vblank (bit 7) cleared, the rest kept. */
  function StatusAfterRead(status: bv8): (r: bv8)
    ensures r & 0x80 == 0
    ensures r & 0x7F == status & 0x7F
  {
    ToByte(Int(status) & !0x80)
  }

  /** PPUCTRL write: the new nametable bits of `t`. */
  function CtrlWriteT(t: bv32, data: bv8): (r: bv32)
    requires t < 0x8000
    ensures r < 0x8000
  {
    (t & 0xF3FF) | ((Int(data) & 0x03) << 10)
  }

  /** A PPUCTRL write puts bits 0-1 of the data into the nametable select of
      `t` and keeps its other fields. */
  lemma CtrlWriteFields(t: bv32, data: bv8)
    requires t < 0x8000
    ensures var r := CtrlWriteT(t, data);
            NametableSelect(r) == (data & 0x03) as bv32
            && CoarseX(r) == CoarseX(t) && CoarseY(r) == CoarseY(t) && FineY(r) == FineY(t)
  {
  }

  /** PPUCTRL bit 7: generate an NMI at the start of vertical blank. */
  function NmiEnabled(ctrl: bv8): (b: bool)
    ensures b <==> ctrl & 0x80 != 0
  {
    (Int(ctrl) & 0x80) != 0
  }

  /** First PPUSCROLL write: the low three bits of the data are fine X. */
  function ScrollFineX(data: bv8): (x: bv8)
    ensures x == data & 0x07 && x < 8
  {
    ToByte(Int(data) & 0x07)
  }

  /** First PPUSCROLL write: the new coarse X of `t`. */
  function ScrollFirstT(t: bv32, data: bv8): (r: bv32)
    requires t < 0x8000
    ensures r < 0x8000
  {
    (t & 0xFFE0) | ((Int(data) & 0xFF) >> 3)
  }

  /** The first PPUSCROLL write puts the top five bits of the data into coarse
      X and keeps the other fields of `t`. */
  lemma ScrollFirstFields(t: bv32, data: bv8)
    requires t < 0x8000
    ensures var r := ScrollFirstT(t, data);
            CoarseX(r) == (data >> 3) as bv32
            && CoarseY(r) == CoarseY(t) && NametableSelect(r) == NametableSelect(t) && FineY(r) == FineY(t)
  {
  }

  /** Second PPUSCROLL write: the new fine Y and coarse Y of `t`. */
  function ScrollSecondT(t: bv32, data: bv8): (r: bv32)
    requires t < 0x8000
    ensures r < 0x8000
  {
    var t1 := (t & 0x8FFF) | ((Int(data) & 0x07) << 12);
    (t1 & 0xFC1F) | ((Int(data) & 0xF8) << 2)
  }

  /** The second PPUSCROLL write puts the low three bits of the data into fine
      Y and the top five into coarse Y, and keeps coarse X and the nametable
      select. */
  lemma ScrollSecondFields(t: bv32, data: bv8)
    requires t < 0x8000
    ensures var r := ScrollSecondT(t, data);
            FineY(r) == (data & 0x07) as bv32 && CoarseY(r) == (data >> 3) as bv32
            && CoarseX(r) == CoarseX(t) && NametableSelect(r) == NametableSelect(t)
  {
  }

  /** First PPUADDR write: the new high bits of `t`. */
  function AddrHighT(t: bv32, data: bv8): (r: bv32)
    requires t < 0x8000
    ensures r < 0x4000
  {
    (t & 0x80FF) | ((Int(data) & 0x3F) << 8)
  }

  /** The first PPUADDR write sets bits 8-13 of `t` from the data, clears bit
      14 and keeps the low byte. */
  lemma AddrHighFields(t: bv32, data: bv8)
    requires t < 0x8000
    ensures var r := AddrHighT(t, data);
            r >> 8 == (data & 0x3F) as bv32 && r & 0xFF == t & 0xFF
  {
  }

  /** Second PPUADDR write: the new low byte of `t`. */
  function AddrLowT(t: bv32, data: bv8): (r: bv32)
    requires t < 0x8000
    ensures r < 0x8000
  {
    (t & 0xFF00) | (Int(data) & 0xFF)
  }

  /** The second PPUADDR write sets bits 0-7 of `t` from the data and keeps
      the rest. */
  lemma AddrLowFields(t: bv32, data: bv8)
    requires t < 0x8000
    ensures var r := AddrLowT(t, data);
            r & 0xFF == data as bv32 && r >> 8 == t >> 8
  {
  }

  /** A PPUADDR pair sets `t` to the 14-bit address `hi:lo`, whatever `t` was. */
  lemma AddrPairLoads(t: bv32, hi: bv8, lo: bv8)
    requires t < 0x8000
    ensures AddrLowT(AddrHighT(t, hi), lo) == (((hi & 0x3F) as bv32) << 8) | (lo as bv32)
  {
  }

  /** The OAM index the CPU port uses: the address byte read as unsigned. */
  function OamIndex(oamAddr: bv8): (i: int)
    ensures i == oamAddr as int
  {
    var index := Int(oamAddr) & 0xFF;
    assert index == oamAddr as bv32;
    index as int
  }

  /** The VRAM address after a PPUDATA access. */
  function DataAddrAfter(v: bv32, ctrl: bv8): (r: bv32)
    ensures r < 0x4000
  {
    (v + (if (Int(ctrl) & 0x04) != 0 then 32 else 1)) & 0x3FFF
  }

  /** A PPUDATA access advances `v` by 32 when PPUCTRL bit 2 is set, else by
      1, wrapping within the 14-bit PPU address space. */
  lemma DataAddrAdvances(v: bv32, ctrl: bv8)
    ensures DataAddrAfter(v, ctrl) == (v + (if ctrl & 0x04 != 0 then 32 else 1)) % 0x4000
  {
    var step: bv32 := if ctrl & 0x04 != 0 then 32 else 1;
    assert (Int(ctrl) & 0x04 != 0) == (ctrl & 0x04 != 0);
    assert (v + step) & 0x3FFF == (v + step) % 0x4000;
  }

  // ----- Scrolling during rendering -----

  /** Rendering (background or sprites) is enabled. */
  predicate Rendering(mask: bv8)
  {
    (Int(mask) & 0x18) != 0
  }

  /** One tile to the right. */
  function CoarseXIncrement(v: bv32): (r: bv32)
    requires v < 0x8000
    ensures r < 0x8000
  {
    if (v & 0x001F) == 31 then (v & !0x001F) ^ 0x0400 else v + 1
  }

  /** Coarse X wraps from 31 to 0 into the horizontally adjacent nametable;
      the vertical fields are kept. */
  lemma CoarseXIncrementFields(v: bv32)
    requires v < 0x8000
    ensures var r := CoarseXIncrement(v);
            (CoarseX(v) == 31 ==> CoarseX(r) == 0 && NametableSelect(r) == NametableSelect(v) ^ 1)
            && (CoarseX(v) != 31 ==> CoarseX(r) == CoarseX(v) + 1 && NametableSelect(r) == NametableSelect(v))
            && CoarseY(r) == CoarseY(v) && FineY(r) == FineY(v)
  {
  }

  /** One pixel row down. */
  function FineYIncrement(v: bv32): (r: bv32)
    requires v < 0x8000
    ensures r < 0x8000
  {
    if (v & 0x7000) != 0x7000 then v + 0x1000
    else
      var v1 := v & !0x7000;
      var y := (v1 & 0x03E0) >> 5;
      var v2 := if y == 29 then v1 ^ 0x0800 else v1;
      var y2 := if y == 29 || y == 31 then 0 else y + 1;
      (v2 & !0x03E0) | (y2 << 5)
  }

  /** Fine Y counts up to 7, then coarse Y steps: row 29 wraps to 0 into the
      vertically adjacent nametable, row 31 (attribute memory) wraps to 0
      without; coarse X is kept. */
  lemma FineYIncrementFields(v: bv32)
    requires v < 0x8000
    ensures var r := FineYIncrement(v);
            CoarseX(r) == CoarseX(v)
            && (FineY(v) != 7 ==>
                  FineY(r) == FineY(v) + 1 && CoarseY(r) == CoarseY(v) && NametableSelect(r) == NametableSelect(v))
            && (FineY(v) == 7 ==> FineY(r) == 0)
            && (FineY(v) == 7 && CoarseY(v) == 29 ==>
                  CoarseY(r) == 0 && NametableSelect(r) == NametableSelect(v) ^ 2)
            && (FineY(v) == 7 && CoarseY(v) == 31 ==>
                  CoarseY(r) == 0 && NametableSelect(r) == NametableSelect(v))
            && (FineY(v) == 7 && CoarseY(v) != 29 && CoarseY(v) != 31 ==>
                  CoarseY(r) == CoarseY(v) + 1 && NametableSelect(r) == NametableSelect(v))
  {
  }

  /** Dot 257: the horizontal position is reloaded from `t`. */
  function CopyHorizontal(v: bv32, t: bv32): (r: bv32)
    requires v < 0x8000 && t < 0x8000
    ensures r < 0x8000
  {
    (v & 0xFBE0) | (t & 0x041F)
  }

  /** The horizontal copy takes coarse X and the horizontal nametable bit from
      `t` and keeps the vertical fields of `v`. */
  lemma CopyHorizontalFields(v: bv32, t: bv32)
    requires v < 0x8000 && t < 0x8000
    ensures var r := CopyHorizontal(v, t);
            CoarseX(r) == CoarseX(t) && NametableSelect(r) & 1 == NametableSelect(t) & 1
            && CoarseY(r) == CoarseY(v) && FineY(r) == FineY(v) && NametableSelect(r) & 2 == NametableSelect(v) & 2
  {
  }

  /** Pre-render dots 280-304: the vertical position is reloaded from `t`. */
  function CopyVertical(v: bv32, t: bv32): (r: bv32)
    requires v < 0x8000 && t < 0x8000
    ensures r < 0x8000
  {
    (v & 0x841F) | (t & 0x7BE0)
  }

  /** The vertical copy takes fine Y, coarse Y and the vertical nametable bit
      from `t` and keeps the horizontal fields of `v`. */
  lemma CopyVerticalFields(v: bv32, t: bv32)
    requires v < 0x8000 && t < 0x8000
    ensures var r := CopyVertical(v, t);
            FineY(r) == FineY(t) && CoarseY(r) == CoarseY(t) && NametableSelect(r) & 2 == NametableSelect(t) & 2
            && CoarseX(r) == CoarseX(v) && NametableSelect(r) & 1 == NametableSelect(v) & 1
  {
  }

  // ----- Background fetches -----

  /** The nametable byte of the current tile: the tile id comes from the
      nametable area, at the twelve low bits of `v`. */
  function NametableFetchAddr(v: bv32): (a: bv32)
    ensures 0x2000 <= a < 0x3000 && a & 0x0FFF == v & 0x0FFF
  {
    0x2000 | (v & 0x0FFF)
  }

  /** The attribute byte covering the current tile: it lies in the attribute
      table (last 64 bytes) of the current nametable, at the 4x4-tile block
      holding the tile. */
  function AttributeFetchAddr(v: bv32): (a: bv32)
    ensures 0x2000 <= a < 0x3000 && a & 0x3FF >= 0x3C0
    ensures (a >> 10) & 3 == NametableSelect(v)
    ensures a & 0x07 == CoarseX(v) >> 2 && (a >> 3) & 0x07 == CoarseY(v) >> 2
  {
    0x23C0 | (v & 0x0C00) | ((v >> 4) & 0x38) | ((v >> 2) & 0x07)
  }

  /** The two palette bits of the current tile's quadrant in its attribute byte. */
  function AttributeBits(v: bv32, attribute: bv8): (r: bv32)
    ensures r < 4
  {
    var a0 := Int(attribute) & 0xFF;
    var a1 := if (v & 0x0040) != 0 then a0 >> 4 else a0;
    var a2 := if (v & 0x0002) != 0 then a1 >> 2 else a1;
    a2 & 0x03
  }

  /** The quadrant is chosen by bit 1 of coarse Y (bits 4-7 for the lower
      half) and bit 1 of coarse X (bits 2-3 and 6-7 for the right half). */
  lemma AttributeBitsQuadrant(v: bv32, attribute: bv8)
    ensures AttributeBits(v, attribute)
            == ((attribute as bv32) >> ((if CoarseY(v) & 2 != 0 then 4 else 0)
                                        + (if CoarseX(v) & 2 != 0 then 2 else 0))) & 3
  {
  }

  /** The pattern byte of one row of the fetched tile; for a tile id of the
      nametable latch and one of the two planes it lies in pattern memory. */
  function PatternFetchAddr(ctrl: bv8, tileId: bv32, v: bv32, plane: bv32): (a: bv32)
    ensures tileId < 0x100 && (plane == 0 || plane == 8) ==> a < 0x2000
  {
    var table: bv32 := if (Int(ctrl) & 0x10) != 0 then 0x1000 else 0x0000;
    table + (tileId << 4) + ((v >> 12) & 0x07) + plane
  }

  /** The pattern byte is row fine Y of the tile (bits 0-2), in the low
      (`plane` 0) or high (`plane` 8) bit plane (bit 3), of tile `tileId`
      (bits 4-11), in the table PPUCTRL bit 4 selects (bit 12): the sum in the
      source never carries from one field into the next. */
  lemma PatternFetchAddrFields(ctrl: bv8, tileId: bv32, v: bv32, plane: bv32)
    requires tileId < 0x100 && (plane == 0 || plane == 8)
    ensures var a := PatternFetchAddr(ctrl, tileId, v, plane);
            a < 0x2000 && a & 0x07 == FineY(v) && a & 0x08 == plane
            && (a >> 4) & 0xFF == tileId && a >> 12 == (if ctrl & 0x10 != 0 then 1 else 0)
  {
    PatternAddrRow(ctrl, tileId, v, plane);
    PatternAddrPlane(ctrl, tileId, v, plane);
    PatternAddrTile(ctrl, tileId, v, plane);
    PatternAddrTable(ctrl, tileId, v, plane);
  }

  lemma PatternAddrRow(ctrl: bv8, tileId: bv32, v: bv32, plane: bv32)
    requires tileId < 0x100 && (plane == 0 || plane == 8)
    ensures var a := PatternFetchAddr(ctrl, tileId, v, plane); a & 0x07 == FineY(v)
  {
  }

  lemma PatternAddrPlane(ctrl: bv8, tileId: bv32, v: bv32, plane: bv32)
    requires tileId < 0x100 && (plane == 0 || plane == 8)
    ensures var a := PatternFetchAddr(ctrl, tileId, v, plane); a & 0x08 == plane
  {
  }

  lemma PatternAddrTile(ctrl: bv8, tileId: bv32, v: bv32, plane: bv32)
    requires tileId < 0x100 && (plane == 0 || plane == 8)
    ensures var a := PatternFetchAddr(ctrl, tileId, v, plane); (a >> 4) & 0xFF == tileId
  {
  }

  lemma PatternAddrTable(ctrl: bv8, tileId: bv32, v: bv32, plane: bv32)
    requires tileId < 0x100 && (plane == 0 || plane == 8)
    ensures var a := PatternFetchAddr(ctrl, tileId, v, plane); a >> 12 == (if ctrl & 0x10 != 0 then 1 else 0)
  {
  }

  /** Loading a shifter with the next byte: the byte goes into the low eight
      bits, the high eight bits are kept, anything above bit 15 is dropped. */
  function LoadShifter(shifter: bv32, next: bv32): (r: bv32)
    ensures next < 0x100 ==> r < 0x10000 && r & 0xFF == next && r >> 8 == (shifter >> 8) & 0xFF
  {
    (shifter & 0xFF00) | next
  }

  /** An attribute shifter is filled with copies of one palette bit. */
  function AttributeFill(attrib: bv32, bit: bv32): (r: bv32)
    ensures r == 0xFF || r == 0
    ensures r == 0xFF <==> attrib & bit != 0
  {
    if (attrib & bit) != 0 then 0xFF else 0x00
  }

  // ----- Pixel colour -----

  /** The 64-entry system palette, one packed RGB value per colour. */
  const NesPalette: seq<bv32> := [
    0x666666, 0x002A88, 0x1412A7, 0x3B00A4, 0x5C007E, 0x6E0040, 0x6C0600, 0x561D00,
    0x333500, 0x0B4800, 0x005200, 0x004F08, 0x00404D, 0x000000, 0x000000, 0x000000,
    0xADADAD, 0x155FD9, 0x4240FF, 0x7527FE, 0xA01ACC, 0xB71E7B, 0xB53120, 0x994E00,
    0x6B6D00, 0x388700, 0x0C9300, 0x008F32, 0x007C8D, 0x000000, 0x000000, 0x000000,
    0xFFFEFF, 0x64B0FF, 0x9290FF, 0xC676FF, 0xF36AFF, 0xFE6ECC, 0xFE8170, 0xEA9E22,
    0xBCBE00, 0x88D800, 0x5CE430, 0x45E082, 0x48CDDE, 0x4F4F4F, 0x000000, 0x000000,
    0xFFFEFF, 0xC0DFFF, 0xD3D2FF, 0xE8C8FF, 0xFBC2FF, 0xFEC4EA, 0xFECCC5, 0xF7D8A5,
    0xE4E594, 0xCFEF96, 0xBDF4AB, 0xB3F3CC, 0xB5EBF2, 0xB8B8B8, 0x000000, 0x000000
  ]

  /** The system colour of entry `pixel` of palette `palette` (0-3 each). */
  function ColorFromPalette(paletteRam: seq<bv8>, palette: bv32, pixel: bv32): (c: bv32)
    requires |paletteRam| == 32 && palette < 4 && pixel < 4
    ensures c in NesPalette
  {
    var paletteIndex := (palette << 2) | pixel;
    var colorIndex := Int(paletteRam[paletteIndex as int]) & 0x3F;
    NesPalette[colorIndex as int]
  }

  /** The palette RAM entry of pixel value `pixel` in palette `palette`:
      the four palettes are four consecutive groups of four entries. */
  function PaletteEntry(palette: bv32, pixel: bv32): (i: int)
    requires palette < 4 && pixel < 4
    ensures 0 <= i < 16
  {
    (palette * 4 + pixel) as int
  }

  /** Palette `palette` occupies palette RAM entries 4 * palette to
      4 * palette + 3, and only the low six bits of an entry pick the colour. */
  lemma ColorFromPaletteEntry(paletteRam: seq<bv8>, palette: bv32, pixel: bv32)
    requires |paletteRam| == 32 && palette < 4 && pixel < 4
    ensures ColorFromPalette(paletteRam, palette, pixel)
            == NesPalette[(paletteRam[PaletteEntry(palette, pixel)] & 0x3F) as int]
  {
    assert (palette << 2) | pixel == palette * 4 + pixel;
  }

  /** The bit of a shifter that fine X selects. */
  function ShifterBit(shifter: bv32, fineX: bv8): (b: bv32)
    requires fineX < 8
    ensures b <= 1
  {
    var bitMux := (0x8000 as bv32) >> fineX;
    if PositiveInt(shifter & bitMux) then 1 else 0
  }

  /** Fine X selects bit 15 - fineX of the shifter. */
  lemma ShifterBitSelects(shifter: bv32, fineX: bv8)
    requires fineX < 8
    ensures ShifterBit(shifter, fineX) == (shifter >> (15 - fineX)) & 1
  {
  }

  /** A shifter moved one bit left: afterwards the bit fine X selects is the
      one fine X + 1 selected before, so the pipeline moves one pixel per dot. */
  function ShiftLeft(shifter: bv32): (r: bv32)
    ensures forall x: bv8 :: x < 7 ==> ShifterBit(r, x) == ShifterBit(shifter, x + 1)
  {
    shifter << 1
  }

  /** The two-bit value a pair of shifters presents at fine X: the high
      shifter gives bit 1, the low one bit 0. */
  function PlaneBits(hi: bv32, lo: bv32, fineX: bv8): (r: bv32)
    requires fineX < 8
    ensures r < 4
    ensures r >> 1 == ShifterBit(hi, fineX) && r & 1 == ShifterBit(lo, fineX)
  {
    (ShifterBit(hi, fineX) << 1) | ShifterBit(lo, fineX)
  }

  /** PPUMASK bit 3: show the background. */
  predicate ShowBackground(mask: bv8)
  {
    (Int(mask) & 0x08) != 0
  }

  /** The colour of the background pixel the shifters currently present:
      with the background shown, the entry of palette RAM that the attribute
      shifters (palette) and the pattern shifters (pixel) select at fine X;
      with it hidden, the backdrop entry 0. */
  function PixelColor(mask: bv8, fineX: bv8, patternLo: bv32, patternHi: bv32,
                      attribLo: bv32, attribHi: bv32, paletteRam: seq<bv8>): (c: bv32)
    requires fineX < 8 && |paletteRam| == 32
    ensures c in NesPalette
    ensures ShowBackground(mask) ==>
      c == NesPalette[(paletteRam[PaletteEntry(PlaneBits(attribHi, attribLo, fineX),
                                               PlaneBits(patternHi, patternLo, fineX))] & 0x3F) as int]
    ensures !ShowBackground(mask) ==> c == NesPalette[(paletteRam[0] & 0x3F) as int]
  {
    if ShowBackground(mask) then
      ColorFromPaletteEntry(paletteRam, PlaneBits(attribHi, attribLo, fineX), PlaneBits(patternHi, patternLo, fineX));
      ColorFromPalette(paletteRam, PlaneBits(attribHi, attribLo, fineX), PlaneBits(patternHi, patternLo, fineX))
    else
      ColorFromPaletteEntry(paletteRam, 0, 0);
      ColorFromPalette(paletteRam, 0, 0)
  }
}
