/** What one PPU dot (one call of `clock` in Ppu.java) does, as functions of
    the values before it: the scanline/cycle/frame counter, the vblank bits of
    the status register, the scroll register `v` and the background pipeline. */
module PpuTiming {
  import opened Common
  import opened PpuSpec
  import opened PpuMemory

  const CyclesPerLine := 341
  const LinesPerFrame := 262
  const DotsPerFrame := 341 * 262

  // ----- The dot counter -----

  datatype Dot = Dot(scanline: int, cycle: int, frame: int)

  /** The scanline and cycle counters of the class range over these. */
  type Scanline = x: int | 0 <= x < LinesPerFrame
  type Cycle = x: int | 0 <= x < CyclesPerLine

  predicate ValidDot(d: Dot)
  {
    0 <= d.scanline < LinesPerFrame && 0 <= d.cycle < CyclesPerLine && 0 <= d.frame
  }

  /** Position of a dot within its frame. */
  function DotIndex(d: Dot): int
  {
    d.scanline * CyclesPerLine + d.cycle
  }

  /** The counters after one dot: the cycle wraps after 340 into the next
      scanline, the scanline after 261 into the next frame. */
  function NextDot(d: Dot): (n: Dot)
    requires ValidDot(d)
    ensures ValidDot(n)
    ensures DotIndex(n) == (DotIndex(d) + 1) % DotsPerFrame
    ensures n.frame == (if d.scanline == 261 && d.cycle == 340 then d.frame + 1 else d.frame)
  {
    var cycle := d.cycle + 1;
    if cycle >= 341 then
      var scanline := d.scanline + 1;
      if scanline >= 262 then Dot(0, 0, d.frame + 1) else Dot(scanline, 0, d.frame)
    else
      Dot(d.scanline, cycle, d.frame)
  }

  /** The counters after `n` dots. */
  function Advance(d: Dot, n: nat): (e: Dot)
    requires ValidDot(d)
    ensures ValidDot(e)
  {
    if n == 0 then d else NextDot(Advance(d, n - 1))
  }

  lemma DivModStep(i: int)
    requires 0 <= i
    ensures ((i % DotsPerFrame) + 1) % DotsPerFrame == (i + 1) % DotsPerFrame
    ensures (i + 1) / DotsPerFrame
            == i / DotsPerFrame + (if i % DotsPerFrame == DotsPerFrame - 1 then 1 else 0)
  {
    var q := i / DotsPerFrame;
    var r := i % DotsPerFrame;
    assert i == q * DotsPerFrame + r;
    if r == DotsPerFrame - 1 {
      assert i + 1 == (q + 1) * DotsPerFrame;
    } else {
      assert i + 1 == q * DotsPerFrame + (r + 1);
    }
  }

  /** After `n` dots the counter has moved `n` positions through the frame and
      the frame number has grown by the number of frame boundaries crossed. */
  lemma {:induction false} AdvanceCounts(d: Dot, n: nat)
    requires ValidDot(d)
    ensures DotIndex(Advance(d, n)) == (DotIndex(d) + n) % DotsPerFrame
    ensures Advance(d, n).frame == d.frame + (DotIndex(d) + n) / DotsPerFrame
  {
    if n > 0 {
      AdvanceCounts(d, n - 1);
      var e := Advance(d, n - 1);
      var i := DotIndex(d) + n - 1;
      DivModStep(i);
      assert DotIndex(e) == DotsPerFrame - 1 <==> e.scanline == 261 && e.cycle == 340;
    }
  }

  /** Whole frames of dots return to the same scanline and cycle, as many
      frames later. */
  lemma FramesArePeriodic(d: Dot, n: nat)
    requires ValidDot(d) && n % DotsPerFrame == 0
    ensures Advance(d, n) == d.(frame := d.frame + n / DotsPerFrame)
  {
    AdvanceCounts(d, n);
    WholeFramesLater(DotIndex(d), n);
    IndexDetermines(Advance(d, n), d);
  }

  lemma WholeFramesLater(i: int, n: nat)
    requires 0 <= i < DotsPerFrame && n % DotsPerFrame == 0
    ensures (i + n) % DotsPerFrame == i && (i + n) / DotsPerFrame == n / DotsPerFrame
  {
    var q := n / DotsPerFrame;
    assert n == q * DotsPerFrame;
    assert i + n == q * DotsPerFrame + i;
  }

  /** Within a frame a dot is determined by its index. */
  lemma IndexDetermines(d: Dot, e: Dot)
    requires ValidDot(d) && ValidDot(e) && DotIndex(d) == DotIndex(e)
    ensures d.scanline == e.scanline && d.cycle == e.cycle
  {
  }

  // ----- Vertical blank -----

  /** The status register after a dot: the vblank bit (7) is set at (241, 1);
      bits 5-7 are cleared at (261, 1); nothing changes otherwise. */
  function StatusAtDot(status: bv8, scanline: int, cycle: int): (r: bv8)
    ensures scanline == 241 && cycle == 1 ==> r & 0x80 == 0x80 && r & 0x7F == status & 0x7F
    ensures scanline == 261 && cycle == 1 ==> r & 0xE0 == 0 && r & 0x1F == status & 0x1F
    ensures !(cycle == 1 && (scanline == 241 || scanline == 261)) ==> r == status
  {
    if scanline == 241 && cycle == 1 then SetVBlank(status)
    else if scanline == 261 && cycle == 1 then ClearVBlank(status)
    else status
  }

  /** `ppuStatus |= 0x80` on the Java `byte`: bit 7 set, the rest kept. */
  function SetVBlank(status: bv8): (r: bv8)
    ensures r & 0x80 == 0x80 && r & 0x7F == status & 0x7F
  {
    ToByte(Int(status) | 0x80)
  }

  /** `ppuStatus &= ~0xE0` on the Java `byte`: bits 5-7 cleared, the rest kept. */
  function ClearVBlank(status: bv8): (r: bv8)
    ensures r & 0xE0 == 0 && r & 0x1F == status & 0x1F
  {
    ToByte(Int(status) & !0xE0)
  }

  // ----- Scrolling over a dot -----

  /** Scanlines that fetch background data: the 240 visible ones and the pre-render line. */
  predicate RenderLine(scanline: int)
  {
    scanline < 240 || scanline == 261
  }

  /** Cycles of a render line that shift and fetch: 1-256 and 321-336. */
  predicate FetchCycle(cycle: int)
  {
    (1 <= cycle <= 256) || (321 <= cycle <= 336)
  }

  /** `incrementScrollX`: one tile right, only while rendering. */
  function ScrollXStep(v: bv32, mask: bv8): (r: bv32)
    requires v < 0x8000
    ensures r < 0x8000
    ensures !Rendering(mask) ==> r == v
  {
    if !Rendering(mask) then v else CoarseXIncrement(v)
  }

  /** `incrementScrollY`: one pixel row down, only while rendering. */
  function ScrollYStep(v: bv32, mask: bv8): (r: bv32)
    requires v < 0x8000
    ensures r < 0x8000
    ensures !Rendering(mask) ==> r == v
  {
    if !Rendering(mask) then v else FineYIncrement(v)
  }

  /** The position of a dot within its eight-dot tile slot. */
  function SlotPhase(cycle: int): (phase: int)
    ensures 0 <= phase < 8
  {
    (cycle - 1) % 8
  }

  /** `v` after the fetch part of a dot: the coarse X step in phase 7 of each
      tile slot. */
  function VAfterFetch(v: bv32, mask: bv8, cycle: int): (r: bv32)
    requires v < 0x8000
    ensures r < 0x8000
    ensures !FetchCycle(cycle) || SlotPhase(cycle) != 7 ==> r == v
  {
    if FetchCycle(cycle) && SlotPhase(cycle) == 7 then ScrollXStep(v, mask) else v
  }

  /** `v` after the scroll part of a render-line dot: the fine Y step at cycle
      256, the horizontal copy from `t` at 257, the vertical copy from `t` at
      280-304 of the pre-render line. */
  function VAfterScroll(v: bv32, t: bv32, mask: bv8, scanline: int, cycle: int): (r: bv32)
    requires v < 0x8000 && t < 0x8000
    ensures r < 0x8000
    ensures !Rendering(mask) ==> r == v
  {
    var v2 := if cycle == 256 then ScrollYStep(v, mask) else v;
    var v3 := if cycle == 257 && Rendering(mask) then CopyHorizontal(v2, t) else v2;
    if scanline == 261 && 280 <= cycle <= 304 && Rendering(mask) then CopyVertical(v3, t) else v3
  }

  /** `v` after a dot. */
  function VAfterDot(v: bv32, t: bv32, mask: bv8, scanline: int, cycle: int): (r: bv32)
    requires v < 0x8000 && t < 0x8000
    ensures r < 0x8000
    ensures !Rendering(mask) || !RenderLine(scanline) ==> r == v
  {
    if RenderLine(scanline) then VAfterScroll(VAfterFetch(v, mask, cycle), t, mask, scanline, cycle) else v
  }

  /** While rendering, on a render line: every eighth fetch dot moves one tile
      right, dot 256 also moves one row down, dot 257 reloads the horizontal
      position from `t` and dots 280-304 of the pre-render line the vertical
      one; no other dot changes `v`. */
  lemma VAfterDotCases(v: bv32, t: bv32, mask: bv8, scanline: int, cycle: int)
    requires v < 0x8000 && t < 0x8000 && Rendering(mask) && RenderLine(scanline)
    ensures var r := VAfterDot(v, t, mask, scanline, cycle);
            (FetchCycle(cycle) && cycle != 256 && cycle % 8 == 0 ==> r == CoarseXIncrement(v))
            && (cycle == 256 ==> r == FineYIncrement(CoarseXIncrement(v)))
            && (cycle == 257 ==> CoarseX(r) == CoarseX(t) && NametableSelect(r) & 1 == NametableSelect(t) & 1
                                 && CoarseY(r) == CoarseY(v) && FineY(r) == FineY(v))
            && (scanline == 261 && 280 <= cycle <= 304 ==>
                  FineY(r) == FineY(t) && CoarseY(r) == CoarseY(t) && NametableSelect(r) & 2 == NametableSelect(t) & 2
                  && CoarseX(r) == CoarseX(v))
            && (!(FetchCycle(cycle) && cycle % 8 == 0) && cycle != 257 && !(scanline == 261 && 280 <= cycle <= 304)
                ==> r == v)
  {
    if cycle == 257 {
      CopyHorizontalFields(v, t);
    }
    if 280 <= cycle <= 304 {
      CopyVerticalFields(v, t);
    }
  }

  // ----- Background pipeline -----

  /** The background fetch latches and the four 16-bit shifters. */
  datatype Background = Background(
    nextTileId: Latch, nextTileAttrib: AttributeLatch, nextTileLsb: Latch, nextTileMsb: Latch,
    patternLo: bv32, patternHi: bv32, attribLo: bv32, attribHi: bv32)

  /** Fetched tile ids and pattern bytes are bytes. */
  type Latch = x: bv32 | x < 0x100

  /** Fetched attribute bits are two bits. */
  type AttributeLatch = x: bv32 | x < 4

  /** `updateShifters`: each shifter moves one bit left while the background
      is shown (see ShiftLeft); the fetch latches are kept. */
  function ShiftBackground(bg: Background, mask: bv8): (r: Background)
    ensures !ShowBackground(mask) ==> r == bg
    ensures r.(patternLo := bg.patternLo, patternHi := bg.patternHi,
               attribLo := bg.attribLo, attribHi := bg.attribHi) == bg
  {
    if ShowBackground(mask) then
      bg.(patternLo := ShiftLeft(bg.patternLo), patternHi := ShiftLeft(bg.patternHi),
          attribLo := ShiftLeft(bg.attribLo), attribHi := ShiftLeft(bg.attribHi))
    else bg
  }

  /** `loadBackgroundShifters`: the fetched pattern bytes enter the low byte of
      the pattern shifters, the two attribute bits fill the low byte of the
      attribute shifters; the fetch latches are kept. */
  function LoadBackground(bg: Background): (r: Background)
    ensures r.(patternLo := bg.patternLo, patternHi := bg.patternHi,
               attribLo := bg.attribLo, attribHi := bg.attribHi) == bg
  {
    bg.(patternLo := LoadShifter(bg.patternLo, bg.nextTileLsb),
        patternHi := LoadShifter(bg.patternHi, bg.nextTileMsb),
        attribLo := LoadShifter(bg.attribLo, AttributeFill(bg.nextTileAttrib, 0x01)),
        attribHi := LoadShifter(bg.attribHi, AttributeFill(bg.nextTileAttrib, 0x02)))
  }

  /** A fetched byte as the Java `int` `ppuRead(addr) & 0xFF`. */
  function Fetched(cartridge: Option<Cartridge>, mem: VideoRam, addr: bv32): (b: bv32)
    requires WellSized(mem)
    ensures b < 0x100 && b == ReadSpace(cartridge, mem, addr) as bv32
  {
    Int(ReadSpace(cartridge, mem, addr)) & 0xFF
  }

  /** `fetchNametableByte`: the tile id of the current tile. */
  function FetchNametable(bg: Background, v: bv32, cartridge: Option<Cartridge>, mem: VideoRam): (r: Background)
    requires WellSized(mem)
    ensures r == bg.(nextTileId := ReadSpace(cartridge, mem, NametableFetchAddr(v)) as bv32)
  {
    bg.(nextTileId := Fetched(cartridge, mem, NametableFetchAddr(v)))
  }

  /** `fetchAttributeByte`: the palette bits of the current tile, the two
      bits of its quadrant in the attribute byte covering it. */
  function FetchAttribute(bg: Background, v: bv32, cartridge: Option<Cartridge>, mem: VideoRam): (r: Background)
    requires v < 0x8000 && WellSized(mem)
    ensures r == bg.(nextTileAttrib := r.nextTileAttrib)
    ensures var attribute := ReadSpace(cartridge, mem, AttributeFetchAddr(v));
            r.nextTileAttrib == ((attribute as bv32) >> ((if CoarseY(v) & 2 != 0 then 4 else 0)
                                                        + (if CoarseX(v) & 2 != 0 then 2 else 0))) & 3
  {
    AttributeBitsQuadrant(v, ReadSpace(cartridge, mem, AttributeFetchAddr(v)));
    bg.(nextTileAttrib := AttributeBits(v, ReadSpace(cartridge, mem, AttributeFetchAddr(v))))
  }

  /** `fetchPatternLow` (`plane` 0) and `fetchPatternHigh` (`plane` 8): a pattern
      byte of the fetched tile. */
  function FetchPattern(bg: Background, v: bv32, ctrl: bv8, plane: bv32,
                        cartridge: Option<Cartridge>, mem: VideoRam): (r: Background)
    requires WellSized(mem) && (plane == 0 || plane == 8)
    ensures plane == 0 ==>
      r == bg.(nextTileLsb := ReadSpace(cartridge, mem, PatternFetchAddr(ctrl, bg.nextTileId, v, 0)) as bv32)
    ensures plane == 8 ==>
      r == bg.(nextTileMsb := ReadSpace(cartridge, mem, PatternFetchAddr(ctrl, bg.nextTileId, v, 8)) as bv32)
  {
    var b := Fetched(cartridge, mem, PatternFetchAddr(ctrl, bg.nextTileId, v, plane));
    if plane == 0 then bg.(nextTileLsb := b) else bg.(nextTileMsb := b)
  }

  /** The fetch a render-line dot performs in phase `phase` of its eight-dot
      tile slot: phase 0 reloads the shifters and fetches the nametable byte,
      phase 2 the attribute bits, phases 4 and 6 the two pattern bytes,
      phase 7 is the coarse X step (see VAfterDot). */
  function Fetch(bg: Background, v: bv32, ctrl: bv8, phase: int,
                 cartridge: Option<Cartridge>, mem: VideoRam): (r: Background)
    requires v < 0x8000 && WellSized(mem)
    ensures phase !in {0, 2, 4, 6} ==> r == bg
  {
    if phase == 0 then FetchNametable(LoadBackground(bg), v, cartridge, mem)
    else if phase == 2 then FetchAttribute(bg, v, cartridge, mem)
    else if phase == 4 then FetchPattern(bg, v, ctrl, 0, cartridge, mem)
    else if phase == 6 then FetchPattern(bg, v, ctrl, 8, cartridge, mem)
    else bg
  }

  /** The background pipeline after a dot: on fetch cycles of render lines the
      shifters move and then the phase's fetch happens, addressed by `v` as it
      was before the dot; every other dot leaves the pipeline alone. */
  function BackgroundAfterDot(bg: Background, v: bv32, ctrl: bv8, mask: bv8, scanline: int, cycle: int,
                              cartridge: Option<Cartridge>, mem: VideoRam): (r: Background)
    requires v < 0x8000 && WellSized(mem)
    ensures !(RenderLine(scanline) && FetchCycle(cycle)) ==> r == bg
  {
    if RenderLine(scanline) && FetchCycle(cycle) then
      Fetch(ShiftBackground(bg, mask), v, ctrl, SlotPhase(cycle), cartridge, mem)
    else bg
  }

  /** A pixel is drawn on the 240 visible scanlines at cycles 1-256, to column cycle - 1. */
  predicate VisibleDot(scanline: int, cycle: int)
  {
    0 <= scanline < 240 && 1 <= cycle <= 256
  }

  /** The frame buffer index of the pixel drawn at a visible dot. */
  function PixelIndex(scanline: int, cycle: int): (i: int)
    requires VisibleDot(scanline, cycle)
    ensures 0 <= i < 256 * 240
    ensures i / 256 == scanline && i % 256 == cycle - 1
  {
    scanline * 256 + (cycle - 1)
  }

  /** Different visible dots draw different pixels. */
  lemma PixelIndexInjective(s1: int, c1: int, s2: int, c2: int)
    requires VisibleDot(s1, c1) && VisibleDot(s2, c2)
    requires PixelIndex(s1, c1) == PixelIndex(s2, c2)
    ensures s1 == s2 && c1 == c2
  {
  }
}
