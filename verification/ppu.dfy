/** The 2C02 picture processing unit of Ppu.java as a class. Its fields follow
    the groups of the Java class: the CPU-visible and internal registers
    (ppuCtrl, ppuMask, ppuStatus, oamAddr, vramAddr, tempVramAddr, fineX,
    writeToggle, dataBuffer, nmiOutput) are the record `regs`, the background
    fetch latches and shifters (bgNextTileId ... bgShifterAttribHi) the record
    `bg`, the memories are arrays and the timing counters integers. Each
    method is proved against the specification functions of PpuRegisters,
    PpuMemory and PpuTiming. */
module NesPpu {
  import opened Common
  import opened PpuSpec
  import opened PpuMemory
  import opened PpuRegisters
  import opened PpuTiming

  class Ppu {
    /** PPU registers and internal registers. */
    var regs: Registers

    // Memory
    const vram: array<bv8>
    const paletteRam: array<bv8>
    const oam: array<bv8>
    const frameBuffer: array<bv32>

    /** Background rendering state. */
    var bg: Background

    // Timing
    var scanline: Scanline
    var cycle: Cycle
    var frame: nat

    var nmiOccurred: bool

    var cartridge: Option<Cartridge>
    /** Whether a bus is connected to receive the NMI. */
    var busConnected: bool

    function Counter(): Dot
      reads this
    {
      Dot(scanline, cycle, frame)
    }

    function Video(): VideoRam
      reads vram, paletteRam
    {
      VideoRam(vram[..], paletteRam[..])
    }

    /** The memories have their sizes and are distinct arrays. The bounds
        on the registers, latches and counters are those of their types. */
    predicate Valid()
    {
      vram.Length == 0x800 && paletteRam.Length == 0x20 && oam.Length == 0x100
      && frameBuffer.Length == 256 * 240
      && vram != paletteRam && vram != oam && paletteRam != oam
    }

    /** A new PPU: every register, counter and byte of memory is zero and no
        cartridge or bus is connected. */
    constructor ()
      ensures Valid()
      ensures fresh(vram) && fresh(paletteRam) && fresh(oam) && fresh(frameBuffer)
      ensures regs == Cleared && Counter() == Dot(0, 0, 0) && bg == Background(0, 0, 0, 0, 0, 0, 0, 0)
      ensures !nmiOccurred && cartridge.None? && !busConnected
      ensures forall i :: 0 <= i < vram.Length ==> vram[i] == 0
      ensures forall i :: 0 <= i < paletteRam.Length ==> paletteRam[i] == 0
      ensures forall i :: 0 <= i < oam.Length ==> oam[i] == 0
      ensures forall i :: 0 <= i < frameBuffer.Length ==> frameBuffer[i] == 0
    {
      regs := Cleared;
      vram := new bv8[0x800](_ => 0x00);
      paletteRam := new bv8[0x20](_ => 0x00);
      oam := new bv8[0x100](_ => 0x00);
      frameBuffer := new bv32[256 * 240](_ => 0);
      bg := Background(0, 0, 0, 0, 0, 0, 0, 0);
      scanline, cycle, frame := 0, 0, 0;
      nmiOccurred := false;
      cartridge := None;
      busConnected := false;
    }

    method ConnectCartridge(c: Option<Cartridge>)
      modifies this`cartridge
      ensures cartridge == c
    {
      cartridge := c;
    }

    method ConnectBus()
      modifies this`busConnected
      ensures busConnected
    {
      busConnected := true;
    }

    /** Registers and counters back to zero; memory, the background pipeline
        and the connections are kept. */
    method Reset()
      requires Valid()
      modifies this`regs, this`scanline, this`cycle, this`frame, this`nmiOccurred
      ensures regs == Cleared && Counter() == Dot(0, 0, 0) && !nmiOccurred
    {
      regs := Cleared;
      scanline := 0;
      cycle := 0;
      frame := 0;
      nmiOccurred := false;
    }

    /** A CPU read of register `addr & 7`. */
    method CpuRead(addr: bv32) returns (data: bv8)
      requires Valid()
      modifies this`regs
      ensures ReadResult(data, regs) == ReadRegister(old(regs), addr, oam[..], cartridge, Video())
    {
      data := 0x00;
      var register := addr & 0x0007;
      if register == 0x0002 {
        data := StatusReadValue(regs.status, regs.dataBuffer);
        regs := regs.(status := StatusAfterRead(regs.status), writeToggle := false);
      } else if register == 0x0004 {
        data := oam[OamIndex(regs.oamAddr)];
      } else if register == 0x0007 {
        data := regs.dataBuffer;
        regs := regs.(dataBuffer := ReadSpace(cartridge, Video(), regs.v));
        if (regs.v & 0x3FFF) >= 0x3F00 {
          data := regs.dataBuffer;
        }
        regs := regs.(v := DataAddrAfter(regs.v, regs.ctrl));
      }
    }

    /** A write of the PPU address space; a pattern-table write is handed to
        the cartridge as the returned CHR write. */
    method PpuWrite(addr: bv32, data: bv8) returns (chr: Option<ChrWrite>)
      requires Valid()
      modifies vram, paletteRam
      ensures Video() == WriteSpace(cartridge, old(Video()), addr, data)
      ensures chr == ChrWriteOf(cartridge, addr, data)
    {
      chr := None;
      var a := addr & 0x3FFF;
      if a < 0x2000 {
        if cartridge.Some? {
          chr := Some(ChrWrite(a, data));
        }
      } else if a < 0x3F00 {
        WriteNametable(addr, data);
      } else {
        WritePalette(addr, data);
      }
    }

    /** The nametable branch of `ppuWrite`: the mirrored nametable byte. */
    method WriteNametable(addr: bv32, data: bv8)
      requires Valid() && 0x2000 <= addr & 0x3FFF < 0x3F00
      modifies vram
      ensures Video() == WriteSpace(cartridge, old(Video()), addr, data)
    {
      NametableWrite(cartridge, Video(), addr, data);
      var a := addr & 0x3FFF & 0x0FFF;
      vram[NametableIndex(a, MirrorOf(cartridge))] := data;
    }

    /** The palette branch of `ppuWrite`: the palette byte, with its aliases. */
    method WritePalette(addr: bv32, data: bv8)
      requires Valid() && addr & 0x3FFF >= 0x3F00
      modifies paletteRam
      ensures Video() == WriteSpace(cartridge, old(Video()), addr, data)
    {
      PaletteWrite(cartridge, Video(), addr, data);
      var a := addr & 0x3FFF & 0x001F;
      paletteRam[PaletteIndex(a)] := data;
    }

    /** A CPU write of register `addr & 7`. */
    method CpuWrite(addr: bv32, data: bv8) returns (chr: Option<ChrWrite>)
      requires Valid()
      modifies this`regs, oam, vram, paletteRam
      ensures regs == WriteRegister(old(regs), addr, data)
      ensures oam[..] == OamAfterWrite(old(oam[..]), old(regs), addr, data)
      ensures Video() == VideoAfterWrite(cartridge, old(Video()), old(regs), addr, data)
      ensures chr == ChrAfterWrite(cartridge, old(regs), addr, data)
    {
      chr := None;
      var register := addr & 0x0007;
      if register == 0x0000 {
        regs := regs.(ctrl := data, nmiOutput := NmiEnabled(data), t := CtrlWriteT(regs.t, data));
      } else if register == 0x0001 {
        regs := regs.(mask := data);
      } else if register == 0x0003 {
        regs := regs.(oamAddr := data);
      } else if register == 0x0004 {
        WriteOamData(data);
      } else if register == 0x0005 {
        if !regs.writeToggle {
          regs := regs.(t := ScrollFirstT(regs.t, data), fineX := ScrollFineX(data), writeToggle := true);
        } else {
          regs := regs.(t := ScrollSecondT(regs.t, data), writeToggle := false);
        }
      } else if register == 0x0006 {
        if !regs.writeToggle {
          regs := regs.(t := AddrHighT(regs.t, data), writeToggle := true);
        } else {
          var t := AddrLowT(regs.t, data);
          regs := regs.(t := t, v := t, writeToggle := false);
        }
      } else if register == 0x0007 {
        chr := WritePpuData(data);
      }
    }

    /** OAMDATA: store at the OAM address, then advance it (wrapping at 256). */
    method WriteOamData(data: bv8)
      requires Valid()
      modifies oam, this`regs
      ensures oam[..] == old(oam[..])[old(regs.oamAddr) as int := data]
      ensures regs.oamAddr == old(regs.oamAddr) + 1 && regs == old(regs).(oamAddr := regs.oamAddr)
    {
      oam[OamIndex(regs.oamAddr)] := data;
      regs := regs.(oamAddr := regs.oamAddr + 1);
    }

    /** PPUDATA: write the PPU address space at `v`, then advance `v`. */
    method WritePpuData(data: bv8) returns (chr: Option<ChrWrite>)
      requires Valid()
      modifies vram, paletteRam, this`regs
      ensures Video() == WriteSpace(cartridge, old(Video()), old(regs.v), data)
      ensures chr == ChrWriteOf(cartridge, old(regs.v), data)
      ensures regs.v == DataAddrAfter(old(regs.v), regs.ctrl) && regs == old(regs).(v := regs.v)
    {
      chr := PpuWrite(regs.v, data);
      regs := regs.(v := DataAddrAfter(regs.v, regs.ctrl));
    }

    method FetchNametableByte()
      requires Valid()
      modifies this`bg
      ensures bg == FetchNametable(old(bg), regs.v, cartridge, Video())
    {
      var addr := NametableFetchAddr(regs.v);
      bg := bg.(nextTileId := Fetched(cartridge, Video(), addr));
    }

    method FetchAttributeByte()
      requires Valid()
      modifies this`bg
      ensures bg == FetchAttribute(old(bg), regs.v, cartridge, Video())
    {
      var addr := AttributeFetchAddr(regs.v);
      bg := bg.(nextTileAttrib := AttributeBits(regs.v, ReadSpace(cartridge, Video(), addr)));
    }

    method FetchPatternLow()
      requires Valid()
      modifies this`bg
      ensures bg == FetchPattern(old(bg), regs.v, regs.ctrl, 0, cartridge, Video())
    {
      var addr := PatternFetchAddr(regs.ctrl, bg.nextTileId, regs.v, 0);
      bg := bg.(nextTileLsb := Fetched(cartridge, Video(), addr));
    }

    method FetchPatternHigh()
      requires Valid()
      modifies this`bg
      ensures bg == FetchPattern(old(bg), regs.v, regs.ctrl, 8, cartridge, Video())
    {
      var addr := PatternFetchAddr(regs.ctrl, bg.nextTileId, regs.v, 8);
      bg := bg.(nextTileMsb := Fetched(cartridge, Video(), addr));
    }

    method IncrementScrollX()
      requires Valid()
      modifies this`regs
      ensures regs.v == ScrollXStep(old(regs.v), regs.mask) && regs == old(regs).(v := regs.v)
    {
      if !Rendering(regs.mask) {
        return;
      }
      regs := regs.(v := CoarseXIncrement(regs.v));
    }

    method IncrementScrollY()
      requires Valid()
      modifies this`regs
      ensures regs.v == ScrollYStep(old(regs.v), regs.mask) && regs == old(regs).(v := regs.v)
    {
      if !Rendering(regs.mask) {
        return;
      }
      regs := regs.(v := FineYIncrement(regs.v));
    }

    method LoadBackgroundShifters()
      requires Valid()
      modifies this`bg
      ensures bg == LoadBackground(old(bg))
    {
      bg := bg.(patternLo := LoadShifter(bg.patternLo, bg.nextTileLsb),
                patternHi := LoadShifter(bg.patternHi, bg.nextTileMsb),
                attribLo := LoadShifter(bg.attribLo, AttributeFill(bg.nextTileAttrib, 0x01)),
                attribHi := LoadShifter(bg.attribHi, AttributeFill(bg.nextTileAttrib, 0x02)));
    }

    method UpdateShifters()
      requires Valid()
      modifies this`bg
      ensures bg == ShiftBackground(old(bg), regs.mask)
    {
      if ShowBackground(regs.mask) {
        bg := bg.(patternLo := ShiftLeft(bg.patternLo), patternHi := ShiftLeft(bg.patternHi),
                  attribLo := ShiftLeft(bg.attribLo), attribHi := ShiftLeft(bg.attribHi));
      }
    }

    /** Draws the background pixel of the current dot; only a visible dot
        writes, and only its own frame buffer entry. */
    method RenderPixel()
      requires Valid()
      modifies frameBuffer
      ensures frameBuffer[..] ==
        if VisibleDot(scanline, cycle) then
          old(frameBuffer[..])[PixelIndex(scanline, cycle) :=
            PixelColor(regs.mask, regs.fineX, bg.patternLo, bg.patternHi, bg.attribLo, bg.attribHi, paletteRam[..])]
        else old(frameBuffer[..])
    {
      var x := cycle - 1;
      var y := scanline;
      if x < 0 || x >= 256 || y < 0 || y >= 240 {
        return;
      }
      var bgPixel: bv32 := 0;
      var bgPalette: bv32 := 0;
      if ShowBackground(regs.mask) {
        bgPixel := PlaneBits(bg.patternHi, bg.patternLo, regs.fineX);
        bgPalette := PlaneBits(bg.attribHi, bg.attribLo, regs.fineX);
      }
      var color := ColorFromPalette(paletteRam[..], bgPalette, bgPixel);
      assert color == PixelColor(regs.mask, regs.fineX, bg.patternLo, bg.patternHi, bg.attribLo, bg.attribHi,
                                 paletteRam[..]);
      StorePixel(y * 256 + x, color);
    }

    method StorePixel(i: int, color: bv32)
      requires Valid() && 0 <= i < 256 * 240
      modifies frameBuffer
      ensures frameBuffer[..] == old(frameBuffer[..])[i := color]
    {
      frameBuffer[i] := color;
    }

    /** One dot. Returns whether an NMI is sent to the bus. */
    method Clock() returns (nmi: bool)
      requires Valid()
      modifies this`regs, this`bg, this`scanline, this`cycle, this`frame, frameBuffer
      ensures Counter() == NextDot(old(Counter()))
      ensures regs.status == StatusAtDot(old(regs.status), old(scanline), old(cycle))
      ensures regs.v == VAfterDot(old(regs.v), regs.t, regs.mask, old(scanline), old(cycle))
      ensures regs == old(regs).(status := regs.status, v := regs.v)
      ensures nmi <==> old(scanline) == 241 && old(cycle) == 1 && regs.nmiOutput && busConnected
      ensures bg == BackgroundAfterDot(old(bg), old(regs.v), regs.ctrl, regs.mask, old(scanline), old(cycle),
                                       cartridge, Video())
      ensures frameBuffer[..] ==
        if VisibleDot(old(scanline), old(cycle)) then
          old(frameBuffer[..])[PixelIndex(old(scanline), old(cycle)) :=
            PixelColor(regs.mask, regs.fineX, bg.patternLo, bg.patternHi, bg.attribLo, bg.attribHi, paletteRam[..])]
        else old(frameBuffer[..])
    {
      nmi := DotWork();
      AdvanceCounters();
    }

    /** Everything a dot does before the counters move: rendering, then the
        vertical blank. */
    method DotWork() returns (nmi: bool)
      requires Valid()
      modifies this`regs, this`bg, frameBuffer
      ensures regs.status == StatusAtDot(old(regs.status), scanline, cycle)
      ensures regs.v == VAfterDot(old(regs.v), regs.t, regs.mask, scanline, cycle)
      ensures regs == old(regs).(status := regs.status, v := regs.v)
      ensures nmi <==> scanline == 241 && cycle == 1 && regs.nmiOutput && busConnected
      ensures bg == BackgroundAfterDot(old(bg), old(regs.v), regs.ctrl, regs.mask, scanline, cycle,
                                       cartridge, Video())
      ensures frameBuffer[..] ==
        if VisibleDot(scanline, cycle) then
          old(frameBuffer[..])[PixelIndex(scanline, cycle) :=
            PixelColor(regs.mask, regs.fineX, bg.patternLo, bg.patternHi, bg.attribLo, bg.attribHi, paletteRam[..])]
        else old(frameBuffer[..])
    {
      RenderDot();
      nmi := VBlankDot();
    }

    /** The rendering part of a dot, which happens on the visible lines and
        the pre-render line only. */
    method RenderDot()
      requires Valid()
      modifies this`regs, this`bg, frameBuffer
      ensures regs.v == VAfterDot(old(regs.v), regs.t, regs.mask, scanline, cycle) && regs == old(regs).(v := regs.v)
      ensures bg == BackgroundAfterDot(old(bg), old(regs.v), regs.ctrl, regs.mask, scanline, cycle,
                                       cartridge, Video())
      ensures frameBuffer[..] ==
        if VisibleDot(scanline, cycle) then
          old(frameBuffer[..])[PixelIndex(scanline, cycle) :=
            PixelColor(regs.mask, regs.fineX, bg.patternLo, bg.patternHi, bg.attribLo, bg.attribHi, paletteRam[..])]
        else old(frameBuffer[..])
    {
      if scanline < 240 || scanline == 261 {
        RenderLineDot();
      }
    }

    /** The rendering part of a dot on a render line: background shift and
        fetch and the scroll updates, then the pixel. */
    method RenderLineDot()
      requires Valid() && RenderLine(scanline)
      modifies this`regs, this`bg, frameBuffer
      ensures regs.v == VAfterScroll(VAfterFetch(old(regs.v), regs.mask, cycle), regs.t, regs.mask, scanline, cycle)
      ensures regs == old(regs).(v := regs.v)
      ensures bg == (if FetchCycle(cycle) then
                       Fetch(ShiftBackground(old(bg), regs.mask), old(regs.v), regs.ctrl, SlotPhase(cycle),
                             cartridge, Video())
                     else old(bg))
      ensures frameBuffer[..] ==
        if VisibleDot(scanline, cycle) then
          old(frameBuffer[..])[PixelIndex(scanline, cycle) :=
            PixelColor(regs.mask, regs.fineX, bg.patternLo, bg.patternHi, bg.attribLo, bg.attribHi, paletteRam[..])]
        else old(frameBuffer[..])
    {
      FetchAndScrollDot();
      if scanline < 240 && cycle >= 1 && cycle <= 256 {
        RenderPixel();
      }
    }

    /** Background shift and fetch on fetch cycles, then the scroll updates. */
    method FetchAndScrollDot()
      requires Valid() && RenderLine(scanline)
      modifies this`regs, this`bg
      ensures regs.v == VAfterScroll(VAfterFetch(old(regs.v), regs.mask, cycle), regs.t, regs.mask, scanline, cycle)
      ensures regs == old(regs).(v := regs.v)
      ensures bg == (if FetchCycle(cycle) then
                       Fetch(ShiftBackground(old(bg), regs.mask), old(regs.v), regs.ctrl, SlotPhase(cycle),
                             cartridge, Video())
                     else old(bg))
    {
      if (cycle >= 1 && cycle <= 256) || (cycle >= 321 && cycle <= 336) {
        BackgroundDot();
      }
      ScrollDot();
    }

    /** The shift-and-fetch part of a fetch dot: shift, then the fetch of the
        tile-slot phase. */
    method BackgroundDot()
      requires Valid() && FetchCycle(cycle)
      modifies this`regs, this`bg
      ensures bg == Fetch(ShiftBackground(old(bg), regs.mask), old(regs.v), regs.ctrl, SlotPhase(cycle),
                          cartridge, Video())
      ensures regs.v == VAfterFetch(old(regs.v), regs.mask, cycle) && regs == old(regs).(v := regs.v)
    {
      UpdateShifters();
      FetchDot(SlotPhase(cycle));
    }

    /** The fetch of phase `phase` of a tile slot: phase 0 reloads the
        shifters and fetches the tile id, 2 the attribute bits, 4 and 6 the
        pattern bytes, and 7 steps coarse X. */
    method FetchDot(phase: int)
      requires Valid()
      modifies this`regs, this`bg
      ensures bg == Fetch(old(bg), old(regs.v), regs.ctrl, phase, cartridge, Video())
      ensures regs.v == (if phase == 7 then ScrollXStep(old(regs.v), regs.mask) else old(regs.v))
      ensures regs == old(regs).(v := regs.v)
    {
      if phase == 0 {
        LoadBackgroundShifters();
        FetchNametableByte();
      } else if phase == 2 {
        FetchAttributeByte();
      } else if phase == 4 {
        FetchPatternLow();
      } else if phase == 6 {
        FetchPatternHigh();
      } else if phase == 7 {
        IncrementScrollX();
      }
    }

    /** The scroll part of a render-line dot. */
    method ScrollDot()
      requires Valid()
      modifies this`regs
      ensures regs.v == VAfterScroll(old(regs.v), regs.t, regs.mask, scanline, cycle) && regs == old(regs).(v := regs.v)
    {
      if cycle == 256 {
        IncrementScrollY();
      }
      if cycle == 257 && Rendering(regs.mask) {
        regs := regs.(v := CopyHorizontal(regs.v, regs.t));
      }
      if scanline == 261 && cycle >= 280 && cycle <= 304 && Rendering(regs.mask) {
        regs := regs.(v := CopyVertical(regs.v, regs.t));
      }
    }

    /** Vertical blank: set at (241, 1), with an NMI when enabled and a bus is
        connected; bits 5-7 cleared at (261, 1). */
    method VBlankDot() returns (nmi: bool)
      requires Valid()
      modifies this`regs
      ensures regs.status == StatusAtDot(old(regs.status), scanline, cycle) && regs == old(regs).(status := regs.status)
      ensures nmi <==> scanline == 241 && cycle == 1 && regs.nmiOutput && busConnected
    {
      nmi := false;
      if scanline == 241 && cycle == 1 {
        regs := regs.(status := SetVBlank(regs.status));
        if regs.nmiOutput && busConnected {
          nmi := true;
        }
      }
      if scanline == 261 && cycle == 1 {
        regs := regs.(status := ClearVBlank(regs.status));
      }
    }

    /** The counter step at the end of a dot. */
    method AdvanceCounters()
      requires Valid()
      modifies this`scanline, this`cycle, this`frame
      ensures Counter() == NextDot(old(Counter()))
    {
      var nextCycle := cycle + 1;
      if nextCycle >= 341 {
        cycle := 0;
        var nextLine := scanline + 1;
        if nextLine >= 262 {
          scanline := 0;
          frame := frame + 1;
        } else {
          scanline := nextLine;
        }
      } else {
        cycle := nextCycle;
      }
    }
  }
}
