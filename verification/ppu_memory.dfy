/** The PPU's own 14-bit address space as Ppu.java decodes it: pattern tables
    on the cartridge, 2 KB of nametable RAM behind the cartridge's mirroring
    mode, and 32 bytes of palette RAM with four aliased entries. */
module PpuMemory {
  import opened Common

  /** What the PPU sees of a cartridge: its mirroring mode and its CHR (pattern
      table) contents. The mapper behind them is not part of this model. */
  datatype Cartridge = Cartridge(mirrorMode: int, chrRead: bv32 -> bv8)

  /** A byte the PPU hands to the cartridge's CHR write port. */
  datatype ChrWrite = ChrWrite(addr: bv32, data: bv8)

  function MirrorOf(cartridge: Option<Cartridge>): Option<int>
  {
    if cartridge.Some? then Some(cartridge.value.mirrorMode) else None
  }

  /** The storage an address of the PPU space reaches. */
  datatype Target = PatternTable(addr: bv32) | Nametable(index: int) | Palette(index: int)

  /** Mode 0 ("horizontal") as written: 0x400-0x7FF and 0xC00-0xFFF are
      moved down by 0x400, so a nametable address lands in the first or the
      third KB (ModeZeroKeepsTenBits states the offset it keeps). */
  function ModeZeroFold(a: bv32): (r: bv32)
    ensures a < 0x1000 ==> r < 0x0C00 && r & 0x400 == 0
  {
    var a1 := if 0x0400 <= a < 0x0800 then a - 0x0400 else a;
    if a1 >= 0x0C00 then a1 - 0x0400 else a1
  }

  /** Mode 1 ("vertical"): 0x800-0xFFF is moved down by 0x800, so a
      nametable address keeps its low eleven bits. */
  function ModeOneFold(a: bv32): (r: bv32)
    ensures a < 0x1000 ==> r == a & 0x07FF
  {
    if a >= 0x0800 then a - 0x0800 else a
  }

  /** Nametable mirroring: the fold of the cartridge's mode (none without a
      cartridge or in another mode), then eleven bits are kept. */
  function NametableOffset(a: bv32, mirror: Option<int>): (r: bv32)
    ensures r < 0x800
  {
    if mirror == Some(0) then ModeZeroFold(a) & 0x07FF
    else if mirror == Some(1) then ModeOneFold(a) & 0x07FF
    else a & 0x07FF
  }

  /** Mode 0 as written keeps only the low ten bits of a nametable address,
      so all four nametables land in the first 1 KB of RAM; in every other
      case the low eleven bits are kept. */
  lemma NametableOffsetFolds(a: bv32, mirror: Option<int>)
    requires a < 0x1000
    ensures mirror == Some(0) ==> NametableOffset(a, mirror) == a & 0x3FF
    ensures mirror != Some(0) ==> NametableOffset(a, mirror) == a & 0x7FF
  {
    if mirror == Some(0) {
      ModeZeroKeepsTenBits(a);
    }
  }

  lemma ModeZeroKeepsTenBits(a: bv32)
    requires a < 0x1000
    ensures ModeZeroFold(a) & 0x7FF == a & 0x3FF
  {
    if a < 0x400 {
      ModeZeroFirst(a);
    } else if a < 0x800 {
      ModeZeroSecond(a);
    } else if a < 0xC00 {
      ModeZeroThird(a);
    } else {
      ModeZeroFourth(a);
    }
  }

  lemma ModeZeroFirst(a: bv32)
    requires a < 0x400
    ensures ModeZeroFold(a) & 0x7FF == a & 0x3FF
  {
  }

  lemma ModeZeroSecond(a: bv32)
    requires 0x400 <= a < 0x800
    ensures ModeZeroFold(a) & 0x7FF == a & 0x3FF
  {
    assert ModeZeroFold(a) & 0x7FF == a - 0x400;
  }

  lemma ModeZeroThird(a: bv32)
    requires 0x800 <= a < 0xC00
    ensures ModeZeroFold(a) & 0x7FF == a & 0x3FF
  {
    assert ModeZeroFold(a) & 0x7FF == a - 0x800;
  }

  lemma ModeZeroFourth(a: bv32)
    requires 0xC00 <= a < 0x1000
    ensures ModeZeroFold(a) & 0x7FF == a & 0x3FF
  {
    assert ModeZeroFold(a) & 0x7FF == a - 0xC00;
  }

  /** The nametable RAM index of a nametable address (0x2000-based, twelve bits). */
  function NametableIndex(a: bv32, mirror: Option<int>): (i: int)
    ensures 0 <= i < 0x800
  {
    NametableOffset(a, mirror) as int
  }

  /** Palette RAM index: entries 0x10, 0x14, 0x18 and 0x1C are the same bytes
      as 0x00, 0x04, 0x08 and 0x0C. */
  function PaletteIndex(a: bv32): (i: int)
    requires a < 0x20
    ensures 0 <= i < 0x20
    ensures a & 0x13 == 0x10 ==> i == (a - 0x10) as int
    ensures a & 0x13 != 0x10 ==> i == a as int
  {
    if a == 0x10 then 0x00
    else if a == 0x14 then 0x04
    else if a == 0x18 then 0x08
    else if a == 0x1C then 0x0C
    else a as int
  }

  /** Where a PPU address goes: the address is cut to 14 bits, below 0x2000 is
      pattern memory, below 0x3F00 nametables (twelve bits), the rest palette
      (five bits). */
  function Decode(addr: bv32, mirror: Option<int>): (target: Target)
    ensures target.PatternTable? <==> addr & 0x3FFF < 0x2000
    ensures target.PatternTable? ==> target.addr == addr & 0x3FFF
    ensures target.Palette? <==> addr & 0x3FFF >= 0x3F00
    ensures target.Nametable? ==> 0 <= target.index < 0x800
    ensures target.Palette? ==> 0 <= target.index < 0x20
  {
    var a := addr & 0x3FFF;
    if a < 0x2000 then PatternTable(a)
    else if a < 0x3F00 then Nametable(NametableIndex(a & 0x0FFF, mirror))
    else Palette(PaletteIndex(a & 0x001F))
  }

  /** Nametable RAM and palette RAM. */
  datatype VideoRam = VideoRam(nametables: seq<bv8>, palette: seq<bv8>)

  predicate WellSized(mem: VideoRam)
  {
    |mem.nametables| == 0x800 && |mem.palette| == 0x20
  }

  /** A read of the PPU address space; pattern memory without a cartridge reads 0. */
  function ReadSpace(cartridge: Option<Cartridge>, mem: VideoRam, addr: bv32): (data: bv8)
    requires WellSized(mem)
    ensures cartridge.None? && addr & 0x3FFF < 0x2000 ==> data == 0
  {
    match Decode(addr, MirrorOf(cartridge))
    case PatternTable(a) => if cartridge.Some? then cartridge.value.chrRead(a) else 0x00
    case Nametable(i) => mem.nametables[i]
    case Palette(i) => mem.palette[i]
  }

  /** A write of the PPU address space to nametable or palette RAM; a pattern
      write leaves both alone (it goes to the cartridge, see ChrWriteOf). */
  function WriteSpace(cartridge: Option<Cartridge>, mem: VideoRam, addr: bv32, data: bv8): (mem': VideoRam)
    requires WellSized(mem)
    ensures WellSized(mem')
    ensures addr & 0x3FFF < 0x2000 ==> mem' == mem
    ensures addr & 0x3FFF >= 0x3F00 ==> mem'.nametables == mem.nametables
    ensures 0x2000 <= addr & 0x3FFF < 0x3F00 ==> mem'.palette == mem.palette
  {
    match Decode(addr, MirrorOf(cartridge))
    case PatternTable(_) => mem
    case Nametable(i) => mem.(nametables := mem.nametables[i := data])
    case Palette(i) => mem.(palette := mem.palette[i := data])
  }

  /** The nametable case of WriteSpace, with the index computed as the class does. */
  lemma NametableWrite(cartridge: Option<Cartridge>, mem: VideoRam, addr: bv32, data: bv8)
    requires WellSized(mem) && 0x2000 <= addr & 0x3FFF < 0x3F00
    ensures WriteSpace(cartridge, mem, addr, data)
            == mem.(nametables := mem.nametables[NametableIndex(addr & 0x3FFF & 0x0FFF, MirrorOf(cartridge)) := data])
  {
    assert Decode(addr, MirrorOf(cartridge)) == Nametable(NametableIndex(addr & 0x3FFF & 0x0FFF, MirrorOf(cartridge)));
  }

  /** The palette case of WriteSpace, with the index computed as the class does. */
  lemma PaletteWrite(cartridge: Option<Cartridge>, mem: VideoRam, addr: bv32, data: bv8)
    requires WellSized(mem) && addr & 0x3FFF >= 0x3F00
    ensures WriteSpace(cartridge, mem, addr, data)
            == mem.(palette := mem.palette[PaletteIndex(addr & 0x3FFF & 0x001F) := data])
  {
    assert Decode(addr, MirrorOf(cartridge)) == Palette(PaletteIndex(addr & 0x3FFF & 0x001F));
  }

  /** The CHR write a pattern-table write hands to the cartridge, if one is connected. */
  function ChrWriteOf(cartridge: Option<Cartridge>, addr: bv32, data: bv8): (w: Option<ChrWrite>)
    ensures w.Some? <==> cartridge.Some? && addr & 0x3FFF < 0x2000
    ensures w.Some? ==> w.value == ChrWrite(addr & 0x3FFF, data)
  {
    var a := addr & 0x3FFF;
    if a < 0x2000 && cartridge.Some? then Some(ChrWrite(a, data)) else None
  }

  /** A byte written to nametable or palette RAM reads back at the same address. */
  lemma ReadAfterWrite(cartridge: Option<Cartridge>, mem: VideoRam, addr: bv32, data: bv8)
    requires WellSized(mem) && addr & 0x3FFF >= 0x2000
    ensures ReadSpace(cartridge, WriteSpace(cartridge, mem, addr, data), addr) == data
  {
  }

  /** A write leaves every address that decodes elsewhere unchanged. */
  lemma WriteIsolation(cartridge: Option<Cartridge>, mem: VideoRam, a: bv32, b: bv32, data: bv8)
    requires WellSized(mem)
    requires Decode(a, MirrorOf(cartridge)) != Decode(b, MirrorOf(cartridge))
    ensures ReadSpace(cartridge, WriteSpace(cartridge, mem, a, data), b) == ReadSpace(cartridge, mem, b)
  {
  }

  /** 0x3F10/14/18/1C are the same bytes as 0x3F00/04/08/0C, in both directions. */
  lemma PaletteAliases(cartridge: Option<Cartridge>, mem: VideoRam, k: bv32, data: bv8)
    requires WellSized(mem) && k < 4
    ensures Decode(0x3F10 + 4 * k, MirrorOf(cartridge)) == Decode(0x3F00 + 4 * k, MirrorOf(cartridge))
    ensures ReadSpace(cartridge, WriteSpace(cartridge, mem, 0x3F10 + 4 * k, data), 0x3F00 + 4 * k) == data
    ensures ReadSpace(cartridge, WriteSpace(cartridge, mem, 0x3F00 + 4 * k, data), 0x3F10 + 4 * k) == data
  {
    assert Decode(0x3F10 + 4 * k, MirrorOf(cartridge)) == Palette(4 * k as int);
    assert Decode(0x3F00 + 4 * k, MirrorOf(cartridge)) == Palette(4 * k as int);
  }

  /** The other palette entries are distinct bytes: 0x3F01 is not 0x3F11. */
  lemma PaletteNonAliases(cartridge: Option<Cartridge>, a: bv32)
    requires 0x3F00 <= a < 0x3F20 && a & 0x03 != 0
    ensures Decode(a, MirrorOf(cartridge)) != Decode(a ^ 0x10, MirrorOf(cartridge))
  {
  }

  /** Palette RAM repeats every 32 bytes up to 0x3FFF. */
  lemma PaletteRepeats(cartridge: Option<Cartridge>, a: bv32, b: bv32)
    requires 0x3F00 <= a < 0x4000 && 0x3F00 <= b < 0x4000 && a & 0x1F == b & 0x1F
    ensures Decode(a, MirrorOf(cartridge)) == Decode(b, MirrorOf(cartridge))
  {
  }

  /** 0x3000-0x3EFF reaches the same nametable bytes as 0x2000-0x2EFF, and the
      whole space repeats every 0x4000. */
  lemma NametableSpaceRepeats(cartridge: Option<Cartridge>, a: bv32)
    requires 0x3000 <= a < 0x3F00
    ensures Decode(a, MirrorOf(cartridge)) == Decode(a - 0x1000, MirrorOf(cartridge))
    ensures Decode(a + 0x4000, MirrorOf(cartridge)) == Decode(a, MirrorOf(cartridge))
  {
  }

  /** Mode 1 (vertical): NT2 mirrors NT0 and NT3 mirrors NT1, NT0 and NT1 are distinct. */
  lemma VerticalMirroring(x: bv32)
    requires x < 0x400
    ensures NametableOffset(x, Some(1)) == NametableOffset(x + 0x800, Some(1))
    ensures NametableOffset(x + 0x400, Some(1)) == NametableOffset(x + 0xC00, Some(1))
    ensures NametableOffset(x, Some(1)) != NametableOffset(x + 0x400, Some(1))
  {
    NametableOffsetFolds(x, Some(1));
    NametableOffsetFolds(x + 0x400, Some(1));
    NametableOffsetFolds(x + 0x800, Some(1));
    NametableOffsetFolds(x + 0xC00, Some(1));
  }

  /** Mode 0 as written: all four nametables reach the same 1 KB, so NT0 and NT2
      are not distinct. */
  lemma HorizontalMirroringAsWritten(x: bv32)
    requires x < 0x400
    ensures NametableOffset(x, Some(0)) == NametableOffset(x + 0x400, Some(0))
    ensures NametableOffset(x, Some(0)) == NametableOffset(x + 0x800, Some(0))
    ensures NametableOffset(x, Some(0)) == NametableOffset(x + 0xC00, Some(0))
  {
    NametableOffsetFolds(x, Some(0));
    NametableOffsetFolds(x + 0x400, Some(0));
    NametableOffsetFolds(x + 0x800, Some(0));
    NametableOffsetFolds(x + 0xC00, Some(0));
  }

  /** Mode 0 as written: after 0xAA goes to 0x2000 and 0xBB to 0x2800, 0x2000 reads 0xBB. */
  lemma HorizontalWriteClobbers(chrRead: bv32 -> bv8, mem: VideoRam)
    requires WellSized(mem)
    ensures var cart := Some(Cartridge(0, chrRead));
            var mem' := WriteSpace(cart, WriteSpace(cart, mem, 0x2000, 0xAA), 0x2800, 0xBB);
            ReadSpace(cart, mem', 0x2000) == 0xBB
  {
    HorizontalMirroringAsWritten(0);
  }

  /** Horizontal mirroring as intended: NT0/NT1 share the first 1 KB of RAM,
      NT2/NT3 the second. */
  function HorizontalOffset(a: bv32): (r: bv32)
    requires a < 0x1000
    ensures r < 0x800
  {
    (a & 0x03FF) | ((a & 0x0800) >> 1)
  }

  /** Intended mode 0: NT1 mirrors NT0, NT3 mirrors NT2, and NT0 and NT2 are
      distinct halves of the RAM. */
  lemma HorizontalMirroringIntended(x: bv32)
    requires x < 0x400
    ensures HorizontalOffset(x) == HorizontalOffset(x + 0x400) == x
    ensures HorizontalOffset(x + 0x800) == HorizontalOffset(x + 0xC00) == x + 0x400
  {
  }
}
