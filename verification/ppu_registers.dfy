/** The CPU-facing register file of Ppu.java (0x2000-0x2007, repeating every
    eight addresses) as a transition function on the register values. The
    class in NesPpu is proved to follow it. */
module PpuRegisters {
  import opened Common
  import opened PpuSpec
  import opened PpuMemory

  /** The PPU's register state: the four CPU-visible byte registers, the
      internal scroll/address registers `v` and `t`, fine X, the shared write
      toggle, the PPUDATA read buffer and the NMI-enable flag. */
  datatype Registers = Registers(
    ctrl: bv8, mask: bv8, status: bv8, oamAddr: bv8,
    v: Addr15, t: Addr15, fineX: Fine, writeToggle: bool,
    dataBuffer: bv8, nmiOutput: bool)

  /** `v` and `t` are 15-bit. */
  type Addr15 = x: bv32 | x < 0x8000

  /** Fine X is 3-bit. */
  type Fine = x: bv8 | x < 8

  /** Every register cleared, as at construction and after a reset. */
  const Cleared: Registers := Registers(0, 0, 0, 0, 0, 0, 0, false, 0, false)

  datatype ReadResult = ReadResult(data: bv8, regs: Registers)

  /** A CPU read of PPU register `addr & 7`. */
  function ReadRegister(r: Registers, addr: bv32, oam: seq<bv8>, cartridge: Option<Cartridge>,
                        mem: VideoRam): (res: ReadResult)
    requires |oam| == 256 && WellSized(mem)
    ensures RegisterSelect(addr) == PPUSTATUS ==>
      res.data == StatusReadValue(r.status, r.dataBuffer)
      && res.regs == r.(status := StatusAfterRead(r.status), writeToggle := false)
    ensures RegisterSelect(addr) == OAMDATA ==> res == ReadResult(oam[r.oamAddr as int], r)
    ensures RegisterSelect(addr) == PPUDATA ==>
      res.regs == r.(dataBuffer := ReadSpace(cartridge, mem, r.v), v := DataAddrAfter(r.v, r.ctrl))
      && res.data == (if Decode(r.v, MirrorOf(cartridge)).Palette? then ReadSpace(cartridge, mem, r.v)
                      else r.dataBuffer)
    ensures RegisterSelect(addr) !in {PPUSTATUS, OAMDATA, PPUDATA} ==> res == ReadResult(0, r)
  {
    match RegisterSelect(addr)
    case 2 =>
      ReadResult(StatusReadValue(r.status, r.dataBuffer),
                 r.(status := StatusAfterRead(r.status), writeToggle := false))
    case 4 =>
      ReadResult(oam[OamIndex(r.oamAddr)], r)
    case 7 =>
      var fetched := ReadSpace(cartridge, mem, r.v);
      var data := if (r.v & 0x3FFF) >= 0x3F00 then fetched else r.dataBuffer;
      ReadResult(data, r.(dataBuffer := fetched, v := DataAddrAfter(r.v, r.ctrl)))
    case _ => ReadResult(0x00, r)
  }

  /** A CPU write of PPU register `addr & 7`: its effect on the registers.
      Writes never touch PPUSTATUS or the read buffer; only PPUCTRL changes
      the control byte and the NMI enable, only PPUMASK the mask; the shared
      toggle flips exactly on PPUSCROLL and PPUADDR writes; fine X moves only
      on a first PPUSCROLL write and `v` only on a second PPUADDR write or a
      PPUDATA access. */
  function WriteRegister(r: Registers, addr: bv32, data: bv8): (r': Registers)
    ensures r'.status == r.status && r'.dataBuffer == r.dataBuffer
    ensures RegisterSelect(addr) == PPUCTRL ==> r'.ctrl == data && (r'.nmiOutput <==> data & 0x80 != 0)
    ensures RegisterSelect(addr) != PPUCTRL ==> r'.ctrl == r.ctrl && r'.nmiOutput == r.nmiOutput
    ensures RegisterSelect(addr) == PPUMASK ==> r'.mask == data
    ensures RegisterSelect(addr) != PPUMASK ==> r'.mask == r.mask
    ensures RegisterSelect(addr) == OAMADDR ==> r'.oamAddr == data
    ensures RegisterSelect(addr) == OAMDATA ==> r'.oamAddr == r.oamAddr + 1
    ensures RegisterSelect(addr) !in {OAMADDR, OAMDATA} ==> r'.oamAddr == r.oamAddr
    ensures r'.writeToggle != r.writeToggle <==> RegisterSelect(addr) in {PPUSCROLL, PPUADDR}
    ensures r'.t != r.t ==> RegisterSelect(addr) in {PPUCTRL, PPUSCROLL, PPUADDR}
    ensures RegisterSelect(addr) == PPUDATA ==> r'.v == DataAddrAfter(r.v, r.ctrl)
    ensures r'.fineX != r.fineX ==> RegisterSelect(addr) == PPUSCROLL && !r.writeToggle
    ensures r'.v != r.v ==> RegisterSelect(addr) == PPUDATA || (RegisterSelect(addr) == PPUADDR && r.writeToggle)
    ensures RegisterSelect(addr) == PPUCTRL ==> r' == WriteCtrl(r, data)
    ensures RegisterSelect(addr) == PPUSCROLL ==> r' == WriteScroll(r, data)
    ensures RegisterSelect(addr) == PPUADDR ==> r' == WriteAddr(r, data)
  {
    var register := RegisterSelect(addr);
    if register == PPUCTRL then WriteCtrl(r, data)
    else if register == PPUMASK then r.(mask := data)
    else if register == OAMADDR then r.(oamAddr := data)
    else if register == OAMDATA then r.(oamAddr := r.oamAddr + 1)
    else if register == PPUSCROLL then WriteScroll(r, data)
    else if register == PPUADDR then WriteAddr(r, data)
    else if register == PPUDATA then r.(v := DataAddrAfter(r.v, r.ctrl))
    else r
  }

  /** PPUCTRL: the control byte is stored, bit 7 enables the vblank NMI and
      bits 0-1 become the nametable select of `t`; nothing else changes. */
  function WriteCtrl(r: Registers, data: bv8): (r': Registers)
    ensures r' == r.(ctrl := data, nmiOutput := r'.nmiOutput, t := r'.t)
    ensures r'.nmiOutput <==> data & 0x80 != 0
    ensures NametableSelect(r'.t) == (data & 0x03) as bv32
    ensures CoarseX(r'.t) == CoarseX(r.t) && CoarseY(r'.t) == CoarseY(r.t) && FineY(r'.t) == FineY(r.t)
  {
    CtrlWriteFields(r.t, data);
    r.(ctrl := data, nmiOutput := NmiEnabled(data), t := CtrlWriteT(r.t, data))
  }

  /** PPUSCROLL: the first write of a pair sets coarse X of `t` and fine X,
      the second sets fine Y and coarse Y of `t`; each flips the toggle and
      nothing else changes. */
  function WriteScroll(r: Registers, data: bv8): (r': Registers)
    ensures r'.writeToggle == !r.writeToggle
    ensures !r.writeToggle ==>
      r' == r.(t := r'.t, fineX := r'.fineX, writeToggle := true) && r'.fineX == data & 0x07
      && CoarseX(r'.t) == (data >> 3) as bv32
      && CoarseY(r'.t) == CoarseY(r.t) && NametableSelect(r'.t) == NametableSelect(r.t) && FineY(r'.t) == FineY(r.t)
    ensures r.writeToggle ==>
      r' == r.(t := r'.t, writeToggle := false)
      && FineY(r'.t) == (data & 0x07) as bv32 && CoarseY(r'.t) == (data >> 3) as bv32
      && CoarseX(r'.t) == CoarseX(r.t) && NametableSelect(r'.t) == NametableSelect(r.t)
  {
    if !r.writeToggle then
      ScrollFirstFields(r.t, data);
      r.(t := ScrollFirstT(r.t, data), fineX := ScrollFineX(data), writeToggle := true)
    else
      ScrollSecondFields(r.t, data);
      r.(t := ScrollSecondT(r.t, data), writeToggle := false)
  }

  /** PPUADDR: the first write of a pair sets bits 8-13 of `t` (clearing bit
      14), the second sets its low byte and copies `t` into `v`; each flips
      the toggle and nothing else changes. */
  function WriteAddr(r: Registers, data: bv8): (r': Registers)
    ensures r'.writeToggle == !r.writeToggle
    ensures !r.writeToggle ==>
      r' == r.(t := r'.t, writeToggle := true)
      && r'.t >> 8 == (data & 0x3F) as bv32 && r'.t & 0xFF == r.t & 0xFF
    ensures r.writeToggle ==>
      r' == r.(t := r'.t, v := r'.t, writeToggle := false)
      && r'.t & 0xFF == data as bv32 && r'.t >> 8 == r.t >> 8
  {
    if !r.writeToggle then
      AddrHighFields(r.t, data);
      r.(t := AddrHighT(r.t, data), writeToggle := true)
    else
      var t' := AddrLowT(r.t, data);
      AddrLowFields(r.t, data);
      r.(t := t', v := t', writeToggle := false)
  }

  /** OAM after a CPU write: an OAMDATA write stores at the OAM address. */
  function OamAfterWrite(oam: seq<bv8>, r: Registers, addr: bv32, data: bv8): (oam': seq<bv8>)
    requires |oam| == 256
    ensures |oam'| == 256
    ensures RegisterSelect(addr) == OAMDATA ==> oam' == oam[r.oamAddr as int := data]
    ensures RegisterSelect(addr) != OAMDATA ==> oam' == oam
  {
    if RegisterSelect(addr) == OAMDATA then
      oam[OamIndex(r.oamAddr) := data]
    else oam
  }

  /** Nametable and palette RAM after a CPU write: a PPUDATA write goes to `v`. */
  function VideoAfterWrite(cartridge: Option<Cartridge>, mem: VideoRam, r: Registers, addr: bv32,
                           data: bv8): (mem': VideoRam)
    requires WellSized(mem)
    ensures WellSized(mem')
    ensures RegisterSelect(addr) == PPUDATA ==> mem' == WriteSpace(cartridge, mem, r.v, data)
    ensures RegisterSelect(addr) != PPUDATA ==> mem' == mem
  {
    if RegisterSelect(addr) == PPUDATA then WriteSpace(cartridge, mem, r.v, data) else mem
  }

  /** The CHR write a CPU write causes: a PPUDATA write to pattern memory. */
  function ChrAfterWrite(cartridge: Option<Cartridge>, r: Registers, addr: bv32, data: bv8): (w: Option<ChrWrite>)
    ensures w.Some? <==> RegisterSelect(addr) == PPUDATA && cartridge.Some? && r.v & 0x3FFF < 0x2000
    ensures w.Some? ==> w.value == ChrWrite(r.v & 0x3FFF, data)
  {
    if RegisterSelect(addr) == PPUDATA then ChrWriteOf(cartridge, r.v, data) else None
  }

  // ----- The register protocol over several accesses -----

  /** `addr` and `addr + 8` reach the same register. */
  lemma RegistersRepeat(r: Registers, addr: bv32, data: bv8, oam: seq<bv8>,
                        cartridge: Option<Cartridge>, mem: VideoRam)
    requires |oam| == 256 && WellSized(mem)
    ensures WriteRegister(r, addr + 8, data) == WriteRegister(r, addr, data)
    ensures ReadRegister(r, addr + 8, oam, cartridge, mem) == ReadRegister(r, addr, oam, cartridge, mem)
  {
    RegisterSelectMirrors(addr);
  }

  /** Two PPUSCROLL writes from a clear toggle: X then Y scroll. The first sets
      coarse X and fine X, the second fine Y and coarse Y; the nametable select,
      `v` and the other registers are untouched and the toggle ends clear. */
  lemma ScrollPair(r: Registers, x: bv8, y: bv8)
    requires !r.writeToggle
    ensures var r2 := WriteRegister(WriteRegister(r, 0x2005, x), 0x2005, y);
            CoarseX(r2.t) == (x >> 3) as bv32 && r2.fineX == x & 0x07
            && CoarseY(r2.t) == (y >> 3) as bv32 && FineY(r2.t) == (y & 0x07) as bv32
            && NametableSelect(r2.t) == NametableSelect(r.t)
            && r2 == r.(t := r2.t, fineX := r2.fineX)
  {
    var r1 := WriteRegister(r, 0x2005, x);
    ScrollFirstFields(r.t, x);
    ScrollSecondFields(r1.t, y);
  }

  /** Two PPUADDR writes from a clear toggle: `v = t = ((hi & 0x3F) << 8) | lo`
      and the toggle ends clear. */
  lemma AddrPair(r: Registers, hi: bv8, lo: bv8)
    requires !r.writeToggle
    ensures var r2 := WriteRegister(WriteRegister(r, 0x2006, hi), 0x2006, lo);
            r2.v == (((hi & 0x3F) as bv32) << 8) | (lo as bv32)
            && r2 == r.(v := r2.v, t := r2.v)
  {
    AddrPairLoads(r.t, hi, lo);
  }

  /** Reading PPUSTATUS first makes a PPUADDR pair work whatever the toggle was. */
  lemma StatusReadThenAddrPair(r: Registers, oam: seq<bv8>, cartridge: Option<Cartridge>,
                               mem: VideoRam, hi: bv8, lo: bv8)
    requires |oam| == 256 && WellSized(mem)
    ensures var r1 := ReadRegister(r, 0x2002, oam, cartridge, mem).regs;
            var r3 := WriteRegister(WriteRegister(r1, 0x2006, hi), 0x2006, lo);
            r3.v == (((hi & 0x3F) as bv32) << 8) | (lo as bv32) && !r3.writeToggle
  {
    var r1 := ReadRegister(r, 0x2002, oam, cartridge, mem).regs;
    AddrPair(r1, hi, lo);
  }

  /** Setting OAMADDR and writing OAMDATA stores the byte there and advances the
      address; setting OAMADDR back and reading OAMDATA returns the byte without
      moving the address. */
  lemma OamPortRoundTrip(r: Registers, oam: seq<bv8>, cartridge: Option<Cartridge>, mem: VideoRam,
                         a: bv8, data: bv8)
    requires |oam| == 256 && WellSized(mem)
    ensures var r1 := WriteRegister(r, 0x2003, a);
            var oam' := OamAfterWrite(oam, r1, 0x2004, data);
            var r2 := WriteRegister(r1, 0x2004, data);
            r2.oamAddr == a + 1
            && ReadRegister(WriteRegister(r2, 0x2003, a), 0x2004, oam', cartridge, mem)
               == ReadResult(data, r2.(oamAddr := a))
  {
  }

  /** PPUDATA reads below the palette are buffered: two reads from address `v`
      return the stale buffer and then the byte at `v` (unless the second read,
      at the advanced address, is itself a palette read). */
  lemma BufferedDataRead(r: Registers, oam: seq<bv8>, cartridge: Option<Cartridge>, mem: VideoRam)
    requires |oam| == 256 && WellSized(mem)
    requires !Decode(r.v, MirrorOf(cartridge)).Palette?
    requires !Decode(DataAddrAfter(r.v, r.ctrl), MirrorOf(cartridge)).Palette?
    ensures var first := ReadRegister(r, 0x2007, oam, cartridge, mem);
            var second := ReadRegister(first.regs, 0x2007, oam, cartridge, mem);
            first.data == r.dataBuffer && second.data == ReadSpace(cartridge, mem, r.v)
  {
  }

  /** A byte written through PPUADDR/PPUDATA to nametable RAM is read back
      through PPUADDR/PPUDATA, on the second (buffered) read. */
  lemma DataWriteReadBack(r: Registers, oam: seq<bv8>, cartridge: Option<Cartridge>, mem: VideoRam,
                          hi: bv8, lo: bv8, data: bv8)
    requires !r.writeToggle && |oam| == 256 && WellSized(mem)
    requires 0x20 <= hi & 0x3F < 0x3E
    ensures var r1 := WriteRegister(WriteRegister(r, 0x2006, hi), 0x2006, lo);
            var mem' := VideoAfterWrite(cartridge, mem, r1, 0x2007, data);
            var r2 := WriteRegister(r1, 0x2007, data);
            var r3 := WriteRegister(WriteRegister(r2, 0x2006, hi), 0x2006, lo);
            var first := ReadRegister(r3, 0x2007, oam, cartridge, mem');
            ReadRegister(first.regs, 0x2007, oam, cartridge, mem').data == data
  {
    var r1 := WriteRegister(WriteRegister(r, 0x2006, hi), 0x2006, lo);
    AddrPair(r, hi, lo);
    var mem' := VideoAfterWrite(cartridge, mem, r1, 0x2007, data);
    var r2 := WriteRegister(r1, 0x2007, data);
    var r3 := WriteRegister(WriteRegister(r2, 0x2006, hi), 0x2006, lo);
    AddrPair(r2, hi, lo);
    assert r3.v == r1.v;
    assert 0x2000 <= r1.v & 0x3FFF < 0x3E00;
    assert DataAddrAfter(r3.v, r3.ctrl) < 0x3F00;
    ReadAfterWrite(cartridge, mem, r1.v, data);
    BufferedDataRead(r3, oam, cartridge, mem');
  }
}
