/** The part of the 6502 core that Cpu.java implements: registers, reset,
    bus delegation and the status-flag helpers. */
module NesCpu {
  import opened Common
  import opened NesBus

  // Status flag masks, bit 0 to bit 7.
  const C: bv8 := 0x01
  const Z: bv8 := 0x02
  const I: bv8 := 0x04
  const D: bv8 := 0x08
  const B: bv8 := 0x10
  const U: bv8 := 0x20
  const V: bv8 := 0x40
  const N: bv8 := 0x80

  predicate IsLowFlag(f: bv8)
  {
    f == C || f == Z || f == I || f == D || f == B || f == U || f == V
  }

  datatype Registers = Registers(a: bv8, x: bv8, y: bv8, sp: bv8, pc: bv32, status: bv8)

  /** The registers after reset, given the memory behind the bus: they do not
      depend on the registers before it, so resetting twice changes nothing. */
  function ResetRegisters(mem: seq<bv8>): (r: Registers)
    requires |mem| == RamSize
    ensures r.a == 0 && r.x == 0 && r.y == 0
    ensures r.sp == 0xFD && r.status == U
    ensures r.pc < 0x10000
    ensures r.pc & 0xFF == mem[0xFFFC] as bv32 && r.pc >> 8 == mem[0xFFFD] as bv32
  {
    Registers(0, 0, 0, 0xFD, Word(mem[0xFFFC], mem[0xFFFD]), U)
  }

  /** The Java `(hi << 8) | lo` on two bytes read as `& 0xFF`: the 16-bit
      little-endian word with low byte `lo` and high byte `hi`. */
  function Word(lo: bv8, hi: bv8): (w: bv32)
    ensures w < 0x10000
    ensures w & 0xFF == lo as bv32 && w >> 8 == hi as bv32
  {
    ((Int(hi) & 0xFF) << 8) | (Int(lo) & 0xFF)
  }

  /** `status` with the bits of `flag` set (v) or cleared (!v). */
  function WithFlag(status: bv8, flag: bv8, v: bool): (r: bv8)
    ensures r & flag == (if v then flag else 0)
    ensures r & !flag == status & !flag
  {
    if v then status | flag else status & !flag
  }

  /** `getFlag` as written: `(status & flag) > 0` on the sign-extended bytes. */
  function FlagAsWritten(status: bv8, flag: bv8): (r: bv8)
    ensures r == 0 || r == 1
    ensures IsLowFlag(flag) ==> (r == 1 <==> status & flag != 0)
    ensures flag == N ==> r == 0
  {
    if PositiveInt(Int(status) & Int(flag)) then 1 else 0
  }

  /** The evidently intended `getFlag`: 1 exactly when a bit of `flag` is set. */
  function FlagIntended(status: bv8, flag: bv8): (r: bv8)
    ensures r == 0 || r == 1
    ensures r == 1 <==> status & flag != 0
  {
    if status & flag != 0 then 1 else 0
  }

  /** The two agree on the flags in bits 0 to 6 and disagree on N whenever N is set. */
  lemma NegativeFlagDiscrepancy(status: bv8)
    ensures forall f :: IsLowFlag(f) ==> FlagAsWritten(status, f) == FlagIntended(status, f)
    ensures status & N != 0 ==> FlagAsWritten(status, N) == 0 && FlagIntended(status, N) == 1
  {
  }

  class Cpu {
    var a: bv8
    var x: bv8
    var y: bv8
    var sp: bv8
    var pc: bv32
    var status: bv8
    var bus: Bus?

    constructor ()
      ensures a == 0 && x == 0 && y == 0 && sp == 0xFD && pc == 0 && status == 0
      ensures bus == null
    {
      a, x, y, sp, pc, status := 0, 0, 0, 0xFD, 0, 0;
      bus := null;
    }

    method ConnectBus(b: Bus)
      modifies this`bus
      ensures bus == b
    {
      bus := b;
    }

    function Regs(): Registers
      reads this
    {
      Registers(a, x, y, sp, pc, status)
    }

    /** Loads PC from the little-endian vector at 0xFFFC/0xFFFD and sets the
        fixed register values; the bus is only read. */
    method Reset()
      requires bus != null && bus.ram.Length == RamSize
      modifies this`a, this`x, this`y, this`sp, this`status, this`pc
      ensures Regs() == ResetRegisters(bus.ram[..])
    {
      a := 0;
      x := 0;
      y := 0;
      sp := 0xFD;
      status := 0x00 | U;
      var lo := bus.Read(0xFFFC);
      var hi := bus.Read(0xFFFD);
      pc := Word(lo, hi);
      assert lo == bus.ram[0xFFFC] && hi == bus.ram[0xFFFD];
    }

    method Read(addr: int) returns (data: bv8)
      requires bus != null && bus.ram.Length == RamSize
      ensures data == Load(bus.ram[..], addr)
    {
      data := bus.Read(addr);
    }

    method Write(addr: int, data: bv8)
      requires bus != null && bus.ram.Length == RamSize
      modifies bus.ram
      ensures bus.ram[..] == Store(old(bus.ram[..]), addr, data)
    {
      bus.Write(addr, data);
    }

    method SetFlag(flag: bv8, v: bool)
      modifies this`status
      ensures status == WithFlag(old(status), flag, v)
    {
      if v {
        status := status | flag;
      } else {
        status := status & !flag;
      }
    }

    method GetFlag(flag: bv8) returns (r: bv8)
      ensures r == FlagAsWritten(status, flag)
    {
      r := if PositiveInt(Int(status) & Int(flag)) then 1 else 0;
    }
  }
}
