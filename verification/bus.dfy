/** The CPU bus as it stands in Bus.java: a flat 64 KB byte array. */
module NesBus {

  const RamSize := 0x10000

  /** What `read` returns for an address: the byte in range, 0 outside it. */
  function Load(mem: seq<bv8>, addr: int): (r: bv8)
    requires |mem| == RamSize
    ensures 0 <= addr < RamSize ==> r == mem[addr]
    ensures !(0 <= addr < RamSize) ==> r == 0
  {
    if 0 <= addr < |mem| then mem[addr] else 0
  }

  /** The memory after `write`: one cell replaced in range, nothing outside it. */
  function Store(mem: seq<bv8>, addr: int, data: bv8): (r: seq<bv8>)
    requires |mem| == RamSize
    ensures |r| == RamSize
    ensures forall a :: 0 <= a < RamSize && a != addr ==> r[a] == mem[a]
    ensures 0 <= addr < RamSize ==> r[addr] == data
  {
    if 0 <= addr < |mem| then mem[addr := data] else mem
  }

  class Bus {
    const ram: array<bv8>

    /** Every one of the 65536 bytes starts at zero. */
    constructor ()
      ensures ram.Length == RamSize
      ensures forall i :: 0 <= i < RamSize ==> ram[i] == 0
      ensures fresh(ram)
    {
      ram := new bv8[RamSize];
      new;
      var i := 0;
      while i < ram.Length
        invariant 0 <= i <= ram.Length
        invariant forall j :: 0 <= j < i ==> ram[j] == 0
      {
        ram[i] := 0;
        i := i + 1;
      }
    }

    method Read(addr: int) returns (data: bv8)
      requires ram.Length == RamSize
      ensures data == Load(ram[..], addr)
    {
      data := 0;
      if addr >= 0 && addr < ram.Length {
        data := ram[addr];
      }
    }

    method Write(addr: int, data: bv8)
      requires ram.Length == RamSize
      modifies ram
      ensures ram[..] == Store(old(ram[..]), addr, data)
    {
      if addr >= 0 && addr < ram.Length {
        ram[addr] := data;
      }
    }
  }

  /** A write in range is read back unchanged. */
  lemma ReadAfterWrite(mem: seq<bv8>, addr: int, data: bv8)
    requires |mem| == RamSize
    requires 0 <= addr < RamSize
    ensures Load(Store(mem, addr, data), addr) == data
  {
  }

  /** A write leaves every other address as it was, in and out of range. */
  lemma WriteIsLocal(mem: seq<bv8>, addr: int, other: int, data: bv8)
    requires |mem| == RamSize
    requires other != addr
    ensures Load(Store(mem, addr, data), other) == Load(mem, other)
  {
  }

  /** A write outside 0..0xFFFF is dropped. */
  lemma OutOfRangeWriteIsDropped(mem: seq<bv8>, addr: int, data: bv8)
    requires |mem| == RamSize
    requires addr < 0 || addr >= RamSize
    ensures Store(mem, addr, data) == mem
  {
  }

  /** There is no mirroring of the 2 KB internal RAM: a write to 0x0000 is not
      seen at 0x0800, 0x1000 or 0x1800. */
  lemma NoRamMirroring(mem: seq<bv8>, data: bv8, k: int)
    requires |mem| == RamSize
    requires 1 <= k <= 3
    ensures Load(Store(mem, 0, data), 0x800 * k) == Load(mem, 0x800 * k)
  {
  }
}
