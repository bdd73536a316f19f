# NES core: PPU registers and background pipeline, controller, CPU reset, bus

This is a Dafny model of the core of a small Java NES emulator. It has four parts:

- **The 2C02 picture processing unit** (`Ppu.java`):
  - the CPU-facing register file at 0x2000-0x2007, repeating every eight addresses;
  - the two-write PPUSCROLL/PPUADDR protocol over the 15-bit `v`/`t` registers and fine X;
  - buffered PPUDATA reads;
  - the PPU's own 14-bit address space, with nametable mirroring and palette aliasing;
  - the background fetch/shift pipeline and the scroll increments;
  - the scanline/cycle/frame counter with vertical blank;
  - the frame buffer writes.
- **The standard joypad** (`Controller.java`): button state, latch and strobe. Reads are serial and MSB first.
- **The CPU registers** (`cpu/Cpu.java`): reset from the vector at 0xFFFC/0xFFFD, bus delegation, and the status flag helpers.
- **The bus** (`Bus.java`): a flat, zero-filled 64 KB byte array with bounds-checked `read` and `write`.

## How the model is organised

Java `byte` becomes `bv8`. A Java `int` that the source masks, shifts or combines with bit operators becomes `bv32`: the PPU register addresses and values, `v`/`t`, the background latches and shifters, the controller's button state and latch, the CPU's `pc` and the frame-buffer pixels. An `int` that is only range-checked or counted stays a Dafny integer: the `addr` of `Bus.read`/`write` and `Cpu.read`/`write` is an `int`, `scanline` and `cycle` are `int` subset types (`PpuTiming.Scanline`, `PpuTiming.Cycle`), and the `long` frame counter is a `nat`. Byte-to-int promotion is written out as sign extension (`Common.Int`), so every mask and comparison of the source is evaluated as Java evaluates it. Casts back to `byte` keep the low eight bits (`PpuSpec.ToByte`).

Code that changes state is a class with the source's fields, and its methods are proved against specification functions:

| Dafny class | Java class | specified by |
|---|---|---|
| `NesPpu.Ppu` | `Ppu` | the functions of `PpuRegisters`, `PpuMemory` and `PpuTiming` |
| `NesController.Controller` | `Controller` | the functions of `NesController` |
| `NesCpu.Cpu` | `Cpu` | the functions of `NesCpu` |
| `NesBus.Bus` | `Bus` | `Load` and `Store` |

**Register and latch groups.** The PPU's byte registers, `vramAddr`/`tempVramAddr` (`v`/`t`), `fineX`, the write toggle, the read buffer and `nmiOutput` are gathered in the record `regs` (`PpuRegisters.Registers`). The `bgNextTile*` latches and `bgShifter*` shifters are gathered in the record `bg` (`PpuTiming.Background`). Their bounds are carried by subset types:

- `v` and `t` below 0x8000;
- fine X below 8;
- latches below 0x100, attribute bits below 4;
- scanline in 0..261, cycle in 0..340.

The types therefore carry the invariants that `clock`, `cpuWrite` and the increments preserve.

**Memories.** The PPU memories are arrays, updated in place as in the source. `ppuRead`, a private pure read, is the function `PpuMemory.ReadSpace`, which is built on the address decoder `PpuMemory.Decode`.

**The cartridge** is a value: `PpuMemory.Cartridge` holds its mirroring mode and its CHR read function, and a missing cartridge is `None`. A pattern-table write is handed to the cartridge. The model returns it as an `Option<ChrWrite>` from `Ppu.PpuWrite`/`Ppu.CpuWrite`, which makes that delegation visible in the contract.

**The NMI.** The PPU's call of `bus.nmi()` is the boolean result of `Ppu.Clock`. The bus reference is reduced to the flag `busConnected`.

**Bus mirroring.** `Bus.java` as written has no RAM mirroring, and the model follows it (`NesBus.NoRamMirroring`). Two tests expect the 2 KB mirror at 0x0800-0x1FFF, which this bus does not implement: `src/test/java/com/nes/MemoryMapTest.java:25` and `src/test/java/com/nes/IntegrationTest.java:159`.

## Model

| member | source | states |
|---|---|---|
| Common.Int | src/main/java/com/nes/cpu/Cpu.java:77 | Java's promotion of a byte to int keeps the byte as the low eight bits and sign-extends bit 7. |
| NesBus.Bus.constructor | src/main/java/com/nes/Bus.java:14-19 | All 65536 bytes of a new bus are 0. |
| NesBus.Load | src/main/java/com/nes/Bus.java:26-33 | A read returns the RAM byte for 0 <= addr < 65536 and 0 for any other address. |
| NesBus.Bus.Read | src/main/java/com/nes/Bus.java:26-33 | `read` returns `Load` of the current RAM. |
| NesBus.Store | src/main/java/com/nes/Bus.java:40-45 | A write keeps the size and every other address, and puts `data` at an in-range address. |
| NesBus.Bus.Write | src/main/java/com/nes/Bus.java:40-45 | `write` replaces the RAM with `Store` of the old RAM. |
| NesBus.ReadAfterWrite | src/main/java/com/nes/Bus.java:26-45 | An in-range write is read back unchanged. |
| NesBus.WriteIsLocal | src/main/java/com/nes/Bus.java:40-45 | A write leaves the read of every other address unchanged. |
| NesBus.OutOfRangeWriteIsDropped | src/main/java/com/nes/Bus.java:42-44 | A write outside 0..0xFFFF leaves the memory unchanged. |
| NesBus.NoRamMirroring | src/main/java/com/nes/Bus.java:29-44 | A write to 0x0000 is not seen at 0x0800, 0x1000 or 0x1800. |
| NesCpu.Cpu.constructor | src/main/java/com/nes/cpu/Cpu.java:11-16 | A new CPU has A = X = Y = 0, SP = 0xFD, PC = 0, status 0, and no bus. |
| NesCpu.Cpu.ConnectBus | src/main/java/com/nes/cpu/Cpu.java:30-32 | The given bus becomes the CPU's bus. |
| NesCpu.Word | src/main/java/com/nes/cpu/Cpu.java:45-47 | `(hi << 8) \| lo` on the unsigned bytes is below 0x10000, its low byte is `lo` and its high byte is `hi`. |
| NesCpu.ResetRegisters | src/main/java/com/nes/cpu/Cpu.java:37-47 | After reset A = X = Y = 0, SP = 0xFD, status = U, and PC is the little-endian word at 0xFFFC/0xFFFD; the result does not depend on the old registers, so a second reset changes nothing. |
| NesCpu.Cpu.Reset | src/main/java/com/nes/cpu/Cpu.java:37-51 | The registers after `reset` are `ResetRegisters` of the bus memory, and the bus is only read. |
| NesCpu.Cpu.Read | src/main/java/com/nes/cpu/Cpu.java:56-58 | `read` returns what the bus returns for the same address. |
| NesCpu.Cpu.Write | src/main/java/com/nes/cpu/Cpu.java:63-65 | `write` performs the bus write of the same address and data. |
| NesCpu.WithFlag | src/main/java/com/nes/cpu/Cpu.java:68-74 | Setting sets exactly the bits of the flag and clearing clears exactly them; every other status bit is kept. |
| NesCpu.Cpu.SetFlag | src/main/java/com/nes/cpu/Cpu.java:68-74 | The new status is `WithFlag` of the old one. |
| NesCpu.FlagAsWritten | src/main/java/com/nes/cpu/Cpu.java:76-78 | `getFlag` as written returns 0 or 1; for C, Z, I, D, B, U and V it returns 1 exactly when the bit is set; for N it always returns 0. |
| NesCpu.Cpu.GetFlag | src/main/java/com/nes/cpu/Cpu.java:76-78 | `getFlag` returns `FlagAsWritten` of the status. |
| NesCpu.FlagIntended | src/main/java/com/nes/cpu/Cpu.java:76-78 | The corrected flag test returns 1 exactly when a bit of the flag is set in the status. |
| NesCpu.NegativeFlagDiscrepancy | src/main/java/com/nes/cpu/Cpu.java:76-78 | The as-written and corrected tests agree on the flags in bits 0-6, and disagree on N whenever N is set. |
| NesController.PressButtons | src/main/java/com/nes/Controller.java:38-44 | Pressing or releasing sets every button of the mask to the new value and keeps every bit outside the mask. |
| NesController.PressSetsButtons | src/main/java/com/nes/Controller.java:38-40 | Pressing sets every button of the mask and keeps every other bit of the state. |
| NesController.ReleaseClearsButtons | src/main/java/com/nes/Controller.java:41-43 | Releasing clears every button of the mask and keeps every other bit of the state. |
| NesController.Controller.constructor | src/main/java/com/nes/Controller.java:21-31 | A new controller has no button pressed, an empty latch and the strobe low. |
| NesController.Controller.SetButtonPressed | src/main/java/com/nes/Controller.java:38-44 | The new state is the old state with the mask's buttons pressed or released. |
| NesController.Controller.CpuWrite | src/main/java/com/nes/Controller.java:51-72 | The strobe becomes bit 0 of the data; with the strobe high the latch takes the button state, otherwise the latch is kept. |
| NesController.ReportedBit | src/main/java/com/nes/Controller.java:86-92 | A read reports 1 exactly when button A (bit 7) is set in the latch, else 0. |
| NesController.Controller.CpuRead | src/main/java/com/nes/Controller.java:79-99 | With the strobe high a read reloads the latch and reports button A, so repeated reads agree. With the strobe low it reports bit 7 of the latch and shifts the latch left, so the read and the next seven give the eight reads `Reads` of the old latch. |
| NesController.Reads | src/main/java/com/nes/Controller.java:91-96 | `n` reads with the strobe low give `n` answers, each 0 or 1. |
| NesController.PressedShift | src/main/java/com/nes/Controller.java:10-17 | Each button mask is the next one in serial order shifted left by one, so one shift of the latch moves the next button into place. |
| NesController.ReadsAreMsbFirst | src/main/java/com/nes/Controller.java:91-96 | Read k reports the k-th button of A, B, Select, Start, Up, Down, Left, Right. |
| NesController.ClearLatchReadsZero | src/main/java/com/nes/Controller.java:91-96 | Once the low byte of the latch is clear, every read reports 0. |
| NesController.ShiftedInZerosReadZero | src/main/java/com/nes/Controller.java:91-96 | Each shift brings a zero in at bit 0; from the (8 - j)-th read on, a latch with j low zero bits reports only 0. |
| NesController.ReadsAfterEighthAreZero | src/main/java/com/nes/Controller.java:91-96 | Whatever the latch holds, the ninth read with the strobe low and every read after it report 0. |
| NesController.SerialReadExample | src/test/java/com/nes/ControllerTest.java:35-54 | With A, Select, Up and Right pressed, the eight reads are 1, 0, 1, 0, 1, 0, 0, 1. |
| NesController.SerialReadScenario | src/test/java/com/nes/ControllerTest.java:33-54 | A new controller with A, Select, Up and Right pressed, written 1 then 0, gives 1, 0, 1, 0, 1, 0, 0, 1 on eight `CpuRead` calls. |
| PpuSpec.ToByte | src/main/java/com/nes/Ppu.java:115 | The `(byte)` cast keeps the low eight bits. |
| PpuSpec.FieldsDetermine | src/main/java/com/nes/Ppu.java:16-17 | A 15-bit `v`/`t` value is determined by its coarse X, coarse Y, nametable select and fine Y fields. |
| PpuSpec.RegisterSelect | src/main/java/com/nes/Ppu.java:106 | The register select is below 8. |
| PpuSpec.RegisterSelectMirrors | src/main/java/com/nes/Ppu.java:106 | The register select is the CPU address modulo 8, so `addr` and `addr + 8` reach the same register. |
| PpuSpec.StatusReadValue | src/main/java/com/nes/Ppu.java:115 | A PPUSTATUS read returns the top three status bits over the low five bits of the read buffer. |
| PpuSpec.StatusAfterRead | src/main/java/com/nes/Ppu.java:118 | A PPUSTATUS read clears vblank (bit 7) and keeps the other status bits. |
| PpuSpec.CtrlWriteT | src/main/java/com/nes/Ppu.java:168 | A PPUCTRL write keeps `t` within 15 bits. |
| PpuSpec.CtrlWriteFields | src/main/java/com/nes/Ppu.java:168 | A PPUCTRL write puts data bits 0-1 into the nametable select of `t` and keeps coarse X, coarse Y and fine Y. |
| PpuSpec.NmiEnabled | src/main/java/com/nes/Ppu.java:165 | `nmiOutput` is bit 7 of PPUCTRL. |
| PpuSpec.ScrollFineX | src/main/java/com/nes/Ppu.java:193 | The first PPUSCROLL write sets fine X to the low three data bits. |
| PpuSpec.ScrollFirstT | src/main/java/com/nes/Ppu.java:192 | The first PPUSCROLL write keeps `t` within 15 bits. |
| PpuSpec.ScrollFirstFields | src/main/java/com/nes/Ppu.java:192 | The first PPUSCROLL write sets coarse X to `data >> 3` and keeps the other fields of `t`. |
| PpuSpec.ScrollSecondT | src/main/java/com/nes/Ppu.java:198-199 | The second PPUSCROLL write keeps `t` within 15 bits. |
| PpuSpec.ScrollSecondFields | src/main/java/com/nes/Ppu.java:198-199 | The second PPUSCROLL write sets fine Y to `data & 7` and coarse Y to `data >> 3`, and keeps coarse X and the nametable select. |
| PpuSpec.AddrHighT | src/main/java/com/nes/Ppu.java:209 | The first PPUADDR write leaves `t` below 0x4000. |
| PpuSpec.AddrHighFields | src/main/java/com/nes/Ppu.java:209 | The first PPUADDR write sets bits 8-13 of `t` from the data, clears bit 14 and keeps the low byte. |
| PpuSpec.AddrLowT | src/main/java/com/nes/Ppu.java:215 | The second PPUADDR write keeps `t` within 15 bits. |
| PpuSpec.AddrLowFields | src/main/java/com/nes/Ppu.java:215 | The second PPUADDR write sets the low byte of `t` to the data and keeps the rest. |
| PpuSpec.AddrPairLoads | src/main/java/com/nes/Ppu.java:209-216 | A PPUADDR pair sets `t` to `((hi & 0x3F) << 8) \| lo`, whatever `t` was. |
| PpuSpec.OamIndex | src/main/java/com/nes/Ppu.java:128 | The OAM port index is the OAM address read as an unsigned byte. |
| PpuSpec.DataAddrAfter | src/main/java/com/nes/Ppu.java:148-149 | After a PPUDATA access `v` is below 0x4000. |
| PpuSpec.DataAddrAdvances | src/main/java/com/nes/Ppu.java:148-149 | A PPUDATA access advances `v` by 32 when PPUCTRL bit 2 is set, else by 1, modulo 0x4000. |
| PpuSpec.CoarseXIncrement | src/main/java/com/nes/Ppu.java:348-353 | One tile right keeps `v` within 15 bits. |
| PpuSpec.CoarseXIncrementFields | src/main/java/com/nes/Ppu.java:348-353 | Coarse X steps by one; from 31 it wraps to 0 and toggles the horizontal nametable bit; coarse Y and fine Y are kept. |
| PpuSpec.FineYIncrement | src/main/java/com/nes/Ppu.java:358-371 | One row down keeps `v` within 15 bits. |
| PpuSpec.FineYIncrementFields | src/main/java/com/nes/Ppu.java:358-371 | Fine Y steps by one below 7. At 7 it goes to 0 and coarse Y steps: 29 wraps to 0 and toggles the vertical nametable bit, 31 wraps to 0 without the toggle, others add one. Coarse X is kept. |
| PpuSpec.CopyHorizontal | src/main/java/com/nes/Ppu.java:391 | The dot-257 copy keeps `v` within 15 bits. |
| PpuSpec.CopyHorizontalFields | src/main/java/com/nes/Ppu.java:391 | The dot-257 copy takes coarse X and the horizontal nametable bit from `t`, and keeps fine Y, coarse Y and the vertical nametable bit of `v`. |
| PpuSpec.CopyVertical | src/main/java/com/nes/Ppu.java:392 | The pre-render copy keeps `v` within 15 bits. |
| PpuSpec.CopyVerticalFields | src/main/java/com/nes/Ppu.java:392 | The pre-render copy takes fine Y, coarse Y and the vertical nametable bit from `t`, and keeps coarse X and the horizontal nametable bit of `v`. |
| PpuSpec.NametableFetchAddr | src/main/java/com/nes/Ppu.java:319-322 | The tile id is fetched in 0x2000-0x2FFF at the twelve low bits of `v`. |
| PpuSpec.AttributeFetchAddr | src/main/java/com/nes/Ppu.java:324-325 | The attribute byte lies in the last 64 bytes (0x3C0-0x3FF) of the nametable `v` selects. Its bits 0-2 are coarse X / 4 and bits 3-5 coarse Y / 4, so it is the byte of the 4x4-tile block holding the tile. |
| PpuSpec.AttributeBits | src/main/java/com/nes/Ppu.java:326-329 | The fetched attribute is two bits. |
| PpuSpec.AttributeBitsQuadrant | src/main/java/com/nes/Ppu.java:326-329 | The two bits are those of the tile's quadrant: bit 1 of coarse Y picks the high nibble, bit 1 of coarse X the high pair. |
| PpuSpec.PatternFetchAddr | src/main/java/com/nes/Ppu.java:332-344 | For a tile id from the nametable latch (below 0x100) and plane 0 or 8, the pattern address lies in pattern memory, below 0x2000. |
| PpuSpec.PatternFetchAddrFields | src/main/java/com/nes/Ppu.java:332-344 | The pattern address is below 0x2000. Bits 0-2 are fine Y, bit 3 the plane, bits 4-11 the tile id, and bit 12 is PPUCTRL bit 4. |
| PpuSpec.LoadShifter | src/main/java/com/nes/Ppu.java:463-469 | Loading puts the next byte in the low eight bits of a shifter, keeps bits 8-15 and drops the rest. |
| PpuSpec.AttributeFill | src/main/java/com/nes/Ppu.java:467-468 | An attribute shifter byte is 0xFF exactly when its palette bit is set, else 0. |
| PpuSpec.ColorFromPalette | src/main/java/com/nes/Ppu.java:420-424 | The pixel colour is one of the 64 system palette colours. |
| PpuSpec.PaletteEntry | src/main/java/com/nes/Ppu.java:421 | The entry `(palette << 2) \| pixel` of a background palette and pixel value is one of the 16 background entries of palette RAM. |
| PpuSpec.ColorFromPaletteEntry | src/main/java/com/nes/Ppu.java:420-424 | Palette p, pixel i is palette RAM entry 4p + i, and only its low six bits choose the colour. |
| PpuSpec.ShifterBit | src/main/java/com/nes/Ppu.java:442-449 | The bit a shifter presents is 0 or 1. |
| PpuSpec.ShifterBitSelects | src/main/java/com/nes/Ppu.java:442-449 | Fine X selects bit 15 - fineX of the shifter. |
| PpuSpec.ShiftLeft | src/main/java/com/nes/Ppu.java:474-481 | After one shift, fine X selects the bit that fine X + 1 selected before, so the pipeline moves one pixel per dot. |
| PpuSpec.PlaneBits | src/main/java/com/nes/Ppu.java:444-450 | A pixel or palette value built from two shifters is below 4. Its bit 1 is the bit fine X selects in the high shifter and its bit 0 the one it selects in the low shifter. |
| PpuSpec.PixelColor | src/main/java/com/nes/Ppu.java:437-454 | The pixel colour is a system palette colour. With the background shown it is the colour of palette RAM entry 4 * palette + pixel, where the attribute shifters give the palette and the pattern shifters the pixel at fine X; only the low six bits of the entry count. With the background hidden it is the colour of entry 0. |
| PpuMemory.ModeZeroFold | src/main/java/com/nes/Ppu.java:252-254 | The mode-0 fold as written puts a nametable address in the first or the third KB: below 0xC00 with bit 10 clear. |
| PpuMemory.ModeOneFold | src/main/java/com/nes/Ppu.java:255-257 | The mode-1 fold keeps the low eleven bits of a nametable address. |
| PpuMemory.NametableOffset | src/main/java/com/nes/Ppu.java:247-260 | The nametable RAM offset is below 0x800. |
| PpuMemory.NametableOffsetFolds | src/main/java/com/nes/Ppu.java:247-260 | Mirror mode 0 as written keeps the ten low bits of the nametable address; every other case, including no cartridge, keeps eleven. |
| PpuMemory.NametableIndex | src/main/java/com/nes/Ppu.java:260 | The nametable RAM index is within the 2 KB array. |
| PpuMemory.PaletteIndex | src/main/java/com/nes/Ppu.java:264-272 | Palette index 0x10, 0x14, 0x18 or 0x1C reaches the entry 0x10 lower; every other index reaches itself. |
| PpuMemory.Decode | src/main/java/com/nes/Ppu.java:235-273 | The address is cut to 14 bits. Below 0x2000 it is pattern memory at that address, from 0x3F00 it is palette RAM, and in between nametable RAM. The indices are in bounds. |
| PpuMemory.ReadSpace | src/main/java/com/nes/Ppu.java:235-274 | `ppuRead` decodes the address; a pattern read without a cartridge returns 0. |
| PpuMemory.WriteSpace | src/main/java/com/nes/Ppu.java:279-317 | `ppuWrite` decodes the address. A pattern write leaves nametable and palette RAM alone, a palette write leaves the nametables alone, and a nametable write leaves the palette alone. |
| PpuMemory.NametableWrite | src/main/java/com/nes/Ppu.java:289-303 | A nametable write stores at the mirrored index of the twelve low bits. |
| PpuMemory.PaletteWrite | src/main/java/com/nes/Ppu.java:306-315 | A palette write stores at the aliased index of the five low bits. |
| PpuMemory.ChrWriteOf | src/main/java/com/nes/Ppu.java:283-287 | A pattern-table write reaches the cartridge's CHR port at the 14-bit address exactly when a cartridge is connected. |
| PpuMemory.ReadAfterWrite | src/main/java/com/nes/Ppu.java:235-317 | A byte written to nametable or palette RAM reads back at the same address. |
| PpuMemory.WriteIsolation | src/main/java/com/nes/Ppu.java:235-317 | A write leaves every address that decodes to other storage unchanged. |
| PpuMemory.PaletteAliases | src/main/java/com/nes/Ppu.java:267-270 | 0x3F10/14/18/1C and 0x3F00/04/08/0C are the same bytes; a write through either is read back through the other. |
| PpuMemory.PaletteNonAliases | src/main/java/com/nes/Ppu.java:264-272 | The other palette entries 0x3F1x are distinct from 0x3F0x. |
| PpuMemory.PaletteRepeats | src/main/java/com/nes/Ppu.java:264 | Palette RAM repeats every 32 bytes up to 0x3FFF. |
| PpuMemory.NametableSpaceRepeats | src/main/java/com/nes/Ppu.java:236-247 | 0x3000-0x3EFF reaches the same bytes as 0x2000-0x2EFF, and the whole space repeats every 0x4000. |
| PpuMemory.VerticalMirroring | src/main/java/com/nes/Ppu.java:255-257 | In mode 1, NT2 mirrors NT0 and NT3 mirrors NT1, while NT0 and NT1 are distinct. |
| PpuMemory.HorizontalMirroringAsWritten | src/main/java/com/nes/Ppu.java:252-254 | In mode 0 as written, all four nametables reach the same 1 KB of RAM. |
| PpuMemory.HorizontalWriteClobbers | src/test/java/com/nes/MirroringTest.java:24-35 | In mode 0 as written, after 0xAA goes to 0x2000 and 0xBB to 0x2800, 0x2000 reads 0xBB. |
| PpuMemory.HorizontalOffset | src/main/java/com/nes/Ppu.java:252-254 | The intended mode-0 offset is below 0x800. |
| PpuMemory.HorizontalMirroringIntended | src/test/java/com/nes/MirroringTest.java:23-35 | With the intended mode 0, NT1 mirrors NT0 and NT3 mirrors NT2, and NT0 and NT2 are the two distinct halves of the RAM. |
| PpuRegisters.ReadRegister | src/main/java/com/nes/Ppu.java:103-154 | Per register: PPUSTATUS returns `StatusReadValue`, clears vblank and the toggle. OAMDATA returns `oam[oamAddr]` and changes nothing. PPUDATA refills the buffer from `v`, returns the old buffer (the fresh byte for a palette address) and advances `v`. Every other register reads 0 and changes nothing. |
| PpuRegisters.WriteRegister | src/main/java/com/nes/Ppu.java:159-230 | A write never touches the status or the read buffer. Only PPUCTRL sets the control byte and `nmiOutput` (bit 7); only PPUMASK sets the mask. OAMADDR sets and OAMDATA increments the OAM address mod 256. The toggle flips exactly on PPUSCROLL/PPUADDR; `t` moves only on PPUCTRL/PPUSCROLL/PPUADDR. Fine X moves only on a first PPUSCROLL write, `v` only on a second PPUADDR write or a PPUDATA access. A write to PPUCTRL, PPUSCROLL or PPUADDR gives exactly the registers `WriteCtrl`, `WriteScroll` or `WriteAddr` give. |
| PpuRegisters.WriteCtrl | src/main/java/com/nes/Ppu.java:161-169 | A PPUCTRL write stores the byte, sets `nmiOutput` to bit 7 and the nametable select of `t` to bits 0-1. Coarse X, coarse Y and fine Y of `t` and every other register are kept. |
| PpuRegisters.WriteScroll | src/main/java/com/nes/Ppu.java:187-202 | The first PPUSCROLL write of a pair sets coarse X of `t` to `data >> 3` and fine X to `data & 7`. The second sets fine Y to `data & 7` and coarse Y to `data >> 3`. Each flips the toggle and keeps the other fields of `t` and every other register. |
| PpuRegisters.WriteAddr | src/main/java/com/nes/Ppu.java:204-219 | The first PPUADDR write of a pair sets bits 8-13 of `t` to `data & 0x3F`, clearing bit 14, and keeps the low byte. The second sets the low byte and copies `t` into `v`. Each flips the toggle and keeps every other register. |
| PpuRegisters.OamAfterWrite | src/main/java/com/nes/Ppu.java:182-185 | An OAMDATA write stores the byte at the OAM address; other writes leave OAM alone. |
| PpuRegisters.VideoAfterWrite | src/main/java/com/nes/Ppu.java:221-223 | A PPUDATA write goes through `ppuWrite` at `v`; other writes leave nametable and palette RAM alone. |
| PpuRegisters.ChrAfterWrite | src/main/java/com/nes/Ppu.java:221-223 | A CHR write happens exactly for a PPUDATA write to pattern memory with a cartridge connected. |
| PpuRegisters.RegistersRepeat | src/main/java/com/nes/Ppu.java:103-161 | Reads and writes at `addr` and `addr + 8` have the same effect. |
| PpuRegisters.ScrollPair | src/main/java/com/nes/Ppu.java:187-202 | Two PPUSCROLL writes from a clear toggle set coarse X, fine X, coarse Y and fine Y. They keep the nametable select, `v` and every other register, and leave the toggle clear. |
| PpuRegisters.AddrPair | src/main/java/com/nes/Ppu.java:204-219 | Two PPUADDR writes from a clear toggle leave `v = t = ((hi & 0x3F) << 8) \| lo`, the toggle clear and the other registers unchanged. |
| PpuRegisters.StatusReadThenAddrPair | src/main/java/com/nes/Ppu.java:113-122 | After a PPUSTATUS read, a PPUADDR pair loads `v` whatever the toggle was. |
| PpuRegisters.OamPortRoundTrip | src/test/java/com/nes/OamDmaTest.java:52-61 | A byte written through OAMADDR/OAMDATA reads back through OAMADDR/OAMDATA. The write advances the OAM address, the read does not. |
| PpuRegisters.BufferedDataRead | src/main/java/com/nes/Ppu.java:137-150 | Two PPUDATA reads below the palette return the stale buffer, then the byte at the first address. |
| PpuRegisters.DataWriteReadBack | src/main/java/com/nes/Ppu.java:204-228 | A byte written to nametable RAM through PPUADDR/PPUDATA is returned by the second PPUDATA read after the same PPUADDR pair. |
| PpuTiming.NextDot | src/main/java/com/nes/Ppu.java:400-408 | One dot keeps cycle in 0..340 and scanline in 0..261, moves one position through the frame, and increments the frame exactly when (261, 340) wraps to (0, 0). |
| PpuTiming.Advance | src/main/java/com/nes/Ppu.java:400-408 | The counters stay in range over any number of dots. |
| PpuTiming.AdvanceCounts | src/main/java/com/nes/Ppu.java:400-408 | After n dots the counter has moved n positions modulo the 89342 dots of a frame, and the frame count has grown by the frame boundaries crossed. |
| PpuTiming.FramesArePeriodic | src/main/java/com/nes/Ppu.java:400-408 | A whole number of frames of dots returns to the same scanline and cycle, that many frames later. |
| PpuTiming.StatusAtDot | src/main/java/com/nes/Ppu.java:395-399 | Bit 7 of the status is set at (241, 1) and bits 5-7 are cleared at (261, 1); the other bits are kept, and no other dot changes the status. |
| PpuTiming.SetVBlank | src/main/java/com/nes/Ppu.java:396 | `ppuStatus \|= 0x80` sets bit 7 and keeps bits 0-6. |
| PpuTiming.ClearVBlank | src/main/java/com/nes/Ppu.java:399 | `ppuStatus &= ~0xE0` clears bits 5-7 and keeps bits 0-4. |
| PpuTiming.ScrollXStep | src/main/java/com/nes/Ppu.java:346-354 | `incrementScrollX` changes nothing unless rendering is enabled (mask bits 3-4), and keeps `v` within 15 bits. |
| PpuTiming.ScrollYStep | src/main/java/com/nes/Ppu.java:356-373 | `incrementScrollY` changes nothing unless rendering is enabled, and keeps `v` within 15 bits. |
| PpuTiming.SlotPhase | src/main/java/com/nes/Ppu.java:382 | The tile-slot phase of a dot is in 0..7. |
| PpuTiming.VAfterFetch | src/main/java/com/nes/Ppu.java:380-388 | Only phase 7 of a fetch cycle can move `v`. |
| PpuTiming.VAfterScroll | src/main/java/com/nes/Ppu.java:390-392 | The dot-256/257 and pre-render scroll updates keep `v` within 15 bits and do nothing without rendering. |
| PpuTiming.VAfterDot | src/main/java/com/nes/Ppu.java:379-392 | A dot keeps `v` within 15 bits and changes it only on a render line while rendering. |
| PpuTiming.VAfterDotCases | src/main/java/com/nes/Ppu.java:379-392 | While rendering on a render line, every eighth fetch dot moves one tile right and dot 256 also one row down. Dot 257 reloads the horizontal position from `t`, dots 280-304 of line 261 the vertical one. No other dot changes `v`. |
| PpuTiming.ShiftBackground | src/main/java/com/nes/Ppu.java:474-481 | The shifters move only while the background is shown, and the fetch latches are kept. |
| PpuTiming.LoadBackground | src/main/java/com/nes/Ppu.java:463-469 | Loading the shifters changes only the shifters. |
| PpuTiming.Fetched | src/main/java/com/nes/Ppu.java:321 | `ppuRead(addr) & 0xFF` is the fetched byte read as unsigned. |
| PpuTiming.FetchNametable | src/main/java/com/nes/Ppu.java:319-322 | The tile id latch takes the byte at the nametable fetch address; nothing else changes. |
| PpuTiming.FetchAttribute | src/main/java/com/nes/Ppu.java:324-330 | The attribute latch takes the two bits of the tile's quadrant from the byte at `AttributeFetchAddr`: bits 4-7 when bit 1 of coarse Y is set, bits 2-3 of that nibble when bit 1 of coarse X is set. Nothing else changes. |
| PpuTiming.FetchPattern | src/main/java/com/nes/Ppu.java:332-344 | The low (plane 0) or high (plane 8) pattern latch takes the byte of the fetched tile's row; nothing else changes. |
| PpuTiming.Fetch | src/main/java/com/nes/Ppu.java:382-388 | Phases other than 0, 2, 4 and 6 leave the pipeline unchanged. |
| PpuTiming.BackgroundAfterDot | src/main/java/com/nes/Ppu.java:379-389 | The pipeline changes only on fetch cycles of render lines. |
| PpuTiming.PixelIndex | src/main/java/com/nes/Ppu.java:430-457 | The pixel of a visible dot is in the frame buffer, at row scanline and column cycle - 1. |
| PpuTiming.PixelIndexInjective | src/main/java/com/nes/Ppu.java:430-457 | Different visible dots draw different pixels. |
| NesPpu.Ppu.constructor | src/main/java/com/nes/Ppu.java:9-52 | A new PPU has every register, latch, counter and memory byte zero, and no cartridge or bus. |
| NesPpu.Ppu.ConnectCartridge | src/main/java/com/nes/Ppu.java:69-71 | The given cartridge is connected. |
| NesPpu.Ppu.ConnectBus | src/main/java/com/nes/Ppu.java:73-75 | A bus is connected. |
| NesPpu.Ppu.Reset | src/main/java/com/nes/Ppu.java:80-98 | Registers and counters go back to zero, `nmiOccurred` is cleared, and memory, the pipeline and the connections are kept. |
| NesPpu.Ppu.CpuRead | src/main/java/com/nes/Ppu.java:103-154 | The byte returned and the new registers are those of `ReadRegister`. |
| NesPpu.Ppu.CpuWrite | src/main/java/com/nes/Ppu.java:159-230 | The new registers, OAM, nametable/palette RAM and CHR write are those of `WriteRegister`, `OamAfterWrite`, `VideoAfterWrite` and `ChrAfterWrite`. |
| NesPpu.Ppu.WriteOamData | src/main/java/com/nes/Ppu.java:182-185 | The byte is stored at the OAM address, which then advances mod 256; no other register changes. |
| NesPpu.Ppu.WritePpuData | src/main/java/com/nes/Ppu.java:221-228 | The byte is written at `v` through `ppuWrite`, then `v` advances; no other register changes. |
| NesPpu.Ppu.PpuWrite | src/main/java/com/nes/Ppu.java:279-317 | Nametable and palette RAM become `WriteSpace` of their old contents, and the CHR write is `ChrWriteOf`. |
| NesPpu.Ppu.WriteNametable | src/main/java/com/nes/Ppu.java:289-304 | A nametable write updates the RAM as `WriteSpace` says. |
| NesPpu.Ppu.WritePalette | src/main/java/com/nes/Ppu.java:306-316 | A palette write updates the RAM as `WriteSpace` says. |
| NesPpu.Ppu.FetchNametableByte | src/main/java/com/nes/Ppu.java:319-322 | The pipeline becomes `FetchNametable` of the old one. |
| NesPpu.Ppu.FetchAttributeByte | src/main/java/com/nes/Ppu.java:324-330 | The pipeline becomes `FetchAttribute` of the old one. |
| NesPpu.Ppu.FetchPatternLow | src/main/java/com/nes/Ppu.java:332-337 | The pipeline becomes `FetchPattern` plane 0 of the old one. |
| NesPpu.Ppu.FetchPatternHigh | src/main/java/com/nes/Ppu.java:339-344 | The pipeline becomes `FetchPattern` plane 8 of the old one. |
| NesPpu.Ppu.IncrementScrollX | src/main/java/com/nes/Ppu.java:346-354 | `v` becomes `ScrollXStep` of the old `v`, and no other register changes. |
| NesPpu.Ppu.IncrementScrollY | src/main/java/com/nes/Ppu.java:356-373 | `v` becomes `ScrollYStep` of the old `v`, and no other register changes. |
| NesPpu.Ppu.LoadBackgroundShifters | src/main/java/com/nes/Ppu.java:463-469 | The pipeline becomes `LoadBackground` of the old one. |
| NesPpu.Ppu.UpdateShifters | src/main/java/com/nes/Ppu.java:474-481 | The pipeline becomes `ShiftBackground` of the old one. |
| NesPpu.Ppu.RenderPixel | src/main/java/com/nes/Ppu.java:429-458 | On a visible dot, only the dot's own frame buffer entry changes, to `PixelColor` of the shifters. Any other dot leaves the frame buffer unchanged. |
| NesPpu.Ppu.StorePixel | src/main/java/com/nes/Ppu.java:457 | Exactly one frame buffer entry is replaced. |
| NesPpu.Ppu.Clock | src/main/java/com/nes/Ppu.java:378-409 | One dot: the counters become `NextDot`, the status `StatusAtDot` and `v` `VAfterDot`, with no other register changed. An NMI is raised exactly at (241, 1) with `nmiOutput` set and a bus connected. The pipeline becomes `BackgroundAfterDot` and the frame buffer changes as `RenderPixel` says. |
| NesPpu.Ppu.DotWork | src/main/java/com/nes/Ppu.java:379-399 | The rendering part of a dot followed by the vblank part, with `Clock`'s effect on registers, pipeline, NMI and frame buffer. |
| NesPpu.Ppu.RenderDot | src/main/java/com/nes/Ppu.java:379-394 | The rendering part of a dot: `v` as `VAfterDot`, the pipeline as `BackgroundAfterDot`, and the pixel. |
| NesPpu.Ppu.RenderLineDot | src/main/java/com/nes/Ppu.java:380-393 | On a render line: the fetch and scroll updates of `v` and the pipeline, then the pixel of a visible dot. |
| NesPpu.Ppu.FetchAndScrollDot | src/main/java/com/nes/Ppu.java:380-392 | On a render line: shift and fetch on fetch cycles with the `v` of before the dot, then the scroll updates. |
| NesPpu.Ppu.BackgroundDot | src/main/java/com/nes/Ppu.java:380-389 | On a fetch cycle: the shifters move, then the fetch of the dot's tile-slot phase. |
| NesPpu.Ppu.FetchDot | src/main/java/com/nes/Ppu.java:382-388 | The fetch of one tile-slot phase is `Fetch`, and phase 7 steps coarse X. |
| NesPpu.Ppu.ScrollDot | src/main/java/com/nes/Ppu.java:390-392 | `v` becomes `VAfterScroll`, and no other register changes. |
| NesPpu.Ppu.VBlankDot | src/main/java/com/nes/Ppu.java:395-399 | The status becomes `StatusAtDot`, and an NMI is raised exactly at (241, 1) with `nmiOutput` set and a bus connected. |
| NesPpu.Ppu.AdvanceCounters | src/main/java/com/nes/Ppu.java:400-408 | The counters become `NextDot` of the old counters. |

## Left out

- Sprites are not modelled: sprite evaluation, 8x16 sprites, sprite-0 hit and status bit 6. Ppu.java renders only the background, and OAM is only a byte array behind its CPU port.
- OAM DMA at 0x4014 and controller routing at 0x4016/0x4017 are not part of this model. Neither `Bus.java` nor `Ppu.java` implements them.
- The 6502 instruction set, `Cpu.clock`, `Bus.clock`, `connectCpu` and `getPpu` are not part of this model. `Cpu.java` and `Bus.java` do not implement them.
- The cartridge is a value: a mirroring mode and a CHR read function, with CHR writes returned to the caller. The mapper, PRG memory and CHR RAM behind them are not part of this model.
- `bus.nmi()` is the boolean result of `NesPpu.Ppu.Clock`. The bus reference is the flag `busConnected`, since the bus has no NMI input to model.
- The RGB values of the system palette are copied into `PpuSpec.NesPalette`. A pixel colour is stated as the table entry that palette RAM selects; nothing is stated about the RGB values themselves.
- `EmulatorWindow.java` (Swing window, key listener, repaint timer) and `Main.java` (wiring and console output) are I/O and are not modelled. The PPU's debug getters are plain field reads.
- `NesCpu.Cpu.Reset`, `NesCpu.Cpu.Read`, `NesCpu.Cpu.Write`: the Java methods throw a NullPointerException when no bus is connected. The model requires a connected bus instead of modelling the exception.
- `NesPpu.Ppu.Reset`: as in the source, it clears neither the background latches and shifters nor any memory.
- `nmiOccurred` is a field that only the constructor and `reset` write, as in the source; nothing reads it.
- The frame counter is a Java `long`. It is an unbounded `nat` here, because reaching 2^63 frames is out of reach.

## Findings

The classes follow the code as written, so `NesCpu.Cpu.GetFlag` and `NesPpu.Ppu` keep the as-written behaviour. The corrected definitions stand beside them as reference definitions, with the intended property proved about each.

| source | as written | input that shows it | evidently intended | confidence | as-written member | corrected member |
|---|---|---|---|---|---|---|
| src/main/java/com/nes/cpu/Cpu.java:77 | `(status & flag) > 0` compares sign-extended bytes. For `N` = `(byte) 0x80`, the masked value is negative, so `getFlag(N)` is always 0. | status 0x80, flag N: returns 0 (ArithmeticTest.java:58 expects 1) | 1 exactly when the flag's bit is set, for all eight flags | high (not executed) | NesCpu.FlagAsWritten, NesCpu.NegativeFlagDiscrepancy | NesCpu.FlagIntended |
| src/main/java/com/nes/Ppu.java:252-254 | Mirror mode 0 moves 0x400-0x7FF and 0xC00-0xFFF down by 0x400, so 0x800-0xBFF lands on 0x000-0x3FF after `& 0x7FF`, and all four nametables share one 1 KB bank. The same code is in `ppuWrite` at lines 295-297. | mode 0: write 0xAA to 0x2000, then 0xBB to 0x2800; 0x2000 reads 0xBB (MirroringTest.java:35 expects them distinct) | NT0/NT1 in the first 1 KB, NT2/NT3 in the second | high (not executed) | PpuMemory.HorizontalMirroringAsWritten, PpuMemory.HorizontalWriteClobbers | PpuMemory.HorizontalOffset, PpuMemory.HorizontalMirroringIntended |
