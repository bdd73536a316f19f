/** The standard joypad of Controller.java: an 8-bit button state, a latch
    that is shifted out MSB first, and the strobe line. */
module NesController {

  const ButtonA: bv32 := 0x80
  const ButtonB: bv32 := 0x40
  const ButtonSelect: bv32 := 0x20
  const ButtonStart: bv32 := 0x10
  const ButtonUp: bv32 := 0x08
  const ButtonDown: bv32 := 0x04
  const ButtonLeft: bv32 := 0x02
  const ButtonRight: bv32 := 0x01

  /** The order in which the buttons are shifted out. */
  const SerialOrder: seq<bv32> :=
    [ButtonA, ButtonB, ButtonSelect, ButtonStart, ButtonUp, ButtonDown, ButtonLeft, ButtonRight]

  /** The button state after pressing (p) or releasing (!p) the buttons of
      `mask`: every bit outside the mask is kept and every bit of the mask
      becomes `p`. */
  function PressButtons(state: bv32, mask: bv32, p: bool): (r: bv32)
    ensures r == (state & !mask) | (if p then mask else 0)
  {
    if p then state | mask else state & !mask
  }

  /** Pressing sets the buttons of the mask and keeps every other bit. */
  lemma PressSetsButtons(state: bv32, mask: bv32)
    ensures PressButtons(state, mask, true) & mask == mask
    ensures PressButtons(state, mask, true) & !mask == state & !mask
  {
  }

  /** Releasing clears the buttons of the mask and keeps every other bit. */
  lemma ReleaseClearsButtons(state: bv32, mask: bv32)
    ensures PressButtons(state, mask, false) & mask == 0
    ensures PressButtons(state, mask, false) & !mask == state & !mask
  {
  }

  /** 1 if the button `button` is set in `s`, else 0. */
  function Pressed(s: bv32, button: bv32): bv8
  {
    if s & button != 0 then 1 else 0
  }

  /** The bit a read reports for a latch: its bit 7 (button A), as 0 or 1. */
  function ReportedBit(latch: bv32): (b: bv8)
    ensures b == 0 || b == 1
    ensures b == 1 <==> latch & ButtonA != 0
  {
    if latch & 0x80 != 0 then 1 else 0
  }

  /** The answers of `n` consecutive reads with the strobe low, starting from `latch`. */
  function Reads(latch: bv32, n: nat): (s: seq<bv8>)
    decreases n
    ensures |s| == n
    ensures forall k :: 0 <= k < n ==> s[k] == 0 || s[k] == 1
  {
    if n == 0 then [] else [ReportedBit(latch)] + Reads(latch << 1, n - 1)
  }

  /** Shifting the latch and the button mask together reports the same bit. */
  lemma PressedShift(latch: bv32, k: nat)
    requires 1 <= k < 8
    ensures SerialOrder[k - 1] == SerialOrder[k] << 1
    ensures Pressed(latch << 1, SerialOrder[k - 1]) == Pressed(latch, SerialOrder[k])
  {
  }

  /** Read `k` (counting from 0) reports bit `7 - k` of the latch, i.e. the
      order A, B, Select, Start, Up, Down, Left, Right. */
  lemma {:induction false} ReadsAreMsbFirst(latch: bv32, n: nat, k: nat)
    requires k < 8 && k < n
    decreases k
    ensures Reads(latch, n)[k] == Pressed(latch, SerialOrder[k])
  {
    if k > 0 {
      ReadsAreMsbFirst(latch << 1, n - 1, k - 1);
      PressedShift(latch, k);
    }
  }

  /** Read `k + 1` from a latch is read `k` from the shifted latch. */
  lemma ReadsStep(latch: bv32, n: nat, k: nat)
    requires 0 < k < n
    ensures Reads(latch, n)[k] == Reads(latch << 1, n - 1)[k - 1]
  {
  }

  /** Once the low byte of the latch is clear, every further read reports 0. */
  lemma {:induction false} ClearLatchReadsZero(latch: bv32, n: nat, k: nat)
    requires latch & 0xFF == 0 && k < n
    decreases k
    ensures Reads(latch, n)[k] == 0
  {
    if k > 0 {
      assert (latch << 1) & 0xFF == 0;
      ReadsStep(latch, n, k);
      ClearLatchReadsZero(latch << 1, n - 1, k - 1);
    }
  }

  /** `LowBits[j]` has the `j` lowest bits set. */
  const LowBits: seq<bv32> := [0x00, 0x01, 0x03, 0x07, 0x0F, 0x1F, 0x3F, 0x7F, 0xFF]

  lemma ShiftAddsLowZero(latch: bv32, j: nat)
    requires j < 8 && latch & LowBits[j] == 0
    ensures (latch << 1) & LowBits[j + 1] == 0
  {
    assert LowBits[j + 1] == (LowBits[j] << 1) | 1;
  }

  /** Each read shifts in a zero at bit 0; once `j` zeros are in, the reads from
      index `8 - j` on report only those zeros. */
  lemma {:induction false} ShiftedInZerosReadZero(latch: bv32, n: nat, j: nat, k: nat)
    requires j <= 8
    requires latch & LowBits[j] == 0
    requires 8 - j <= k < n
    decreases 8 - j
    ensures Reads(latch, n)[k] == 0
  {
    if j == 8 {
      ClearLatchReadsZero(latch, n, k);
    } else {
      ShiftAddsLowZero(latch, j);
      ReadsStep(latch, n, k);
      ShiftedInZerosReadZero(latch << 1, n - 1, j + 1, k - 1);
    }
  }

  /** Whatever the state, the ninth read and every read after it report 0:
      bits above bit 7 move up and are never reported. */
  lemma ReadsAfterEighthAreZero(latch: bv32, n: nat)
    ensures forall k :: 8 <= k < n ==> Reads(latch, n)[k] == 0
  {
    forall k | 8 <= k < n
      ensures Reads(latch, n)[k] == 0
    {
      ShiftedInZerosReadZero(latch, n, 0, k);
    }
  }

  /** The example of the serial-read test: A, Select, Up and Right pressed. */
  lemma SerialReadExample()
    ensures Reads(ButtonA | ButtonSelect | ButtonUp | ButtonRight, 8) == [1, 0, 1, 0, 1, 0, 0, 1]
  {
    var state := ButtonA | ButtonSelect | ButtonUp | ButtonRight;
    forall k | 0 <= k < 8
      ensures Reads(state, 8)[k] == [1, 0, 1, 0, 1, 0, 0, 1][k]
    {
      ReadsAreMsbFirst(state, 8, k);
    }
  }

  class Controller {
    var state: bv32
    var latched: bv32
    var strobe: bool

    constructor ()
      ensures state == 0 && latched == 0 && !strobe
    {
      state, latched, strobe := 0, 0, false;
    }

    method SetButtonPressed(buttonMask: bv32, pressed: bool)
      modifies this`state
      ensures state == PressButtons(old(state), buttonMask, pressed)
    {
      if pressed {
        state := state | buttonMask;
      } else {
        state := state & !buttonMask;
      }
    }

    /** The strobe follows bit 0; while it is high the latch follows the state. */
    method CpuWrite(data: bv8)
      modifies this`strobe, this`latched
      ensures strobe == (data & 1 != 0)
      ensures latched == if strobe then state else old(latched)
    {
      var newStrobe := (data & 0x01) != 0;
      strobe := newStrobe;
      if strobe {
        latched := state;
      }
    }

    /** With the strobe high: reload the latch and report button A. With the
        strobe low: report bit 7 of the latch and shift it left by one, so the
        reads from a latch are `Reads(latch, _)`. */
    method CpuRead() returns (data: bv8)
      modifies this`latched
      ensures strobe ==> latched == state && data == ReportedBit(state)
      ensures !strobe ==> data == ReportedBit(old(latched)) && latched == old(latched) << 1
      ensures !strobe ==> [data] + Reads(latched, 7) == Reads(old(latched), 8)
    {
      if strobe {
        latched := state;
        data := if latched & ButtonA != 0 then 1 else 0;
      } else {
        data := if latched & 0x80 != 0 then 1 else 0;
        latched := latched << 1;
      }
    }
  }

  /** The serial-read scenario of the controller test: with A, Select, Up and
      Right pressed, a strobe pulse followed by eight reads reports
      1, 0, 1, 0, 1, 0, 0, 1. */
  method SerialReadScenario() returns (bits: seq<bv8>)
    ensures bits == [1, 0, 1, 0, 1, 0, 0, 1]
  {
    var c := new Controller();
    c.SetButtonPressed(ButtonA, true);
    c.SetButtonPressed(ButtonSelect, true);
    c.SetButtonPressed(ButtonUp, true);
    c.SetButtonPressed(ButtonRight, true);
    c.CpuWrite(1);
    c.CpuWrite(0);
    var a := c.CpuRead();
    var b := c.CpuRead();
    var select := c.CpuRead();
    var start := c.CpuRead();
    var up := c.CpuRead();
    var down := c.CpuRead();
    var left := c.CpuRead();
    var right := c.CpuRead();
    bits := [a, b, select, start, up, down, left, right];
  }
}
