/**
 * The Rust code's unit tests, restated as lemmas over the model: each starts
 * from the zeroed interpreter, sets the fields the test sets, and runs the
 * same instruction words.
 */
module UnitTests {
  import opened Bits
  import opened Wrappers
  import Instruction
  import Screen
  import Keypad
  import opened Interpreter

  /** The zeroed interpreter with registers 1 and 2 set. */
  function WithV1V2(a: Byte, b: Byte): State
  {
    New().(v := New().v[1 := a][2 := b])
  }

  /** RET pops stack[11] into pc and leaves sp at 11; JP sets pc; CALL pushes 0x66 into stack[11]. */
  lemma CallAndRetTests()
    ensures DecodeExecute(New(), 0x16FF, 0).value.pc == 0x6FF
    ensures var s := New().(sp := 12, stack := New().stack[11 := 0x4444]);
      DecodeExecute(s, 0x00EE, 0) == Ok(s.(sp := 11, pc := 0x4444))
    ensures var s := New().(sp := 11, pc := 0x66, stack := New().stack[12 := 0x4444]);
      var r := DecodeExecute(s, 0x2AAA, 0);
      r.Ok? && r.value.pc == 0x0AAA && r.value.sp == 12 && r.value.stack[11] == 0x66
  {
  }

  /** 8xy4 without and with a carry out of eight bits. */
  lemma AddRegTests()
    ensures var r := DecodeExecute(WithV1V2(0xF, 0x3), 0x8124, 0);
      r.Ok? && r.value.v[1] == 0x12 && r.value.v[VF] == 0
    ensures var r := DecodeExecute(WithV1V2(0xFF, 0x03), 0x8124, 0);
      r.Ok? && r.value.v[1] == 0x02 && r.value.v[VF] == 1
  {
    assert Instruction.Decode(0x8124) == Instruction.AddReg(1, 2);
  }

  /** 8xy5 with and without a borrow. */
  lemma SubTests()
    ensures var r := DecodeExecute(WithV1V2(0xF, 0x3), 0x8125, 0);
      r.Ok? && r.value.v[1] == 0x0C && r.value.v[VF] == 1
    ensures var r := DecodeExecute(WithV1V2(0x14, 0xFF), 0x8125, 0);
      r.Ok? && r.value.v[1] == 0x15 && r.value.v[VF] == 0
  {
    assert Instruction.Decode(0x8125) == Instruction.Sub(1, 2);
  }

  /** 8xy7 with and without a borrow. */
  lemma SubnTests()
    ensures var r := DecodeExecute(WithV1V2(0xF, 0x3), 0x8127, 0);
      r.Ok? && r.value.v[1] == 0xF4 && r.value.v[VF] == 0
    ensures var r := DecodeExecute(WithV1V2(0x0E, 0xFF), 0x8127, 0);
      r.Ok? && r.value.v[1] == 0xF1 && r.value.v[VF] == 1
  {
    assert Instruction.Decode(0x8127) == Instruction.Subn(1, 2);
  }

  /** 8xy6 and 8xyE report the bit shifted out in VF. */
  lemma ShiftTests()
    ensures var r := DecodeExecute(WithV1V2(0x0E, 0), 0x8126, 0);
      r.Ok? && r.value.v[1] == 0x07 && r.value.v[VF] == 0
    ensures var r := DecodeExecute(WithV1V2(0x0F, 0), 0x8126, 0);
      r.Ok? && r.value.v[1] == 0x07 && r.value.v[VF] == 1
    ensures var r := DecodeExecute(WithV1V2(0x70, 0), 0x812E, 0);
      r.Ok? && r.value.v[1] == 0xE0 && r.value.v[VF] == 0
    ensures var r := DecodeExecute(WithV1V2(0xC0, 0), 0x812E, 0);
      r.Ok? && r.value.v[1] == 0x80 && r.value.v[VF] == 1
  {
    assert Instruction.Decode(0x8126) == Instruction.Shr(1, 2);
    assert Instruction.Decode(0x812E) == Instruction.Shl(1, 2);
  }

  /** 8xy1, 8xy2 and 8xy3 on 0x0B and 0x03. */
  lemma BitwiseTests()
    ensures DecodeExecute(WithV1V2(0x0B, 0x03), 0x8121, 0).value.v[1] == 0x0B
    ensures DecodeExecute(WithV1V2(0x0B, 0x03), 0x8122, 0).value.v[1] == 0x03
    ensures DecodeExecute(WithV1V2(0x0B, 0x03), 0x8123, 0).value.v[1] == 0x08
  {
    assert Instruction.Decode(0x8121) == Instruction.Or(1, 2);
    assert Instruction.Decode(0x8122) == Instruction.And(1, 2);
    assert Instruction.Decode(0x8123) == Instruction.Xor(1, 2);
  }

  /** The skips, with and without a prior fetch, from pc = 2 with V0 = 0xAA. */
  lemma SkipTests()
    ensures var s := New().(pc := 2, v := New().v[0 := 0xAA]);
      var r := DecodeExecute(Fetch(s).value.1, 0x30AA, 0);
      r.Ok? && r.value.pc == 6 && DecodeExecute(Fetch(r.value).value.1, 0x30AB, 0).value.pc == 8
    ensures var s := New().(pc := 2, v := New().v[0 := 0xAA]);
      var r := DecodeExecute(Fetch(s).value.1, 0x40AA, 0);
      r.Ok? && r.value.pc == 4 && DecodeExecute(Fetch(r.value).value.1, 0x40AB, 0).value.pc == 8
    ensures var s := New().(pc := 2, v := New().v[0 := 0xAA][1 := 0xAA]);
      DecodeExecute(s, 0x9010, 0) == Ok(s) && DecodeExecute(s, 0x9020, 0).value.pc == 4
    ensures var s := New().(pc := 2, v := New().v[0 := 0xAA][1 := 0xAA][2 := 0x77]);
      var r := DecodeExecute(Fetch(s).value.1, 0x5010, 0);
      r.Ok? && r.value.pc == 6 && DecodeExecute(Fetch(r.value).value.1, 0x5020, 0).value.pc == 8
  {
    assert Instruction.Decode(0x5010) == Instruction.SeReg(0, 1);
    assert Instruction.Decode(0x5020) == Instruction.SeReg(0, 2);
  }

  /** The keypad with key 1 down, V1 = 1 and V2 = 2, pc = 2. */
  function KeyOneDown(): State
  {
    New().(pc := 2, v := New().v[1 := 1][2 := 2], keypad := Keypad.SetDown(Keypad.New(), 1))
  }

  /** SKP skips for the pressed key 1 and not for key 2. */
  lemma SkpTest()
    ensures DecodeExecute(KeyOneDown(), 0xE19E, 0).value.pc == 4
    ensures DecodeExecute(KeyOneDown(), 0xE29E, 0).value.pc == 2
  {
    assert Instruction.Decode(0xE19E) == Instruction.Skp(1);
    assert Instruction.Decode(0xE29E) == Instruction.Skp(2);
  }

  /** SKNP does not skip for the pressed key 1 and skips for key 2. */
  lemma SknpTest()
    ensures DecodeExecute(KeyOneDown(), 0xE1A1, 0).value.pc == 2
    ensures DecodeExecute(KeyOneDown(), 0xE2A1, 0).value.pc == 4
  {
    assert Instruction.Decode(0xE1A1) == Instruction.Sknp(1);
    assert Instruction.Decode(0xE2A1) == Instruction.Sknp(2);
  }

  /** Fx0A after a fetch from pc = 0: no key rewinds to 0; key 1 down loads V1 = 1. */
  lemma KeyWaitTest()
    ensures DecodeExecute(Fetch(New()).value.1, 0xF10A, 0) == Ok(New())
    ensures var s := New().(keypad := Keypad.SetDown(Keypad.New(), 1));
      var r := DecodeExecute(Fetch(s).value.1, 0xF10A, 0);
      r.Ok? && r.value.pc == 2 && r.value.v[1] == 1
  {
    assert Instruction.Decode(0xF10A) == Instruction.LdVxK(1);
    Keypad.SinglePressIsFound(1);
  }

  /** LD Vx,kk, ADD Vx,kk and LD Vx,Vy. */
  lemma RegisterLoadTests()
    ensures DecodeExecute(New(), 0x61AA, 0).value.v[1] == 0xAA
    ensures DecodeExecute(New().(v := New().v[3 := 2]), 0x73AA, 0).value.v[3] == 0xAC
    ensures DecodeExecute(New().(v := New().v[3 := 2][5 := 5]), 0x8350, 0).value.v[3] == 5
  {
    assert Instruction.Decode(0x73AA) == Instruction.AddByte(3, 0xAA);
    assert Instruction.Decode(0x8350) == Instruction.LdReg(3, 5);
  }

  /** LD I, nnn and JP V0, nnn. */
  lemma IndexAndJumpTests()
    ensures DecodeExecute(New(), 0xA123, 0).value.i == 0x123
    ensures DecodeExecute(New().(v := New().v[0 := 4]), 0xB130, 0).value.pc == 0x134
  {
  }

  /** LD Vx, DT. */
  lemma LdVxDtTest()
    ensures DecodeExecute(New().(dtimer := 1), 0xF107, 0).value.v[1] == 1
  {
    assert Instruction.Decode(0xF107) == Instruction.LdVxDt(1);
  }

  /** LD DT, Vx, LD ST, Vx and ADD I, Vx. */
  lemma TimerAndIndexTests()
    ensures DecodeExecute(WithV1V2(5, 0), 0xF115, 0).value.dtimer == 5
    ensures DecodeExecute(WithV1V2(10, 0), 0xF118, 0).value.stimer == 10
    ensures DecodeExecute(WithV1V2(9, 0).(i := 4), 0xF11E, 0).value.i == 13
  {
    assert Instruction.Decode(0xF115) == Instruction.LdDtVx(1);
    assert Instruction.Decode(0xF118) == Instruction.LdStVx(1);
    assert Instruction.Decode(0xF11E) == Instruction.AddI(1);
  }

  /**
   * ADD V1, 5 with V1 = 0xFF: the Rust code's checked `+=` overflows, which the
   * model reports as a fault instead of wrapping to 0x04.
   */
  lemma AddByteOverflowIsFault()
    ensures DecodeExecute(WithV1V2(0xFF, 0), 0x7105, 0) == Err(RegisterOverflow)
  {
  }

  /**
   * With VF as a source or destination the write order shows: ADD VF, V1
   * leaves the wrapped sum in VF rather than the carry, and SUB V1, VF
   * subtracts the flag it has just written rather than the old VF.
   */
  lemma FlagRegisterOverlap()
    ensures var s := New().(v := New().v[1 := 0x03][VF := 0xFF]);
      DecodeExecute(s, 0x8F14, 0).value.v[VF] == 0x02
    ensures var s := New().(v := New().v[1 := 5][VF := 3]);
      var r := DecodeExecute(s, 0x81F5, 0).value;
      r.v[1] == 4 && r.v[VF] == 1
  {
  }

  /** Clearing a framebuffer of all ones leaves all zeros. */
  method ClearTest() returns (r: Screen.Screen)
    ensures forall k :: 0 <= k < Screen.PixelCount ==> r.pixels[k] == 0
  {
    r := Screen.Clear(Screen.Screen(seq(Screen.PixelCount, _ => 1)));
  }

  /** The three writes of the Rust code's pixel test. */
  function PixelTestWrites(): Screen.Screen
  {
    var s := Screen.UpdatePixel(Screen.New(), 0, 0, Screen.On);
    var s := Screen.UpdatePixel(s, 0, 10, Screen.On);
    Screen.UpdatePixel(s, 1, 0, Screen.On)
  }

  /** A buffer with ones at exactly the given cells. */
  function OnesAt(cells: set<nat>): Screen.Pixels
  {
    seq(Screen.PixelCount, k => if k in cells then 1 else 0)
  }

  /**
   * The pixel test expects ones at cells 0, 10 and 64, which is y + x * 64, the
   * row-major formula with x and y swapped; with the layout `update_pixel`
   * uses the writes reach 0, 640 and 1, so cell 10 stays 0 and the test's
   * expectation does not hold.
   */
  lemma PixelTestAsWritten()
    ensures PixelTestWrites().pixels != OnesAt({0, 10, 64})
  {
    assert PixelTestWrites().pixels[10] == 0;
    assert OnesAt({0, 10, 64})[10] == 1;
  }

  /** With the row-major layout the three writes set exactly cells 0, 640 and 1. */
  lemma PixelTestCorrected()
    ensures PixelTestWrites().pixels == OnesAt({0, 640, 1})
  {
    var p, q := PixelTestWrites().pixels, OnesAt({0, 640, 1});
    forall k | 0 <= k < Screen.PixelCount
      ensures p[k] == q[k]
    {
    }
  }
}
