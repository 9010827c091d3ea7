/**
 * The CHIP-8 interpreter state and its fetch/decode/execute stages. Every
 * handler is a pure function from the state before an instruction to the
 * state after it. Where the Rust code would panic (an arithmetic overflow
 * checked by Rust, an array index out of bounds, an unfinished handler) the
 * result is a `Fault` and no part of the instruction takes effect.
 */
module Interpreter {
  import opened Bits
  import opened Wrappers
  import Instruction
  import Screen
  import Keypad

  const MemorySize: nat := 4096
  const RegisterCount: nat := 16
  const StackSize: nat := 16

  /** Where programs are loaded and execution starts. */
  const ProgramStart: Word := 0x200

  /** Register VF, the implicit carry, borrow and shifted-out-bit output. */
  const VF: nat := 0xF

  /** The built-in hexadecimal digit sprites 0-F, five bytes each. */
  const FontSprites: seq<Byte> := [
    0xF0, 0x90, 0x90, 0x90, 0xF0, // 0
    0x20, 0x60, 0x20, 0x20, 0x70, // 1
    0xF0, 0x10, 0xF0, 0x80, 0xF0, // 2
    0xF0, 0x10, 0xF0, 0x10, 0xF0, // 3
    0x90, 0x90, 0xF0, 0x10, 0x10, // 4
    0xF0, 0x80, 0xF0, 0x10, 0xF0, // 5
    0xF0, 0x80, 0xF0, 0x90, 0xF0, // 6
    0xF0, 0x10, 0x20, 0x40, 0x40, // 7
    0xF0, 0x90, 0xF0, 0x90, 0xF0, // 8
    0xF0, 0x90, 0xF0, 0x10, 0xF0, // 9
    0xF0, 0x90, 0xF0, 0x90, 0x90, // A
    0xE0, 0x90, 0xE0, 0x90, 0xE0, // B
    0xF0, 0x80, 0x80, 0x80, 0xF0, // C
    0xE0, 0x90, 0x90, 0x90, 0xE0, // D
    0xF0, 0x80, 0xF0, 0x80, 0xF0, // E
    0xF0, 0x80, 0xF0, 0x80, 0x80  // F
  ]

  type Memory = s: seq<Byte> | |s| == MemorySize witness seq(MemorySize, _ => 0)
  type Registers = s: seq<Byte> | |s| == RegisterCount witness seq(RegisterCount, _ => 0)
  type Stack = s: seq<Word> | |s| == StackSize witness seq(StackSize, _ => 0)

  /** A register number taken from an instruction nibble. */
  type Reg = Instruction.Nibble

  /** Why an instruction could not complete; each is a panic in the Rust code. */
  datatype Fault =
    | MemoryOutOfBounds   // fetch with pc + 1 past the last address
    | StackOverflow       // CALL with sp >= 16, or RET with sp > 16
    | StackUnderflow      // RET with sp == 0
    | PcOverflow          // a skip that would carry pc past 0xFFFF
    | PcUnderflow         // a key wait that would rewind pc below 0
    | RegisterOverflow    // ADD Vx, kk whose sum exceeds 0xFF
    | IndexOverflow       // ADD I, Vx whose sum exceeds 0xFFFF
    | KeyOutOfRange       // SKP/SKNP with Vx naming no key
    | Unimplemented       // DRW, whose handler is unfinished

  datatype State = State(
    memory: Memory,
    v: Registers,
    i: Word,
    pc: Word,
    stack: Stack,
    sp: Byte,
    dtimer: Byte,
    stimer: Byte,
    screen: Screen.Screen,
    keypad: Keypad.Keypad)

  /** `r` agrees with `s` everywhere except possibly the registers in `changed`. */
  predicate OnlyRegistersChange(s: State, r: State, changed: set<int>)
  {
    && r == s.(v := r.v)
    && forall j :: 0 <= j < RegisterCount && j !in changed ==> r.v[j] == s.v[j]
  }

  /** The zeroed interpreter the Rust code constructs before initialisation. */
  function New(): (s: State)
    ensures forall a :: 0 <= a < MemorySize ==> s.memory[a] == 0
    ensures forall j :: 0 <= j < RegisterCount ==> s.v[j] == 0
    ensures forall j :: 0 <= j < StackSize ==> s.stack[j] == 0
    ensures s.i == 0 && s.pc == 0 && s.sp == 0 && s.dtimer == 0 && s.stimer == 0
    ensures s.screen == Screen.New() && Keypad.AllReleased(s.keypad)
  {
    State(
      seq(MemorySize, _ => 0), seq(RegisterCount, _ => 0), 0, 0, seq(StackSize, _ => 0),
      0, 0, 0, Screen.New(), Keypad.New())
  }

  /**
   * Loads the font into the first 80 bytes, resets registers, stack, timers
   * and screen, and points pc at the program area. The rest of memory (where
   * a program may already be loaded) and the keypad are kept.
   */
  function Init(s: State): (r: State)
    ensures forall a :: 0 <= a < |FontSprites| ==> r.memory[a] == FontSprites[a]
    ensures forall a :: |FontSprites| <= a < MemorySize ==> r.memory[a] == s.memory[a]
    ensures forall j :: 0 <= j < RegisterCount ==> r.v[j] == 0
    ensures forall j :: 0 <= j < StackSize ==> r.stack[j] == 0
    ensures r.i == 0 && r.sp == 0 && r.dtimer == 0 && r.stimer == 0
    ensures r.pc == ProgramStart
    ensures r.screen == Screen.New() && r.keypad == s.keypad
  {
    State(
      FontSprites + s.memory[|FontSprites|..], seq(RegisterCount, _ => 0), 0, ProgramStart,
      seq(StackSize, _ => 0), 0, 0, 0, Screen.New(), s.keypad)
  }

  /**
   * Reads the big-endian word at pc and pc + 1 and advances pc by two. Reading
   * past the end of memory is a fault rather than a wrap-around.
   */
  function Fetch(s: State): (r: Result<(Word, State), Fault>)
    ensures r.Err? <==> s.pc + 1 >= MemorySize
    ensures r.Err? ==> r.error == MemoryOutOfBounds
    ensures r.Ok? ==> r.value.0 / 0x100 == s.memory[s.pc] && r.value.0 % 0x100 == s.memory[s.pc + 1]
    ensures r.Ok? ==> r.value.1 == s.(pc := s.pc + 2)
  {
    if s.pc + 1 >= MemorySize then Err(MemoryOutOfBounds)
    else
      var word := s.memory[s.pc] as int * 0x100 + s.memory[s.pc + 1];
      Ok((word, s.(pc := s.pc + 2)))
  }

  // ---------------------------------------------------------------------
  // Control flow

  /** 00E0: every pixel reads as off afterwards; nothing else changes. */
  function Cls(s: State): (r: State)
    ensures r == s.(screen := r.screen)
    ensures forall x: nat, y: nat :: Screen.OnGrid(x, y) ==> Screen.GetPixelState(r.screen, x, y) == Screen.Off
  {
    s.(screen := Screen.New())
  }

  /** 00EE: pops the top return address into pc. */
  function Ret(s: State): (r: Result<State, Fault>)
    ensures s.sp == 0 <==> r == Err(StackUnderflow)
    ensures s.sp > StackSize <==> r == Err(StackOverflow)
    ensures r.Ok? ==> 0 < s.sp <= StackSize
    ensures r.Ok? ==> r.value == s.(sp := s.sp - 1, pc := s.stack[s.sp - 1])
  {
    if s.sp == 0 then Err(StackUnderflow)
    else if s.sp - 1 >= StackSize then Err(StackOverflow)
    else Ok(s.(sp := s.sp - 1, pc := s.stack[s.sp - 1]))
  }

  /** 1nnn: pc becomes nnn; nothing else changes. */
  function Jp(s: State, nnn: Instruction.Addr): (r: State)
    ensures r.pc == nnn && r == s.(pc := nnn)
  {
    s.(pc := nnn)
  }

  /** 2nnn: pushes pc in the free slot, bumps sp and jumps to nnn. */
  function Call(s: State, nnn: Instruction.Addr): (r: Result<State, Fault>)
    ensures r.Ok? <==> s.sp < StackSize
    ensures r.Err? ==> r.error == StackOverflow
    ensures r.Ok? ==> r.value.stack[s.sp] == s.pc && r.value.sp == s.sp + 1 && r.value.pc == nnn
    ensures r.Ok? ==> forall j :: 0 <= j < StackSize && j != s.sp ==> r.value.stack[j] == s.stack[j]
    ensures r.Ok? ==> r.value == s.(stack := r.value.stack, sp := r.value.sp, pc := r.value.pc)
  {
    if s.sp >= StackSize then Err(StackOverflow)
    else Ok(s.(stack := s.stack[s.sp := s.pc], sp := s.sp + 1, pc := nnn))
  }

  /** Bnnn: jumps to nnn + V0, which cannot exceed 0xFFF + 0xFF. */
  function JpV0(s: State, nnn: Instruction.Addr): (r: State)
    ensures r.pc == nnn + s.v[0] && r.pc <= 0x10FE
    ensures r == s.(pc := r.pc)
  {
    s.(pc := nnn + s.v[0])
  }

  // ---------------------------------------------------------------------
  // Conditional skips

  /**
   * The outcome every skip instruction promises: when `cond` holds pc grows by
   * exactly two, otherwise it is untouched; nothing else changes. A skip that
   * would carry pc past 0xFFFF is a fault.
   */
  predicate SkipOutcome(s: State, cond: bool, r: Result<State, Fault>)
  {
    && (r.Err? <==> cond && s.pc + 2 > 0xFFFF)
    && (r.Err? ==> r.error == PcOverflow)
    && (r.Ok? ==> r.value == s.(pc := r.value.pc))
    && (r.Ok? ==> r.value.pc == s.pc + (if cond then 2 else 0))
  }

  function SkipIf(s: State, cond: bool): (r: Result<State, Fault>)
    ensures SkipOutcome(s, cond, r)
  {
    if !cond then Ok(s)
    else if s.pc + 2 > 0xFFFF then Err(PcOverflow)
    else Ok(s.(pc := s.pc + 2))
  }

  /** 3xkk: skips when Vx == kk. */
  function SeByte(s: State, x: Reg, kk: Byte): (r: Result<State, Fault>)
    ensures SkipOutcome(s, s.v[x] == kk, r)
  {
    SkipIf(s, s.v[x] == kk)
  }

  /** 4xkk: skips when Vx != kk. */
  function SneByte(s: State, x: Reg, kk: Byte): (r: Result<State, Fault>)
    ensures SkipOutcome(s, s.v[x] != kk, r)
  {
    SkipIf(s, s.v[x] != kk)
  }

  /** 5xy0: skips when Vx == Vy. */
  function SeReg(s: State, x: Reg, y: Reg): (r: Result<State, Fault>)
    ensures SkipOutcome(s, s.v[x] == s.v[y], r)
  {
    SkipIf(s, s.v[x] == s.v[y])
  }

  /** 9xy0: skips when Vx != Vy. */
  function SneReg(s: State, x: Reg, y: Reg): (r: Result<State, Fault>)
    ensures SkipOutcome(s, s.v[x] != s.v[y], r)
  {
    SkipIf(s, s.v[x] != s.v[y])
  }

  /** Ex9E: skips when the key numbered Vx is down; Vx naming no key is a fault. */
  function Skp(s: State, x: Reg): (r: Result<State, Fault>)
    ensures !Keypad.IsKey(s.v[x]) <==> r == Err(KeyOutOfRange)
    ensures Keypad.IsKey(s.v[x]) ==> SkipOutcome(s, Keypad.IsPressed(s.keypad, s.v[x]), r)
  {
    if !Keypad.IsKey(s.v[x]) then Err(KeyOutOfRange)
    else SkipIf(s, Keypad.IsPressed(s.keypad, s.v[x]))
  }

  /** ExA1: skips when the key numbered Vx is up; Vx naming no key is a fault. */
  function Sknp(s: State, x: Reg): (r: Result<State, Fault>)
    ensures !Keypad.IsKey(s.v[x]) <==> r == Err(KeyOutOfRange)
    ensures Keypad.IsKey(s.v[x]) ==> SkipOutcome(s, !Keypad.IsPressed(s.keypad, s.v[x]), r)
  {
    if !Keypad.IsKey(s.v[x]) then Err(KeyOutOfRange)
    else SkipIf(s, !Keypad.IsPressed(s.keypad, s.v[x]))
  }

  // ---------------------------------------------------------------------
  // Register loads and bitwise operations

  /** 6xkk: Vx = kk. */
  function LdByte(s: State, x: Reg, kk: Byte): (r: State)
    ensures r.v[x] == kk && OnlyRegistersChange(s, r, {x})
  {
    s.(v := s.v[x := kk])
  }

  /**
   * 7xkk: Vx = Vx + kk with Rust's checked `+=`: a sum above 0xFF is a fault,
   * and VF is never touched.
   */
  function AddByte(s: State, x: Reg, kk: Byte): (r: Result<State, Fault>)
    ensures r.Err? <==> s.v[x] + kk > 0xFF
    ensures r.Err? ==> r.error == RegisterOverflow
    ensures r.Ok? ==> r.value.v[x] - kk == s.v[x] && OnlyRegistersChange(s, r.value, {x})
  {
    if s.v[x] + kk > 0xFF then Err(RegisterOverflow)
    else Ok(s.(v := s.v[x := s.v[x] + kk]))
  }

  /** 8xy0: Vx = Vy. */
  function LdReg(s: State, x: Reg, y: Reg): (r: State)
    ensures r.v[x] == s.v[y] && OnlyRegistersChange(s, r, {x})
  {
    s.(v := s.v[x := s.v[y]])
  }

  /** 8xy1: each bit of Vx is set afterwards iff it was set in Vx or in Vy. */
  function Or(s: State, x: Reg, y: Reg): (r: State)
    ensures forall b: nat :: b < 8 ==> (Bit(r.v[x], b) <==> Bit(s.v[x], b) || Bit(s.v[y], b))
    ensures OnlyRegistersChange(s, r, {x})
  {
    assert Pow2(8) == 0x100;
    s.(v := s.v[x := BitOr(s.v[x], s.v[y])])
  }

  /** 8xy2: each bit of Vx is set afterwards iff it was set in both Vx and Vy. */
  function And(s: State, x: Reg, y: Reg): (r: State)
    ensures forall b: nat :: b < 8 ==> (Bit(r.v[x], b) <==> Bit(s.v[x], b) && Bit(s.v[y], b))
    ensures OnlyRegistersChange(s, r, {x})
  {
    s.(v := s.v[x := BitAnd(s.v[x], s.v[y])])
  }

  /** 8xy3: each bit of Vx is set afterwards iff Vx and Vy differed there. */
  function Xor(s: State, x: Reg, y: Reg): (r: State)
    ensures forall b: nat :: b < 8 ==> (Bit(r.v[x], b) <==> Bit(s.v[x], b) != Bit(s.v[y], b))
    ensures OnlyRegistersChange(s, r, {x})
  {
    assert Pow2(8) == 0x100;
    s.(v := s.v[x := BitXor(s.v[x], s.v[y])])
  }

  // ---------------------------------------------------------------------
  // Arithmetic with a VF side output. The Rust code writes VF first and Vx
  // second, so when x is 15 the flag is overwritten, and SUB/SUBN with y == 15
  // read the flag they have just written.

  /**
   * 8xy4: Vx + 0x100 * VF is the true sum of the old Vx and Vy (VF is the
   * carry). When x is VF the register ends with the wrapped sum.
   */
  function AddReg(s: State, x: Reg, y: Reg): (r: State)
    ensures x != VF ==> r.v[x] as int + 0x100 * (r.v[VF] as int) == s.v[x] as int + s.v[y] && r.v[VF] <= 1
    ensures x != VF ==> (r.v[VF] == 1 <==> s.v[x] as int + s.v[y] >= 0x100)
    ensures x == VF ==> r.v[VF] == (s.v[x] as int + s.v[y]) % 0x100
    ensures OnlyRegistersChange(s, r, {x, VF})
  {
    var (sum, overflow) := OverflowingAdd(s.v[y], s.v[x]);
    var flagged := s.v[VF := if overflow then 1 else 0];
    s.(v := flagged[x := sum])
  }

  /**
   * 8xy5: VF = 1 iff Vx > Vy, and adding Vy back to the new Vx gives the old
   * Vx modulo 256. The subtraction reads the registers after VF is written.
   */
  function Sub(s: State, x: Reg, y: Reg): (r: State)
    ensures var flag := if s.v[x] > s.v[y] then 1 else 0;
      && (x != VF && y != VF ==> r.v[VF] == flag && (r.v[x] as int + s.v[y]) % 0x100 == s.v[x])
      && (x != VF && y == VF ==> r.v[VF] == flag && (r.v[x] as int + flag) % 0x100 == s.v[x])
      && (x == VF ==> (r.v[VF] as int + (if y == VF then flag else s.v[y])) % 0x100 == flag)
    ensures OnlyRegistersChange(s, r, {x, VF})
  {
    var flagged := s.v[VF := if s.v[x] > s.v[y] then 1 else 0];
    s.(v := flagged[x := WrappingSub(flagged[x], flagged[y])])
  }

  /**
   * 8xy7: VF = 1 iff Vy > Vx, and adding the old Vx to the new Vx gives Vy
   * modulo 256. The subtraction reads the registers after VF is written.
   */
  function Subn(s: State, x: Reg, y: Reg): (r: State)
    ensures var flag := if s.v[y] > s.v[x] then 1 else 0;
      && (x != VF && y != VF ==> r.v[VF] == flag && (r.v[x] as int + s.v[x]) % 0x100 == s.v[y])
      && (x != VF && y == VF ==> r.v[VF] == flag && (r.v[x] as int + s.v[x]) % 0x100 == flag)
      && (x == VF ==> (r.v[VF] as int + flag) % 0x100 == (if y == VF then flag else s.v[y]))
    ensures OnlyRegistersChange(s, r, {x, VF})
  {
    var flagged := s.v[VF := if s.v[y] > s.v[x] then 1 else 0];
    s.(v := flagged[x := WrappingSub(flagged[y], flagged[x])])
  }

  /**
   * 8xy6: VF receives the bit shifted out, so 2 * Vx + VF rebuilds the old Vx.
   * When x is VF the register ends as 0.
   */
  function Shr(s: State, x: Reg): (r: State)
    ensures x != VF ==> 2 * (r.v[x] as int) + r.v[VF] == s.v[x] && r.v[VF] <= 1
    ensures x == VF ==> r.v[VF] == 0
    ensures OnlyRegistersChange(s, r, {x, VF})
  {
    var flagged := s.v[VF := s.v[x] % 2];
    s.(v := flagged[x := flagged[x] / 2])
  }

  /**
   * 8xyE: VF receives bit 7 of the old Vx, so Vx + 0x100 * VF is twice the old
   * Vx. When x is VF the register ends as twice that bit.
   */
  function Shl(s: State, x: Reg): (r: State)
    ensures x != VF ==> r.v[x] as int + 0x100 * (r.v[VF] as int) == 2 * (s.v[x] as int) && r.v[VF] <= 1
    ensures x != VF ==> (r.v[VF] == 1 <==> Bit(s.v[x], 7))
    ensures x == VF ==> r.v[VF] == (if s.v[x] >= 0x80 then 2 else 0)
    ensures OnlyRegistersChange(s, r, {x, VF})
  {
    HighBitOfByte(s.v[x]);
    var flagged := s.v[VF := s.v[x] / 0x80];
    s.(v := flagged[x := (2 * (flagged[x] as int)) % 0x100])
  }

  // ---------------------------------------------------------------------
  // Index register, randomness, timers and the key wait

  /** Annn: I = nnn. */
  function LdI(s: State, nnn: Instruction.Addr): (r: State)
    ensures r.i == nnn && r == s.(i := nnn)
  {
    s.(i := nnn)
  }

  /**
   * Fx1E: I = I + Vx, not masked to twelve bits; a sum above 0xFFFF is a
   * fault (Rust's checked `+=` on `u16`).
   */
  function AddI(s: State, x: Reg): (r: Result<State, Fault>)
    ensures r.Err? <==> s.i + s.v[x] > 0xFFFF
    ensures r.Err? ==> r.error == IndexOverflow
    ensures r.Ok? ==> r.value.i - s.v[x] == s.i && r.value == s.(i := r.value.i)
  {
    if s.i + s.v[x] > 0xFFFF then Err(IndexOverflow)
    else Ok(s.(i := s.i + s.v[x]))
  }

  /**
   * Cxkk: Vx = rand & kk, where `rand` stands for the byte a random source
   * supplies. Only bits of kk can be set in the result.
   */
  function Rnd(s: State, x: Reg, kk: Byte, rand: Byte): (r: State)
    ensures forall b: nat :: b < 8 ==> (Bit(r.v[x], b) <==> Bit(rand, b) && Bit(kk, b))
    ensures OnlyRegistersChange(s, r, {x})
  {
    s.(v := s.v[x := BitAnd(rand, kk)])
  }

  /** Fx07: Vx = delay timer. */
  function LdVxDt(s: State, x: Reg): (r: State)
    ensures r.v[x] == s.dtimer && OnlyRegistersChange(s, r, {x})
  {
    s.(v := s.v[x := s.dtimer])
  }

  /** Fx15: delay timer = Vx. */
  function LdDtVx(s: State, x: Reg): (r: State)
    ensures r.dtimer == s.v[x] && r == s.(dtimer := r.dtimer)
  {
    s.(dtimer := s.v[x])
  }

  /** Fx18: sound timer = Vx. */
  function LdStVx(s: State, x: Reg): (r: State)
    ensures r.stimer == s.v[x] && r == s.(stimer := r.stimer)
  {
    s.(stimer := s.v[x])
  }

  /**
   * Fx0A: with a key down, Vx becomes the lowest-numbered pressed key and pc
   * is left alone; with none down, pc moves back two so that the same
   * instruction is fetched again (a pc below 2 is a fault).
   */
  function LdVxK(s: State, x: Reg): (r: Result<State, Fault>)
    ensures !Keypad.AllReleased(s.keypad) ==> r.Ok? && Keypad.IsKey(r.value.v[x])
    ensures !Keypad.AllReleased(s.keypad) ==>
      && Keypad.IsPressed(s.keypad, r.value.v[x])
      && (forall k :: 0 <= k < r.value.v[x] ==> !Keypad.IsPressed(s.keypad, k))
      && OnlyRegistersChange(s, r.value, {x})
    ensures Keypad.AllReleased(s.keypad) ==> (r.Err? <==> s.pc < 2)
    ensures Keypad.AllReleased(s.keypad) && r.Err? ==> r.error == PcUnderflow
    ensures Keypad.AllReleased(s.keypad) && r.Ok? ==> r.value.pc + 2 == s.pc && r.value == s.(pc := r.value.pc)
  {
    match Keypad.GetKeyPressed(s.keypad)
    case Some(k) => Ok(s.(v := s.v[x := k]))
    case None => if s.pc < 2 then Err(PcUnderflow) else Ok(s.(pc := s.pc - 2))
  }

  // ---------------------------------------------------------------------
  // Dispatch

  /**
   * Runs one decoded instruction. `rand` is the byte a random source would
   * supply to RND. No instruction writes memory or the keypad, and an
   * unrecognised word changes nothing.
   */
  function Execute(s: State, ins: Instruction.Instruction, rand: Byte): (r: Result<State, Fault>)
    ensures r.Ok? ==> r.value.memory == s.memory && r.value.keypad == s.keypad
    ensures ins.Unknown? ==> r == Ok(s)
    ensures ins.Drw? ==> r == Err(Unimplemented)
  {
    match ins
    case Cls => Ok(Cls(s))
    case Ret => Ret(s)
    case Jp(nnn) => Ok(Jp(s, nnn))
    case Call(nnn) => Call(s, nnn)
    case SeByte(x, kk) => SeByte(s, x, kk)
    case SneByte(x, kk) => SneByte(s, x, kk)
    case SeReg(x, y) => SeReg(s, x, y)
    case LdByte(x, kk) => Ok(LdByte(s, x, kk))
    case AddByte(x, kk) => AddByte(s, x, kk)
    case LdReg(x, y) => Ok(LdReg(s, x, y))
    case Or(x, y) => Ok(Or(s, x, y))
    case And(x, y) => Ok(And(s, x, y))
    case Xor(x, y) => Ok(Xor(s, x, y))
    case AddReg(x, y) => Ok(AddReg(s, x, y))
    case Sub(x, y) => Ok(Sub(s, x, y))
    case Shr(x, _) => Ok(Shr(s, x))
    case Subn(x, y) => Ok(Subn(s, x, y))
    case Shl(x, _) => Ok(Shl(s, x))
    case SneReg(x, y) => SneReg(s, x, y)
    case LdI(nnn) => Ok(LdI(s, nnn))
    case JpV0(nnn) => Ok(JpV0(s, nnn))
    case Rnd(x, kk) => Ok(Rnd(s, x, kk, rand))
    case Drw(_, _, _) => Err(Unimplemented)
    case Skp(x) => Skp(s, x)
    case Sknp(x) => Sknp(s, x)
    case LdVxDt(x) => Ok(LdVxDt(s, x))
    case LdVxK(x) => LdVxK(s, x)
    case LdDtVx(x) => Ok(LdDtVx(s, x))
    case LdStVx(x) => Ok(LdStVx(s, x))
    case AddI(x) => AddI(s, x)
    case Unknown(_) => Ok(s)
  }

  /**
   * The Rust code's `decode`: splits the word into its fields and runs the
   * matching handler. A word matching no pattern is a no-op.
   */
  function DecodeExecute(s: State, w: Word, rand: Byte): (r: Result<State, Fault>)
    ensures r.Ok? ==> r.value.memory == s.memory && r.value.keypad == s.keypad
    ensures Instruction.Decode(w).Unknown? ==> r == Ok(s)
  {
    Execute(s, Instruction.Decode(w), rand)
  }
}
