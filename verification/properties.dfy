/**
 * Properties that relate several interpreter operations: call and return,
 * stack depth, the blocking key wait, the skips, the VF side output, and the
 * invariants that every instruction keeps.
 */
module Properties {
  import opened Bits
  import opened Wrappers
  import Instruction
  import Screen
  import Keypad
  import opened Interpreter

  /** Fetching gives the two bytes at pc, whose nibbles are the decoder's fields. */
  lemma FetchFields(s: State)
    requires s.pc + 1 < MemorySize
    ensures Fetch(s).Ok?
    ensures var w := Fetch(s).value.0;
      && Instruction.Family(w) == s.memory[s.pc] / 0x10
      && Instruction.X(w) == s.memory[s.pc] % 0x10
      && Instruction.Y(w) == s.memory[s.pc + 1] / 0x10
      && Instruction.N(w) == s.memory[s.pc + 1] % 0x10
      && Instruction.Kk(w) == s.memory[s.pc + 1]
  {
    Instruction.FieldsOfBytes(s.memory[s.pc], s.memory[s.pc + 1]);
  }

  /**
   * CALL followed by RET restores pc and sp to their values before the call;
   * the only trace left is the return address in the slot the call used.
   */
  lemma CallThenRet(s: State, nnn: Instruction.Addr, rand: Byte)
    requires s.sp < StackSize
    ensures DecodeExecute(s, Instruction.Encode(Instruction.Call(nnn)), rand).Ok?
    ensures var called := DecodeExecute(s, Instruction.Encode(Instruction.Call(nnn)), rand).value;
      && called.pc == nnn
      && DecodeExecute(called, Instruction.Encode(Instruction.Ret), rand)
         == Ok(s.(stack := s.stack[s.sp := s.pc]))
  {
    Instruction.DecodeEncode(Instruction.Call(nnn));
    Instruction.DecodeEncode(Instruction.Ret);
  }

  /** `k` CALLs to `nnn` in a row, stopping at the first fault. */
  function Calls(s: State, nnn: Instruction.Addr, k: nat): Result<State, Fault>
    decreases k
  {
    if k == 0 then Ok(s)
    else
      match Call(s, nnn)
      case Err(e) => Err(e)
      case Ok(next) => Calls(next, nnn, k - 1)
  }

  /** `k` nested calls succeed exactly when they fit in the 16-slot stack. */
  lemma {:induction false} CallDepth(s: State, nnn: Instruction.Addr, k: nat)
    requires s.sp <= StackSize
    ensures Calls(s, nnn, k).Ok? <==> s.sp + k <= StackSize
    ensures Calls(s, nnn, k).Ok? ==> Calls(s, nnn, k).value.sp == s.sp + k
    ensures Calls(s, nnn, k).Err? ==> Calls(s, nnn, k).error == StackOverflow
    decreases k
  {
    if k > 0 && s.sp < StackSize {
      var next := Call(s, nnn).value;
      assert Calls(s, nnn, k) == Calls(next, nnn, k - 1);
      CallDepth(next, nnn, k - 1);
    }
  }

  /** From an empty stack sixteen calls succeed and the seventeenth overflows. */
  lemma SixteenCallsFit(s: State, nnn: Instruction.Addr)
    requires s.sp == 0
    ensures Calls(s, nnn, 16).Ok? && Calls(s, nnn, 16).value.sp == 16
    ensures Calls(s, nnn, 17) == Err(StackOverflow)
  {
    CallDepth(s, nnn, 16);
    CallDepth(s, nnn, 17);
  }

  /** The stack pointer never leaves 0..16 once it starts there. */
  lemma StackBoundKept(s: State, ins: Instruction.Instruction, rand: Byte)
    requires s.sp <= StackSize
    ensures Execute(s, ins, rand).Ok? ==> Execute(s, ins, rand).value.sp <= StackSize
  {
  }

  /** The framebuffer keeps holding only 0 and 1, whatever instruction runs. */
  lemma ScreenStaysBinary(s: State, ins: Instruction.Instruction, rand: Byte)
    requires Screen.Binary(s.screen)
    ensures Execute(s, ins, rand).Ok? ==> Screen.Binary(Execute(s, ins, rand).value.screen)
  {
  }

  predicate IsSkip(ins: Instruction.Instruction)
  {
    ins.SeByte? || ins.SneByte? || ins.SeReg? || ins.SneReg? || ins.Skp? || ins.Sknp?
  }

  /** The six skips change only pc, and only by 0 or 2. */
  lemma SkipsOnlyMovePc(s: State, ins: Instruction.Instruction, rand: Byte)
    requires IsSkip(ins)
    ensures var r := Execute(s, ins, rand);
      r.Ok? ==> r.value == s.(pc := r.value.pc) && (r.value.pc == s.pc || r.value.pc == s.pc + 2)
  {
  }

  /**
   * With VF not the destination, the five flag-setting operations always
   * leave VF as 0 or 1, whatever it held before.
   */
  lemma FlagIsAlwaysWritten(s: State, ins: Instruction.Instruction, rand: Byte)
    requires ins.AddReg? || ins.Sub? || ins.Subn? || ins.Shr? || ins.Shl?
    requires ins.x != VF
    ensures Execute(s, ins, rand).Ok?
    ensures Execute(s, ins, rand).value.v[VF] <= 1
  {
  }

  /**
   * With no key down, fetching a word that decodes as Fx0A and executing it
   * puts the machine back exactly where it was before the fetch, so the wait
   * repeats until a key goes down.
   */
  lemma KeyWaitRepeats(s: State, w: Word, x: Instruction.Nibble, rand: Byte)
    requires Keypad.AllReleased(s.keypad)
    requires Fetch(s).Ok?
    requires Instruction.Decode(w) == Instruction.LdVxK(x)
    ensures DecodeExecute(Fetch(s).value.1, w, rand) == Ok(s)
  {
    var fetched := Fetch(s).value.1;
    assert Keypad.GetKeyPressed(fetched.keypad).None?;
    assert fetched.(pc := fetched.pc - 2) == s;
  }

  /**
   * With a key down, a word decoding as Fx0A after a fetch moves on: pc stays
   * two past the fetched instruction and Vx names the lowest pressed key.
   */
  lemma KeyWaitProceeds(s: State, w: Word, x: Instruction.Nibble, rand: Byte)
    requires !Keypad.AllReleased(s.keypad)
    requires Fetch(s).Ok?
    requires Instruction.Decode(w) == Instruction.LdVxK(x)
    ensures var r := DecodeExecute(Fetch(s).value.1, w, rand);
      && r.Ok? && r.value.pc == s.pc + 2
      && Keypad.GetKeyPressed(s.keypad) == Some(r.value.v[x])
  {
  }

  /** Initialising a fresh interpreter leaves the font then zeroes in memory. */
  lemma InitFreshMemory()
    ensures Init(New()).memory == FontSprites + seq(MemorySize - |FontSprites|, _ => 0)
  {
    var m := Init(New()).memory;
    var expected := FontSprites + seq(MemorySize - |FontSprites|, _ => 0);
    forall a | 0 <= a < MemorySize
      ensures m[a] == expected[a]
    {
    }
  }

  /** Initialising twice is the same as initialising once. */
  lemma InitIdempotent(s: State)
    ensures Init(Init(s)) == Init(s)
  {
    var once, twice := Init(s), Init(Init(s));
    assert twice.memory == once.memory;
    assert twice.v == once.v;
    assert twice.stack == once.stack;
  }
}
