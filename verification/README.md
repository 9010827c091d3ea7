# CHIP-8 interpreter core in Dafny

A model of the CHIP-8 virtual machine of the `chip-8` Rust repository: the
interpreter state (4096 bytes of memory, sixteen 8-bit registers V0-VF, the
index register I, the program counter, a 16-slot call stack with its stack
pointer, the delay and sound timers), the fetch stage, the decoder, every
opcode handler, the 64x32 framebuffer and the 16-key keypad.

Everything is an immutable value and every operation a pure function:

- `wrappers.dfy` — `Option` and `Result`.
- `bits.dfy` — `Byte` (`u8`) and `Word` (`u16`) as bounded integers, the
  bitwise operators defined one bit at a time with their per-bit laws, and
  Rust's `overflowing_add` / `wrapping_sub` on `u8`.
- `keypad.dfy` — the keypad and the ascending first-pressed-key scan.
- `screen.dfy` — the row-major framebuffer (pixel (x, y) at x + y * 64), its
  reads and writes, and `Clear` as the Rust code's nested loop.
- `instruction.dfy` — the nibble fields of an instruction word, the decoder's
  dispatch table as a datatype, and the encoder it round-trips with.
- `interpreter.dfy` — state, `New`, `Init`, `Fetch`, one function per
  `execute_*` handler, `Execute` and `DecodeExecute` (the Rust code's `decode`,
  which decodes and executes in one call).
- `properties.dfy` — lemmas relating several operations.
- `unit_tests.dfy` — the Rust code's unit tests restated as lemmas.

Where the Rust code would panic — a debug-build overflow check on `+=`,
`-=` or `+` of `u8`/`u16`, an array index out of bounds, the `todo!()` in the
sprite handler — the model returns a `Fault` and the instruction has no
effect. In detail: `Fetch` with pc + 1 ≥ 4096 is `MemoryOutOfBounds`; CALL with
sp ≥ 16 and RET with sp > 16 are `StackOverflow`; RET with sp = 0 is
`StackUnderflow`; a taken skip from pc > 0xFFFD is `PcOverflow`; a key wait
with no key down from pc < 2 is `PcUnderflow`; ADD Vx, kk above 0xFF is `RegisterOverflow`; ADD I, Vx
above 0xFFFF is `IndexOverflow`; SKP/SKNP with Vx ≥ 16 is `KeyOutOfRange`;
DRW is `Unimplemented`.

Where the Rust code departs from the conventional CHIP-8 instruction semantics
(the behaviour CHIP-8 interpreters commonly implement), the model follows the
Rust code:

- ADD Vx, kk (7xkk) conventionally wraps modulo 256; the code uses a checked
  `+=`, modelled as the `RegisterOverflow` fault.
- The flag-setting handlers write VF before Vx. With x = F the flag is
  therefore overwritten by the result (ADD VF, Vy leaves the wrapped sum in
  VF, SHR VF leaves 0, SHL VF leaves twice the old top bit), and SUB/SUBN
  with y = F read the flag just written instead of the old VF. The handler
  contracts state these cases separately. The conventional semantics, where
  VF always ends as the carry, borrow or shifted-out bit computed from the
  old operands, hold whenever neither x nor y is F.
- RND (Cxkk) conventionally ANDs kk with a random byte; the code uses the
  constant 0 in place of the random byte. The model takes
  the random byte as a parameter, so the code's behaviour is the case
  `rand = 0`.
- Fx29, Fx33, Fx55 and Fx65 are not in the code's dispatch table and decode as
  unrecognised words, that is, as no-ops. No instruction writes memory.
- `src/main.rs` calls `get_key_pressed`, which `src/keypad.rs` does not define;
  the key wait uses the scan of `chip-8/src/interpreter/keypad.rs`. The two
  keypad files and the two screen files agree otherwise and are modelled
  once.

## Model

| member | source | states |
|---|---|---|
| Bits.BitOr | src/main.rs:195-197 | each bit of `a \| b` is set iff it is set in `a` or in `b`; the result stays within the operands' width |
| Bits.BitAnd | src/main.rs:199-201 | each bit of `a & b` is set iff it is set in both; the result is no larger than either operand |
| Bits.BitXor | src/main.rs:203-205 | each bit of `a ^ b` is set iff the operands differ there; the result stays within the operands' width |
| Bits.HighBitOfByte | src/main.rs:222-225 | bit 7 of a byte is set exactly when the byte is at least 0x80 |
| Bits.OverflowingAdd | src/main.rs:185-189 | wrapped sum plus 256 times the overflow flag equals the true sum |
| Bits.WrappingSub | src/main.rs:207-215 | adding the subtrahend back to the wrapped difference gives the minuend modulo 256; no wrap when a ≥ b |
| Keypad.New | chip-8/src/interpreter/keypad.rs:6-8 | every key of a new keypad is released |
| Keypad.SetUp | src/keypad.rs:14-16 | afterwards the key reads as released and every other key reads as before |
| Keypad.SetDown | src/keypad.rs:18-20 | afterwards the key reads as pressed and every other key reads as before |
| Keypad.FirstPressedFrom | chip-8/src/interpreter/keypad.rs:22-30 | the scan from `from` finds nothing iff no key from `from` on is pressed, else the lowest pressed index ≥ `from` |
| Keypad.GetKeyPressed | chip-8/src/interpreter/keypad.rs:22-30 | `None` iff every key is released; otherwise a key index below 16 that is pressed, with every lower key released |
| Keypad.SetIdempotent | chip-8/src/interpreter/keypad.rs:14-20 | pressing a pressed key, or releasing a released one, changes nothing |
| Keypad.PressedKeyIsFoundNoHigher | chip-8/src/interpreter/keypad.rs:18-30 | after key k goes down the scan reports some key, and none higher than k |
| Keypad.SinglePressIsFound | chip-8/src/interpreter/keypad.rs:6-30 | on a fresh keypad with only key k down the scan reports exactly k |
| Screen.GridLayout | chip-8/src/interpreter/screen.rs:1-12 | the 2048-byte buffer is WIDTH * HEIGHT cells, every on-grid (x, y) indexes a cell, and distinct coordinates index distinct cells |
| Screen.CellCoordinates | chip-8/src/interpreter/screen.rs:11-12 | every cell index is the image of exactly one on-grid coordinate |
| Screen.New | src/screen.rs:14-16 | all 2048 cells of a new screen are 0 |
| Screen.UpdatePixel | src/screen.rs:26-31 | writes 1 for On and 0 for Off at x + y * 64 and leaves every other cell unchanged |
| Screen.GetPixelState | chip-8/src/interpreter/screen.rs:33-39 | reads Off iff the stored byte is 0 |
| Screen.Clear | src/screen.rs:18-24 | the column-by-column loop of Off writes yields the blank screen whatever the prior contents (hence clearing twice equals clearing once), and every on-grid pixel reads Off |
| Screen.UpdateThenGet | chip-8/src/interpreter/screen.rs:26-39 | reading a pixel after writing it returns the state written |
| Screen.UpdateLeavesOthers | chip-8/src/interpreter/screen.rs:26-39 | writing one on-grid pixel leaves every other on-grid pixel reading as before |
| Screen.OffGridAliasesNextRow | src/screen.rs:26-31 | without a bounds check, writing (64, 0) is writing (0, 1) |
| Screen.UpdateKeepsBinary | src/screen.rs:14-31 | a new screen holds only 0/1, and writing a pixel keeps a 0/1 screen 0/1 |
| Instruction.Assemble | src/main.rs:86-92 | the nibble extractors recover n1..n4 from the assembled word, and kk and nnn are its low byte and low twelve bits |
| Instruction.SplitAssemble | src/main.rs:86-92 | any word reassembles from its four nibbles; kk is y:n and nnn is x:kk |
| Instruction.FieldsOfBytes | src/main.rs:79-92 | for a word fetched as bytes hi, lo: family and x are the nibbles of hi, y and n those of lo, kk is lo, nnn is low nibble of hi then lo |
| Instruction.Decode | src/main.rs:127 | the fall-through arm keeps a word that matches no pattern whole, so nothing about it is lost (the other arms are stated by the round-trip lemmas below) |
| Instruction.DecodeEncode | src/main.rs:96-127 | decoding the encoding of any recognised instruction gives it back |
| Instruction.EncodeDecode | src/main.rs:85-128 | encoding the decoded form of any word gives the word back, so decoding loses no field |
| Interpreter.New | src/main.rs:44-57 | all memory, registers, stack slots, I, pc, sp and timers are 0, the screen is blank and no key is down |
| Interpreter.Init | src/main.rs:59-75 | the font occupies memory[0..80], memory from 80 up and the keypad are kept, registers, I, stack, sp and timers are 0, pc is 0x200, the screen is blank |
| Interpreter.Fetch | src/main.rs:77-83 | fails iff pc + 1 ≥ 4096; otherwise the word's high byte is memory[pc] and its low byte memory[pc + 1], and only pc changes, by +2 |
| Interpreter.Cls | src/main.rs:131-133 | every on-grid pixel reads Off afterwards; nothing but the screen changes |
| Interpreter.Ret | src/main.rs:135-138 | sp = 0 is StackUnderflow, sp > 16 is StackOverflow; otherwise sp drops by one, pc is the slot it now indexes, nothing else changes |
| Interpreter.Jp | src/main.rs:140-142 | pc becomes nnn; nothing else changes |
| Interpreter.Call | src/main.rs:144-148 | succeeds iff sp < 16 (else StackOverflow); the old pc lands in slot sp, sp grows by one, pc is nnn, other slots and state unchanged |
| Interpreter.SeByte | src/main.rs:150-154 | pc grows by exactly 2 iff Vx = kk, otherwise unchanged; nothing else changes; overflow past 0xFFFF is PcOverflow |
| Interpreter.SneByte | src/main.rs:156-160 | pc grows by exactly 2 iff Vx ≠ kk, otherwise unchanged; nothing else changes; overflow is PcOverflow |
| Interpreter.SneReg | src/main.rs:162-166 | pc grows by exactly 2 iff Vx ≠ Vy, otherwise unchanged; nothing else changes; overflow is PcOverflow |
| Interpreter.SeReg | src/main.rs:168-175 | pc grows by exactly 2 iff Vx = Vy, otherwise unchanged; nothing else changes; overflow is PcOverflow |
| Interpreter.LdByte | src/main.rs:177-179 | Vx = kk and no other register or field changes |
| Interpreter.AddByte | src/main.rs:181-183 | a sum above 0xFF is RegisterOverflow; otherwise new Vx minus kk is the old Vx, VF and all else untouched |
| Interpreter.AddReg | src/main.rs:185-189 | for x ≠ F: new Vx + 256·VF is the true sum and VF = 1 iff the sum ≥ 256; for x = F, VF holds the wrapped sum; only Vx and VF change |
| Interpreter.LdReg | src/main.rs:191-193 | Vx = Vy and nothing else changes |
| Interpreter.Or | src/main.rs:195-197 | each bit of the new Vx is the or of the old Vx and Vy bits; only Vx changes |
| Interpreter.And | src/main.rs:199-201 | each bit of the new Vx is the and of the old Vx and Vy bits; only Vx changes |
| Interpreter.Xor | src/main.rs:203-205 | each bit of the new Vx is the exclusive or of the old Vx and Vy bits; only Vx changes |
| Interpreter.Sub | src/main.rs:207-210 | VF = 1 iff Vx > Vy; for x, y ≠ F the new Vx plus Vy is the old Vx mod 256; the VF-overlap cases as written; only Vx and VF change |
| Interpreter.Subn | src/main.rs:212-215 | VF = 1 iff Vy > Vx; for x, y ≠ F the new Vx plus old Vx is Vy mod 256; the VF-overlap cases as written; only Vx and VF change |
| Interpreter.Shr | src/main.rs:217-220 | for x ≠ F, 2·(new Vx) + VF rebuilds the old Vx (VF is the bit shifted out); for x = F, VF ends 0; only Vx and VF change |
| Interpreter.Shl | src/main.rs:222-225 | for x ≠ F, new Vx + 256·VF is twice the old Vx and VF = 1 iff old bit 7 was set; for x = F, VF is twice that bit; only Vx and VF change |
| Interpreter.LdI | src/main.rs:227-229 | I = nnn and nothing else changes |
| Interpreter.JpV0 | src/main.rs:231-233 | pc = nnn + V0, which never exceeds 0x10FE, so the `u16` addition cannot overflow |
| Interpreter.Rnd | src/main.rs:235-239 | each bit of the new Vx is set iff set in both the supplied random byte and kk; only Vx changes |
| Interpreter.Skp | src/main.rs:245-249 | Vx ≥ 16 is KeyOutOfRange; otherwise pc grows by exactly 2 iff key Vx is pressed, else unchanged; nothing else changes |
| Interpreter.Sknp | src/main.rs:251-255 | Vx ≥ 16 is KeyOutOfRange; otherwise pc grows by exactly 2 iff key Vx is released, else unchanged; nothing else changes |
| Interpreter.LdVxDt | src/main.rs:257-259 | Vx = delay timer and nothing else changes |
| Interpreter.LdVxK | src/main.rs:261-266 | with a key down, Vx is the lowest pressed key and nothing else changes; with none, pc is rewound by 2 (PcUnderflow below 2) and nothing else changes |
| Interpreter.LdDtVx | src/main.rs:268-270 | delay timer = Vx and nothing else changes |
| Interpreter.LdStVx | src/main.rs:272-274 | sound timer = Vx and nothing else changes |
| Interpreter.AddI | src/main.rs:276-278 | a sum above 0xFFFF is IndexOverflow; otherwise the new I minus Vx is the old I (not masked to 12 bits) and nothing else changes |
| Interpreter.Execute | src/main.rs:96-128 | no instruction changes memory or the keypad, an unrecognised instruction changes nothing, DRW is Unimplemented |
| Interpreter.DecodeExecute | src/main.rs:85-128 | memory and keypad are never changed, and a word matching no pattern leaves the whole state unchanged |
| Properties.FetchFields | src/main.rs:77-92 | the fetched word's family and x are the nibbles of memory[pc], its y and n those of memory[pc + 1], its kk is memory[pc + 1] |
| Properties.CallThenRet | src/main.rs:135-148 | CALL nnn then RET restores pc and sp to their pre-call values; the stack keeps the pushed address in the used slot |
| Properties.CallDepth | src/main.rs:144-148 | k consecutive CALLs from sp ≤ 16 succeed iff sp + k ≤ 16, leave sp + k, and otherwise fail with StackOverflow |
| Properties.SixteenCallsFit | src/main.rs:144-148 | from an empty stack 16 CALLs succeed and the 17th is StackOverflow |
| Properties.StackBoundKept | src/main.rs:135-148 | an instruction started with sp ≤ 16 ends with sp ≤ 16 |
| Properties.ScreenStaysBinary | src/main.rs:131-133 | a 0/1 framebuffer stays 0/1 across any instruction |
| Properties.SkipsOnlyMovePc | src/main.rs:150-175 | the six skips change nothing but pc, and pc only by 0 or 2 |
| Properties.FlagIsAlwaysWritten | src/main.rs:185-225 | for x ≠ F, ADD, SUB, SUBN, SHR and SHL always succeed and leave VF as 0 or 1 whatever it held |
| Properties.KeyWaitRepeats | src/main.rs:261-266 | with no key down, fetching and executing any word that decodes as Fx0A returns the machine to its exact pre-fetch state |
| Properties.KeyWaitProceeds | src/main.rs:261-266 | with a key down, fetching and executing any word that decodes as Fx0A leaves pc two past the instruction and Vx as the scan's key |
| Properties.InitFreshMemory | src/main.rs:44-75 | initialising a new interpreter leaves the font followed by zeroes in memory |
| Properties.InitIdempotent | src/main.rs:59-75 | initialising twice equals initialising once |
| UnitTests.CallAndRetTests | src/main.rs:289-319 | RET from sp 12 loads stack[11] and leaves sp 11; JP 6FF; CALL from sp 11 pushes 0x66 into slot 11 |
| UnitTests.SkipTests | src/main.rs:321-380 | SE Vx, kk, SNE Vx, kk and SE Vx, Vy after a fetch from pc 2, and SNE Vx, Vy without a fetch, end at the pc values the Rust tests expect (6/8, 4/8, 6/8 and 2/4) |
| UnitTests.RegisterLoadTests | src/main.rs:382-407 | LD V1, AA gives 0xAA; ADD V3, AA with V3 = 2 gives 0xAC; LD V3, V5 with V5 = 5 gives 5 |
| UnitTests.BitwiseTests | src/main.rs:409-437 | 0x0B with 0x03 gives 0x0B, 0x03 and 0x08 for OR, AND, XOR |
| UnitTests.AddRegTests | src/main.rs:439-460 | 0xF + 0x3 gives 0x12 with VF 0; 0xFF + 0x03 gives 0x02 with VF 1 |
| UnitTests.SubTests | src/main.rs:462-479 | 0xF − 0x3 gives 0x0C with VF 1; 0x14 − 0xFF gives 0x15 with VF 0 |
| UnitTests.SubnTests | src/main.rs:481-498 | 0x3 − 0xF gives 0xF4 with VF 0; 0xFF − 0x0E gives 0xF1 with VF 1 |
| UnitTests.ShiftTests | src/main.rs:500-532 | SHR of 0x0E and 0x0F, SHL of 0x70 and 0xC0 give the values and flags the Rust code's tests expect |
| UnitTests.IndexAndJumpTests | src/main.rs:534-551 | LD I, 123 and JP V0, 130 with V0 = 4 |
| UnitTests.SkpTest | src/main.rs:553-566 | with key 1 down SKP V1 skips and SKP V2 does not |
| UnitTests.SknpTest | src/main.rs:568-581 | with key 1 down SKNP V1 does not skip and SKNP V2 does |
| UnitTests.LdVxDtTest | src/main.rs:583-590 | LD V1, DT copies the delay timer |
| UnitTests.KeyWaitTest | src/main.rs:592-606 | fetch then F10A with no key returns pc to 0; with key 1 down it sets V1 = 1 and leaves pc at 2 |
| UnitTests.TimerAndIndexTests | src/main.rs:608-634 | LD DT, V1; LD ST, V1; ADD I, V1 from I = 4, V1 = 9 gives 13 |
| UnitTests.AddByteOverflowIsFault | src/main.rs:181-183 | ADD V1, 5 with V1 = 0xFF is RegisterOverflow rather than a wrap to 0x04 |
| UnitTests.FlagRegisterOverlap | src/main.rs:185-215 | ADD VF, V1 leaves the wrapped sum in VF; SUB V1, VF subtracts the freshly written flag |
| UnitTests.ClearTest | src/screen.rs:38-46 | clearing an all-ones framebuffer leaves all zeros |
| UnitTests.PixelTestAsWritten | src/screen.rs:48-62 | the test's expected buffer (ones at 0, 10, 64) is not what its three writes produce |
| UnitTests.PixelTestCorrected | src/screen.rs:48-62 | the three writes produce ones at exactly 0, 640 and 1 |

## Left out

- The timer tick and the one-instruction cycle: they live in the interpreter module behind `chip-8/src/exports.rs`, and `chip-8/src/interpreter/mod.rs` is not part of this model.
- `chip-8/src/exports.rs`: a WebAssembly boundary over a global mutable interpreter; nothing in it computes.
- `view/src/view.js` and the `view/webpack` files: browser rendering, ROM loading and key mapping (I/O and build configuration).
- `main()` in `src/main.rs`: it only prints.
- DRW (`execute_drw_vx_vy_n`): the handler is `todo!()`, so the model reports `Unimplemented` and models no sprite drawing.
- Interpreter.Rnd: the random byte is a parameter; the Rust code always uses 0, which is the case `rand = 0`; no random generator is modelled.
- Screen.UpdatePixel: `usize` wrap-around of `x + y * 64` for astronomically large coordinates is not modelled; coordinates are unbounded naturals and only the buffer bound is required.
- Keypad.IsPressed carries no contract of its own; what it reports is stated through `SetUp`, `SetDown` and `GetKeyPressed`.
- Keypad.GetKeyPressed takes `&mut self` in the Rust code but is modelled as a function of the keypad value, so it cannot change the keys.
- Release builds: the model follows the overflow checks of a debug build; a release build would wrap `+=` and `-=` silently instead of faulting.

## Findings

| source | as written | input that shows it | evidently intended | confidence | as-written member | corrected member |
|---|---|---|---|---|---|---|
| src/screen.rs:48-62 | `test_update_pixel` expects ones at cells 0, 10 and 64 | the test's own writes (0,0), (0,10), (1,0) reach cells 0, 640 and 1 under `x + y * WIDTH` | expected ones at cells 0, 640 and 1, matching the row-major layout `update_pixel` uses | high; not executed | UnitTests.PixelTestAsWritten | UnitTests.PixelTestCorrected |
