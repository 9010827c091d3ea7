/**
 * CHIP-8 instruction words and their decoding. A word is four nibbles
 * n1 n2 n3 n4, most significant first; n1 selects the opcode family, x = n2
 * and y = n3 name registers, n = n4 is a small immediate, kk is the low byte
 * and nnn the low twelve bits.
 */
module Instruction {
  import opened Bits

  type Nibble = n: int | 0 <= n < 0x10

  /** A twelve-bit address operand. */
  type Addr = a: int | 0 <= a < 0x1000

  /** One decoded instruction: one constructor per handler the decoder dispatches to. */
  datatype Instruction =
    | Cls                              // 00E0
    | Ret                              // 00EE
    | Jp(nnn: Addr)                    // 1nnn
    | Call(nnn: Addr)                  // 2nnn
    | SeByte(x: Nibble, kk: Byte)      // 3xkk
    | SneByte(x: Nibble, kk: Byte)     // 4xkk
    | SeReg(x: Nibble, y: Nibble)      // 5xy0
    | LdByte(x: Nibble, kk: Byte)      // 6xkk
    | AddByte(x: Nibble, kk: Byte)     // 7xkk
    | LdReg(x: Nibble, y: Nibble)      // 8xy0
    | Or(x: Nibble, y: Nibble)         // 8xy1
    | And(x: Nibble, y: Nibble)        // 8xy2
    | Xor(x: Nibble, y: Nibble)        // 8xy3
    | AddReg(x: Nibble, y: Nibble)     // 8xy4
    | Sub(x: Nibble, y: Nibble)        // 8xy5
    | Shr(x: Nibble, y: Nibble)        // 8xy6 (y is ignored when executed)
    | Subn(x: Nibble, y: Nibble)       // 8xy7
    | Shl(x: Nibble, y: Nibble)        // 8xyE (y is ignored when executed)
    | SneReg(x: Nibble, y: Nibble)     // 9xy0
    | LdI(nnn: Addr)                   // Annn
    | JpV0(nnn: Addr)                  // Bnnn
    | Rnd(x: Nibble, kk: Byte)         // Cxkk
    | Drw(x: Nibble, y: Nibble, n: Nibble) // Dxyn
    | Skp(x: Nibble)                   // Ex9E
    | Sknp(x: Nibble)                  // ExA1
    | LdVxDt(x: Nibble)                // Fx07
    | LdVxK(x: Nibble)                 // Fx0A
    | LdDtVx(x: Nibble)                // Fx15
    | LdStVx(x: Nibble)                // Fx18
    | AddI(x: Nibble)                  // Fx1E
    | Unknown(word: Word)              // anything else: executes as a no-op

  function Family(w: Word): Nibble { w / 0x1000 }
  function X(w: Word): Nibble { (w / 0x100) % 0x10 }
  function Y(w: Word): Nibble { (w / 0x10) % 0x10 }
  function N(w: Word): Nibble { w % 0x10 }
  function Kk(w: Word): Byte { w % 0x100 }
  function Nnn(w: Word): Addr { w % 0x1000 }

  lemma DivMod16(q: int, r: int)
    requires 0 <= r < 0x10
    ensures (q * 0x10 + r) / 0x10 == q && (q * 0x10 + r) % 0x10 == r
  {
  }

  lemma DivMod256(q: int, r: int)
    requires 0 <= r < 0x100
    ensures (q * 0x100 + r) / 0x100 == q && (q * 0x100 + r) % 0x100 == r
  {
  }

  lemma DivMod4096(q: int, r: int)
    requires 0 <= r < 0x1000
    ensures (q * 0x1000 + r) / 0x1000 == q && (q * 0x1000 + r) % 0x1000 == r
  {
  }

  /** The word is the four nibbles n1 n2 n3 n4, most significant first. */
  function Assemble(n1: Nibble, n2: Nibble, n3: Nibble, n4: Nibble): (w: Word)
    ensures Family(w) == n1 && X(w) == n2 && Y(w) == n3 && N(w) == n4
    ensures Kk(w) == n3 * 0x10 + n4 && Nnn(w) == n2 * 0x100 + n3 * 0x10 + n4
  {
    var w := n1 * 0x1000 + n2 * 0x100 + n3 * 0x10 + n4;
    DivMod4096(n1, n2 * 0x100 + n3 * 0x10 + n4);
    DivMod256(n1 * 0x10 + n2, n3 * 0x10 + n4);
    DivMod16(n1 * 0x10 + n2, n3);
    DivMod16(n1 * 0x100 + n2 * 0x10 + n3, n4);
    DivMod16(n1 * 0x10 * 0x10 + n2 * 0x10, n3);
    DivMod16(n1 * 0x100, n2);
    w
  }

  /** Every word splits into its nibbles and reassembles unchanged. */
  lemma SplitAssemble(w: Word)
    ensures Assemble(Family(w), X(w), Y(w), N(w)) == w
    ensures Kk(w) == Y(w) * 0x10 + N(w)
    ensures Nnn(w) == X(w) * 0x100 + Kk(w)
  {
    var a, n := w / 0x10, w % 0x10;
    var b, y := a / 0x10, a % 0x10;
    var c, x := b / 0x10, b % 0x10;
    assert w == a * 0x10 + n;
    assert a == b * 0x10 + y;
    assert b == c * 0x10 + x;
    assert w == b * 0x100 + (y * 0x10 + n) by {
      assert a * 0x10 == b * 0x100 + y * 0x10;
    }
    DivMod256(b, y * 0x10 + n);
    assert w == c * 0x1000 + (x * 0x100 + y * 0x10 + n) by {
      assert b * 0x100 == c * 0x1000 + x * 0x100;
    }
    DivMod4096(c, x * 0x100 + y * 0x10 + n);
    assert Family(w) == c && X(w) == x && Y(w) == y && N(w) == n;
  }

  /**
   * The decoder's dispatch table: the first pattern that matches the nibbles
   * (n1, n2, n3, n4) selects the instruction; a word matching none is `Unknown`.
   */
  function Decode(w: Word): (r: Instruction)
    ensures r.Unknown? ==> r.word == w
  {
    var x, kk, nnn := X(w), Kk(w), Nnn(w);
    match Family(w)
    case 0x0 => DecodeSystem(w)
    case 0x1 => Jp(nnn)
    case 0x2 => Call(nnn)
    case 0x3 => SeByte(x, kk)
    case 0x4 => SneByte(x, kk)
    case 0x5 => if N(w) == 0x0 then SeReg(x, Y(w)) else Unknown(w)
    case 0x6 => LdByte(x, kk)
    case 0x7 => AddByte(x, kk)
    case 0x8 => DecodeAlu(w)
    case 0x9 => if N(w) == 0x0 then SneReg(x, Y(w)) else Unknown(w)
    case 0xA => LdI(nnn)
    case 0xB => JpV0(nnn)
    case 0xC => Rnd(x, kk)
    case 0xD => Drw(x, Y(w), N(w))
    case 0xE => DecodeKeySkip(w)
    case 0xF => DecodeMisc(w)
  }

  /** Family 0: only the exact words 00E0 and 00EE are recognised. */
  function DecodeSystem(w: Word): Instruction
  {
    if w == 0x00E0 then Cls
    else if w == 0x00EE then Ret
    else Unknown(w)
  }

  /** Family 8: register-to-register operations, selected by n4. */
  function DecodeAlu(w: Word): Instruction
  {
    var x, y := X(w), Y(w);
    match N(w)
    case 0x0 => LdReg(x, y)
    case 0x1 => Or(x, y)
    case 0x2 => And(x, y)
    case 0x3 => Xor(x, y)
    case 0x4 => AddReg(x, y)
    case 0x5 => Sub(x, y)
    case 0x6 => Shr(x, y)
    case 0x7 => Subn(x, y)
    case 0xE => Shl(x, y)
    case _ => Unknown(w)
  }

  /** Family E: key skips, selected by n3 and n4 together. */
  function DecodeKeySkip(w: Word): Instruction
  {
    if Y(w) == 0x9 && N(w) == 0xE then Skp(X(w))
    else if Y(w) == 0xA && N(w) == 0x1 then Sknp(X(w))
    else Unknown(w)
  }

  /** Family F: timers, key wait and the index register, selected by n3 and n4. */
  function DecodeMisc(w: Word): Instruction
  {
    var x := X(w);
    if Y(w) == 0x0 && N(w) == 0x7 then LdVxDt(x)
    else if Y(w) == 0x0 && N(w) == 0xA then LdVxK(x)
    else if Y(w) == 0x1 && N(w) == 0x5 then LdDtVx(x)
    else if Y(w) == 0x1 && N(w) == 0x8 then LdStVx(x)
    else if Y(w) == 0x1 && N(w) == 0xE then AddI(x)
    else Unknown(w)
  }

  /** The canonical word of an instruction; `Unknown` keeps its original word. */
  function Encode(i: Instruction): Word
  {
    match i
    case Cls => 0x00E0
    case Ret => 0x00EE
    case Jp(nnn) => 0x1000 + nnn
    case Call(nnn) => 0x2000 + nnn
    case SeByte(x, kk) => 0x3000 + x * 0x100 + kk
    case SneByte(x, kk) => 0x4000 + x * 0x100 + kk
    case SeReg(x, y) => Assemble(0x5, x, y, 0x0)
    case LdByte(x, kk) => 0x6000 + x * 0x100 + kk
    case AddByte(x, kk) => 0x7000 + x * 0x100 + kk
    case LdReg(x, y) => Assemble(0x8, x, y, 0x0)
    case Or(x, y) => Assemble(0x8, x, y, 0x1)
    case And(x, y) => Assemble(0x8, x, y, 0x2)
    case Xor(x, y) => Assemble(0x8, x, y, 0x3)
    case AddReg(x, y) => Assemble(0x8, x, y, 0x4)
    case Sub(x, y) => Assemble(0x8, x, y, 0x5)
    case Shr(x, y) => Assemble(0x8, x, y, 0x6)
    case Subn(x, y) => Assemble(0x8, x, y, 0x7)
    case Shl(x, y) => Assemble(0x8, x, y, 0xE)
    case SneReg(x, y) => Assemble(0x9, x, y, 0x0)
    case LdI(nnn) => 0xA000 + nnn
    case JpV0(nnn) => 0xB000 + nnn
    case Rnd(x, kk) => 0xC000 + x * 0x100 + kk
    case Drw(x, y, n) => Assemble(0xD, x, y, n)
    case Skp(x) => Assemble(0xE, x, 0x9, 0xE)
    case Sknp(x) => Assemble(0xE, x, 0xA, 0x1)
    case LdVxDt(x) => Assemble(0xF, x, 0x0, 0x7)
    case LdVxK(x) => Assemble(0xF, x, 0x0, 0xA)
    case LdDtVx(x) => Assemble(0xF, x, 0x1, 0x5)
    case LdStVx(x) => Assemble(0xF, x, 0x1, 0x8)
    case AddI(x) => Assemble(0xF, x, 0x1, 0xE)
    case Unknown(w) => w
  }

  /** A family nibble, a register nibble and a byte operand lay out as n1, n2 and kk. */
  lemma ByteOperandLayout(n1: Nibble, x: Nibble, kk: Byte)
    ensures n1 * 0x1000 + x * 0x100 + kk == Assemble(n1, x, kk / 0x10, kk % 0x10)
  {
  }

  /** A family nibble and an address operand lay out as n1 and nnn. */
  lemma AddrOperandLayout(n1: Nibble, nnn: Addr)
    ensures n1 * 0x1000 + nnn == Assemble(n1, nnn / 0x100, (nnn / 0x10) % 0x10, nnn % 0x10)
  {
    var a, n := nnn / 0x10, nnn % 0x10;
    var x, y := a / 0x10, a % 0x10;
    assert nnn == x * 0x100 + (y * 0x10 + n);
    DivMod256(x, y * 0x10 + n);
  }

  /** Decoding the word of a byte-operand instruction gives it back. */
  lemma DecodeEncodeByteOperand(i: Instruction)
    requires i.SeByte? || i.SneByte? || i.LdByte? || i.AddByte? || i.Rnd?
    ensures Decode(Encode(i)) == i
  {
    var n1: Nibble :=
      if i.SeByte? then 0x3 else if i.SneByte? then 0x4 else if i.LdByte? then 0x6
      else if i.AddByte? then 0x7 else 0xC;
    ByteOperandLayout(n1, i.x, i.kk);
  }

  /** Decoding the word of an address-operand instruction gives it back. */
  lemma DecodeEncodeAddrOperand(i: Instruction)
    requires i.Jp? || i.Call? || i.LdI? || i.JpV0?
    ensures Decode(Encode(i)) == i
  {
    var n1: Nibble := if i.Jp? then 0x1 else if i.Call? then 0x2 else if i.LdI? then 0xA else 0xB;
    AddrOperandLayout(n1, i.nnn);
  }

  /** Decoding the word of any recognised instruction gives that instruction back. */
  lemma {:induction false} DecodeEncode(i: Instruction)
    requires !i.Unknown?
    ensures Decode(Encode(i)) == i
  {
    if i.SeByte? || i.SneByte? || i.LdByte? || i.AddByte? || i.Rnd? {
      DecodeEncodeByteOperand(i);
    } else if i.Jp? || i.Call? || i.LdI? || i.JpV0? {
      DecodeEncodeAddrOperand(i);
    }
  }

  /**
   * Encoding a decoded word gives the word back: the decoder loses no
   * information, and a word it does not recognise is kept whole.
   */
  lemma {:induction false} EncodeDecode(w: Word)
    ensures Encode(Decode(w)) == w
  {
    SplitAssemble(w);
    var n1 := Family(w);
    if n1 == 0x8 {
      assert Encode(DecodeAlu(w)) == w;
    } else if n1 == 0xE {
      assert Encode(DecodeKeySkip(w)) == w;
    } else if n1 == 0xF {
      assert Encode(DecodeMisc(w)) == w;
    } else if n1 in {0x3, 0x4, 0x6, 0x7, 0xC} {
      EncodeDecodeByteOperand(w);
    } else if n1 in {0x1, 0x2, 0xA, 0xB} {
      AddrOperandLayout(n1, Nnn(w));
    }
  }

  /** Encoding the decoded form of a byte-operand word gives the word back. */
  lemma EncodeDecodeByteOperand(w: Word)
    requires Family(w) in {0x3, 0x4, 0x6, 0x7, 0xC}
    ensures Encode(Decode(w)) == w
  {
    SplitAssemble(w);
    ByteOperandLayout(Family(w), X(w), Kk(w));
  }

  /**
   * For the word stored big-endian as bytes `hi` and `lo`: the family and x are
   * the two halves of `hi`, y and n the two halves of `lo`, kk is `lo` and nnn
   * is the low nibble of `hi` followed by `lo`.
   */
  lemma {:induction false} FieldsOfBytes(hi: Byte, lo: Byte)
    ensures Family(hi * 0x100 + lo) == hi / 0x10 && X(hi * 0x100 + lo) == hi % 0x10
    ensures Y(hi * 0x100 + lo) == lo / 0x10 && N(hi * 0x100 + lo) == lo % 0x10
    ensures Kk(hi * 0x100 + lo) == lo
    ensures Nnn(hi * 0x100 + lo) == (hi % 0x10) * 0x100 + lo
  {
    var w := hi * 0x100 + lo;
    assert w == Assemble(hi / 0x10, hi % 0x10, lo / 0x10, lo % 0x10);
  }
}
