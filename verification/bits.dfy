/**
 * Fixed-width unsigned integers and the bit-level operations the interpreter
 * uses on them. Values are plain bounded integers; each bitwise operator is
 * defined one bit at a time and carries the per-bit law it satisfies.
 */
module Bits {

  /** Rust's `u8`. */
  type Byte = b: int | 0 <= b < 0x100

  /** Rust's `u16`. */
  type Word = w: int | 0 <= w < 0x1_0000

  /** Bit `i` of `v`, counting from the least significant bit. */
  predicate Bit(v: nat, i: nat)
  {
    if i == 0 then v % 2 == 1 else Bit(v / 2, i - 1)
  }

  function Pow2(k: nat): (p: nat)
    ensures p >= 1
  {
    if k == 0 then 1 else 2 * Pow2(k - 1)
  }

  /** Zero has no bit set. */
  lemma {:induction false} ZeroHasNoBits(i: nat)
    ensures !Bit(0, i)
  {
    if i > 0 {
      ZeroHasNoBits(i - 1);
    }
  }

  /** Bitwise or: a bit is set in the result exactly when it is set in either operand. */
  function BitOr(a: nat, b: nat): (r: nat)
    ensures forall i: nat {:trigger Bit(r, i)} :: Bit(r, i) <==> Bit(a, i) || Bit(b, i)
    ensures forall k: nat {:trigger Pow2(k)} :: a < Pow2(k) && b < Pow2(k) ==> r < Pow2(k)
    decreases a + b
  {
    if a == 0 && b == 0 then 0
    else 2 * BitOr(a / 2, b / 2) + (if a % 2 == 1 || b % 2 == 1 then 1 else 0)
  }

  /** Bitwise and: a bit is set in the result exactly when it is set in both operands. */
  function BitAnd(a: nat, b: nat): (r: nat)
    ensures forall i: nat {:trigger Bit(r, i)} :: Bit(r, i) <==> Bit(a, i) && Bit(b, i)
    ensures r <= a && r <= b
    decreases a + b
  {
    if a == 0 || b == 0 then
      assert forall i: nat :: !Bit(0, i) by {
        forall i: nat { ZeroHasNoBits(i); }
      }
      0
    else 2 * BitAnd(a / 2, b / 2) + (if a % 2 == 1 && b % 2 == 1 then 1 else 0)
  }

  /** Bitwise exclusive or: a bit is set in the result exactly when the operands differ there. */
  function BitXor(a: nat, b: nat): (r: nat)
    ensures forall i: nat {:trigger Bit(r, i)} :: Bit(r, i) <==> Bit(a, i) != Bit(b, i)
    ensures forall k: nat {:trigger Pow2(k)} :: a < Pow2(k) && b < Pow2(k) ==> r < Pow2(k)
    decreases a + b
  {
    if a == 0 && b == 0 then
      assert forall i: nat :: !Bit(0, i) by {
        forall i: nat { ZeroHasNoBits(i); }
      }
      0
    else 2 * BitXor(a / 2, b / 2) + (if (a % 2 == 1) != (b % 2 == 1) then 1 else 0)
  }

  /** Bit 7 of a byte is set exactly when the byte is at least 0x80. */
  lemma HighBitOfByte(v: Byte)
    ensures Bit(v, 7) <==> v >= 0x80
  {
    var v1 := v / 2;
    var v2 := v1 / 2;
    var v3 := v2 / 2;
    var v4 := v3 / 2;
    var v5 := v4 / 2;
    var v6 := v5 / 2;
    assert Bit(v, 7) == Bit(v1, 6) == Bit(v2, 5) == Bit(v3, 4) == Bit(v4, 3) == Bit(v5, 2);
    assert Bit(v5, 2) == Bit(v6, 1) == Bit(v6 / 2, 0);
    assert v6 / 2 == v / 0x80;
  }

  /** `u8::overflowing_add`: the wrapped sum and whether the true sum left eight bits. */
  function OverflowingAdd(a: Byte, b: Byte): (r: (Byte, bool))
    ensures r.0 + (if r.1 then 0x100 else 0) == a + b
  {
    if a + b < 0x100 then (a + b, false) else (a + b - 0x100, true)
  }

  /** `u8::wrapping_sub`: the difference modulo 256; adding `b` back gives `a`. */
  function WrappingSub(a: Byte, b: Byte): (r: Byte)
    ensures (r + b) % 0x100 == a
    ensures a >= b ==> r == a - b
  {
    if a >= b then a - b else a - b + 0x100
  }
}
