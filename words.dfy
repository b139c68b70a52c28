/** Fixed-width unsigned integers of the wire protocol, as bounded integers. */
module Words {

  type Byte = x: int | 0 <= x < 0x100
  type U8 = x: int | 0 <= x < 0x100
  /** One 16-bit Modbus register word (`protocol::Word`, protocol.rs:12). */
  type Word = x: int | 0 <= x < 0x1_0000
  type U16 = Word
  type U32 = x: int | 0 <= x < 0x1_0000_0000

  function Pow2(n: nat): (p: nat)
    ensures p >= 1
  {
    if n == 0 then 1 else 2 * Pow2(n - 1)
  }

  lemma {:induction false} Pow2Add(a: nat, b: nat)
    ensures Pow2(a + b) == Pow2(a) * Pow2(b)
  {
    if a > 0 {
      Pow2Add(a - 1, b);
      assert Pow2(a + b) == 2 * Pow2(a - 1 + b);
    }
  }

  lemma {:induction false} Pow2Monotone(a: nat, b: nat)
    requires a <= b
    ensures Pow2(a) <= Pow2(b)
  {
    if a < b {
      Pow2Monotone(a, b - 1);
    }
  }
}
