/**
 * 16-bit machine words of the Hack computer. Arithmetic wraps modulo 2^16;
 * the ALU's sign tests read a word as two's complement.
 */
module Words {

  const Modulus: int := 0x1_0000

  /** A 16-bit word, held as its unsigned value. */
  type Word = w: int | 0 <= w < Modulus

  function Add(x: Word, y: Word): Word { (x + y) % Modulus }

  function Sub(x: Word, y: Word): Word { (x - y) % Modulus }

  /** Bitwise complement: every one of the 16 bits flipped. */
  function Not(x: Word): Word { 0xFFFF - x }

  function And(x: Word, y: Word): Word { ((x as bv16) & (y as bv16)) as int }

  function Or(x: Word, y: Word): Word { ((x as bv16) | (y as bv16)) as int }

  /** The word whose bits are all ones: -1 in two's complement, "true" for the VM. */
  const True: Word := 0xFFFF

  /** The word read as a two's-complement integer. */
  function Signed(w: Word): (v: int)
    ensures -0x8000 <= v < 0x8000
    ensures v % Modulus == w
  {
    if w < 0x8000 then w else w - Modulus
  }

  /** Two's-complement negation as the generated code computes it: !x + 1. */
  function Neg(w: Word): Word {
    Add(Not(w), 1)
  }

  /** !x + 1 is -x on every word but 0x8000 (-32768), which is its own negation. */
  lemma NegNegates(w: Word)
    ensures w != 0x8000 ==> Signed(Neg(w)) == -Signed(w)
    ensures Neg(0x8000) == 0x8000
  {
  }

  /** Negating twice gives the word back, including the boundary word 0x8000. */
  lemma NegInvolution(w: Word)
    ensures Neg(Neg(w)) == w
  {
  }

  /**
   * The wrapped difference x - y has the sign of the true difference of the
   * signed values whenever that difference fits in 16 bits.
   */
  lemma SignedDifference(x: Word, y: Word)
    requires -0x8000 <= Signed(x) - Signed(y) < 0x8000
    ensures Signed(Sub(x, y)) == Signed(x) - Signed(y)
  {
  }

  lemma AndCommutes(x: Word, y: Word)
    ensures And(x, y) == And(y, x)
  {
  }

  lemma OrCommutes(x: Word, y: Word)
    ensures Or(x, y) == Or(y, x)
  {
  }
}
