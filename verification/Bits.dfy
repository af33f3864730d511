/** Peripheral registers as 32-bit words, read one bit or one bit field at a time. */
module Bits {

  type Word = bv32

  /** Bit `i` of a register. */
  predicate Bit(w: Word, i: Word)
    requires i < 32
  {
    (w >> i) & 1 == 1
  }

  /** Registers that differ do so in some bit, found by halving. */
  lemma DifferingBit(a: Word, b: Word) returns (i: Word)
    requires a != b
    ensures i < 32 && Bit(a, i) != Bit(b, i)
  {
    var h := a ^ b;
    i := 0;
    if h & 0xFFFF == 0 { h := h >> 16; i := i + 16; }
    if h & 0xFF == 0 { h := h >> 8; i := i + 8; }
    if h & 0xF == 0 { h := h >> 4; i := i + 4; }
    if h & 3 == 0 { h := h >> 2; i := i + 2; }
    if h & 1 == 0 { i := i + 1; }
  }

  /** Two registers that agree on every bit are the same register value. */
  lemma Extensional(a: Word, b: Word)
    requires forall i: Word :: i < 32 ==> Bit(a, i) == Bit(b, i)
    ensures a == b
  {
    if a != b {
      var i := DifferingBit(a, b);
    }
  }

  /** `w |= 1 << k` or `w &= ~(1 << k)`. */
  function WithBit(w: Word, k: Word, on: bool): Word
    requires k < 32
  {
    if on then SetBit(w, k) else ClearBit(w, k)
  }

  function OneHot(k: Word): Word requires k < 32 { 1 << k }

  function SetBit(w: Word, k: Word): Word requires k < 32 { w | OneHot(k) }

  function ClearBit(w: Word, k: Word): Word requires k < 32 { w & !OneHot(k) }

  lemma SetBitAt(w: Word, k: Word, j: Word)
    requires k < 32 && j < 32
    ensures Bit(SetBit(w, k), j) == (j == k || Bit(w, j))
  {
  }

  lemma ClearBitAt(w: Word, k: Word, j: Word)
    requires k < 32 && j < 32
    ensures Bit(ClearBit(w, k), j) == (j != k && Bit(w, j))
  {
  }

  /** Changing one bit changes no other. */
  lemma WithBitAt(w: Word, k: Word, on: bool, j: Word)
    requires k < 32 && j < 32
    ensures Bit(WithBit(w, k, on), j) == if j == k then on else Bit(w, j)
  {
    SetBitAt(w, k, j);
    ClearBitAt(w, k, j);
    hide Bit, SetBit, ClearBit;
  }

  // Several bits at a time: `w & mask`, `w | mask` and `w & ~mask`.

  function Others(mask: Word): Word { !mask }

  function Masked(w: Word, mask: Word): Word { w & mask }

  function Raised(w: Word, mask: Word): Word { w | mask }

  function Cleared(w: Word, mask: Word): Word { Masked(w, Others(mask)) }

  lemma OthersAt(mask: Word, j: Word)
    requires j < 32
    ensures Bit(Others(mask), j) == !Bit(mask, j)
  {
  }

  lemma MaskedAt(w: Word, mask: Word, j: Word)
    requires j < 32
    ensures Bit(Masked(w, mask), j) == (Bit(w, j) && Bit(mask, j))
  {
  }

  lemma RaisedAt(w: Word, mask: Word, j: Word)
    requires j < 32
    ensures Bit(Raised(w, mask), j) == (Bit(w, j) || Bit(mask, j))
  {
  }

  lemma ClearedAt(w: Word, mask: Word, j: Word)
    requires j < 32
    ensures Bit(Cleared(w, mask), j) == (Bit(w, j) && !Bit(mask, j))
  {
    MaskedAt(w, Others(mask), j);
    OthersAt(mask, j);
    hide Bit, Others, Masked;
  }
}
