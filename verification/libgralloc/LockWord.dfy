/**
 * The 32-bit lock word of a buffer handle: a write bit, a mapped bit and, in the bits below, the number of
 * holders. The protocol is modelled on the word taken apart; the lemmas here tie every operation on the parts to
 * the arithmetic on the whole word, carries included.
 */
module LockWord {
  const WRITE := 0x8000_0000   // LOCK_STATE_WRITE, 1 << 31
  const MAPPED := 0x4000_0000  // LOCK_STATE_MAPPED, 1 << 30; the bits below are LOCK_STATE_READ_MASK

  type Word32 = v: int | 0 <= v < 0x1_0000_0000

  type Counter = n: nat | n < MAPPED

  datatype Word = Word(write: bool, mapped: bool, count: Counter) {
    function Increment(): Word {
      if count + 1 < MAPPED then this.(count := count + 1)
      else Word(if mapped then !write else write, !mapped, 0)
    }

    function Decrement(): Word {
      if count > 0 then this.(count := count - 1)
      else Word(if mapped then write else !write, !mapped, MAPPED - 1)
    }
  }

  function Encode(w: Word): Word32 {
    (if w.write then WRITE else 0) + (if w.mapped then MAPPED else 0) + w.count
  }

  function Decode(v: Word32): Word {
    Word(v / WRITE % 2 == 1, v / MAPPED % 2 == 1, v % MAPPED)
  }

  lemma DecodeEncode(w: Word)
    ensures Decode(Encode(w)) == w
  {
  }

  /** Comparing two words is comparing their parts, so a compare-and-swap on the parts is one on the words. */
  lemma SameWord(v: Word, w: Word)
    ensures Encode(v) == Encode(w) <==> v == w
  {
    DecodeEncode(v);
    DecodeEncode(w);
  }

  /** Setting and clearing the flags of the whole word. */
  lemma FlagBits(w: Word)
    ensures Encode(w.(write := true)) == if w.write then Encode(w) else Encode(w) + WRITE
    ensures Encode(w.(write := false)) == if w.write then Encode(w) - WRITE else Encode(w)
    ensures Encode(w.(mapped := true)) == if w.mapped then Encode(w) else Encode(w) + MAPPED
  {
  }

  /** ++ and -- on the whole word. */
  lemma CountBits(w: Word)
    ensures Encode(w.Increment()) == (Encode(w) + 1) % 0x1_0000_0000
    ensures Encode(w.Decrement()) == (Encode(w) - 1) % 0x1_0000_0000
  {
  }

  /** Counting up leaves the flag bits alone exactly as long as the count is not full. */
  lemma IncrementKeepsFlags(w: Word)
    ensures w.count + 1 < MAPPED <==> w.Increment().write == w.write && w.Increment().mapped == w.mapped
  {
  }
}
