/** Masked changes of 32-bit words: what is set, cleared or kept by each. */
module Words32 {

  function And(a: bv32, b: bv32): bv32 { a & b }

  function Merge(a: bv32, b: bv32): bv32 { a | b }

  function Clear(a: bv32, m: bv32): bv32 { a & !m }

  /** The number of a bit in a word. */
  type BitNo = i: bv8 | i < 32

  /** Bit i of a word is set. */
  predicate BitAt(w: bv32, i: BitNo) { (w >> i) & 1 == 1 }

  predicate Touches(w: bv32, m: bv32) { And(w, m) != 0 }

  function Put(w: bv32, m: bv32, val: bool): bv32 { if val then Merge(w, m) else Clear(w, m) }

  lemma OwnMerged(w: bv32, m: bv32)
    ensures And(Merge(w, m), m) == m
  {
  }

  lemma OwnCleared(w: bv32, m: bv32)
    ensures And(Clear(w, m), m) == 0
  {
  }

  lemma OtherMerged(w: bv32, m: bv32, k: bv32)
    requires And(m, k) == 0
    ensures And(Merge(w, m), k) == And(w, k)
  {
  }

  lemma OtherCleared(w: bv32, m: bv32, k: bv32)
    requires And(m, k) == 0
    ensures And(Clear(w, m), k) == And(w, k)
  {
  }

  lemma Distributes(a: bv32, b: bv32, m: bv32)
    ensures And(Merge(a, b), m) == Merge(And(a, m), And(b, m))
  {
  }

  lemma NonzeroMerged(x: bv32, y: bv32)
    ensures Merge(x, y) != 0 <==> x != 0 || y != 0
  {
  }

  lemma OwnMask(w: bv32, m: bv32, val: bool)
    requires m != 0
    ensures Touches(Put(w, m, val), m) == val
  {
    hide And, Merge, Clear;
    OwnMerged(w, m);
    OwnCleared(w, m);
  }

  lemma OtherMask(w: bv32, m: bv32, k: bv32, val: bool)
    requires !Touches(m, k)
    ensures Touches(Put(w, m, val), k) == Touches(w, k)
  {
    hide And, Merge, Clear;
    OtherMerged(w, m, k);
    OtherCleared(w, m, k);
  }

  lemma MergedMask(a: bv32, b: bv32, m: bv32)
    ensures Touches(Merge(a, b), m) <==> Touches(a, m) || Touches(b, m)
  {
    hide And, Merge;
    Distributes(a, b, m);
    NonzeroMerged(And(a, m), And(b, m));
  }

  function Flip(a: bv32, m: bv32): bv32 { a ^ m }

  lemma AndBit(a: bv32, b: bv32, i: BitNo)
    ensures BitAt(And(a, b), i) <==> BitAt(a, i) && BitAt(b, i)
  {
  }

  lemma MergeBit(a: bv32, b: bv32, i: BitNo)
    ensures BitAt(Merge(a, b), i) <==> BitAt(a, i) || BitAt(b, i)
  {
  }

  lemma ClearBit(a: bv32, b: bv32, i: BitNo)
    ensures BitAt(Clear(a, b), i) <==> BitAt(a, i) && !BitAt(b, i)
  {
  }

  lemma FlipParts(a: bv32, b: bv32)
    ensures Flip(a, b) == Merge(Clear(a, b), Clear(b, a))
  {
  }

  lemma FlipBit(a: bv32, b: bv32, i: BitNo)
    ensures BitAt(Flip(a, b), i) <==> BitAt(a, i) != BitAt(b, i)
  {
    hide BitAt, Merge, Clear, Flip;
    FlipParts(a, b);
    MergeBit(Clear(a, b), Clear(b, a), i);
    ClearBit(a, b, i);
    ClearBit(b, a, i);
  }

  lemma BitOps(a: bv32, b: bv32, i: BitNo)
    ensures BitAt(And(a, b), i) <==> BitAt(a, i) && BitAt(b, i)
    ensures BitAt(Merge(a, b), i) <==> BitAt(a, i) || BitAt(b, i)
    ensures BitAt(Clear(a, b), i) <==> BitAt(a, i) && !BitAt(b, i)
    ensures BitAt(Flip(a, b), i) <==> BitAt(a, i) != BitAt(b, i)
  {
    hide BitAt, And, Merge, Clear, Flip;
    AndBit(a, b, i);
    MergeBit(a, b, i);
    ClearBit(a, b, i);
    FlipBit(a, b, i);
  }

  /** The bits of a mask from one word, the others from another. */
  lemma MixedBits(a: bv32, b: bv32, mask: bv32, i: BitNo)
    ensures BitAt(Merge(Clear(a, mask), And(b, mask)), i) <==> BitAt(if BitAt(mask, i) then b else a, i)
  {
    hide BitAt, And, Merge, Clear, Flip;
    BitOps(a, mask, i);
    BitOps(b, mask, i);
    BitOps(Clear(a, mask), And(b, mask), i);
  }
}
