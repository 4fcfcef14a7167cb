/** Bytes and words: the casts between machine words and numbers that the
    drivers make, each with the number it stands for. */
module Bytes {

  /** The byte with value n. It counts up, rather than casting n, because the
      solver decides casts from numbers to machine words slowly if at all. */
  function ByteOf(n: nat): (b: bv8)
    requires n < 0x100
    ensures b as nat == n
  {
    if n == 0 then 0 else ByteOf(n - 1) + 1
  }

  lemma ByteInjective(a: bv8, b: bv8)
    requires a as nat == b as nat
    ensures a == b
  {
  }

  lemma ByteOfByte(b: bv8)
    ensures ByteOf(b as nat) == b
  {
    ByteInjective(ByteOf(b as nat), b);
  }

  /** Two bytes side by side. */
  function Join(lo: bv8, hi: bv8): bv16 {
    (lo as bv16) | ((hi as bv16) << 8)
  }

  function Low(w: bv16): bv8 { (w & 0xff) as bv8 }

  function High(w: bv16): bv8 { (w >> 8) as bv8 }

  lemma PlacesOfWord(lo: bv8, hi: bv8)
    ensures ((lo as bv16) | ((hi as bv16) << 8)) as nat == lo as nat + 0x100 * (hi as nat)
  {
  }

  lemma JoinValue(lo: bv8, hi: bv8)
    ensures Join(lo, hi) as nat == lo as nat + 0x100 * (hi as nat)
  {
    assert Join(lo, hi) == (lo as bv16) | ((hi as bv16) << 8);
    PlacesOfWord(lo, hi);
  }

  lemma JoinSplit(w: bv16)
    ensures Join(Low(w), High(w)) == w
  {
  }

  /** The sixteen-bit word with value n. */
  function WordOf(n: nat): (w: bv16)
    requires n < 0x1_0000
    ensures w as nat == n
  {
    JoinValue(ByteOf(n % 0x100), ByteOf(n / 0x100));
    Join(ByteOf(n % 0x100), ByteOf(n / 0x100))
  }

  /** A byte read as a signed number. */
  function Signed(b: bv8): (n: int)
    ensures -0x80 <= n < 0x80
  {
    if b as nat < 0x80 then b as nat else b as nat - 0x100
  }

  /** The byte that a signed number is stored as. */
  function SignedByte(n: int): (b: bv8)
    requires -0x80 <= n < 0x80
    ensures Signed(b) == n
  {
    ByteOf(if n < 0 then n + 0x100 else n)
  }

  /** Bit n of a byte. */
  function Bit(n: nat): (b: bv8)
    requires n < 8
  {
    if n == 0 then 0x01 else if n == 1 then 0x02 else if n == 2 then 0x04 else if n == 3 then 0x08
    else if n == 4 then 0x10 else if n == 5 then 0x20 else if n == 6 then 0x40 else 0x80
  }

  lemma BitPlaces(n: nat)
    requires n < 7
    ensures Bit(0) == 0x01 && Bit(n + 1) == Bit(n) << 1
  {
  }

  /** Bit k of a byte is set. */
  predicate Flag(b: bv8, k: nat)
    requires k < 8
  {
    b & Bit(k) != 0
  }

  /** Clearing and setting a bit. */
  lemma OwnBit(b: bv8, nr: nat)
    requires nr < 8
    ensures (b & !Bit(nr)) & Bit(nr) == 0 && (b | Bit(nr)) & Bit(nr) != 0
  {
  }
}
