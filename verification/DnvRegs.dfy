/** Register placement of the pinctrl-dnv driver: which word and which bits of
    it belong to each pin, and the proof that no two pins share any. */
module DnvRegs {
  import opened Words32

  const NPADS: nat := 13
  const NGPIO: nat := 153

  /** A pin with interrupt, ownership and lock bits of its own. */
  type Pad = p: nat | p < 13

  datatype RegType = Lock | GpeEn | GpeSts | HostOwn | PadOwn | Dw0 | Dw1

  const PADCFGLOCK_MAP: seq<nat> := [0x0, 0x8, 0x8, 0x20, 0x8, 0x8, 0x8, 0x8, 0x10, 0x10, 0x18, 0x18, 0x8]
  const GPE_MAP: seq<nat> := [0x0, 0x4, 0x4, 0x10, 0x4, 0x4, 0x4, 0x4, 0x8, 0x8, 0xc, 0xc, 0x4]
  const PAD_OWN_MAP: seq<nat> := [0x0, 0x4, 0x4, 0x30, 0xc, 0xc, 0xc, 0xc, 0x10, 0x14, 0x1c, 0x1c, 0x0]
  const GPE_BIT: seq<bv8> := [27, 1, 2, 9, 27, 28, 29, 30, 7, 8, 27, 28, 0]
  const PAD_OWN_BIT: seq<bv8> := [12, 4, 8, 4, 12, 16, 20, 24, 28, 0, 12, 16, 12]

  /** The table of pad configuration offsets, run by run; -1 for the pins that do
      not exist. */
  function PadOffset(gpi: nat): int
    requires gpi < NGPIO
  {
    if gpi == 0 then 0xd8
    else if gpi <= 2 then 0x108 + 8 * (gpi - 1)
    else if gpi == 3 then 0x380
    else if gpi <= 7 then 0x168 + 8 * (gpi - 4)
    else if gpi <= 9 then 0x1c8 + 8 * (gpi - 8)
    else if gpi <= 11 then 0x310 + 8 * (gpi - 10)
    else if gpi <= 13 then 0x90 + 8 * (gpi - 12)
    else if gpi <= 40 then 8 * (gpi - 14)
    else if gpi <= 45 then 0xe0 + 8 * (gpi - 41)
    else if gpi == 46 then -1
    else if gpi <= 52 then 0x118 + 8 * (gpi - 47)
    else if gpi <= 63 then 8 * (gpi - 53)
    else if gpi <= 71 then 0x2d0 + 8 * (gpi - 64)
    else if gpi <= 78 then 0x290 + 8 * (gpi - 72)
    else if gpi <= 89 then 0x238 + 8 * (gpi - 79)
    else if gpi <= 97 then 0x188 + 8 * (gpi - 90)
    else if gpi <= 122 then 0xa0 + 8 * (gpi - 98)
    else if gpi <= 133 then 0x328 + 8 * (gpi - 123)
    else if gpi <= 140 then 0x58 + 8 * (gpi - 134)
    else if gpi <= 145 then -1
    else 0x200 + 8 * (gpi - 146)
  }

  /** Pins of community C5 have their registers above 0x30000. */
  predicate InC5(gpi: nat) { 3 <= gpi <= 13 || 53 <= gpi }

  function Community(gpi: nat): nat { if InC5(gpi) then 0x30000 else 0 }

  function Base(t: RegType): nat {
    match t
    case Lock => 0x90 case GpeEn => 0x160 case GpeSts => 0x140 case HostOwn => 0xc0 case PadOwn => 0x2c
    case Dw0 => 0x400 case Dw1 => 0x404
  }

  datatype Address = Null | At(a: nat)

  /** dnv_gpio_reg, for the pin numbers that the tables cover. */
  function Reg(t: RegType, gpi: nat): Address
    requires gpi < NGPIO
  {
    match t
    case Dw0 | Dw1 => if PadOffset(gpi) < 0 then Null else At(PadOffset(gpi) + Community(gpi) + Base(t))
    case _ => if gpi >= NPADS then Null else At(WordOffset(t, gpi) + Community(gpi) + Base(t))
  }

  function WordOffset(t: RegType, p: Pad): nat {
    match t
    case Lock => PADCFGLOCK_MAP[p]
    case PadOwn => PAD_OWN_MAP[p]
    case _ => GPE_MAP[p]
  }

  /** The word of a pad's bits, and of its configuration. */
  function Word(t: RegType, p: Pad): (a: nat)
    ensures Reg(t, p) == At(a)
  {
    if t == Dw0 || t == Dw1 then PadOffset(p) + Community(p) + Base(t) else WordOffset(t, p) + Community(p) + Base(t)
  }

  /** dnv_gpio_mask: no bits for the pins above the pads. */
  function Mask(t: RegType, gpi: nat): bv32 {
    if gpi >= NPADS then 0
    else
      match t
      case PadOwn => (3 as bv32) << PAD_OWN_BIT[gpi]
      case Dw0 | Dw1 => 0
      case _ => (1 as bv32) << GPE_BIT[gpi]
  }

  // ------------------------------------------------- configuration registers

  /** The pin found at a configuration register. */
  function PinAt(a: nat): nat {
    if a < 0x30000 then
      var o := a;
      if o <= 0xd0 then 14 + o / 8
      else if o == 0xd8 then 0
      else if o <= 0x100 then 41 + (o - 0xe0) / 8
      else if o <= 0x110 then 1 + (o - 0x108) / 8
      else 47 + (o - 0x118) / 8
    else
      var o := a - 0x30000;
      if o <= 0x50 then 53 + o / 8
      else if o <= 0x88 then 134 + (o - 0x58) / 8
      else if o <= 0x98 then 12 + (o - 0x90) / 8
      else if o <= 0x160 then 98 + (o - 0xa0) / 8
      else if o <= 0x180 then 4 + (o - 0x168) / 8
      else if o <= 0x1c0 then 90 + (o - 0x188) / 8
      else if o <= 0x1d0 then 8 + (o - 0x1c8) / 8
      else if o <= 0x230 then 146 + (o - 0x200) / 8
      else if o <= 0x288 then 79 + (o - 0x238) / 8
      else if o <= 0x2c0 then 72 + (o - 0x290) / 8
      else if o <= 0x308 then 64 + (o - 0x2d0) / 8
      else if o <= 0x318 then 10 + (o - 0x310) / 8
      else if o <= 0x378 then 123 + (o - 0x328) / 8
      else 3
  }

  lemma PinAtPad(gpi: nat)
    requires gpi < NGPIO && PadOffset(gpi) >= 0
    ensures PinAt(PadOffset(gpi) + Community(gpi)) == gpi
  {
    if gpi < 53 { } else { }
  }

  /** No two pins share a configuration register. */
  lemma PadsApart(i: nat, j: nat)
    requires i < NGPIO && j < NGPIO && PadOffset(i) >= 0 && PadOffset(j) >= 0
    requires PadOffset(i) + Community(i) == PadOffset(j) + Community(j)
    ensures i == j
  {
    hide PadOffset, PinAt, InC5;
    PinAtPad(i);
    PinAtPad(j);
  }

  lemma PadAligned(gpi: nat)
    requires gpi < NGPIO && PadOffset(gpi) >= 0
    ensures PadOffset(gpi) % 8 == 0 && PadOffset(gpi) < 0x400
  {
  }

  // --------------------------------------------------------- the other words

  lemma WordRange(t: RegType, p: Pad)
    requires t != Dw0 && t != Dw1
    ensures WordOffset(t, p) <= if t == PadOwn then 0x30 else if t == Lock then 0x20 else 0x10
  {
  }

  /** The type of the word at an address. */
  function TypeAt(a: nat): RegType {
    var r := if a < 0x30000 then a else a - 0x30000;
    if r < 0x60 then PadOwn
    else if r < 0xb8 then Lock
    else if r < 0xd8 then HostOwn
    else if r < 0x158 then GpeSts
    else if r < 0x178 then GpeEn
    else if r % 8 == 0 then Dw0
    else Dw1
  }

  lemma TypeAtReg(t: RegType, i: nat)
    requires i < NGPIO && Reg(t, i) != Null
    ensures TypeAt(Reg(t, i).a) == t
  {
    if t == Dw0 || t == Dw1 {
      hide PadOffset, WordOffset;
      PadAligned(i);
    } else {
      hide PadOffset, WordOffset;
      WordRange(t, i);
    }
  }

  /** Words of different types are apart, for all pins. */
  lemma TypesApart(t: RegType, i: nat, u: RegType, j: nat)
    requires i < NGPIO && j < NGPIO && t != u
    ensures Reg(t, i) == Null || Reg(u, j) == Null || Reg(t, i) != Reg(u, j)
  {
    hide Reg, TypeAt;
    if Reg(t, i) != Null && Reg(u, j) != Null {
      TypeAtReg(t, i);
      TypeAtReg(u, j);
    }
  }

  lemma SingleBits(a: bv8, b: bv8)
    requires a < 32 && b < 32 && a != b
    ensures And((1 as bv32) << a, (1 as bv32) << b) == 0
  {
  }

  lemma DoubleBits(a: bv8, b: bv8)
    requires a < 32 && b < 32 && a != b && a & 3 == 0 && b & 3 == 0
    ensures And((3 as bv32) << a, (3 as bv32) << b) == 0
  {
  }

  /** Two pads with their bits in one word have different shifts. */
  lemma GpeShiftsApart(p: Pad, q: Pad)
    requires p != q && GPE_MAP[p] + Community(p) == GPE_MAP[q] + Community(q)
    ensures GPE_BIT[p] != GPE_BIT[q]
  {
  }

  lemma LockShiftsApart(p: Pad, q: Pad)
    requires p != q && PADCFGLOCK_MAP[p] + Community(p) == PADCFGLOCK_MAP[q] + Community(q)
    ensures GPE_BIT[p] != GPE_BIT[q]
  {
  }

  lemma OwnShiftsApart(p: Pad, q: Pad)
    requires p != q && PAD_OWN_MAP[p] + Community(p) == PAD_OWN_MAP[q] + Community(q)
    ensures PAD_OWN_BIT[p] != PAD_OWN_BIT[q]
  {
  }

  lemma ShiftsFit(p: Pad)
    ensures GPE_BIT[p] < 31 && PAD_OWN_BIT[p] < 31 && PAD_OWN_BIT[p] & 3 == 0
  {
  }

  lemma GpeMasksApart(t: RegType, p: Pad, q: Pad)
    requires p != q && Word(t, p) == Word(t, q) && t in {GpeEn, GpeSts, HostOwn}
    ensures And(Mask(t, p), Mask(t, q)) == 0
  {
    hide And, InC5;
    ShiftsFit(p);
    ShiftsFit(q);
    GpeShiftsApart(p, q);
    SingleBits(GPE_BIT[p], GPE_BIT[q]);
  }

  lemma LockMasksApart(p: Pad, q: Pad)
    requires p != q && Word(Lock, p) == Word(Lock, q)
    ensures And(Mask(Lock, p), Mask(Lock, q)) == 0
  {
    hide And, InC5;
    ShiftsFit(p);
    ShiftsFit(q);
    LockShiftsApart(p, q);
    SingleBits(GPE_BIT[p], GPE_BIT[q]);
  }

  lemma OwnMasksApart(p: Pad, q: Pad)
    requires p != q && Word(PadOwn, p) == Word(PadOwn, q)
    ensures And(Mask(PadOwn, p), Mask(PadOwn, q)) == 0
  {
    hide And, InC5;
    ShiftsFit(p);
    ShiftsFit(q);
    OwnShiftsApart(p, q);
    DoubleBits(PAD_OWN_BIT[p], PAD_OWN_BIT[q]);
  }

  lemma ConfigsApart(t: RegType, p: Pad, q: Pad)
    requires p != q && t in {Dw0, Dw1}
    ensures Word(t, p) != Word(t, q)
  {
    hide PadOffset, InC5;
    if Word(t, p) == Word(t, q) {
      PadsApart(p, q);
    }
  }

  lemma ShiftedBits(a: bv8, i: BitNo)
    requires a < 31
    ensures BitAt((1 as bv32) << a, i) <==> i == a
    ensures BitAt((3 as bv32) << a, i) <==> i == a || i == a + 1
  {
  }

  /** The bits of a pad: two for its owner, one in any other word that is shared. */
  lemma MaskBits(t: RegType, p: Pad, i: BitNo)
    ensures BitAt(Mask(t, p), i) <==>
      match t
      case PadOwn => i == PAD_OWN_BIT[p] || i == PAD_OWN_BIT[p] + 1
      case Dw0 | Dw1 => false
      case _ => i == GPE_BIT[p]
  {
    hide BitAt;
    ShiftsFit(p);
    ShiftedBits(PAD_OWN_BIT[p], i);
    ShiftedBits(GPE_BIT[p], i);
    NoBits(i);
  }

  lemma NoBits(i: BitNo)
    ensures !BitAt(0, i)
  {
  }

  /** No two pads share a bit. */
  lemma MasksApart(t: RegType, p: Pad, q: Pad)
    requires p != q && Word(t, p) == Word(t, q)
    ensures And(Mask(t, p), Mask(t, q)) == 0
  {
    hide And, Mask, Word;
    match t {
      case Dw0 | Dw1 => ConfigsApart(t, p, q);
      case PadOwn => OwnMasksApart(p, q);
      case Lock => LockMasksApart(p, q);
      case _ => GpeMasksApart(t, p, q);
    }
  }
}
