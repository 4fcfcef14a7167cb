/** Suspend and resume of the pinctrl-dnv driver: what is saved, what is
    restored, and that nothing else changes. */
module DnvSuspend {
  import opened Words32
  import opened DnvRegs

  const DNV_RXEVCFG_MASK: bv32 := 0x0600_0000
  const DNV_RXINV: bv32 := 0x0080_0000
  const DNV_GPIROUTSCI: bv32 := 0x0008_0000
  const DNV_GPIROUT_MASK: bv32 := 0x001e_0000
  const DNV_PMODE1: bv32 := 0x0800
  const DNV_PMODE0: bv32 := 0x0400
  const DNV_INPUT_DIS: bv32 := 0x0200
  const DNV_OUTPUT_DIS: bv32 := 0x0100
  const DNV_DIR_MASK: bv32 := 0x0300
  const DNV_RXSTATE: bv32 := 0x0002
  const DNV_LEVEL: bv32 := 0x0001

  const CONF0_RESTORE_MASK: bv32 :=
    DNV_LEVEL | DNV_DIR_MASK | DNV_PMODE0 | DNV_PMODE1 | DNV_GPIROUTSCI | DNV_RXINV | DNV_RXEVCFG_MASK | 0xf000_0000
  const CONF1_RESTORE_MASK: bv32 := 0x3c00

  /** The mapped registers, by byte address. */
  type Mmio = s: seq<bv32> | |s| == 0x3_0800 witness seq(0x3_0800, _ => 0)

  lemma WordFits(t: RegType, p: Pad)
    ensures Word(t, p) < 0x3_0800
  {
    if t == Dw0 || t == Dw1 {
      PadAligned(p);
      hide PadOffset;
    } else {
      WordRange(t, p);
      hide WordOffset;
    }
  }

  function At32(m: Mmio, t: RegType, p: Pad): bv32 {
    WordFits(t, p);
    m[Word(t, p)]
  }

  function Set32(m: Mmio, t: RegType, p: Pad, v: bv32): Mmio {
    WordFits(t, p);
    m[Word(t, p) := v]
  }

  lemma SetAt(m: Mmio, t: RegType, p: Pad, v: bv32, u: RegType, q: Pad)
    ensures At32(Set32(m, t, p, v), u, q) == if Word(u, q) == Word(t, p) then v else At32(m, u, q)
  {
    hide Word;
    WordFits(t, p);
    WordFits(u, q);
    var n := Set32(m, t, p, v);
    assert n == m[Word(t, p) := v];
    assert At32(n, u, q) == n[Word(u, q)];
    hide At32, Set32;
  }

  /** Configuration words belong to one pad and one type. */
  lemma ConfigApart(t: RegType, p: Pad, u: RegType, q: Pad)
    requires (t == Dw0 || t == Dw1) && (t, p) != (u, q)
    ensures Word(t, p) != Word(u, q)
  {
    if t != u {
      TypesApart(t, p, u, q);
    } else if Word(t, p) == Word(u, q) {
      PadsApart(p, q);
    }
    hide PadOffset, WordOffset, InC5;
  }

  // ---------------------------------------------------------------- saving

  datatype Context = Context(conf0: bv32, conf1: bv32)

  type Saved = s: seq<Context> | |s| == 153 witness seq(153, _ => Context(0, 0))

  predicate Locked(m: Mmio, p: Pad) { And(At32(m, Lock, p), Mask(Lock, p)) != 0 }

  function SavedContext(m: Mmio, p: Pad): Context {
    Context(And(At32(m, Dw0, p), CONF0_RESTORE_MASK), And(At32(m, Dw1, p), CONF1_RESTORE_MASK))
  }

  /** The loop of dnv_gpio_suspend over the first n pins; only pads have a lock,
      and the other pins are skipped. */
  function Suspend(m: Mmio, saved: Saved, n: nat): Saved
    requires n <= NGPIO
  {
    if n == 0 then saved
    else
      var s := Suspend(m, saved, n - 1);
      if n - 1 < NPADS && !Locked(m, n - 1) then s[n - 1 := SavedContext(m, n - 1)] else s
  }

  lemma {:induction false} SavedEntry(m: Mmio, saved: Saved, n: nat, p: Pad)
    requires n <= NGPIO
    ensures Suspend(m, saved, n)[p] == if p < n && !Locked(m, p) then SavedContext(m, p) else saved[p]
  {
    hide Locked, SavedContext;
    if n > 0 {
      SavedEntry(m, saved, n - 1, p);
    }
  }

  // --------------------------------------------------------------- restoring

  /** Written only where it differs. */
  function Restored(val: bv32, mask: bv32, conf: bv32): bv32 {
    if And(val, mask) != conf then Merge(Clear(val, mask), conf) else val
  }

  lemma RestoredEither(val: bv32, mask: bv32, conf: bv32)
    ensures Restored(val, mask, conf) == Merge(Clear(val, mask), conf)
  {
    Recomposed(val, mask);
    hide And, Merge, Clear;
  }

  lemma Recomposed(val: bv32, mask: bv32)
    ensures Merge(Clear(val, mask), And(val, mask)) == val
  {
  }

  function RestorePad(m: Mmio, c: Context, p: Pad): Mmio {
    var n := Set32(m, Dw0, p, Restored(At32(m, Dw0, p), CONF0_RESTORE_MASK, c.conf0));
    Set32(n, Dw1, p, Restored(At32(n, Dw1, p), CONF1_RESTORE_MASK, c.conf1))
  }

  /** The loop of dnv_gpio_resume over the first n pins. It tests a register pointer
      before it assigns it; the pins at which that happens to be null are skipped. */
  function Resume(m: Mmio, saved: Saved, skipped: set<nat>, n: nat): Mmio
    requires n <= NGPIO
  {
    if n == 0 then m
    else
      var r := Resume(m, saved, skipped, n - 1);
      if n - 1 < NPADS && n - 1 !in skipped && !Locked(r, n - 1) then RestorePad(r, saved[n - 1], n - 1) else r
  }

  lemma RestorePadAt(m: Mmio, c: Context, p: Pad, t: RegType, q: Pad)
    ensures At32(RestorePad(m, c, p), t, q) ==
      if (t, q) == (Dw0, p) then Restored(At32(m, t, q), CONF0_RESTORE_MASK, c.conf0)
      else if (t, q) == (Dw1, p) then Restored(At32(m, t, q), CONF1_RESTORE_MASK, c.conf1)
      else At32(m, t, q)
  {
    hide At32, Set32, Word, Restored;
    var v := Restored(At32(m, Dw0, p), CONF0_RESTORE_MASK, c.conf0);
    var n := Set32(m, Dw0, p, v);
    SetAt(m, Dw0, p, v, t, q);
    SetAt(m, Dw0, p, v, Dw1, p);
    SetAt(n, Dw1, p, Restored(At32(n, Dw1, p), CONF1_RESTORE_MASK, c.conf1), t, q);
    ConfigApart(Dw0, p, Dw1, p);
    if (t, q) != (Dw0, p) {
      ConfigApart(Dw0, p, t, q);
    }
    if (t, q) != (Dw1, p) {
      ConfigApart(Dw1, p, t, q);
    }
  }

  /** Pad q is restored when its turn has come, unless it is skipped or locked. */
  predicate Resumes(m: Mmio, skipped: set<nat>, n: nat, q: Pad) { q < n && q !in skipped && !Locked(m, q) }

  /** What the loop makes of one word of a pad. */
  lemma {:induction false} ResumedAt(m: Mmio, saved: Saved, skipped: set<nat>, n: nat, t: RegType, q: Pad)
    requires n <= NGPIO
    ensures At32(Resume(m, saved, skipped, n), t, q) ==
      if t == Dw0 && Resumes(m, skipped, n, q) then Restored(At32(m, t, q), CONF0_RESTORE_MASK, saved[q].conf0)
      else if t == Dw1 && Resumes(m, skipped, n, q) then Restored(At32(m, t, q), CONF1_RESTORE_MASK, saved[q].conf1)
      else At32(m, t, q)
  {
    hide At32, RestorePad, Restored;
    if n > 0 {
      ResumedAt(m, saved, skipped, n - 1, t, q);
      if n - 1 < NPADS {
        var p: Pad := n - 1;
        ResumedAt(m, saved, skipped, n - 1, Lock, p);
        var r := Resume(m, saved, skipped, n - 1);
        RestorePadAt(r, saved[p], p, t, q);
      }
    }
  }

  lemma {:induction false} ResumedElsewhere(m: Mmio, saved: Saved, skipped: set<nat>, n: nat, a: nat)
    requires n <= NGPIO && a < |m|
    requires forall p: Pad | 0 <= p < NPADS :: a != Word(Dw0, p) && a != Word(Dw1, p)
    ensures Resume(m, saved, skipped, n)[a] == m[a]
  {
    hide Word, Locked, Restored;
    if n > 0 {
      ResumedElsewhere(m, saved, skipped, n - 1, a);
    }
  }

  /** What resume restores a pad to: its context at suspend, or an older one if the
      pad was locked then. */
  function Kept(m: Mmio, saved: Saved, p: Pad): Context { if Locked(m, p) then saved[p] else SavedContext(m, p) }

  /** Suspend and resume, whatever happened to any register in between: a pad that
      is neither locked on resume nor skipped gets back the bits of both words that
      are restored, as they were at suspend if it was not locked then either; their
      other bits stay as found, any other pad as it is, and no other word changes. */
  lemma SuspendResume(m: Mmio, saved: Saved, later: Mmio, skipped: set<nat>, p: Pad, a: nat)
    ensures var r := Resume(later, Suspend(m, saved, NGPIO), skipped, NGPIO);
      && At32(r, Dw0, p) == (if p in skipped || Locked(later, p) then At32(later, Dw0, p)
           else Merge(Clear(At32(later, Dw0, p), CONF0_RESTORE_MASK), Kept(m, saved, p).conf0))
      && At32(r, Dw1, p) == (if p in skipped || Locked(later, p) then At32(later, Dw1, p)
           else Merge(Clear(At32(later, Dw1, p), CONF1_RESTORE_MASK), Kept(m, saved, p).conf1))
      && (a < |r| && (forall q: Pad | 0 <= q < NPADS :: a != Word(Dw0, q) && a != Word(Dw1, q)) ==> r[a] == later[a])
    ensures !Locked(m, p) ==>
      && Kept(m, saved, p).conf0 == And(At32(m, Dw0, p), CONF0_RESTORE_MASK)
      && Kept(m, saved, p).conf1 == And(At32(m, Dw1, p), CONF1_RESTORE_MASK)
  {
    var s := Suspend(m, saved, NGPIO);
    SavedEntry(m, saved, NGPIO, p);
    hide Locked, At32, Word, Suspend, Resume, Restored, Merge, Clear, And;
    ResumedAt(later, s, skipped, NGPIO, Dw0, p);
    ResumedAt(later, s, skipped, NGPIO, Dw1, p);
    RestoredEither(At32(later, Dw0, p), CONF0_RESTORE_MASK, s[p].conf0);
    RestoredEither(At32(later, Dw1, p), CONF1_RESTORE_MASK, s[p].conf1);
    if a < |later| && forall q: Pad | 0 <= q < NPADS :: a != Word(Dw0, q) && a != Word(Dw1, q) {
      ResumedElsewhere(later, s, skipped, NGPIO, a);
    }
  }

  // ------------------------------------------------------------- bit by bit

  /** The bits of each word that survive: the level and the direction, the mode, the
      interrupt route, inversion and trigger, and the top four; of the second word
      the termination. */
  predicate Survives0(i: BitNo) { i in {0, 8, 9, 10, 11, 19, 23, 25, 26, 28, 29, 30, 31} }

  predicate Survives1(i: BitNo) { i in {10, 11, 12, 13} }

  lemma MaskBits(i: BitNo)
    ensures BitAt(CONF0_RESTORE_MASK, i) <==> Survives0(i)
    ensures BitAt(CONF1_RESTORE_MASK, i) <==> Survives1(i)
  {
  }

  /** A pad that is neither locked at suspend and resume nor skipped has, after
      them, each surviving bit as it was at suspend and each other bit as it was
      found at resume. */
  lemma SuspendResumeBits(m: Mmio, saved: Saved, later: Mmio, skipped: set<nat>, p: Pad, i: BitNo)
    requires !Locked(m, p) && !Locked(later, p) && p !in skipped
    ensures var r := Resume(later, Suspend(m, saved, NGPIO), skipped, NGPIO);
      && (BitAt(At32(r, Dw0, p), i) <==> BitAt(At32(if Survives0(i) then m else later, Dw0, p), i))
      && (BitAt(At32(r, Dw1, p), i) <==> BitAt(At32(if Survives1(i) then m else later, Dw1, p), i))
  {
    hide Locked, At32, Suspend, Resume, Merge, Clear, And, BitAt, Survives0, Survives1, Word;
    SuspendResume(m, saved, later, skipped, p, 0);
    MaskBits(i);
    MixedBits(At32(later, Dw0, p), At32(m, Dw0, p), CONF0_RESTORE_MASK, i);
    MixedBits(At32(later, Dw1, p), At32(m, Dw1, p), CONF1_RESTORE_MASK, i);
  }
}
