/** The pinctrl-dnv driver object: mapped registers, recorded interrupt types and
    the context saved over suspend, changed in place. */
module PinctrlDnv {
  import opened Words32
  import opened DnvRegs
  import opened DnvSuspend
  import opened DnvIrq

  // ------------------------------------------------------------- one pin

  function LevelPut(w: bv32, val: bool): bv32 { Put(w, DNV_LEVEL, val) }

  function TurnedInput(w: bv32): bv32 { Clear(Merge(w, DNV_DIR_MASK), DNV_INPUT_DIS) }

  function TurnedOutput(w: bv32, val: bool): bv32 { LevelPut(Clear(Merge(w, DNV_DIR_MASK), DNV_OUTPUT_DIS), val) }

  predicate ValueOf(w: bv32) { if w & DNV_INPUT_DIS != 0 then w & DNV_LEVEL != 0 else w & DNV_RXSTATE != 0 }

  /** A pin made an output reads back as what was asked, now and after every
      later set; made an input it reads as the receiver. */
  lemma PinReadsBack(w: bv32, val: bool, later: bool)
    ensures ValueOf(TurnedOutput(w, val)) == val
    ensures ValueOf(LevelPut(TurnedOutput(w, val), later)) == later
    ensures ValueOf(TurnedInput(w)) == (w & DNV_RXSTATE != 0)
  {
  }

  /** Bit by bit: an output has its driver on (bit 8 clear), its receiver off (bit 9
      set) and the level in bit 0; an input has them the other way round and keeps
      its level. Nothing else changes, and what a pin reads as is its level while its
      receiver is off, and the receiver's state otherwise. */
  lemma PinBits(w: bv32, val: bool, i: BitNo)
    ensures BitAt(TurnedOutput(w, val), i) <==> (i == 0 && val) || i == 9 || (i !in {0, 8, 9} && BitAt(w, i))
    ensures BitAt(TurnedInput(w), i) <==> i == 8 || (i !in {8, 9} && BitAt(w, i))
    ensures BitAt(LevelPut(w, val), i) <==> if i == 0 then val else BitAt(w, i)
    ensures ValueOf(w) <==> if BitAt(w, 9) then BitAt(w, 0) else BitAt(w, 1)
  {
    ValueBits(w);
    PinMasks(i);
    hide BitAt, And, Merge, Clear, ValueOf;
    var both := Merge(w, DNV_DIR_MASK);
    BitOps(w, DNV_DIR_MASK, i);
    BitOps(both, DNV_INPUT_DIS, i);
    BitOps(both, DNV_OUTPUT_DIS, i);
    BitOps(Clear(both, DNV_OUTPUT_DIS), DNV_LEVEL, i);
    BitOps(w, DNV_LEVEL, i);
  }

  lemma ValueBits(w: bv32)
    ensures ValueOf(w) <==> if BitAt(w, 9) then BitAt(w, 0) else BitAt(w, 1)
  {
  }

  lemma PinMasks(i: BitNo)
    ensures BitAt(DNV_LEVEL, i) <==> i == 0
    ensures BitAt(DNV_OUTPUT_DIS, i) <==> i == 8
    ensures BitAt(DNV_INPUT_DIS, i) <==> i == 9
    ensures BitAt(DNV_DIR_MASK, i) <==> i == 8 || i == 9
  {
  }

  /** A pad made an output with val before a suspend drives and reads val after the
      resume, whatever happened to its registers in between. */
  lemma OutputSurvives(m: Mmio, saved: Saved, later: Mmio, skipped: set<nat>, p: Pad, w: bv32, val: bool)
    requires At32(m, Dw0, p) == TurnedOutput(w, val)
    requires !Locked(m, p) && !Locked(later, p) && p !in skipped
    ensures var v := At32(DnvSuspend.Resume(later, DnvSuspend.Suspend(m, saved, NGPIO), skipped, NGPIO), Dw0, p);
      !BitAt(v, 8) && BitAt(v, 9) && BitAt(v, 0) == val && ValueOf(v) == val
  {
    hide Locked, At32, DnvSuspend.Suspend, DnvSuspend.Resume, BitAt, TurnedOutput, TurnedInput, LevelPut, ValueOf;
    var v := At32(DnvSuspend.Resume(later, DnvSuspend.Suspend(m, saved, NGPIO), skipped, NGPIO), Dw0, p);
    SuspendResumeBits(m, saved, later, skipped, p, 0);
    SuspendResumeBits(m, saved, later, skipped, p, 8);
    SuspendResumeBits(m, saved, later, skipped, p, 9);
    PinBits(w, val, 0);
    PinBits(w, val, 8);
    PinBits(w, val, 9);
    PinBits(v, val, 0);
  }

  lemma TypeOfWord(t: RegType, p: Pad)
    ensures TypeAt(Word(t, p)) == t
  {
    TypeAtReg(t, p);
    hide TypeAt, Reg;
  }

  lemma PadMasks(p: Pad)
    ensures Mask(GpeEn, p) != 0 && Mask(GpeSts, p) != 0 && Mask(HostOwn, p) != 0 && Mask(PadOwn, p) != 0
    ensures Mask(Lock, p) != 0
  {
    OneFieldBit(p);
    ShiftsFit(p);
    TwoShifted(PAD_OWN_BIT[p]);
  }

  lemma TwoShifted(a: bv8)
    requires a < 32
    ensures (3 as bv32) << a != 0
  {
  }

  class DnvGpio {
    var m: Mmio
    var types: Types
    var saved: Saved

    /** The pads whose handlers were run, in order. */
    var handled: seq<nat>

    constructor (m: Mmio)
      ensures this.m == m && types == seq(13, _ => 0) && handled == []
    {
      this.m, types, saved, handled := m, seq(13, _ => 0), seq(153, _ => Context(0, 0)), [];
    }

    ghost function S(): State
      reads this
    {
      State(m, types)
    }

    /** The word of a pad. Status words are cleared by ones. */
    method Writel(v: bv32, t: RegType, p: Pad)
      modifies `m
      ensures m == if t == GpeSts then WriteSts(old(m), p, v) else Set32(old(m), t, p, v)
    {
      WordFits(t, p);
      TypeOfWord(t, p);
      hide TypeAt, Word;
      var a := Word(t, p);
      m := m[a := if TypeAt(a) == GpeSts then Clear(m[a], v) else v];
    }

    method Readl(t: RegType, p: Pad) returns (v: bv32)
      ensures v == At32(m, t, p)
    {
      WordFits(t, p);
      v := m[Word(t, p)];
    }

    /** dnv_gpio_clear_triggering; pins above the pads have no bits to clear. */
    method ClearTriggering(gpi: nat)
      requires gpi < NGPIO
      modifies `m
      ensures m == if gpi < NPADS then DnvIrq.ClearTriggering(old(m), gpi) else old(m)
    {
      hide Mask, Word, At32, Set32, And, Merge, Clear, Reg;
      var mask := Mask(GpeEn, gpi);
      if gpi < NPADS {
        PadMasks(gpi);
        SameMasks(gpi);
        var val := Readl(Dw0, gpi);
        Writel(Clear(val, DNV_GPIROUTSCI), Dw0, gpi);
        val := Readl(GpeEn, gpi);
        Writel(Clear(val, mask), GpeEn, gpi);
        val := Readl(GpeSts, gpi);
        Writel(Merge(val, mask), GpeSts, gpi);
      }
    }

    /** dnv_irq_set_type. */
    method IrqSetType(p: Pad, type_: bv32) returns (ok: bool)
      modifies `m, `types
      ensures S() == SetType(old(S()), p, type_) && ok == Accepts(type_)
    {
      hide Mask, Word, At32, Set32, And, Merge, Clear, NewConfig, Senses, Known;
      var padOwn := Readl(PadOwn, p);
      Writel(Clear(padOwn, Mask(PadOwn, p)), PadOwn, p);
      var hostOwn := Readl(HostOwn, p);
      Writel(Clear(hostOwn, Mask(HostOwn, p)), HostOwn, p);
      var dw0 := Readl(Dw0, p);
      var gpeEn := Readl(GpeEn, p);
      if Senses(type_) && !Known(type_) {
        return false;
      }
      ConfigKeeps(m, p, NewConfig(dw0, type_), GpeEn, p);
      Writel(NewConfig(dw0, type_), Dw0, p);
      gpeEn := if Senses(type_) then Merge(gpeEn, Mask(GpeEn, p)) else Clear(gpeEn, Mask(GpeEn, p));
      Writel(gpeEn, GpeEn, p);
      types := types[p := type_];
      ok := true;
    }

    /** dnv_irq_ack. */
    method IrqAck(p: Pad)
      modifies `m
      ensures S() == Ack(old(S()), p)
    {
      hide Mask, Word, At32, Set32, And, Clear, Inverted;
      var sts := Readl(GpeSts, p);
      if And(sts, Mask(GpeSts, p)) != 0 {
        if types[p] == IRQ_TYPE_EDGE_BOTH {
          var val := Readl(Dw0, p);
          Writel(Inverted(val), Dw0, p);
        }
        Writel(Mask(GpeSts, p), GpeSts, p);
      }
    }

    /** dnv_gpio_irq_init_hw. */
    method IrqInitHw()
      modifies `m
      ensures m == InitHw(old(m), NPADS)
    {
      hide DnvIrq.ClearTriggering;
      for gpi := 0 to NPADS
        invariant m == InitHw(old(m), gpi)
      {
        ClearTriggering(gpi);
      }
    }

    /** What the handler of a pad does. */
    method RunHandler(events: seq<Event>)
      modifies `m, `types
      ensures S() == Perform(old(S()), events)
    {
      hide SetType, DnvIrq.ClearTriggering, Ack;
      for i := 0 to |events|
        invariant S() == Perform(old(S()), events[..i])
      {
        assert events[..i + 1][..i] == events[..i];
        match events[i] {
          case TypeSet(p, type_) => var _ := IrqSetType(p, type_);
          case Free(p) => ClearTriggering(p);
          case Acknowledge(p) => IrqAck(p);
          case Other(regs) => m := regs;
        }
      }
      assert events[..|events|] == events;
    }

    /** dnv_gpio_irq_handler, which runs the handler of each dispatched pad. */
    method IrqHandler(h: Handlers) returns (any: bool)
      modifies `m, `types, `handled
      ensures S() == Pass(old(S()), h, NPADS)
      ensures handled == old(handled) + Dispatched(old(S()), h, NPADS)
      ensures any == (Dispatched(old(S()), h, NPADS) != [])
    {
      hide Mask, Word, At32, And, Perform;
      any := false;
      for gpi := 0 to NPADS
        invariant S() == Pass(old(S()), h, gpi)
        invariant handled == old(handled) + Dispatched(old(S()), h, gpi)
        invariant any == (Dispatched(old(S()), h, gpi) != [])
      {
        var sts := Readl(GpeSts, gpi);
        if types[gpi] != IRQ_TYPE_NONE && And(sts, Mask(GpeSts, gpi)) != 0 {
          handled := handled + [gpi];
          any := true;
          RunHandler(h[gpi]);
        }
      }
    }

    /** dnv_gpio_suspend. */
    method Suspend()
      modifies `saved
      ensures saved == DnvSuspend.Suspend(m, old(saved), NGPIO)
    {
      hide Word, At32, And;
      for pin := 0 to NGPIO
        invariant saved == DnvSuspend.Suspend(m, old(saved), pin)
      {
        var bitMask := Mask(Lock, pin);
        if bitMask != 0 {
          hide Mask;
          var val := Readl(Lock, pin);
          if And(val, bitMask) == 0 {
            var conf0 := Readl(Dw0, pin);
            var conf1 := Readl(Dw1, pin);
            saved := saved[pin := Context(And(conf0, CONF0_RESTORE_MASK), And(conf1, CONF1_RESTORE_MASK))];
          }
        }
      }
    }

    /** One word of dnv_gpio_resume, written only where it differs. */
    method RestoreWord(t: RegType, p: Pad, mask: bv32, conf: bv32)
      requires t == Dw0 || t == Dw1
      modifies `m
      ensures m == Set32(old(m), t, p, Restored(At32(old(m), t, p), mask, conf))
    {
      WordFits(t, p);
      SetSame(m, t, p);
      hide Word, And, Merge, Clear, At32, Set32;
      var val := Readl(t, p);
      if And(val, mask) != conf {
        val := Clear(val, mask);
        val := Merge(val, conf);
        Writel(val, t, p);
      }
    }

    /** dnv_gpio_resume. */
    method Resume(skipped: set<nat>)
      modifies `m
      ensures m == DnvSuspend.Resume(old(m), saved, skipped, NGPIO)
    {
      hide Word, At32, Set32, And, Restored;
      for pin := 0 to NGPIO
        invariant m == DnvSuspend.Resume(old(m), saved, skipped, pin)
      {
        var bitMask := Mask(Lock, pin);
        if pin !in skipped && bitMask != 0 {
          hide Mask;
          var val := Readl(Lock, pin);
          if And(val, bitMask) == 0 {
            RestoreWord(Dw0, pin, CONF0_RESTORE_MASK, saved[pin].conf0);
            RestoreWord(Dw1, pin, CONF1_RESTORE_MASK, saved[pin].conf1);
          }
        }
      }
    }

    /** dnv_gpio_direction_output, for any pin; a pin without a configuration
        register is refused. */
    method DirectionOutput(gpi: nat, val: bool) returns (ok: bool)
      requires gpi < NGPIO
      modifies `m
      ensures ok == (Reg(Dw0, gpi) != Null)
      ensures m == if ok then UpdatePin(old(m), gpi, TurnedOutput(PinWord(old(m), gpi), val)) else old(m)
    {
      hide TurnedOutput, PadOffset;
      match Reg(Dw0, gpi) {
        case Null => ok := false;
        case At(a) =>
          RegFits(Dw0, gpi);
          m := m[a := TurnedOutput(m[a], val)];
          ok := true;
      }
    }

    /** dnv_gpio_direction_input. */
    method DirectionInput(gpi: nat) returns (ok: bool)
      requires gpi < NGPIO
      modifies `m
      ensures ok == (Reg(Dw0, gpi) != Null)
      ensures m == if ok then UpdatePin(old(m), gpi, TurnedInput(PinWord(old(m), gpi))) else old(m)
    {
      hide TurnedInput, PadOffset;
      match Reg(Dw0, gpi) {
        case Null => ok := false;
        case At(a) =>
          RegFits(Dw0, gpi);
          m := m[a := TurnedInput(m[a])];
          ok := true;
      }
    }

    /** dnv_gpio_set. */
    method Set(gpi: nat, val: bool)
      requires gpi < NGPIO
      modifies `m
      ensures m == if Reg(Dw0, gpi) != Null then UpdatePin(old(m), gpi, LevelPut(PinWord(old(m), gpi), val)) else old(m)
    {
      hide LevelPut, PadOffset;
      match Reg(Dw0, gpi) {
        case Null =>
        case At(a) =>
          RegFits(Dw0, gpi);
          m := m[a := LevelPut(m[a], val)];
      }
    }
  }

  lemma SetSame(m: Mmio, t: RegType, p: Pad)
    ensures Set32(m, t, p, At32(m, t, p)) == m
  {
    WordFits(t, p);
    hide Word;
  }

  /** Every register of every pin is mapped. */
  lemma RegFits(t: RegType, gpi: nat)
    requires gpi < NGPIO && Reg(t, gpi) != Null
    ensures Reg(t, gpi).a < 0x3_0800
  {
    if t == Dw0 || t == Dw1 {
      PadAligned(gpi);
      hide PadOffset;
    } else {
      WordRange(t, gpi);
      hide WordOffset;
    }
  }

  /** A register of any pin that has it. */
  function PinReg(m: Mmio, t: RegType, gpi: nat): bv32
    requires gpi < NGPIO && Reg(t, gpi) != Null
  {
    RegFits(t, gpi);
    m[Reg(t, gpi).a]
  }

  /** The configuration word of a pin. */
  function PinWord(m: Mmio, gpi: nat): bv32
    requires gpi < NGPIO && Reg(Dw0, gpi) != Null
  {
    PinReg(m, Dw0, gpi)
  }

  function UpdatePin(m: Mmio, gpi: nat, w: bv32): Mmio
    requires gpi < NGPIO && Reg(Dw0, gpi) != Null
  {
    RegFits(Dw0, gpi);
    m[Reg(Dw0, gpi).a := w]
  }

  lemma RegsApart(gpi: nat, t: RegType, j: nat)
    requires gpi < NGPIO && Reg(Dw0, gpi) != Null && j < NGPIO && Reg(t, j) != Null && (t, j) != (Dw0, gpi)
    ensures Reg(t, j) != Reg(Dw0, gpi)
  {
    if t != Dw0 {
      TypesApart(Dw0, gpi, t, j);
    } else if Reg(Dw0, j) == Reg(Dw0, gpi) {
      PadsApart(gpi, j);
    }
    hide PadOffset, WordOffset, InC5;
  }

  /** A change of one pin's configuration changes no other register of any pin. */
  lemma PinsApart(m: Mmio, gpi: nat, w: bv32, t: RegType, j: nat)
    requires gpi < NGPIO && Reg(Dw0, gpi) != Null && j < NGPIO && Reg(t, j) != Null
    ensures PinReg(UpdatePin(m, gpi, w), t, j) == if (t, j) == (Dw0, gpi) then w else PinReg(m, t, j)
  {
    RegFits(Dw0, gpi);
    RegFits(t, j);
    if (t, j) != (Dw0, gpi) {
      RegsApart(gpi, t, j);
    }
    hide Reg;
  }

  /** So it changes no enable bit, and is one of the other changes in a run. */
  lemma UpdateKeepsEnables(m: Mmio, gpi: nat, w: bv32)
    requires gpi < NGPIO && Reg(Dw0, gpi) != Null
    ensures SameEnables(m, UpdatePin(m, gpi, w))
  {
    hide UpdatePin, Mask, And;
    forall p: Pad | 0 <= p < NPADS
      ensures Enabled(UpdatePin(m, gpi, w), p) == Enabled(m, p)
    {
      PinsApart(m, gpi, w, GpeEn, p);
      assert Reg(GpeEn, p) == At(Word(GpeEn, p));
    }
  }

  lemma SameMasks(p: Pad)
    ensures Mask(GpeEn, p) == Mask(GpeSts, p)
  {
  }
}
