/** The two main results about the cache: what a forced refresh finds after any
    setter, and which attributes a setter can change at all. */
module It87WriteThrough {
  import opened Bytes
  import opened It87Chip
  import opened It87Convert
  import opened It87Spec
  import opened It87Ops
  import opened It87Coherence

  /** The duty shadow of a chip that keeps seven duty bits in the control
      register. */
  predicate DutyShadow(chip: Chip, c: Cache) {
    !chip.Newer() ==> forall nr | 0 <= nr < 6 :: c.pwms[nr].duty < 0x80
  }

  /** What a forced refresh makes of the cache e.cache that the operation left:
      e.cache itself, except for the registers that two fields share. */
  ghost function Settled(chip: Chip, c: Cache, m: Regs, op: Op, e: Effect): Cache {
    if !e.ok then e.cache
    else
      match op
      case OpTemp(_, index, _) =>
        // the offset enable bit
        if index == 3 then e.cache.(beeps := m[BeepEnable] | 0x80) else e.cache
      case OpEnable(nr, val) =>
        if val == 0 && chip.OnOff(nr) then e.cache.(fanCtl := m[FanCtl] | Bit(nr))
        else if val == 0 then WithStart(e.cache, nr, 0xff)
        else PutPwm(e.cache, nr, ModeSettled(chip, e.cache.pwms[nr], val == 2))
      case OpPwm(nr, _) =>
        if chip.Newer() then WithStart(e.cache, nr, e.cache.pwms[nr].duty) else e.cache
      case OpTempMap(nr, _) =>
        if chip.Newer() && c.pwms[nr].ctrl & 0x80 == 0 then c else e.cache
      case OpAutoPwm(nr, _, _) =>
        if chip.Newer() then PutPwm(e.cache, nr, e.cache.pwms[nr].(duty := e.cache.pwms[nr].autoPwm[0]))
        else e.cache
      case _ => e.cache
  }

  /** The automatic start value, which is the manual duty register. */
  function WithStart(c: Cache, nr: Chan, b: bv8): Cache {
    PutPwm(c, nr, c.pwms[nr].(autoPwm := c.pwms[nr].autoPwm[0 := b]))
  }

  ghost predicate Rereads(chip: Chip, c: Cache, m: Regs, op: Op)
    requires Legal(chip, op)
  {
    var e := Step(chip, c, m, op);
    Refresh(chip, Apply(m, e.writes), e.cache) == Settled(chip, c, m, op, e)
  }

  lemma TempLimitRereads(chip: Chip, c: Cache, m: Regs, nr: Chan, index: nat, code: bv8)
    requires nr in chip.hasTemp && nr < chip.numTempLimit && index in {1, 2} && Fresh(chip, m, c)
    ensures var e := StoreTemp(c, m, nr, index, code); Refresh(chip, Apply(m, e.writes), e.cache) == e.cache
  {
    TempThrough(chip, c, m, nr, index, code);
    ApplyOne(m, Write(if index == 2 then TempHigh(nr) else TempLow(nr), code));
  }

  lemma OffsetRereads(chip: Chip, c: Cache, m: Regs, nr: Chan, code: bv8)
    requires nr in chip.hasTemp && nr < chip.numTempLimit && TempOffsets in chip.features && Fresh(chip, m, c)
    ensures var e := StoreTemp(c, m, nr, 3, code);
      Refresh(chip, Apply(m, e.writes), e.cache) == e.cache.(beeps := m[BeepEnable] | 0x80)
  {
    if m[BeepEnable] & 0x80 == 0 {
      OffsetSwitching(chip, c, m, nr, code);
    } else {
      OffsetSwitched(chip, c, m, nr, code);
      FreshBeeps(chip, m, c);
      BitAlreadySet(c.beeps);
    }
  }

  lemma BitAlreadySet(b: bv8)
    requires b & 0x80 != 0
    ensures b | 0x80 == b
  {
  }

  lemma TempRereads(chip: Chip, c: Cache, m: Regs, nr: Chan, index: nat, val: int)
    requires Legal(chip, OpTemp(nr, index, val)) && Fresh(chip, m, c)
    ensures Rereads(chip, c, m, OpTemp(nr, index, val))
  {
    var code := SignedByte(TempToReg(val));
    if index == 3 {
      OffsetRereads(chip, c, m, nr, code);
    } else {
      TempLimitRereads(chip, c, m, nr, index, code);
    }
  }

  lemma LimitsReread(chip: Chip, c: Cache, m: Regs, op: Op)
    requires Legal(chip, op) && Fresh(chip, m, c)
    requires op.OpIn? || op.OpFan? || op.OpFanDiv?
    ensures Rereads(chip, c, m, op)
  {
    match op
    case OpIn(nr, index, val) =>
      var code := ByteOf(InToReg(chip.AdcLsb(nr), val));
      InThrough(chip, c, m, nr, index, code);
      ApplyOne(m, StoreIn(c, nr, index, code).writes[0]);
    case OpFan(nr, val) =>
      if chip.Fan16() {
        Fan16Through(chip, c, m, nr, WordOf(Fan16ToReg(val)));
      } else {
        FanThrough(chip, c, m, nr, ByteOf(FanToReg(val, Divider(UnpackDiv(m[FanDiv])[nr]))));
      }
    case OpFanDiv(nr, val) =>
      var code := NewDivCode(nr, val);
      NewDivCodeFits(nr, val);
      DivThrough(chip, c, m, nr, code, RescaledLimit(c, nr, code));
  }

  lemma RegistersReread(chip: Chip, c: Cache, m: Regs, op: Op)
    requires Legal(chip, op) && Fresh(chip, m, c)
    requires op.OpFreq? || op.OpBeep? || op.OpTempType?
    ensures Rereads(chip, c, m, op)
  {
    match op
    case OpFreq(nr, val) => FreqThrough(chip, c, m, nr, ByteOf(FreqToReg(chip.Newer(), val)));
    case OpBeep(bit, val) => BeepThrough(chip, c, m, bit, val);
    case OpTempType(nr, val) => TempTypeThrough(chip, c, m, nr, val);
  }

  lemma AutoPwmRereads(chip: Chip, c: Cache, m: Regs, nr: Chan, point: Third, val: int)
    requires Legal(chip, OpAutoPwm(nr, point, val)) && Fresh(chip, m, c)
    ensures Rereads(chip, c, m, OpAutoPwm(nr, point, val))
  {
    hide Refresh;
    if 0 <= val <= 255 {
      AutoPwmThrough(chip, c, m, nr, point, PwmToReg(chip, ByteOf(val)));
    }
  }

  lemma SlopeRereads(chip: Chip, c: Cache, m: Regs, nr: Chan, val: nat)
    requires Legal(chip, OpSlope(nr, val)) && Fresh(chip, m, c)
    ensures Rereads(chip, c, m, OpSlope(nr, val))
  {
    hide Refresh;
    if val <= 127 {
      SlopeThrough(chip, c, m, nr, ByteOf(val));
    }
  }

  lemma AutoTempRereads(chip: Chip, c: Cache, m: Regs, nr: Chan, point: nat, val: int)
    requires Legal(chip, OpAutoTemp(nr, point, val)) && Fresh(chip, m, c)
    ensures Rereads(chip, c, m, OpAutoTemp(nr, point, val))
  {
    if -128000 <= val <= 127000 {
      AutoTempThrough(chip, c, m, nr, point, AutoTempCode(chip, c.pwms[nr], point, val));
    }
  }

  lemma FullSpeedRereads(chip: Chip, c: Cache, m: Regs, nr: Chan)
    requires Legal(chip, OpEnable(nr, 0)) && Fresh(chip, m, c)
    ensures Rereads(chip, c, m, OpEnable(nr, 0))
  {
    if chip.OnOff(nr) {
      FreshBeeps(chip, m, c);
      OnOffThrough(chip, c, m, nr);
    } else {
      FullDutyThrough(chip, c, m, nr);
      assert PwmToReg(chip, 0xff) == 0xff;
    }
  }

  lemma ModeThrough(chip: Chip, c: Cache, m: Regs, nr: Chan, automatic: bool)
    requires Fresh(chip, m, c) && nr in chip.hasPwm && (!chip.Newer() ==> c.pwms[nr].duty < 0x80)
    ensures var e := EnterPwmMode(chip, c, nr, ModeCtrl(chip, c.pwms[nr], automatic));
      Refresh(chip, Apply(m, e.writes), e.cache) ==
        PutPwm(e.cache, nr, ModeSettled(chip, e.cache.pwms[nr], automatic))
  {
    if chip.OnOff(nr) {
      OnOffModeThrough(chip, c, m, nr, automatic);
    } else {
      PlainModeThrough(chip, c, m, nr, automatic);
    }
  }

  lemma ModeRereads(chip: Chip, c: Cache, m: Regs, nr: Chan, val: int)
    requires Legal(chip, OpEnable(nr, val)) && Fresh(chip, m, c) && DutyShadow(chip, c) && val != 0
    ensures Rereads(chip, c, m, OpEnable(nr, val))
  {
    hide Refresh;
    if 1 <= val <= 2 {
      ModeThrough(chip, c, m, nr, val == 2);
    }
  }

  lemma HalfDuty(b: bv8)
    ensures b >> 1 < 0x80
  {
  }

  lemma PwmRereads(chip: Chip, c: Cache, m: Regs, nr: Chan, val: int)
    requires Legal(chip, OpPwm(nr, val)) && Fresh(chip, m, c)
    ensures Rereads(chip, c, m, OpPwm(nr, val))
  {
    hide Refresh;
    if 0 <= val <= 255 {
      var duty := PwmToReg(chip, ByteOf(val));
      HalfDuty(ByteOf(val));
      if chip.Newer() {
        NewerPwmThrough(chip, c, m, nr, duty);
      } else {
        OldPwmThrough(chip, c, m, nr, duty);
      }
    }
  }

  lemma TempMapRereads(chip: Chip, c: Cache, m: Regs, nr: Chan, val: int)
    requires Legal(chip, OpTempMap(nr, val)) && Fresh(chip, m, c)
    ensures Rereads(chip, c, m, OpTempMap(nr, val))
  {
    hide Refresh;
    if TempMapCode(nr, val) != 0xff {
      TempMapThrough(chip, c, m, nr, TempMapCode(nr, val));
    }
  }

  /** Write-through: from a fresh cache, after any setter on any chip, a forced
      refresh gives back what the setter cached, except exactly where Settled
      says otherwise. */
  lemma WriteThrough(chip: Chip, c: Cache, m: Regs, op: Op)
    requires Legal(chip, op) && Fresh(chip, m, c) && DutyShadow(chip, c)
    ensures var e := Step(chip, c, m, op); Refresh(chip, Apply(m, e.writes), e.cache) == Settled(chip, c, m, op, e)
  {
    match op
    case OpTemp(nr, index, val) => TempRereads(chip, c, m, nr, index, val);
    case OpEnable(nr, val) =>
      if val == 0 {
        FullSpeedRereads(chip, c, m, nr);
      } else {
        ModeRereads(chip, c, m, nr, val);
      }
    case OpPwm(nr, val) => PwmRereads(chip, c, m, nr, val);
    case OpTempMap(nr, val) => TempMapRereads(chip, c, m, nr, val);
    case OpIn(_, _, _) => LimitsReread(chip, c, m, op);
    case OpFan(_, _) => LimitsReread(chip, c, m, op);
    case OpFanDiv(_, _) => LimitsReread(chip, c, m, op);
    case OpFreq(_, _) => RegistersReread(chip, c, m, op);
    case OpBeep(_, _) => RegistersReread(chip, c, m, op);
    case OpTempType(_, _) => RegistersReread(chip, c, m, op);
    case OpAutoPwm(nr, point, val) => AutoPwmRereads(chip, c, m, nr, point, val);
    case OpSlope(nr, val) => SlopeRereads(chip, c, m, nr, val);
    case OpAutoTemp(nr, point, val) => AutoTempRereads(chip, c, m, nr, point, val);
  }
}
