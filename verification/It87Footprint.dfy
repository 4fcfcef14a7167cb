/** The footprint of each setter of the it87ts driver: the registers that it may
    write, and the cached values that it leaves alone. */
module It87Footprint {
  import opened Bytes
  import opened It87Chip
  import opened It87Convert
  import opened It87Spec
  import opened It87Ops

  /** The operation may write the register. */
  predicate MayWrite(op: Op, r: Reg) {
    match op
    case OpIn(nr, _, _) => r == VinMin(nr) || r == VinMax(nr)
    case OpTemp(nr, _, _) => r == TempLow(nr) || r == TempHigh(nr) || r == TempOffset(nr) || r == BeepEnable
    case OpFan(nr, _) => r == FanMinLo(nr) || r == FanMinHi(nr)
    case OpFanDiv(nr, _) => r == FanDiv || r == FanMinLo(nr)
    case OpEnable(nr, _) => r == Pwm(nr) || r == Duty(nr) || r == FanCtl || r == FanMain
    case OpPwm(nr, _) => r == Pwm(nr) || r == Duty(nr)
    case OpFreq(nr, _) => r == if nr == 0 then FanCtl else TempExtra
    case OpTempMap(nr, _) => r == Pwm(nr)
    case OpAutoPwm(nr, _, _) => (r.AutoPoint? && r.i == nr) || (r.OldDuty? && r.ch == nr)
    case OpSlope(nr, _) => r.AutoPoint? && r.i == nr
    case OpAutoTemp(nr, _, _) => r.AutoPoint? && r.i == nr
    case OpBeep(_, _) => r == BeepEnable
    case OpTempType(_, _) => r == TempEnable || r == TempExtra
  }

  /** The operation is about the mode, duty or map of channel nr. */
  predicate About(op: Op, nr: Chan) {
    match op
    case OpEnable(i, _) => i == nr
    case OpPwm(i, _) => i == nr
    case OpTempMap(i, _) => i == nr
    case _ => false
  }

  /** At most two writes, to registers that the operation may write; only a mode
      request changes the cached mode register, and only operations about channel
      nr its duty and map. */
  predicate Within(c: Cache, e: Effect, op: Op, nr: Chan) {
    && |e.writes| <= 2
    && (|e.writes| > 0 ==> MayWrite(op, e.writes[0].reg))
    && (|e.writes| > 1 ==> MayWrite(op, e.writes[1].reg))
    && (!op.OpEnable? ==> e.cache.fanMain == c.fanMain)
    && (!About(op, nr) ==>
          e.cache.pwms[nr].duty == c.pwms[nr].duty && e.cache.pwms[nr].tempMap == c.pwms[nr].tempMap)
  }

  lemma InWithin(c: Cache, i: Octet, index: nat, code: bv8, val: int, nr: Chan)
    ensures Within(c, StoreIn(c, i, index, code), OpIn(i, index, val), nr)
  {
  }

  lemma TempsWithin(c: Cache, i: Chan, t: Temp, writes: seq<Write>, op: Op, nr: Chan)
    requires op.OpTemp? && |writes| <= 2
    requires |writes| > 0 ==> MayWrite(op, writes[0].reg)
    requires |writes| > 1 ==> MayWrite(op, writes[1].reg)
    ensures Within(c, Effect(true, PutTemp(c, i, t), writes), op, nr)
  {
    hide MayWrite;
  }

  lemma TempWithin(c: Cache, m: Regs, i: Chan, index: nat, code: bv8, val: int, nr: Chan)
    ensures Within(c, StoreTemp(c, m, i, index, code), OpTemp(i, index, val), nr)
  {
    hide Within, PutTemp;
    var op, t, w := OpTemp(i, index, val), c.temps[i], Write(TempOffset(i), code);
    TempsWithin(c, i, t.(high := code), [Write(TempHigh(i), code)], op, nr);
    TempsWithin(c, i, t.(low := code), [Write(TempLow(i), code)], op, nr);
    TempsWithin(c, i, t.(offset := code), [Write(BeepEnable, m[BeepEnable] | 0x80), w], op, nr);
    TempsWithin(c, i, t.(offset := code), [w], op, nr);
  }

  lemma FanWithin(chip: Chip, c: Cache, m: Regs, i: Chan, val: int, nr: Chan)
    requires chip.Fan16() || i < 3
    ensures Within(c, SetFan(chip, c, m, i, val), OpFan(i, val), nr)
  {
    hide ByteOf, WordOf, FanToReg, Fan16ToReg, Divider, UnpackDiv, Join, Low, High;
  }

  lemma DividerWithin(c: Cache, m: Regs, i: Third, code: bv8, b: bv8, val: nat, nr: Chan)
    ensures Within(c, StoreDiv(c, m, i, code, b), OpFanDiv(i, val), nr)
  {
    hide PackDiv, Join;
  }

  lemma FreqWithin(c: Cache, m: Regs, i: Chan, code: bv8, val: nat, nr: Chan)
    ensures Within(c, StoreFreq(c, m, i, code), OpFreq(i, val), nr)
  {
    hide FreqField;
  }

  lemma BeepWithin(c: Cache, m: Regs, bit: Octet, val: int, nr: Chan)
    ensures Within(c, SetBeep(c, m, bit, val), OpBeep(bit, val), nr)
  {
    hide Bit;
  }

  lemma TypeWithin(chip: Chip, c: Cache, m: Regs, i: Third, val: int, nr: Chan)
    ensures Within(c, SetTempType(chip, c, m, i, val), OpTempType(i, val), nr)
  {
    hide TempTypeCode;
  }

  lemma AutosWithin(chip: Chip, c: Cache, m: Regs, op: Op, nr: Chan)
    requires Legal(chip, op) && (op.OpAutoPwm? || op.OpSlope? || op.OpAutoTemp?)
    ensures Within(c, Step(chip, c, m, op), op, nr)
  {
    hide ByteOf, AutoTempCode, PwmToReg;
  }

  lemma EnableWithin(chip: Chip, c: Cache, m: Regs, i: Chan, val: int, nr: Chan)
    ensures Within(c, SetPwmEnable(chip, c, m, i, val), OpEnable(i, val), nr)
  {
    hide PwmToReg, TripPointsOk, ModeCtrl, NewerCtrl, Bit;
  }

  /** A change of one channel's cache entry and at most one write. */
  lemma ChannelWithin(c: Cache, ok: bool, i: Chan, p: PwmState, writes: seq<Write>, op: Op, nr: Chan)
    requires (op.OpPwm? || op.OpTempMap?) && op.nr == i
    requires |writes| <= 1 && (|writes| > 0 ==> MayWrite(op, writes[0].reg))
    ensures Within(c, Effect(ok, PutPwm(c, i, p), writes), op, nr)
  {
    hide MayWrite;
  }

  lemma PwmWithin(chip: Chip, c: Cache, m: Regs, i: Chan, val: int, duty: bv8, nr: Chan)
    requires chip.Newer() || i < 3
    ensures Within(c, StorePwm(chip, c, m, i, duty), OpPwm(i, val), nr)
  {
    hide DecodePwm, Within, PutPwm;
    var p := DecodePwm(chip, m, i, c.pwms[i]);
    ChannelWithin(c, false, i, p, [], OpPwm(i, val), nr);
    ChannelWithin(c, true, i, p.(duty := duty), [], OpPwm(i, val), nr);
    ChannelWithin(c, true, i, p.(duty := duty), [Write(Duty(i), duty)], OpPwm(i, val), nr);
    ChannelWithin(c, true, i, p.(duty := duty, ctrl := duty), [Write(Pwm(i), duty)], OpPwm(i, val), nr);
  }

  lemma MapWithin(chip: Chip, c: Cache, m: Regs, i: Chan, val: int, code: bv8, nr: Chan)
    requires chip.Newer() || i < 3
    ensures Within(c, StoreTempMap(chip, c, m, i, code), OpTempMap(i, val), nr)
  {
    hide DecodePwm, Within, PutPwm;
    var p := DecodePwm(chip, m, i, c.pwms[i]).(tempMap := code);
    var ctrl := (p.ctrl & 0xfc) | code;
    ChannelWithin(c, true, i, p, [], OpTempMap(i, val), nr);
    ChannelWithin(c, true, i, p.(ctrl := ctrl), [Write(Pwm(i), ctrl)], OpTempMap(i, val), nr);
  }

  lemma RefusedWithin(c: Cache, op: Op, nr: Chan)
    ensures Within(c, Refused(c), op, nr)
  {
  }

  /** Every setter keeps within its footprint. */
  lemma Footprint(chip: Chip, c: Cache, m: Regs, op: Op, nr: Chan)
    requires Legal(chip, op)
    ensures Within(c, Step(chip, c, m, op), op, nr)
  {
    hide Within, It87Spec.StoreIn, StoreTemp, SetFan, StoreDiv, RescaledLimit, NewDivCode, SetPwmEnable, StorePwm,
      StoreFreq, StoreTempMap, TempMapCode, PwmToReg, ByteOf, SignedByte, InToReg, FreqToReg, TempToReg, SetBeep,
      SetTempType;
    RefusedWithin(c, op, nr);
    match op {
      case OpIn(i, index, val) => InWithin(c, i, index, ByteOf(InToReg(chip.AdcLsb(i), val)), val, nr);
      case OpTemp(i, index, val) => TempWithin(c, m, i, index, SignedByte(TempToReg(val)), val, nr);
      case OpFan(i, val) => FanWithin(chip, c, m, i, val, nr);
      case OpFanDiv(i, val) =>
        var code := NewDivCode(i, val);
        DividerWithin(c, m, i, code, RescaledLimit(c, i, code), val, nr);
      case OpEnable(i, val) => EnableWithin(chip, c, m, i, val, nr);
      case OpPwm(i, val) =>
        if 0 <= val <= 255 {
          PwmWithin(chip, c, m, i, val, PwmToReg(chip, ByteOf(val)), nr);
        }
      case OpFreq(i, val) => FreqWithin(c, m, i, ByteOf(FreqToReg(chip.Newer(), val)), val, nr);
      case OpTempMap(i, val) => MapWithin(chip, c, m, i, val, TempMapCode(i, val), nr);
      case OpBeep(bit, val) => BeepWithin(c, m, bit, val, nr);
      case OpTempType(i, val) => TypeWithin(chip, c, m, i, val, nr);
      case _ => AutosWithin(chip, c, m, op, nr);
    }
  }

  /** A register that the operation may not write is as it was. */
  lemma Unwritten(c: Cache, m: Regs, e: Effect, op: Op, nr: Chan, r: Reg)
    requires Within(c, e, op, nr) && !MayWrite(op, r)
    ensures Apply(m, e.writes)[r] == m[r]
  {
    hide Apply, MayWrite, About;
    if |e.writes| == 0 {
      NoWrites(m, e.writes);
    } else if |e.writes| == 1 {
      ApplyOne(m, e.writes[0]);
      assert e.writes == [e.writes[0]];
    } else {
      ApplyTwo(m, e.writes[0], e.writes[1]);
      assert e.writes == [e.writes[0], e.writes[1]];
    }
  }
}
