/** Write-through: after every setter a forced refresh gives back the cache the
    setter left, except for the overlaps that are spelled out here. */
module It87Coherence {
  import opened Bytes
  import opened It87Chip
  import opened It87Convert
  import opened It87Spec
  import opened It87Ops

  /** The parts of the cache, by the registers they are decoded from. */
  datatype Part = InVins | InFans | InTemps | InPwms | InRest

  predicate Touches(part: Part, r: Reg) {
    match part
    case InVins => r.VinMin? || r.VinMax? || r.Voltage? || r.Sensor?
    case InFans => r.FanLo? || r.FanHi? || r.FanMinLo? || r.FanMinHi?
    case InTemps => r.Sensor? || r.TempLow? || r.TempHigh? || r.TempOffset?
    case InPwms => r.Pwm? || r.AutoPoint? || r.OldDuty?
    case InRest =>
      || r.FanDiv? || r.Alarm? || r.BeepEnable? || r.FanMain? || r.FanCtl? || r.TempEnable? || r.TempExtra?
      || r.Vid?
  }

  // What a refresh of c yields, one part at a time.

  ghost predicate VinsYield(chip: Chip, m: Regs, c: Vins, d: Vins) {
    forall i | 0 <= i < 13 :: DecodeVin(chip, m, i, c[i]) == d[i]
  }

  ghost predicate FansYield(chip: Chip, m: Regs, c: Fans, d: Fans) {
    forall i | 0 <= i < 6 :: DecodeFan(chip, m, i, c[i]) == d[i]
  }

  ghost predicate TempsYield(chip: Chip, m: Regs, c: Temps, d: Temps) {
    forall i | 0 <= i < 6 :: DecodeTemp(chip, m, i, c[i]) == d[i]
  }

  ghost predicate PwmsYield(chip: Chip, m: Regs, c: Pwms, d: Pwms) {
    forall i | 0 <= i < 6 :: RefreshPwm(chip, m, i, c[i]) == d[i]
  }

  ghost predicate RestYields(chip: Chip, m: Regs, c: Cache, d: Cache) {
    && DecodeDiv(chip, m, c.fanDiv) == d.fanDiv
    && d.alarms == DecodeAlarms(m)
    && d.beeps == m[BeepEnable]
    && d.fanMain == m[FanMain]
    && d.fanCtl == m[FanCtl]
    && d.sensor == m[TempEnable]
    && d.extra == m[TempExtra]
    && d.vid == (if chip.kind in {It8712, It8716} then m[Vid] & 0x3f else c.vid)
  }

  /** A refresh turns the cache c into d. */
  ghost predicate Becomes(chip: Chip, m: Regs, c: Cache, d: Cache) {
    && VinsYield(chip, m, c.vins, d.vins) && FansYield(chip, m, c.fans, d.fans)
    && TempsYield(chip, m, c.temps, d.temps) && PwmsYield(chip, m, c.pwms, d.pwms)
    && RestYields(chip, m, c, d)
  }

  lemma RefreshBecomes(chip: Chip, m: Regs, c: Cache, d: Cache)
    ensures Refresh(chip, m, c) == d <==> Becomes(chip, m, c, d)
  {
    var e := Refresh(chip, m, c);
    assert e.vins == d.vins <==> VinsYield(chip, m, c.vins, d.vins) by {
      assert forall i | 0 <= i < 13 :: e.vins[i] == DecodeVin(chip, m, i, c.vins[i]);
    }
    assert e.fans == d.fans <==> FansYield(chip, m, c.fans, d.fans) by {
      assert forall i | 0 <= i < 6 :: e.fans[i] == DecodeFan(chip, m, i, c.fans[i]);
    }
    assert e.temps == d.temps <==> TempsYield(chip, m, c.temps, d.temps) by {
      assert forall i | 0 <= i < 6 :: e.temps[i] == DecodeTemp(chip, m, i, c.temps[i]);
    }
    assert e.pwms == d.pwms <==> PwmsYield(chip, m, c.pwms, d.pwms) by {
      assert forall i | 0 <= i < 6 :: e.pwms[i] == RefreshPwm(chip, m, i, c.pwms[i]);
    }
  }

  /** The cache is a snapshot of the registers. */
  ghost predicate Fresh(chip: Chip, m: Regs, c: Cache) { Refresh(chip, m, c) == c }

  // A register write leaves every part but its own as it is.

  lemma VinsUntouched(chip: Chip, m: Regs, w: Write, c: Vins, d: Vins)
    requires !Touches(InVins, w.reg)
    requires VinsYield(chip, m, c, d)
    ensures VinsYield(chip, Put(m, w), c, d)
  {
  }

  lemma FansUntouched(chip: Chip, m: Regs, w: Write, c: Fans, d: Fans)
    requires !Touches(InFans, w.reg)
    requires FansYield(chip, m, c, d)
    ensures FansYield(chip, Put(m, w), c, d)
  {
  }

  lemma TempsUntouched(chip: Chip, m: Regs, w: Write, c: Temps, d: Temps)
    requires !Touches(InTemps, w.reg)
    requires TempsYield(chip, m, c, d)
    ensures TempsYield(chip, Put(m, w), c, d)
  {
  }

  lemma OldAutoUntouched(m: Regs, w: Write, i: Third, p: PwmState)
    requires !Touches(InPwms, w.reg)
    ensures OldAuto(Put(m, w), i, p) == OldAuto(m, i, p)
  {
  }

  lemma NewerAutoUntouched(m: Regs, w: Write, i: Chan, p: PwmState)
    requires !Touches(InPwms, w.reg)
    ensures NewerAuto(Put(m, w), i, p) == NewerAuto(m, i, p)
  {
  }

  lemma AutoUntouched(chip: Chip, m: Regs, w: Write, i: Chan, p: PwmState)
    requires (chip.Newer() || i < 3) && !Touches(InPwms, w.reg)
    ensures DecodeAuto(chip, Put(m, w), i, p) == DecodeAuto(chip, m, i, p)
  {
    NewerAutoUntouched(m, w, i, p);
    if i < 3 {
      OldAutoUntouched(m, w, i, p);
    }
  }

  lemma ModeUntouched(chip: Chip, m: Regs, w: Write, i: Chan, p: PwmState)
    requires !Touches(InPwms, w.reg)
    ensures DecodeMode(chip, Put(m, w), i, p) == DecodeMode(chip, m, i, p)
  {
  }

  lemma PwmUntouched(chip: Chip, m: Regs, w: Write, i: Chan, p: PwmState)
    requires (chip.Newer() || i < 3) && !Touches(InPwms, w.reg)
    ensures DecodePwm(chip, Put(m, w), i, p) == DecodePwm(chip, m, i, p)
  {
    ModeUntouched(chip, m, w, i, p);
    AutoUntouched(chip, m, w, i, DecodeMode(chip, m, i, p));
  }

  lemma PwmsUntouched(chip: Chip, m: Regs, w: Write, c: Pwms, d: Pwms)
    requires !Touches(InPwms, w.reg)
    requires PwmsYield(chip, m, c, d)
    ensures PwmsYield(chip, Put(m, w), c, d)
  {
    forall i | 0 <= i < 6
      ensures RefreshPwm(chip, Put(m, w), i, c[i]) == d[i]
    {
      if i in chip.hasPwm {
        PwmUntouched(chip, m, w, i, c[i]);
      }
      assert RefreshPwm(chip, m, i, c[i]) == d[i];
    }
  }

  ghost predicate SameRest(m: Regs, n: Regs) {
    && n[FanDiv] == m[FanDiv] && n[Vid] == m[Vid] && n[BeepEnable] == m[BeepEnable]
    && n[FanMain] == m[FanMain] && n[FanCtl] == m[FanCtl]
    && n[TempEnable] == m[TempEnable] && n[TempExtra] == m[TempExtra]
    && n[Alarm(0)] == m[Alarm(0)] && n[Alarm(1)] == m[Alarm(1)] && n[Alarm(2)] == m[Alarm(2)]
  }

  lemma SameRestYields(chip: Chip, m: Regs, n: Regs, c: Cache, d: Cache)
    requires SameRest(m, n) && RestYields(chip, m, c, d)
    ensures RestYields(chip, n, c, d)
  {
    assert DecodeAlarms(n) == DecodeAlarms(m);
  }

  lemma RestUntouched(chip: Chip, m: Regs, w: Write, c: Cache, d: Cache)
    requires !Touches(InRest, w.reg)
    requires RestYields(chip, m, c, d)
    ensures RestYields(chip, Put(m, w), c, d)
  {
    SameRestYields(chip, m, Put(m, w), c, d);
  }

  /** Every part but one yields d. */
  ghost predicate AllBut(part: Part, chip: Chip, m: Regs, c: Cache, d: Cache) {
    && (part != InVins ==> VinsYield(chip, m, c.vins, d.vins))
    && (part != InFans ==> FansYield(chip, m, c.fans, d.fans))
    && (part != InTemps ==> TempsYield(chip, m, c.temps, d.temps))
    && (part != InPwms ==> PwmsYield(chip, m, c.pwms, d.pwms))
    && (part != InRest ==> RestYields(chip, m, c, d))
  }

  lemma OtherPartsKept(part: Part, chip: Chip, m: Regs, w: Write, c: Cache, d: Cache)
    requires forall other: Part | other != part :: !Touches(other, w.reg)
    requires AllBut(part, chip, m, c, d)
    ensures AllBut(part, chip, Put(m, w), c, d)
  {
    if part != InVins { VinsUntouched(chip, m, w, c.vins, d.vins); }
    if part != InFans { FansUntouched(chip, m, w, c.fans, d.fans); }
    if part != InTemps { TempsUntouched(chip, m, w, c.temps, d.temps); }
    if part != InPwms { PwmsUntouched(chip, m, w, c.pwms, d.pwms); }
    if part != InRest { RestUntouched(chip, m, w, c, d); }
  }

  // ------------------------------------------------- one lemma per setter

  lemma VinYields(chip: Chip, m: Regs, c: Vins, nr: Octet, v: Vin, w: Write)
    requires VinsYield(chip, m, c, c)
    requires w.reg == VinMin(nr) || w.reg == VinMax(nr)
    requires DecodeVin(chip, Put(m, w), nr, v) == v
    ensures VinsYield(chip, Put(m, w), c[nr := v], c[nr := v])
  {
  }

  lemma VinStored(chip: Chip, m: Regs, c: Cache, nr: Octet, v: Vin, w: Write)
    requires Fresh(chip, m, c)
    requires w.reg == VinMin(nr) || w.reg == VinMax(nr)
    requires DecodeVin(chip, Put(m, w), nr, v) == v
    ensures Fresh(chip, Put(m, w), PutVin(c, nr, v))
  {
    RefreshBecomes(chip, m, c, c);
    OtherPartsKept(InVins, chip, m, w, c, c);
    VinYields(chip, m, c.vins, nr, v, w);
    RefreshBecomes(chip, Put(m, w), PutVin(c, nr, v), PutVin(c, nr, v));
  }

  lemma InThrough(chip: Chip, c: Cache, m: Regs, nr: Octet, index: nat, code: bv8)
    requires Fresh(chip, m, c) && nr in chip.hasIn
    ensures var e := StoreIn(c, nr, index, code); Fresh(chip, Put(m, e.writes[0]), e.cache)
  {
    var v := c.vins[nr];
    RefreshBecomes(chip, m, c, c);
    assert DecodeVin(chip, m, nr, v) == v;
    if index == 1 {
      VinStored(chip, m, c, nr, v.(min := code), Write(VinMin(nr), code));
    } else {
      VinStored(chip, m, c, nr, v.(max := code), Write(VinMax(nr), code));
    }
  }

  lemma TempYields(chip: Chip, m: Regs, c: Temps, nr: Chan, t: Temp, w: Write)
    requires TempsYield(chip, m, c, c)
    requires w.reg == TempLow(nr) || w.reg == TempHigh(nr) || w.reg == TempOffset(nr)
    requires DecodeTemp(chip, Put(m, w), nr, t) == t
    ensures TempsYield(chip, Put(m, w), c[nr := t], c[nr := t])
  {
  }

  lemma TempStored(chip: Chip, m: Regs, c: Cache, nr: Chan, t: Temp, w: Write)
    requires Fresh(chip, m, c)
    requires w.reg == TempLow(nr) || w.reg == TempHigh(nr) || w.reg == TempOffset(nr)
    requires DecodeTemp(chip, Put(m, w), nr, t) == t
    ensures Fresh(chip, Put(m, w), PutTemp(c, nr, t))
  {
    RefreshBecomes(chip, m, c, c);
    OtherPartsKept(InTemps, chip, m, w, c, c);
    TempYields(chip, m, c.temps, nr, t, w);
    RefreshBecomes(chip, Put(m, w), PutTemp(c, nr, t), PutTemp(c, nr, t));
  }

  lemma TempThrough(chip: Chip, c: Cache, m: Regs, nr: Chan, index: nat, code: bv8)
    requires Fresh(chip, m, c)
    requires nr in chip.hasTemp && nr < chip.numTempLimit && index in {1, 2}
    ensures var e := StoreTemp(c, m, nr, index, code); Fresh(chip, Put(m, e.writes[0]), e.cache)
  {
    var t := c.temps[nr];
    RefreshBecomes(chip, m, c, c);
    assert DecodeTemp(chip, m, nr, t) == t;
    if index == 2 {
      TempStored(chip, m, c, nr, t.(high := code), Write(TempHigh(nr), code));
    } else {
      TempStored(chip, m, c, nr, t.(low := code), Write(TempLow(nr), code));
    }
  }

  /** A write to a register of the last part, with the cache it makes fresh. */
  lemma RestStored(chip: Chip, m: Regs, c: Cache, w: Write, d: Cache)
    requires Fresh(chip, m, c)
    requires forall other: Part | other != InRest :: !Touches(other, w.reg)
    requires d.vins == c.vins && d.fans == c.fans && d.temps == c.temps && d.pwms == c.pwms
    requires RestYields(chip, Put(m, w), d, d)
    ensures Fresh(chip, Put(m, w), d)
  {
    RefreshBecomes(chip, m, c, c);
    OtherPartsKept(InRest, chip, m, w, c, c);
    RefreshBecomes(chip, Put(m, w), d, d);
  }

  lemma BeepWritten(chip: Chip, m: Regs, c: Cache, b: bv8)
    requires Fresh(chip, m, c)
    ensures Fresh(chip, Put(m, Write(BeepEnable, b)), c.(beeps := b))
  {
    RefreshBecomes(chip, m, c, c);
    RestStored(chip, m, c, Write(BeepEnable, b), c.(beeps := b));
  }

  lemma OffsetStored(chip: Chip, c: Cache, m: Regs, nr: Chan, code: bv8)
    requires Fresh(chip, m, c)
    requires nr in chip.hasTemp && nr < chip.numTempLimit && TempOffsets in chip.features
    ensures var d := PutTemp(c, nr, c.temps[nr].(offset := code));
      Fresh(chip, Put(m, Write(TempOffset(nr), code)), d)
  {
    var t := c.temps[nr];
    RefreshBecomes(chip, m, c, c);
    assert DecodeTemp(chip, m, nr, t) == t;
    TempStored(chip, m, c, nr, t.(offset := code), Write(TempOffset(nr), code));
  }

  /** Refreshing overwrites the cached copies of BEEP_ENABLE and FAN_CTL. */
  lemma RefreshForgets(chip: Chip, m: Regs, c: Cache, d: Cache)
    requires d == c.(beeps := d.beeps, fanCtl := d.fanCtl)
    ensures Refresh(chip, m, c) == Refresh(chip, m, d)
  {
    RefreshBecomes(chip, m, c, Refresh(chip, m, d));
    RefreshBecomes(chip, m, d, Refresh(chip, m, d));
  }

  lemma FreshBeeps(chip: Chip, m: Regs, c: Cache)
    requires Fresh(chip, m, c)
    ensures c.beeps == m[BeepEnable] && c.fanCtl == m[FanCtl] && c.fanMain == m[FanMain]
    ensures c.sensor == m[TempEnable] && c.extra == m[TempExtra]
  {
  }

  /** Setting an offset switches the top bit of BEEP_ENABLE on, which the cache
      learns at the refresh that set_temp forces. */
  lemma OffsetSwitching(chip: Chip, c: Cache, m: Regs, nr: Chan, code: bv8)
    requires Fresh(chip, m, c) && m[BeepEnable] & 0x80 == 0
    requires nr in chip.hasTemp && nr < chip.numTempLimit && TempOffsets in chip.features
    ensures var e := StoreTemp(c, m, nr, 3, code);
      Refresh(chip, Apply(m, e.writes), e.cache) == e.cache.(beeps := m[BeepEnable] | 0x80)
  {
    var b := m[BeepEnable] | 0x80;
    var w, t := Write(BeepEnable, b), Write(TempOffset(nr), code);
    var d := PutTemp(c, nr, c.temps[nr].(offset := code));
    assert StoreTemp(c, m, nr, 3, code) == Effect(true, d, [w, t]);
    ApplyTwo(m, w, t);
    var n := Put(Put(m, w), t);
    assert Refresh(chip, n, d) == d.(beeps := b) by {
      BeepWritten(chip, m, c, b);
      OffsetStored(chip, c.(beeps := b), Put(m, w), nr, code);
      RefreshForgets(chip, n, d, d.(beeps := b));
    }
  }

  lemma OffsetSwitched(chip: Chip, c: Cache, m: Regs, nr: Chan, code: bv8)
    requires Fresh(chip, m, c) && m[BeepEnable] & 0x80 != 0
    requires nr in chip.hasTemp && nr < chip.numTempLimit && TempOffsets in chip.features
    ensures var e := StoreTemp(c, m, nr, 3, code); Refresh(chip, Apply(m, e.writes), e.cache) == e.cache
  {
    var t := Write(TempOffset(nr), code);
    var d := PutTemp(c, nr, c.temps[nr].(offset := code));
    assert StoreTemp(c, m, nr, 3, code) == Effect(true, d, [t]);
    ApplyOne(m, t);
    OffsetStored(chip, c, m, nr, code);
  }

  // ------------------------------------------------------------------ fans

  lemma FanYields(chip: Chip, m: Regs, c: Fans, d: Fans, nr: Chan, f: Fan, g: Fan, w: Write)
    requires FansYield(chip, m, c, d)
    requires w.reg == FanMinLo(nr) || w.reg == FanMinHi(nr)
    requires DecodeFan(chip, Put(m, w), nr, f) == g
    ensures FansYield(chip, Put(m, w), c[nr := f], d[nr := g])
  {
  }

  /** One write to a limit register of fan nr: a refresh of d's other parts
      finds d, and for fan nr finds g. */
  lemma FanWritten(chip: Chip, m: Regs, c: Cache, d: Cache, nr: Chan, f: Fan, g: Fan, w: Write)
    requires Refresh(chip, m, c) == d
    requires w.reg == FanMinLo(nr) || w.reg == FanMinHi(nr)
    requires DecodeFan(chip, Put(m, w), nr, f) == g
    ensures Refresh(chip, Put(m, w), PutFan(c, nr, f)) == PutFan(d, nr, g)
  {
    RefreshBecomes(chip, m, c, d);
    OtherPartsKept(InFans, chip, m, w, c, d);
    FanYields(chip, m, c.fans, d.fans, nr, f, g, w);
    RefreshBecomes(chip, Put(m, w), PutFan(c, nr, f), PutFan(d, nr, g));
  }

  lemma FreshFan(chip: Chip, m: Regs, c: Cache, nr: Chan)
    requires Fresh(chip, m, c)
    ensures DecodeFan(chip, m, nr, c.fans[nr]) == c.fans[nr]
  {
    RefreshBecomes(chip, m, c, c);
  }

  lemma Fan16Settled(chip: Chip, c: Cache, m: Regs, nr: Chan, code: bv16)
    requires Fresh(chip, m, c) && nr in chip.hasFan && chip.Fan16()
    ensures Fresh(chip, Put(Put(m, Write(FanMinLo(nr), Low(code))), Write(FanMinHi(nr), High(code))),
      PutFan(c, nr, c.fans[nr].(min := code)))
  {
    var w, x := Write(FanMinLo(nr), Low(code)), Write(FanMinHi(nr), High(code));
    var f := c.fans[nr].(min := code);
    FreshFan(chip, m, c, nr);
    JoinSplit(code);
    var half := DecodeFan(chip, Put(m, w), nr, c.fans[nr]);
    FanWritten(chip, m, c, c, nr, c.fans[nr], half, w);
    assert PutFan(c, nr, c.fans[nr]) == c;
    FanWritten(chip, Put(m, w), c, PutFan(c, nr, half), nr, f, f, x);
  }

  lemma Fan16Through(chip: Chip, c: Cache, m: Regs, nr: Chan, code: bv16)
    requires Fresh(chip, m, c) && nr in chip.hasFan && chip.Fan16()
    ensures var e := StoreFan16(c, nr, code); Refresh(chip, Apply(m, e.writes), e.cache) == e.cache
  {
    ApplyTwo(m, Write(FanMinLo(nr), Low(code)), Write(FanMinHi(nr), High(code)));
    Fan16Settled(chip, c, m, nr, code);
  }

  lemma FanThrough(chip: Chip, c: Cache, m: Regs, nr: Third, code: bv8)
    requires Fresh(chip, m, c) && nr in chip.hasFan && !chip.Fan16()
    ensures var e := StoreFan(c, nr, UnpackDiv(m[FanDiv])[nr], code);
      Refresh(chip, Apply(m, e.writes), e.cache) == e.cache
    ensures UnpackDiv(m[FanDiv]) == c.fanDiv
  {
    var w := Write(FanMinLo(nr), code);
    var f := c.fans[nr].(min := Join(code, 0));
    ApplyOne(m, w);
    FreshDiv(chip, m, c, nr);
    assert c.(fanDiv := c.fanDiv[nr := UnpackDiv(m[FanDiv])[nr]]) == c;
    FreshFan(chip, m, c, nr);
    FanWritten(chip, m, c, c, nr, f, f, w);
  }

  lemma FreshDiv(chip: Chip, m: Regs, c: Cache, nr: Third)
    requires Fresh(chip, m, c) && nr in chip.hasFan && !chip.Fan16()
    ensures UnpackDiv(m[FanDiv]) == c.fanDiv
  {
    if nr == 0 { } else if nr == 1 { } else { }
  }

  lemma UnpackPack(b: bv8, d: Divs)
    requires d[0] < 8 && d[1] < 8 && (d[2] == 1 || d[2] == 3)
    ensures UnpackDiv(PackDiv(b, d)) == d
  {
  }

  lemma UnpackRange(b: bv8)
    ensures var d := UnpackDiv(b); d[0] < 8 && d[1] < 8 && (d[2] == 1 || d[2] == 3)
  {
  }

  lemma DivWritten(chip: Chip, m: Regs, c: Cache, div: Divs, b: bv8)
    requires Fresh(chip, m, c) && chip.HasDividers() && UnpackDiv(b) == div
    ensures Fresh(chip, Put(m, Write(FanDiv, b)), c.(fanDiv := div))
  {
    RefreshBecomes(chip, m, c, c);
    RestStored(chip, m, c, Write(FanDiv, b), c.(fanDiv := div));
  }

  /** The code that set_fan_div may store for each fan. */
  predicate DivCode(nr: Third, code: bv8) { if nr < 2 then code < 8 else code == 1 || code == 3 }

  lemma NewDivCodeFits(nr: Third, val: nat)
    ensures DivCode(nr, NewDivCode(nr, val))
  {
    DivToRegBound(val);
    if nr < 2 {
      assert ByteOf(DivToReg(val)) as nat < 8;
    }
  }

  lemma DivSettled(chip: Chip, c: Cache, m: Regs, nr: Third, code: bv8)
    requires Fresh(chip, m, c) && nr in chip.hasFan && !chip.Fan16() && DivCode(nr, code)
    ensures var div := c.fanDiv[nr := code];
      Fresh(chip, Put(m, Write(FanDiv, PackDiv(m[FanDiv], div))), c.(fanDiv := div))
  {
    var div := c.fanDiv[nr := code];
    FreshDiv(chip, m, c, nr);
    UnpackRange(m[FanDiv]);
    UnpackPack(m[FanDiv], div);
    DivWritten(chip, m, c, div, PackDiv(m[FanDiv], div));
  }

  lemma DivThrough(chip: Chip, c: Cache, m: Regs, nr: Third, code: bv8, limit: bv8)
    requires Fresh(chip, m, c) && nr in chip.hasFan && !chip.Fan16() && DivCode(nr, code)
    ensures var e := StoreDiv(c, m, nr, code, limit); Refresh(chip, Apply(m, e.writes), e.cache) == e.cache
  {
    var div := c.fanDiv[nr := code];
    var w, x := Write(FanDiv, PackDiv(m[FanDiv], div)), Write(FanMinLo(nr), limit);
    var f := c.fans[nr].(min := Join(limit, 0));
    var c' := c.(fanDiv := div);
    DivSettled(chip, c, m, nr, code);
    FreshFan(chip, Put(m, w), c', nr);
    FanWritten(chip, Put(m, w), c', c', nr, f, f, x);
    ApplyTwo(m, w, x);
  }

  // ------------------------------------------- registers cached as they are

  lemma BeepThrough(chip: Chip, c: Cache, m: Regs, bit: Octet, val: int)
    requires Fresh(chip, m, c)
    ensures var e := SetBeep(c, m, bit, val); Refresh(chip, Apply(m, e.writes), e.cache) == e.cache
  {
    var e := SetBeep(c, m, bit, val);
    if e.ok {
      ApplyOne(m, e.writes[0]);
      BeepWritten(chip, m, c, e.writes[0].value);
    }
  }

  lemma SensorWritten(chip: Chip, m: Regs, c: Cache, b: bv8)
    requires Fresh(chip, m, c)
    ensures Fresh(chip, Put(m, Write(TempEnable, b)), c.(sensor := b))
  {
    RefreshBecomes(chip, m, c, c);
    RestStored(chip, m, c, Write(TempEnable, b), c.(sensor := b));
  }

  lemma ExtraWritten(chip: Chip, m: Regs, c: Cache, b: bv8)
    requires Fresh(chip, m, c)
    ensures Fresh(chip, Put(m, Write(TempExtra, b)), c.(extra := b))
  {
    RefreshBecomes(chip, m, c, c);
    RestStored(chip, m, c, Write(TempExtra, b), c.(extra := b));
  }

  lemma CtlWritten(chip: Chip, m: Regs, c: Cache, b: bv8)
    requires Fresh(chip, m, c)
    ensures Fresh(chip, Put(m, Write(FanCtl, b)), c.(fanCtl := b))
  {
    RefreshBecomes(chip, m, c, c);
    RestStored(chip, m, c, Write(FanCtl, b), c.(fanCtl := b));
  }

  lemma MainWritten(chip: Chip, m: Regs, c: Cache, b: bv8)
    requires Fresh(chip, m, c)
    ensures Fresh(chip, Put(m, Write(FanMain, b)), c.(fanMain := b))
  {
    RefreshBecomes(chip, m, c, c);
    RestStored(chip, m, c, Write(FanMain, b), c.(fanMain := b));
  }

  lemma FreqThrough(chip: Chip, c: Cache, m: Regs, nr: Chan, i: bv8)
    requires Fresh(chip, m, c)
    ensures var e := StoreFreq(c, m, nr, i); Refresh(chip, Apply(m, e.writes), e.cache) == e.cache
  {
    if nr == 0 {
      var b := FreqField(m[FanCtl], i);
      ApplyOne(m, Write(FanCtl, b));
      CtlWritten(chip, m, c, b);
    } else {
      var b := FreqField(m[TempExtra], i);
      ApplyOne(m, Write(TempExtra, b));
      ExtraWritten(chip, m, c, b);
    }
  }

  lemma TempTypeThrough(chip: Chip, c: Cache, m: Regs, nr: Third, val: int)
    requires Fresh(chip, m, c)
    ensures var e := SetTempType(chip, c, m, nr, val); Refresh(chip, Apply(m, e.writes), e.cache) == e.cache
  {
    var t := TempTypeCode(chip, m[TempEnable], m[TempExtra], nr, val);
    if t.ok {
      var w, x := Write(TempEnable, t.reg), Write(TempExtra, t.extra);
      SensorWritten(chip, m, c, t.reg);
      if chip.OldPeci(nr) {
        ApplyTwo(m, w, x);
        ExtraWritten(chip, Put(m, w), c.(sensor := t.reg), t.extra);
      } else {
        ApplyOne(m, w);
        assert t.extra == m[TempExtra];
        FreshBeeps(chip, m, c);
      }
    }
  }

  // ------------------------------------------------------------ PWM channels

  /** The registers of one PWM channel. */
  predicate OfChannel(r: Reg, nr: Chan) {
    r == Pwm(nr) || (r.AutoPoint? && r.i == nr) || (r.OldDuty? && r.ch == nr)
  }

  lemma OtherChannelKept(chip: Chip, m: Regs, w: Write, nr: Chan, i: Chan, p: PwmState)
    requires OfChannel(w.reg, nr) && i != nr
    ensures RefreshPwm(chip, Put(m, w), i, p) == RefreshPwm(chip, m, i, p)
  {
    if i in chip.hasPwm {
      assert DecodeMode(chip, Put(m, w), i, p) == DecodeMode(chip, m, i, p);
    }
  }

  lemma PwmYields(chip: Chip, m: Regs, c: Pwms, d: Pwms, nr: Chan, p: PwmState, q: PwmState, w: Write)
    requires PwmsYield(chip, m, c, d)
    requires OfChannel(w.reg, nr) && RefreshPwm(chip, Put(m, w), nr, p) == q
    ensures PwmsYield(chip, Put(m, w), c[nr := p], d[nr := q])
  {
    var c', d' := c[nr := p], d[nr := q];
    forall i | 0 <= i < 6
      ensures RefreshPwm(chip, Put(m, w), i, c'[i]) == d'[i]
    {
      if i != nr {
        OtherChannelKept(chip, m, w, nr, i, c[i]);
        assert RefreshPwm(chip, m, i, c[i]) == d[i];
      }
    }
  }

  /** One write to a register of PWM channel nr: a refresh finds q there and
      whatever it found before elsewhere. */
  lemma PwmWritten(chip: Chip, m: Regs, c: Cache, d: Cache, nr: Chan, p: PwmState, q: PwmState, w: Write)
    requires Refresh(chip, m, c) == d
    requires OfChannel(w.reg, nr) && RefreshPwm(chip, Put(m, w), nr, p) == q
    ensures Refresh(chip, Put(m, w), PutPwm(c, nr, p)) == PutPwm(d, nr, q)
  {
    RefreshBecomes(chip, m, c, d);
    OtherPartsKept(InPwms, chip, m, w, c, d);
    PwmYields(chip, m, c.pwms, d.pwms, nr, p, q, w);
    RefreshBecomes(chip, Put(m, w), PutPwm(c, nr, p), PutPwm(d, nr, q));
  }

  /** Only the cached copy changes. */
  lemma PwmKept(chip: Chip, m: Regs, c: Cache, d: Cache, nr: Chan, p: PwmState, q: PwmState)
    requires Refresh(chip, m, c) == d && RefreshPwm(chip, m, nr, p) == q
    ensures Refresh(chip, m, PutPwm(c, nr, p)) == PutPwm(d, nr, q)
  {
    RefreshBecomes(chip, m, c, d);
    assert PwmsYield(chip, m, c.pwms[nr := p], d.pwms[nr := q]);
    RefreshBecomes(chip, m, PutPwm(c, nr, p), PutPwm(d, nr, q));
  }

  lemma FreshPwm(chip: Chip, m: Regs, c: Cache, nr: Chan)
    requires Fresh(chip, m, c) && nr in chip.hasPwm
    ensures DecodePwm(chip, m, nr, c.pwms[nr]) == c.pwms[nr]
    ensures PutPwm(c, nr, c.pwms[nr]) == c
  {
    RefreshBecomes(chip, m, c, c);
    assert RefreshPwm(chip, m, nr, c.pwms[nr]) == c.pwms[nr];
  }

  /** A channel decodes to itself when its two halves do. */
  lemma HalvesDecoded(chip: Chip, m: Regs, nr: Chan, p: PwmState)
    requires chip.Newer() || nr < 3
    ensures DecodePwm(chip, m, nr, p) == p <==> DecodeMode(chip, m, nr, p) == p && DecodeAuto(chip, m, nr, p) == p
  {
    hide DecodeAuto;
    var r := DecodeMode(chip, m, nr, p);
    AutoKeepsMode(chip, m, nr, p, r.ctrl, r.duty, r.tempMap);
  }

  lemma AutoKeepsMode(chip: Chip, m: Regs, nr: Chan, p: PwmState, ctrl: bv8, duty: bv8, tempMap: bv8)
    requires chip.Newer() || nr < 3
    ensures DecodeAuto(chip, m, nr, p.(ctrl := ctrl, duty := duty, tempMap := tempMap))
      == DecodeAuto(chip, m, nr, p).(ctrl := ctrl, duty := duty, tempMap := tempMap)
  {
  }

  /** The mode half looks at the control and duty registers only. */
  lemma ModeIgnoresAuto(chip: Chip, m: Regs, nr: Chan, p: PwmState, q: PwmState, w: Write)
    requires DecodeMode(chip, m, nr, p) == p
    requires q == p.(autoPwm := q.autoPwm, autoTemp := q.autoTemp)
    requires w.reg != Pwm(nr) && (chip.Newer() ==> w.reg != Duty(nr))
    ensures DecodeMode(chip, Put(m, w), nr, q) == q
  {
  }

  lemma NewerAutoPwmDecoded(chip: Chip, m: Regs, nr: Chan, p: PwmState, b: bv8)
    requires chip.Newer() && DecodePwm(chip, m, nr, p) == p
    ensures var p' := p.(autoPwm := p.autoPwm[0 := b]);
      DecodePwm(chip, Put(m, Write(AutoPoint(nr, 3), b)), nr, p') == p'.(duty := b)
  {
  }

  lemma OldDutyPoint(m: Regs, nr: Third, point: Third, p: PwmState, b: bv8)
    requires OldAuto(m, nr, p) == p
    ensures var p' := p.(autoPwm := p.autoPwm[point := b]);
      OldAuto(Put(m, Write(OldAutoPwm(nr, point), b)), nr, p') == p'
  {
    if point == 0 { } else if point == 1 { } else { }
  }

  lemma OldAutoPwmDecoded(chip: Chip, m: Regs, nr: Third, point: Third, p: PwmState, b: bv8)
    requires chip.Old() && DecodePwm(chip, m, nr, p) == p
    ensures var p' := p.(autoPwm := p.autoPwm[point := b]);
      DecodePwm(chip, Put(m, Write(OldAutoPwm(nr, point), b)), nr, p') == p'
  {
    var w, p' := Write(OldAutoPwm(nr, point), b), p.(autoPwm := p.autoPwm[point := b]);
    HalvesDecoded(chip, m, nr, p);
    ModeIgnoresAuto(chip, m, nr, p, p', w);
    OldDutyPoint(m, nr, point, p, b);
    HalvesDecoded(chip, Put(m, w), nr, p');
  }

  /** On newer chips the start value and the manual duty are one register. */
  lemma AutoPwmThrough(chip: Chip, c: Cache, m: Regs, nr: Chan, point: Third, b: bv8)
    requires Fresh(chip, m, c) && nr in chip.hasPwm
    requires chip.Old() || (chip.Newer() && point == 0)
    ensures var e := StoreAutoPwm(chip, c, nr, point, b);
      Refresh(chip, Apply(m, e.writes), e.cache) ==
        if chip.Newer() then PutPwm(e.cache, nr, e.cache.pwms[nr].(duty := b)) else e.cache
  {
    var p := c.pwms[nr].(autoPwm := c.pwms[nr].autoPwm[point := b]);
    var w := Write(if chip.Newer() then AutoPoint(nr, 3) else OldAutoPwm(nr, point), b);
    var q := if chip.Newer() then p.(duty := b) else p;
    ApplyOne(m, w);
    assert RefreshPwm(chip, Put(m, w), nr, p) == q by {
      FreshPwm(chip, m, c, nr);
      if chip.Newer() {
        NewerAutoPwmDecoded(chip, m, nr, c.pwms[nr], b);
      } else {
        OldAutoPwmDecoded(chip, m, nr, point, c.pwms[nr], b);
      }
    }
    PwmWritten(chip, m, c, c, nr, p, q, w);
  }

  lemma SlopeDecoded(chip: Chip, m: Regs, nr: Chan, p: PwmState, b: bv8)
    requires chip.Newer() && DecodePwm(chip, m, nr, p) == p
    ensures var p' := p.(autoPwm := p.autoPwm[1 := b]);
      DecodePwm(chip, Put(m, Write(AutoPoint(nr, 4), b)), nr, p') == p'
  {
  }

  lemma SlopeThrough(chip: Chip, c: Cache, m: Regs, nr: Chan, slope: bv8)
    requires Fresh(chip, m, c) && nr in chip.hasPwm && chip.Newer()
    ensures var e := StoreSlope(c, nr, slope); Refresh(chip, Apply(m, e.writes), e.cache) == e.cache
  {
    var p := c.pwms[nr];
    var b := (p.autoPwm[1] & 0x80) | slope;
    var p' := p.(autoPwm := p.autoPwm[1 := b]);
    var w := Write(AutoPoint(nr, 4), b);
    ApplyOne(m, w);
    assert DecodePwm(chip, Put(m, w), nr, p') == p' by {
      FreshPwm(chip, m, c, nr);
      SlopeDecoded(chip, m, nr, p, b);
    }
    PwmWritten(chip, m, c, c, nr, p', p', w);
  }

  /** The register that holds automatic temperature point k. */
  function TempPointReg(chip: Chip, nr: Chan, point: nat): Reg
    requires point < 5
  {
    AutoPoint(nr, if !chip.Newer() then point else if point == 0 then 5 else point - 1)
  }

  lemma NewerTempPoint(m: Regs, nr: Chan, point: nat, p: PwmState, b: bv8)
    requires point < 4 && NewerAuto(m, nr, p) == p
    ensures var p' := p.(autoTemp := p.autoTemp[point := b]);
      NewerAuto(Put(m, Write(AutoPoint(nr, if point == 0 then 5 else point - 1), b)), nr, p') == p'
  {
    if point == 0 { } else if point == 1 { } else if point == 2 { } else { }
  }

  lemma OldTempPoint(m: Regs, nr: Third, point: nat, p: PwmState, b: bv8)
    requires point < 5 && OldAuto(m, nr, p) == p
    ensures var p' := p.(autoTemp := p.autoTemp[point := b]);
      OldAuto(Put(m, Write(AutoPoint(nr, point), b)), nr, p') == p'
  {
    if point == 0 { } else if point == 1 { } else if point == 2 { } else if point == 3 { } else { }
  }

  lemma AutoTempDecoded(chip: Chip, m: Regs, nr: Chan, point: nat, p: PwmState, b: bv8)
    requires (chip.Old() && nr < 3 && point < 5) || (chip.Newer() && point < 4)
    requires DecodePwm(chip, m, nr, p) == p
    ensures var p' := p.(autoTemp := p.autoTemp[point := b]);
      DecodePwm(chip, Put(m, Write(TempPointReg(chip, nr, point), b)), nr, p') == p'
  {
    var w, p' := Write(TempPointReg(chip, nr, point), b), p.(autoTemp := p.autoTemp[point := b]);
    HalvesDecoded(chip, m, nr, p);
    ModeIgnoresAuto(chip, m, nr, p, p', w);
    if chip.Newer() {
      NewerTempPoint(m, nr, point, p, b);
    } else {
      OldTempPoint(m, nr, point, p, b);
    }
    HalvesDecoded(chip, Put(m, w), nr, p');
  }

  lemma AutoTempThrough(chip: Chip, c: Cache, m: Regs, nr: Chan, point: nat, b: bv8)
    requires Fresh(chip, m, c) && nr in chip.hasPwm
    requires (chip.Old() && point < 5) || (chip.Newer() && point < 4)
    ensures var e := StoreAutoTemp(chip, c, nr, point, b);
      Refresh(chip, Apply(m, e.writes), e.cache) == e.cache
  {
    var p := c.pwms[nr].(autoTemp := c.pwms[nr].autoTemp[point := b]);
    var w := Write(TempPointReg(chip, nr, point), b);
    FreshPwm(chip, m, c, nr);
    AutoTempDecoded(chip, m, nr, point, c.pwms[nr], b);
    ApplyOne(m, w);
    PwmWritten(chip, m, c, c, nr, p, p, w);
  }

  // ----------------------------------------------------- duty and PWM modes

  lemma NewerDutyDecoded(chip: Chip, m: Regs, nr: Chan, p: PwmState, b: bv8)
    requires chip.Newer() && DecodePwm(chip, m, nr, p) == p
    ensures DecodePwm(chip, Put(m, Write(Duty(nr), b)), nr, p.(duty := b))
      == p.(duty := b, autoPwm := p.autoPwm[0 := b])
  {
  }

  lemma CtrlKeepsAuto(chip: Chip, m: Regs, nr: Chan, p: PwmState, b: bv8)
    requires chip.Newer() || nr < 3
    ensures DecodeAuto(chip, Put(m, Write(Pwm(nr), b)), nr, p) == DecodeAuto(chip, m, nr, p)
  {
  }

  /** What the channel decodes to when its control register becomes b. */
  ghost function WithCtrl(chip: Chip, p: PwmState, q: PwmState, b: bv8): PwmState {
    if chip.Newer() then q.(ctrl := b, tempMap := b & 0x03)
    else if b & 0x80 != 0 then q.(ctrl := b, tempMap := b & 0x03, duty := p.duty)
    else q.(ctrl := b, duty := b & 0x7f, tempMap := p.tempMap)
  }

  lemma CtrlDecoded(chip: Chip, m: Regs, nr: Chan, p: PwmState, q: PwmState, b: bv8)
    requires (chip.Newer() || nr < 3) && DecodePwm(chip, m, nr, p) == q
    ensures DecodePwm(chip, Put(m, Write(Pwm(nr), b)), nr, p.(ctrl := b)) == WithCtrl(chip, p, q, b)
  {
    var n := Put(m, Write(Pwm(nr), b));
    var r := DecodeMode(chip, m, nr, p);
    var s := DecodeMode(chip, n, nr, p.(ctrl := b));
    assert n[Pwm(nr)] == b && n[Duty(nr)] == m[Duty(nr)];
    AutoKeepsMode(chip, m, nr, p, r.ctrl, r.duty, r.tempMap);
    AutoKeepsMode(chip, n, nr, p, s.ctrl, s.duty, s.tempMap);
    CtrlKeepsAuto(chip, m, nr, p, b);
  }

  lemma NewerDutyWritten(chip: Chip, c: Cache, m: Regs, nr: Chan, duty: bv8)
    requires Fresh(chip, m, c) && nr in chip.hasPwm && chip.Newer()
    ensures var p := c.pwms[nr].(duty := duty);
      Refresh(chip, Put(m, Write(Duty(nr), duty)), PutPwm(c, nr, p))
        == PutPwm(c, nr, p.(autoPwm := p.autoPwm[0 := duty]))
  {
    var p := c.pwms[nr];
    FreshPwm(chip, m, c, nr);
    NewerDutyDecoded(chip, m, nr, p, duty);
    PwmWritten(chip, m, c, c, nr, p.(duty := duty), p.(duty := duty, autoPwm := p.autoPwm[0 := duty]),
      Write(Duty(nr), duty));
  }

  /** set_pwm: on newer chips the duty register is the start value of the
      automatic mode too. */
  lemma NewerPwmThrough(chip: Chip, c: Cache, m: Regs, nr: Chan, duty: bv8)
    requires Fresh(chip, m, c) && nr in chip.hasPwm && chip.Newer()
    ensures var e := StorePwm(chip, c, m, nr, duty); var p := e.cache.pwms[nr];
      Refresh(chip, Apply(m, e.writes), e.cache) ==
        if e.ok then PutPwm(e.cache, nr, p.(autoPwm := p.autoPwm[0 := duty])) else e.cache
  {
    FreshPwm(chip, m, c, nr);
    if c.pwms[nr].ctrl & 0x80 == 0 {
      ApplyOne(m, Write(Duty(nr), duty));
      NewerDutyWritten(chip, c, m, nr, duty);
    }
  }

  lemma OldManualPwmThrough(chip: Chip, c: Cache, m: Regs, nr: Chan, duty: bv8)
    requires Fresh(chip, m, c) && nr in chip.hasPwm && !chip.Newer() && duty < 0x80
    requires c.pwms[nr].ctrl & 0x80 == 0
    ensures var e := StorePwm(chip, c, m, nr, duty); Refresh(chip, Apply(m, e.writes), e.cache) == e.cache
  {
    var p, w := c.pwms[nr], Write(Pwm(nr), duty);
    var q := p.(ctrl := duty, duty := duty);
    FreshPwm(chip, m, c, nr);
    ApplyOne(m, w);
    assert DecodePwm(chip, Put(m, w), nr, q) == q by {
      CtrlDecoded(chip, m, nr, p, p, duty);
      AutoKeepsMode(chip, Put(m, w), nr, p, duty, duty, p.tempMap);
    }
    PwmWritten(chip, m, c, c, nr, q, q, w);
  }

  /** set_pwm: on older chips in automatic mode only the shadow changes, and the
      refresh leaves it alone. */
  lemma OldPwmThrough(chip: Chip, c: Cache, m: Regs, nr: Chan, duty: bv8)
    requires Fresh(chip, m, c) && nr in chip.hasPwm && !chip.Newer() && duty < 0x80
    ensures var e := StorePwm(chip, c, m, nr, duty); Refresh(chip, Apply(m, e.writes), e.cache) == e.cache
  {
    var p := c.pwms[nr];
    if p.ctrl & 0x80 == 0 {
      OldManualPwmThrough(chip, c, m, nr, duty);
    } else {
      FreshPwm(chip, m, c, nr);
      AutoKeepsMode(chip, m, nr, p, p.ctrl, duty, p.tempMap);
      PwmKept(chip, m, c, c, nr, p.(duty := duty), p.(duty := duty));
    }
  }

  lemma AutoMapDecoded(chip: Chip, m: Regs, nr: Chan, p: PwmState, code: bv8)
    requires (chip.Newer() || nr < 3) && DecodePwm(chip, m, nr, p) == p && code < 3 && p.ctrl & 0x80 != 0
    ensures var q := p.(tempMap := code, ctrl := (p.ctrl & 0xfc) | code);
      DecodePwm(chip, Put(m, Write(Pwm(nr), q.ctrl)), nr, q) == q
  {
    MapReplaced(p.ctrl, code);
    AutoModeIgnoresMap(chip, m, nr, p, code);
    CtrlDecoded(chip, m, nr, p.(tempMap := code), p, (p.ctrl & 0xfc) | code);
  }

  lemma AutoMapThrough(chip: Chip, c: Cache, m: Regs, nr: Chan, code: bv8)
    requires Fresh(chip, m, c) && nr in chip.hasPwm && code < 3 && c.pwms[nr].ctrl & 0x80 != 0
    ensures var e := StoreTempMap(chip, c, m, nr, code); Refresh(chip, Apply(m, e.writes), e.cache) == e.cache
  {
    var p := c.pwms[nr];
    var q := p.(tempMap := code, ctrl := (p.ctrl & 0xfc) | code);
    var w := Write(Pwm(nr), q.ctrl);
    FreshPwm(chip, m, c, nr);
    assert StoreTempMap(chip, c, m, nr, code) == Effect(true, PutPwm(c, nr, q), [w]);
    ApplyOne(m, w);
    AutoMapDecoded(chip, m, nr, p, code);
    PwmWritten(chip, m, c, c, nr, q, q, w);
  }

  lemma MapReplaced(ctrl: bv8, code: bv8)
    requires ctrl & 0x80 != 0 && code < 3
    ensures ((ctrl & 0xfc) | code) & 0x80 != 0
    ensures ((ctrl & 0xfc) | code) & 0x03 == code
  {
  }

  lemma AutoModeIgnoresMap(chip: Chip, m: Regs, nr: Chan, p: PwmState, code: bv8)
    requires (chip.Newer() || nr < 3) && DecodePwm(chip, m, nr, p) == p && p.ctrl & 0x80 != 0
    ensures DecodePwm(chip, m, nr, p.(tempMap := code)) == p
  {
  }

  /** set_pwm_temp_map: in automatic mode the register takes the map; in manual
      mode a newer chip forgets it at the next refresh. */
  lemma TempMapThrough(chip: Chip, c: Cache, m: Regs, nr: Chan, code: bv8)
    requires Fresh(chip, m, c) && nr in chip.hasPwm && code < 3
    ensures var e := StoreTempMap(chip, c, m, nr, code);
      Refresh(chip, Apply(m, e.writes), e.cache) ==
        if chip.Newer() && c.pwms[nr].ctrl & 0x80 == 0 then c else e.cache
  {
    var p := c.pwms[nr];
    FreshPwm(chip, m, c, nr);
    if p.ctrl & 0x80 != 0 {
      AutoMapThrough(chip, c, m, nr, code);
    } else {
      var q := p.(tempMap := code);
      assert DecodePwm(chip, m, nr, q) == if chip.Newer() then p else q;
      PwmKept(chip, m, c, c, nr, q, if chip.Newer() then p else q);
    }
  }

  /** On/off mode: the cached copy of FAN_CTL is stale until the next refresh. */
  lemma OnOffThrough(chip: Chip, c: Cache, m: Regs, nr: Third)
    requires Fresh(chip, m, c)
    ensures var e := EnterOnOff(c, m, nr);
      Refresh(chip, Apply(m, e.writes), e.cache) == e.cache.(fanCtl := c.fanCtl | Bit(nr))
  {
    var ctl, main := m[FanCtl] | Bit(nr), c.fanMain & !Bit(nr);
    var w, x := Write(FanCtl, ctl), Write(FanMain, main);
    var n := Put(Put(m, w), x);
    ApplyTwo(m, w, x);
    FreshBeeps(chip, m, c);
    CtlWritten(chip, m, c, ctl);
    MainWritten(chip, Put(m, w), c.(fanCtl := ctl), main);
    RefreshForgets(chip, n, c.(fanMain := main), c.(fanMain := main, fanCtl := ctl));
  }

  lemma NewerCtrlDecoded(chip: Chip, m: Regs, nr: Chan, p: PwmState, automatic: bool)
    requires chip.Newer() && DecodePwm(chip, m, nr, p) == p
    ensures var p' := p.(ctrl := ModeCtrl(chip, p, automatic));
      DecodePwm(chip, Put(m, Write(Pwm(nr), p'.ctrl)), nr, p') == p'
  {
    var ctrl := ModeCtrl(chip, p, automatic);
    assert p.tempMap == p.ctrl & 0x03;
    MapBitsKept(p.ctrl, p.tempMap);
    CtrlDecoded(chip, m, nr, p, p, ctrl);
  }

  lemma MapBitsKept(ctrl: bv8, tempMap: bv8)
    requires tempMap == ctrl & 0x03
    ensures ((ctrl & 0x7c) | tempMap) & 0x03 == tempMap
    ensures (((ctrl & 0x7c) | tempMap) | 0x80) & 0x03 == tempMap
  {
  }

  lemma OldCtrlDecoded(chip: Chip, m: Regs, nr: Third, p: PwmState, automatic: bool)
    requires !chip.Newer() && DecodePwm(chip, m, nr, p) == p && p.duty < 0x80
    ensures var p' := p.(ctrl := ModeCtrl(chip, p, automatic));
      DecodePwm(chip, Put(m, Write(Pwm(nr), p'.ctrl)), nr, p') == if automatic then p'.(tempMap := 0) else p'
  {
    CtrlDecoded(chip, m, nr, p, p, ModeCtrl(chip, p, automatic));
  }

  /** What a refresh makes of the channel that entered manual or automatic mode:
      an older chip's automatic mode comes with temperature map 0. */
  function ModeSettled(chip: Chip, p: PwmState, automatic: bool): PwmState {
    if automatic && !chip.Newer() then p.(tempMap := 0) else p
  }

  lemma ModeCtrlDecoded(chip: Chip, m: Regs, nr: Chan, p: PwmState, automatic: bool)
    requires (chip.Newer() || (nr < 3 && p.duty < 0x80)) && DecodePwm(chip, m, nr, p) == p
    ensures var p' := p.(ctrl := ModeCtrl(chip, p, automatic));
      DecodePwm(chip, Put(m, Write(Pwm(nr), p'.ctrl)), nr, p') == ModeSettled(chip, p', automatic)
  {
    if chip.Newer() {
      NewerCtrlDecoded(chip, m, nr, p, automatic);
    } else {
      OldCtrlDecoded(chip, m, nr, p, automatic);
    }
  }

  lemma ModeWritten(chip: Chip, c: Cache, m: Regs, nr: Chan, automatic: bool)
    requires Fresh(chip, m, c) && nr in chip.hasPwm && (!chip.Newer() ==> c.pwms[nr].duty < 0x80)
    ensures var p := c.pwms[nr].(ctrl := ModeCtrl(chip, c.pwms[nr], automatic));
      Refresh(chip, Put(m, Write(Pwm(nr), p.ctrl)), PutPwm(c, nr, p))
        == PutPwm(c, nr, ModeSettled(chip, p, automatic))
  {
    var p := c.pwms[nr].(ctrl := ModeCtrl(chip, c.pwms[nr], automatic));
    FreshPwm(chip, m, c, nr);
    ModeCtrlDecoded(chip, m, nr, c.pwms[nr], automatic);
    PwmWritten(chip, m, c, c, nr, p, ModeSettled(chip, p, automatic), Write(Pwm(nr), p.ctrl));
  }

  lemma PlainModeThrough(chip: Chip, c: Cache, m: Regs, nr: Chan, automatic: bool)
    requires Fresh(chip, m, c) && nr in chip.hasPwm && (!chip.Newer() ==> c.pwms[nr].duty < 0x80)
    requires !chip.OnOff(nr)
    ensures var e := EnterPwmMode(chip, c, nr, ModeCtrl(chip, c.pwms[nr], automatic));
      Refresh(chip, Apply(m, e.writes), e.cache) ==
        PutPwm(e.cache, nr, ModeSettled(chip, e.cache.pwms[nr], automatic))
  {
    var p := c.pwms[nr].(ctrl := ModeCtrl(chip, c.pwms[nr], automatic));
    ModeWritten(chip, c, m, nr, automatic);
    ApplyOne(m, Write(Pwm(nr), p.ctrl));
  }

  lemma OnOffModeSettled(chip: Chip, c: Cache, m: Regs, nr: Third, automatic: bool, main: bv8)
    requires Fresh(chip, m, c) && nr in chip.hasPwm && (!chip.Newer() ==> c.pwms[nr].duty < 0x80)
    ensures var p := c.pwms[nr].(ctrl := ModeCtrl(chip, c.pwms[nr], automatic));
      Refresh(chip, Put(Put(m, Write(Pwm(nr), p.ctrl)), Write(FanMain, main)),
              PutPwm(c, nr, p).(fanMain := main))
        == PutPwm(c, nr, ModeSettled(chip, p, automatic)).(fanMain := main)
  {
    var p := c.pwms[nr].(ctrl := ModeCtrl(chip, c.pwms[nr], automatic));
    ModeWritten(chip, c, m, nr, automatic);
    MainRewritten(chip, Put(m, Write(Pwm(nr), p.ctrl)), PutPwm(c, nr, p),
      PutPwm(c, nr, ModeSettled(chip, p, automatic)), main);
  }

  lemma OnOffModeEffect(chip: Chip, c: Cache, nr: Third, ctrl: bv8)
    requires chip.OnOff(nr)
    ensures var main := c.fanMain | Bit(nr);
      EnterPwmMode(chip, c, nr, ctrl) ==
        Effect(true, PutPwm(c, nr, c.pwms[nr].(ctrl := ctrl)).(fanMain := main),
               [Write(Pwm(nr), ctrl), Write(FanMain, main)])
  {
  }

  lemma OnOffModeThrough(chip: Chip, c: Cache, m: Regs, nr: Third, automatic: bool)
    requires Fresh(chip, m, c) && nr in chip.hasPwm && (!chip.Newer() ==> c.pwms[nr].duty < 0x80)
    requires chip.OnOff(nr)
    ensures var e := EnterPwmMode(chip, c, nr, ModeCtrl(chip, c.pwms[nr], automatic));
      Refresh(chip, Apply(m, e.writes), e.cache) ==
        PutPwm(e.cache, nr, ModeSettled(chip, e.cache.pwms[nr], automatic))
  {
    var p := c.pwms[nr].(ctrl := ModeCtrl(chip, c.pwms[nr], automatic));
    var main := c.fanMain | Bit(nr);
    OnOffModeEffect(chip, c, nr, p.ctrl);
    ApplyTwo(m, Write(Pwm(nr), p.ctrl), Write(FanMain, main));
    OnOffModeSettled(chip, c, m, nr, automatic, main);
  }

  lemma MainRewritten(chip: Chip, m: Regs, c: Cache, d: Cache, b: bv8)
    requires Refresh(chip, m, c) == d
    ensures Refresh(chip, Put(m, Write(FanMain, b)), c.(fanMain := b)) == d.(fanMain := b)
  {
    var w := Write(FanMain, b);
    RefreshBecomes(chip, m, c, d);
    OtherPartsKept(InRest, chip, m, w, c, d);
    assert RestYields(chip, Put(m, w), c.(fanMain := b), d.(fanMain := b));
    RefreshBecomes(chip, Put(m, w), c.(fanMain := b), d.(fanMain := b));
  }

  lemma FullDutyWritten(chip: Chip, c: Cache, m: Regs, nr: Chan)
    requires Fresh(chip, m, c) && nr in chip.hasPwm && chip.Newer()
    ensures var half := c.pwms[nr].(duty := 0xff); var q := half.(autoPwm := half.autoPwm[0 := 0xff]);
      var n := Put(m, Write(Duty(nr), 0xff));
      && Refresh(chip, n, PutPwm(c, nr, half)) == PutPwm(c, nr, q)
      && DecodePwm(chip, n, nr, half) == q
  {
    var p := c.pwms[nr];
    var half := p.(duty := 0xff);
    FreshPwm(chip, m, c, nr);
    NewerDutyDecoded(chip, m, nr, p, 0xff);
    PwmWritten(chip, m, c, c, nr, half, half.(autoPwm := p.autoPwm[0 := 0xff]), Write(Duty(nr), 0xff));
  }

  lemma FullDutySettled(chip: Chip, c: Cache, m: Regs, nr: Chan)
    requires Fresh(chip, m, c) && nr in chip.hasPwm && chip.Newer()
    ensures var p := c.pwms[nr].(duty := 0xff, ctrl := NewerCtrl(c.pwms[nr]));
      Refresh(chip, Put(Put(m, Write(Duty(nr), 0xff)), Write(Pwm(nr), p.ctrl)), PutPwm(c, nr, p))
        == PutPwm(c, nr, p.(autoPwm := p.autoPwm[0 := 0xff]))
  {
    FreshPwm(chip, m, c, nr);
    assert c.pwms[nr].tempMap == c.pwms[nr].ctrl & 0x03;
    hide Refresh, DecodePwm, NewerCtrl, Put, Fresh;
    var p := c.pwms[nr];
    var half := p.(duty := 0xff);
    var q := half.(autoPwm := p.autoPwm[0 := 0xff]);
    var n, x := Put(m, Write(Duty(nr), 0xff)), Write(Pwm(nr), NewerCtrl(p));
    FullDutyWritten(chip, c, m, nr);
    assert DecodePwm(chip, Put(n, x), nr, half.(ctrl := x.value)) == q.(ctrl := x.value) by {
      MapBitsKept(p.ctrl, p.tempMap);
      CtrlDecoded(chip, n, nr, half, q, x.value);
    }
    PwmWritten(chip, n, PutPwm(c, nr, half), PutPwm(c, nr, q), nr, half.(ctrl := x.value),
      q.(ctrl := x.value), x);
  }

  lemma FullDutyThrough(chip: Chip, c: Cache, m: Regs, nr: Chan)
    requires Fresh(chip, m, c) && nr in chip.hasPwm && chip.Newer()
    ensures var e := EnterFullDuty(chip, c, nr); var p := e.cache.pwms[nr];
      Refresh(chip, Apply(m, e.writes), e.cache) == PutPwm(e.cache, nr, p.(autoPwm := p.autoPwm[0 := 0xff]))
  {
    var p := c.pwms[nr].(duty := 0xff, ctrl := NewerCtrl(c.pwms[nr]));
    var w, x := Write(Duty(nr), 0xff), Write(Pwm(nr), p.ctrl);
    assert EnterFullDuty(chip, c, nr) == Effect(true, PutPwm(c, nr, p), [w, x]);
    ApplyTwo(m, w, x);
    FullDutySettled(chip, c, m, nr);
  }
}
