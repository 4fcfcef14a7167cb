/** PWM modes of the it87ts driver: a mode reads back as it was set, and on the
    older chips the manual duty survives automatic mode. */
module It87Modes {
  import opened Bytes
  import opened It87Chip
  import opened It87Spec
  import opened It87Ops
  import opened It87Footprint
  import opened It87Runs

  /** The mode that the registers of a channel stand for. */
  ghost function RegMode(chip: Chip, m: Regs, nr: Chan): nat {
    if chip.OnOff(nr) && m[FanMain] & Bit(nr) == 0 then 0
    else if m[Pwm(nr)] & 0x80 != 0 then 2
    else if !chip.OnOff(nr) && m[Duty(nr)] == 0xff then 0
    else 1
  }

  lemma ModeDecoded(chip: Chip, m: Regs, nr: Chan, p: PwmState)
    requires chip.Newer() || nr < 3
    ensures var q := DecodePwm(chip, m, nr, p);
      && q.ctrl == m[Pwm(nr)]
      && (chip.Newer() ==> q.duty == m[Duty(nr)] && q.tempMap == m[Pwm(nr)] & 0x03)
      && (!chip.Newer() ==> q.duty == if m[Pwm(nr)] & 0x80 != 0 then p.duty else m[Pwm(nr)] & 0x7f)
  {
  }

  lemma RefreshedChannel(chip: Chip, m: Regs, c: Cache, nr: Chan)
    requires nr in chip.hasPwm
    ensures Refresh(chip, m, c).pwms[nr] == DecodePwm(chip, m, nr, c.pwms[nr])
    ensures Refresh(chip, m, c).fanMain == m[FanMain]
  {
  }

  lemma DecodedMode(chip: Chip, m: Regs, c: Cache, nr: Chan)
    requires chip.OnOff(nr) || chip.Newer()
    requires c.fanMain == m[FanMain] && c.pwms[nr].ctrl == m[Pwm(nr)]
    requires chip.Newer() ==> c.pwms[nr].duty == m[Duty(nr)]
    ensures PwmMode(chip, c, nr) == RegMode(chip, m, nr)
  {
    hide Bit;
    if chip.OnOff(nr) {
    } else {
    }
  }

  /** After a refresh, the mode shown is the mode of the registers. */
  lemma RefreshedMode(chip: Chip, m: Regs, c: Cache, nr: Chan)
    requires nr in chip.hasPwm
    ensures PwmMode(chip, Refresh(chip, m, c), nr) == RegMode(chip, m, nr)
  {
    hide Refresh, DecodePwm, Bit, PwmMode, RegMode;
    RefreshedChannel(chip, m, c, nr);
    ModeDecoded(chip, m, nr, c.pwms[nr]);
    DecodedMode(chip, m, Refresh(chip, m, c), nr);
  }

  /** The stored values that the driver keeps clear of the mode bit. */
  predicate ModeBitClear(chip: Chip, p: PwmState) {
    p.tempMap & 0x80 == 0 && (!chip.Newer() ==> p.duty & 0x80 == 0)
  }

  /** What mode val is shown as: manual mode at full duty on a channel without
      on/off control cannot be told from full speed. */
  function ShownAs(chip: Chip, nr: Chan, val: nat, duty: bv8): nat {
    if val == 1 && !chip.OnOff(nr) && duty == 0xff then 0 else val
  }

  lemma CtrlModeBit(chip: Chip, p: PwmState, automatic: bool)
    requires ModeBitClear(chip, p)
    ensures (ModeCtrl(chip, p, automatic) & 0x80 != 0) <==> automatic
  {
  }

  lemma NewerCtrlManual(chip: Chip, p: PwmState)
    requires ModeBitClear(chip, p)
    ensures NewerCtrl(p) & 0x80 == 0
  {
  }

  lemma OnOffCached(chip: Chip, c: Cache, m: Regs, nr: Third)
    requires chip.OnOff(nr)
    ensures PwmMode(chip, EnterOnOff(c, m, nr).cache, nr) == 0
  {
    OwnBit(c.fanMain, nr);
    hide Bit;
  }

  lemma FullDutyCached(chip: Chip, c: Cache, nr: Chan)
    requires !chip.OnOff(nr) && chip.Newer() && ModeBitClear(chip, c.pwms[nr])
    ensures PwmMode(chip, EnterFullDuty(chip, c, nr).cache, nr) == 0
  {
    NewerCtrlManual(chip, c.pwms[nr]);
    hide Bit, NewerCtrl;
  }

  lemma PlainModeCached(chip: Chip, c: Cache, nr: Chan, ctrl: bv8, val: nat)
    requires !chip.OnOff(nr) && chip.Newer() && 1 <= val <= 2 && (ctrl & 0x80 != 0 <==> val == 2)
    ensures PwmMode(chip, EnterPwmMode(chip, c, nr, ctrl).cache, nr) == ShownAs(chip, nr, val, c.pwms[nr].duty)
  {
    hide Bit;
  }

  lemma OnOffModeCached(chip: Chip, c: Cache, nr: Third, ctrl: bv8, val: nat)
    requires chip.OnOff(nr) && 1 <= val <= 2 && (ctrl & 0x80 != 0 <==> val == 2)
    ensures PwmMode(chip, EnterPwmMode(chip, c, nr, ctrl).cache, nr) == val
  {
    OwnBit(c.fanMain, nr);
    hide Bit;
  }

  /** In the cache, an accepted mode reads back. */
  lemma ModeCached(chip: Chip, c: Cache, m: Regs, nr: Chan, val: int)
    requires nr in chip.hasPwm && ModeBitClear(chip, c.pwms[nr])
    requires SetPwmEnable(chip, c, m, nr, val).ok
    ensures PwmMode(chip, SetPwmEnable(chip, c, m, nr, val).cache, nr) == ShownAs(chip, nr, val, c.pwms[nr].duty)
  {
    hide PwmMode, TripPointsOk, EnterOnOff, EnterFullDuty, EnterPwmMode, ModeCtrl;
    var p := c.pwms[nr];
    if val == 0 {
      if chip.OnOff(nr) {
        OnOffCached(chip, c, m, nr);
      } else {
        FullDutyCached(chip, c, nr);
      }
    } else {
      CtrlModeBit(chip, p, val == 2);
      if chip.OnOff(nr) {
        OnOffModeCached(chip, c, nr, ModeCtrl(chip, p, val == 2), val);
      } else {
        PlainModeCached(chip, c, nr, ModeCtrl(chip, p, val == 2), val);
      }
    }
  }

  // ------------------------------------------------- the mode in the registers

  lemma TwoRead(m: Regs, w: Write, x: Write, r: Reg)
    ensures Apply(m, [w, x])[r] == if r == x.reg then x.value else if r == w.reg then w.value else m[r]
  {
    ApplyTwo(m, w, x);
  }

  lemma OnOffStored(chip: Chip, c: Cache, m: Regs, nr: Third)
    requires chip.OnOff(nr)
    ensures RegMode(chip, Apply(m, EnterOnOff(c, m, nr).writes), nr) == 0
  {
    OwnBit(c.fanMain, nr);
    hide Bit, Apply;
    TwoRead(m, Write(FanCtl, m[FanCtl] | Bit(nr)), Write(FanMain, c.fanMain & !Bit(nr)), FanMain);
  }

  lemma FullDutyStored(chip: Chip, c: Cache, m: Regs, nr: Chan)
    requires !chip.OnOff(nr) && chip.Newer() && ModeBitClear(chip, c.pwms[nr])
    ensures RegMode(chip, Apply(m, EnterFullDuty(chip, c, nr).writes), nr) == 0
  {
    NewerCtrlManual(chip, c.pwms[nr]);
    hide Bit, NewerCtrl, Apply;
    var w, x := Write(Duty(nr), 0xff), Write(Pwm(nr), NewerCtrl(c.pwms[nr]));
    TwoRead(m, w, x, Duty(nr));
    TwoRead(m, w, x, Pwm(nr));
    assert EnterFullDuty(chip, c, nr).writes == [w, x];
  }

  lemma PlainModeStored(chip: Chip, c: Cache, m: Regs, nr: Chan, ctrl: bv8, val: nat)
    requires !chip.OnOff(nr) && 1 <= val <= 2 && (ctrl & 0x80 != 0 <==> val == 2)
    ensures RegMode(chip, Apply(m, EnterPwmMode(chip, c, nr, ctrl).writes), nr) == ShownAs(chip, nr, val, m[Duty(nr)])
  {
    hide Bit, Apply;
    ApplyOne(m, Write(Pwm(nr), ctrl));
    assert EnterPwmMode(chip, c, nr, ctrl).writes == [Write(Pwm(nr), ctrl)];
  }

  lemma OnOffRegMode(chip: Chip, m: Regs, nr: Third, val: nat)
    requires chip.OnOff(nr) && 1 <= val <= 2
    requires m[FanMain] & Bit(nr) != 0 && (m[Pwm(nr)] & 0x80 != 0 <==> val == 2)
    ensures RegMode(chip, m, nr) == val
  {
    hide Bit;
  }

  lemma OnOffModeWrites(chip: Chip, c: Cache, nr: Third, ctrl: bv8)
    requires chip.OnOff(nr)
    ensures EnterPwmMode(chip, c, nr, ctrl).writes == [Write(Pwm(nr), ctrl), Write(FanMain, c.fanMain | Bit(nr))]
  {
    hide Bit;
  }

  lemma OnOffModeStored(chip: Chip, c: Cache, m: Regs, nr: Third, ctrl: bv8, val: nat)
    requires chip.OnOff(nr) && 1 <= val <= 2 && (ctrl & 0x80 != 0 <==> val == 2)
    ensures RegMode(chip, Apply(m, EnterPwmMode(chip, c, nr, ctrl).writes), nr) == val
  {
    OwnBit(c.fanMain, nr);
    hide Bit, Apply, RegMode, EnterPwmMode;
    OnOffModeWrites(chip, c, nr, ctrl);
    var w, x := Write(Pwm(nr), ctrl), Write(FanMain, c.fanMain | Bit(nr));
    TwoRead(m, w, x, Pwm(nr));
    TwoRead(m, w, x, FanMain);
    OnOffRegMode(chip, Apply(m, [w, x]), nr, val);
  }

  lemma ModeStored(chip: Chip, c: Cache, m: Regs, nr: Chan, val: int)
    requires nr in chip.hasPwm && ModeBitClear(chip, c.pwms[nr])
    requires SetPwmEnable(chip, c, m, nr, val).ok
    ensures RegMode(chip, Apply(m, SetPwmEnable(chip, c, m, nr, val).writes), nr) ==
      ShownAs(chip, nr, val, m[Duty(nr)])
  {
    hide RegMode, TripPointsOk, EnterOnOff, EnterFullDuty, EnterPwmMode, ModeCtrl, Apply;
    var p := c.pwms[nr];
    if val == 0 {
      if chip.OnOff(nr) {
        OnOffStored(chip, c, m, nr);
      } else {
        FullDutyStored(chip, c, m, nr);
      }
    } else {
      CtrlModeBit(chip, p, val == 2);
      if chip.OnOff(nr) {
        OnOffModeStored(chip, c, m, nr, ModeCtrl(chip, p, val == 2), val);
      } else {
        PlainModeStored(chip, c, m, nr, ModeCtrl(chip, p, val == 2), val);
      }
    }
  }

  /** The driver keeps the mode bit out of everything it may put into a control
      register. */
  ghost predicate ModesClear(chip: Chip, c: Cache) {
    forall nr: Chan | 0 <= nr < 6 :: ModeBitClear(chip, c.pwms[nr])
  }

  /** Mode read-back: a request is accepted exactly when it names a mode and, for
      automatic mode, the cached trip points are in order; an accepted mode is
      shown at once, and again after a refresh into any cache, except that full
      manual duty on a channel without on/off control is shown as full speed. */
  lemma ModeReadBack(chip: Chip, c: Cache, m: Regs, nr: Chan, val: int, d: Cache)
    requires nr in chip.hasPwm && ModesClear(chip, c)
    ensures var e := SetPwmEnable(chip, c, m, nr, val);
      && (e.ok <==> 0 <= val <= 2 && (val == 2 ==> TripPointsOk(chip, c.pwms[nr])))
      && (e.ok ==> PwmMode(chip, e.cache, nr) == ShownAs(chip, nr, val, c.pwms[nr].duty))
      && (e.ok ==> PwmMode(chip, Refresh(chip, Apply(m, e.writes), d), nr) == ShownAs(chip, nr, val, m[Duty(nr)]))
  {
    assert ModeBitClear(chip, c.pwms[nr]);
    hide ModeBitClear, PwmMode, TripPointsOk, EnterOnOff, EnterFullDuty, EnterPwmMode, ModeCtrl, Apply, Refresh,
      RegMode, ShownAs;
    var e := SetPwmEnable(chip, c, m, nr, val);
    if e.ok {
      ModeCached(chip, c, m, nr, val);
      ModeStored(chip, c, m, nr, val);
      RefreshedMode(chip, Apply(m, e.writes), d, nr);
    }
  }

  // --------------------------------------------- the mode bit over whole runs

  lemma ClearDecoded(chip: Chip, m: Regs, nr: Chan, p: PwmState)
    requires (chip.Newer() || nr < 3) && ModeBitClear(chip, p)
    ensures ModeBitClear(chip, DecodePwm(chip, m, nr, p))
  {
    ModeDecoded(chip, m, nr, p);
    hide DecodePwm;
    assert m[Pwm(nr)] & 0x7f & 0x80 == 0;
    assert m[Pwm(nr)] & 0x03 & 0x80 == 0;
    OldDecodedMap(chip, m, nr, p);
  }

  lemma OldDecodedMap(chip: Chip, m: Regs, nr: Chan, p: PwmState)
    requires chip.Newer() || nr < 3
    ensures DecodePwm(chip, m, nr, p).tempMap in {p.tempMap, m[Pwm(nr)] & 0x03}
  {
  }

  lemma ClearStored(chip: Chip, c: Cache, m: Regs, nr: Chan, duty: bv8)
    requires (chip.Newer() || nr < 3) && ModesClear(chip, c) && (!chip.Newer() ==> duty & 0x80 == 0)
    ensures ModeBitClear(chip, StorePwm(chip, c, m, nr, duty).cache.pwms[nr])
  {
    assert ModeBitClear(chip, c.pwms[nr]);
    ClearDecoded(chip, m, nr, c.pwms[nr]);
    hide DecodePwm;
  }

  lemma ClearMapped(chip: Chip, c: Cache, m: Regs, nr: Chan, code: bv8)
    requires (chip.Newer() || nr < 3) && ModesClear(chip, c) && code & 0x80 == 0
    ensures ModeBitClear(chip, StoreTempMap(chip, c, m, nr, code).cache.pwms[nr])
  {
    assert ModeBitClear(chip, c.pwms[nr]);
    ClearDecoded(chip, m, nr, c.pwms[nr]);
    hide DecodePwm;
  }

  lemma HalvedClear(b: bv8)
    ensures (b >> 1) & 0x80 == 0
  {
  }

  lemma OnOffShadows(c: Cache, m: Regs, nr: Third)
    ensures EnterOnOff(c, m, nr).cache.pwms == c.pwms
  {
    hide Bit;
  }

  lemma FullDutyShadows(chip: Chip, c: Cache, nr: Chan)
    ensures var q := EnterFullDuty(chip, c, nr).cache.pwms[nr];
      q.tempMap == c.pwms[nr].tempMap && q.duty == PwmToReg(chip, 0xff)
  {
    hide NewerCtrl, PwmToReg;
  }

  lemma ModeShadows(chip: Chip, c: Cache, nr: Chan, ctrl: bv8)
    ensures EnterPwmMode(chip, c, nr, ctrl).cache.pwms[nr] == c.pwms[nr].(ctrl := ctrl)
  {
    hide Bit;
    assert PutPwm(c, nr, c.pwms[nr].(ctrl := ctrl)).pwms[nr] == c.pwms[nr].(ctrl := ctrl);
    hide PutPwm;
  }

  lemma EnteredShadows(chip: Chip, c: Cache, m: Regs, nr: Chan, val: int)
    ensures var q := SetPwmEnable(chip, c, m, nr, val).cache.pwms[nr];
      q.tempMap == c.pwms[nr].tempMap && q.duty in {c.pwms[nr].duty, PwmToReg(chip, 0xff)}
  {
    hide ModeCtrl, TripPointsOk, PwmToReg, EnterOnOff, EnterFullDuty, EnterPwmMode;
    if val == 0 && chip.OnOff(nr) {
      OnOffShadows(c, m, nr);
    } else if val == 0 {
      FullDutyShadows(chip, c, nr);
    } else {
      ModeShadows(chip, c, nr, ModeCtrl(chip, c.pwms[nr], val == 2));
    }
  }

  lemma SameShadowsClear(chip: Chip, p: PwmState, q: PwmState)
    requires ModeBitClear(chip, p) && q.tempMap == p.tempMap && q.duty in {p.duty, PwmToReg(chip, 0xff)}
    ensures ModeBitClear(chip, q)
  {
  }

  lemma ClearEntered(chip: Chip, c: Cache, m: Regs, nr: Chan, val: int)
    requires ModesClear(chip, c)
    ensures ModeBitClear(chip, SetPwmEnable(chip, c, m, nr, val).cache.pwms[nr])
  {
    assert ModeBitClear(chip, c.pwms[nr]);
    hide SetPwmEnable, ModesClear;
    EnteredShadows(chip, c, m, nr, val);
    SameShadowsClear(chip, c.pwms[nr], SetPwmEnable(chip, c, m, nr, val).cache.pwms[nr]);
  }

  lemma ClearSet(chip: Chip, c: Cache, m: Regs, nr: Chan, val: int)
    requires (chip.Newer() || nr < 3) && ModesClear(chip, c)
    ensures ModeBitClear(chip, SetPwm(chip, c, m, nr, val).cache.pwms[nr])
  {
    hide StorePwm, ModeBitClear;
    if 0 <= val <= 255 {
      HalvedClear(ByteOf(val));
      ClearStored(chip, c, m, nr, PwmToReg(chip, ByteOf(val)));
    }
  }

  lemma ClearMapSet(chip: Chip, c: Cache, m: Regs, nr: Chan, val: int)
    requires (chip.Newer() || nr < 3) && ModesClear(chip, c)
    ensures ModeBitClear(chip, SetTempMap(chip, c, m, nr, val).cache.pwms[nr])
  {
    hide StoreTempMap, ModeBitClear;
    if TempMapCode(nr, val) != 0xff {
      ClearMapped(chip, c, m, nr, TempMapCode(nr, val));
    }
  }

  lemma OthersClear(chip: Chip, c: Cache, e: Effect, op: Op, nr: Chan)
    requires Within(c, e, op, nr) && !About(op, nr) && ModesClear(chip, c)
    ensures ModeBitClear(chip, e.cache.pwms[nr])
  {
    assert ModeBitClear(chip, c.pwms[nr]);
  }

  lemma StepClear(chip: Chip, c: Cache, m: Regs, op: Op, nr: Chan)
    requires Legal(chip, op) && ModesClear(chip, c)
    ensures ModeBitClear(chip, Step(chip, c, m, op).cache.pwms[nr])
  {
    hide ModeBitClear, ModesClear, SetPwmEnable, SetPwm, SetTempMap, Within;
    if About(op, nr) {
      match op {
        case OpEnable(_, val) => ClearEntered(chip, c, m, nr, val);
        case OpPwm(_, val) => ClearSet(chip, c, m, nr, val);
        case OpTempMap(_, val) => ClearMapSet(chip, c, m, nr, val);
      }
    } else {
      hide Step;
      Footprint(chip, c, m, op, nr);
      OthersClear(chip, c, Step(chip, c, m, op), op, nr);
    }
  }

  lemma RefreshClear(chip: Chip, m: Regs, c: Cache, nr: Chan)
    requires ModesClear(chip, c)
    ensures ModeBitClear(chip, Refresh(chip, m, c).pwms[nr])
  {
    assert ModeBitClear(chip, c.pwms[nr]);
    hide ModeBitClear;
    if nr in chip.hasPwm {
      ClearDecoded(chip, m, nr, c.pwms[nr]);
    }
    hide DecodePwm;
  }

  lemma EventClear(chip: Chip, s: State, v: Event)
    requires Possible(chip, s, v) && ModesClear(chip, s.c)
    ensures ModesClear(chip, After(chip, s, v).c)
  {
    hide ModeBitClear, Step, Refresh;
    forall nr: Chan | 0 <= nr < 6
      ensures ModeBitClear(chip, After(chip, s, v).c.pwms[nr])
    {
      match v {
        case Set(op) => StepClear(chip, s.c, s.m, op, nr);
        case Poll => RefreshClear(chip, s.m, s.c, nr);
        case Drift(_) =>
      }
    }
  }

  /** What ModeReadBack asks of the cache holds throughout every run. */
  lemma {:induction false} RunClear(chip: Chip, s: State, events: seq<Event>)
    requires Run(chip, s, events) && ModesClear(chip, s.c)
    ensures ModesClear(chip, Final(chip, s, events).c)
    decreases |events|
  {
    hide ModesClear, After;
    if events != [] {
      EventClear(chip, s, events[0]);
      RunClear(chip, After(chip, s, events[0]), events[1..]);
    }
  }

  // ------------------------------------------- the duty through automatic mode

  /** On an older chip, channel nr has duty d: the shadow is d, and so is the
      register whenever its mode bit is clear. */
  ghost predicate Held(s: State, nr: Chan, d: bv8) {
    && d & 0x80 == 0
    && s.c.pwms[nr].duty == d
    && (s.m[Pwm(nr)] & 0x80 == 0 ==> s.m[Pwm(nr)] == d)
  }

  /** The duty code after one more event: an accepted set_pwm replaces it. */
  function NextDuty(nr: Chan, d: bv8, v: Event): bv8 {
    if v.Set? && v.op.OpPwm? && v.op.nr == nr && 0 <= v.op.val <= 255 then ByteOf(v.op.val) >> 1 else d
  }

  /** The code of the last accepted set_pwm among the events, or d. */
  function LastDuty(nr: Chan, d: bv8, events: seq<Event>): bv8
    decreases |events|
  {
    if events == [] then d else LastDuty(nr, NextDuty(nr, d, events[0]), events[1..])
  }

  predicate Older(chip: Chip, nr: Chan) { !chip.Newer() && nr in chip.hasPwm }

  lemma HeldStored(chip: Chip, c: Cache, m: Regs, nr: Chan, duty: bv8)
    requires Older(chip, nr) && duty & 0x80 == 0
    ensures var e := StorePwm(chip, c, m, nr, duty);
      && e.cache.pwms[nr].duty == duty
      && e.writes == if m[Pwm(nr)] & 0x80 == 0 then [Write(Pwm(nr), duty)] else []
  {
    ModeDecoded(chip, m, nr, c.pwms[nr]);
    hide DecodePwm;
  }

  lemma HeldAfterPwm(chip: Chip, s: State, nr: Chan, val: int)
    requires Older(chip, nr) && 0 <= val <= 255
    ensures Held(After(chip, s, Set(OpPwm(nr, val))), nr, ByteOf(val) >> 1)
  {
    hide StorePwm, Apply;
    var duty := ByteOf(val) >> 1;
    HalvedClear(ByteOf(val));
    HeldStored(chip, s.c, s.m, nr, duty);
    ApplyOne(s.m, Write(Pwm(nr), duty));
    NoWrites(s.m, []);
  }

  lemma MapWrites(chip: Chip, c: Cache, m: Regs, nr: Chan, code: bv8)
    requires Older(chip, nr) && code & 0x80 == 0 && code & 0xfc == 0
    ensures var e := StoreTempMap(chip, c, m, nr, code);
      && e.cache.pwms[nr].duty == DecodePwm(chip, m, nr, c.pwms[nr]).duty
      && e.writes == if m[Pwm(nr)] & 0x80 == 0 then [] else [Write(Pwm(nr), (m[Pwm(nr)] & 0xfc) | code)]
  {
    ModeDecoded(chip, m, nr, c.pwms[nr]);
    hide DecodePwm;
  }

  lemma HeldDecoded(chip: Chip, s: State, nr: Chan, d: bv8)
    requires Older(chip, nr) && Held(s, nr, d)
    ensures DecodePwm(chip, s.m, nr, s.c.pwms[nr]).duty == d
  {
    ModeDecoded(chip, s.m, nr, s.c.pwms[nr]);
    SevenBits(d);
    hide DecodePwm;
  }

  lemma SevenBits(d: bv8)
    requires d & 0x80 == 0
    ensures d & 0x7f == d
  {
  }

  lemma ModeBitKept(b: bv8, code: bv8)
    requires b & 0x80 != 0
    ensures ((b & 0xfc) | code) & 0x80 != 0
  {
  }

  lemma HeldAfterMap(chip: Chip, s: State, nr: Chan, val: int, d: bv8)
    requires Legal(chip, OpTempMap(nr, val)) && Older(chip, nr) && Held(s, nr, d)
    ensures Held(After(chip, s, Set(OpTempMap(nr, val))), nr, d)
  {
    hide StoreTempMap, Apply, DecodePwm;
    var code := TempMapCode(nr, val);
    NoWrites(s.m, []);
    if code != 0xff {
      MapWrites(chip, s.c, s.m, nr, code);
      HeldDecoded(chip, s, nr, d);
      ApplyOne(s.m, Write(Pwm(nr), (s.m[Pwm(nr)] & 0xfc) | code));
      if s.m[Pwm(nr)] & 0x80 != 0 {
        ModeBitKept(s.m[Pwm(nr)], code);
      }
    }
  }

  lemma HeldOnOff(s: State, nr: Third, d: bv8)
    requires Held(s, nr, d)
    ensures var e := EnterOnOff(s.c, s.m, nr); Held(State(e.cache, Apply(s.m, e.writes)), nr, d)
  {
    OnOffShadows(s.c, s.m, nr);
    OnOffEffect(s.c, s.m, nr);
    hide Bit, EnterOnOff, Apply;
    TwoRead(s.m, Write(FanCtl, s.m[FanCtl] | Bit(nr)), Write(FanMain, s.c.fanMain & !Bit(nr)), Pwm(nr));
  }

  lemma HeldMode(chip: Chip, s: State, nr: Third, ctrl: bv8, d: bv8)
    requires chip.OnOff(nr) && Held(s, nr, d) && (ctrl == d || ctrl == 0x80)
    ensures var e := EnterPwmMode(chip, s.c, nr, ctrl); Held(State(e.cache, Apply(s.m, e.writes)), nr, d)
  {
    ModeShadows(chip, s.c, nr, ctrl);
    OnOffModeWrites(chip, s.c, nr, ctrl);
    hide Bit, EnterPwmMode, Apply;
    TwoRead(s.m, Write(Pwm(nr), ctrl), Write(FanMain, s.c.fanMain | Bit(nr)), Pwm(nr));
  }

  lemma HeldAfterEnable(chip: Chip, s: State, nr: Chan, val: int, d: bv8)
    requires Older(chip, nr) && Held(s, nr, d)
    ensures Held(After(chip, s, Set(OpEnable(nr, val))), nr, d)
  {
    hide Apply, EnterOnOff, EnterPwmMode, EnterFullDuty, TripPointsOk;
    NoWrites(s.m, []);
    if val == 0 {
      HeldOnOff(s, nr, d);
    } else if val == 1 || (val == 2 && TripPointsOk(chip, s.c.pwms[nr])) {
      HeldMode(chip, s, nr, ModeCtrl(chip, s.c.pwms[nr], val == 2), d);
    }
  }

  lemma HeldAfterOther(chip: Chip, s: State, op: Op, nr: Chan, d: bv8)
    requires Legal(chip, op) && !About(op, nr) && Held(s, nr, d)
    ensures Held(After(chip, s, Set(op)), nr, d)
  {
    Footprint(chip, s.c, s.m, op, nr);
    hide Step, Apply;
    Unwritten(s.c, s.m, Step(chip, s.c, s.m, op), op, nr, Pwm(nr));
  }

  lemma HeldAfterPoll(chip: Chip, s: State, nr: Chan, d: bv8)
    requires Older(chip, nr) && Held(s, nr, d)
    ensures Held(After(chip, s, Poll), nr, d)
  {
    HeldDecoded(chip, s, nr, d);
    RefreshedChannel(chip, s.m, s.c, nr);
    hide Refresh, DecodePwm;
  }

  lemma RefusedPwm(chip: Chip, s: State, nr: Chan, val: int)
    requires Older(chip, nr) && !(0 <= val <= 255)
    ensures After(chip, s, Set(OpPwm(nr, val))) == s
  {
  }

  lemma HeldAfter(chip: Chip, s: State, v: Event, nr: Chan, d: bv8)
    requires Older(chip, nr) && Possible(chip, s, v) && Held(s, nr, d)
    ensures Held(After(chip, s, v), nr, NextDuty(nr, d, v))
  {
    hide Held, After, Step;
    match v {
      case Set(op) =>
        if !About(op, nr) {
          HeldAfterOther(chip, s, op, nr, d);
        } else {
          match op {
            case OpEnable(_, val) => HeldAfterEnable(chip, s, nr, val, d);
            case OpTempMap(_, val) => HeldAfterMap(chip, s, nr, val, d);
            case OpPwm(_, val) =>
              if 0 <= val <= 255 {
                HeldAfterPwm(chip, s, nr, val);
              } else {
                RefusedPwm(chip, s, nr, val);
              }
          }
        }
      case Poll => HeldAfterPoll(chip, s, nr, d);
      case Drift(n) => HeldAfterDrift(chip, s, n, nr, d);
    }
  }

  lemma HeldAfterDrift(chip: Chip, s: State, n: Regs, nr: Chan, d: bv8)
    requires Drifted(s.m, n) && Held(s, nr, d)
    ensures Held(After(chip, s, Drift(n)), nr, d)
  {
    assert !Measured(Pwm(nr));
  }

  lemma {:induction false} HeldThroughRun(chip: Chip, s: State, events: seq<Event>, nr: Chan, d: bv8)
    requires Older(chip, nr) && Run(chip, s, events) && Held(s, nr, d)
    ensures Held(Final(chip, s, events), nr, LastDuty(nr, d, events))
    decreases |events|
  {
    hide Held, After;
    if events != [] {
      HeldAfter(chip, s, events[0], nr, d);
      HeldThroughRun(chip, After(chip, s, events[0]), events[1..], nr, NextDuty(nr, d, events[0]));
    }
  }

  lemma ManualWrites(chip: Chip, c: Cache, m: Regs, nr: Chan)
    requires Older(chip, nr)
    ensures var e := SetPwmEnable(chip, c, m, nr, 1);
      e.ok && e.writes == [Write(Pwm(nr), c.pwms[nr].duty), Write(FanMain, c.fanMain | Bit(nr))]
  {
    OnOffModeWrites(chip, c, nr, c.pwms[nr].duty);
    hide Bit;
  }

  /** The duty survives automatic mode: on a chip without newer automatic mode,
      after set_pwm(val) and any run, a switch to manual mode is accepted and
      writes half the value of the last accepted set_pwm. */
  lemma DutySurvives(chip: Chip, s: State, nr: Chan, val: int, events: seq<Event>)
    requires Older(chip, nr) && 0 <= val <= 255
    requires Run(chip, After(chip, s, Set(OpPwm(nr, val))), events)
    ensures var f := Final(chip, After(chip, s, Set(OpPwm(nr, val))), events);
      var e := SetPwmEnable(chip, f.c, f.m, nr, 1);
      && e.ok && |e.writes| == 2
      && e.writes[0] == Write(Pwm(nr), LastDuty(nr, ByteOf(val) >> 1, events))
  {
    hide After, Final, Run, SetPwmEnable;
    var r := After(chip, s, Set(OpPwm(nr, val)));
    HeldAfterPwm(chip, s, nr, val);
    HeldThroughRun(chip, r, events, nr, ByteOf(val) >> 1);
    var f := Final(chip, r, events);
    ManualWrites(chip, f.c, f.m, nr);
  }
}
