/** Set and show for temperature maps, and the control byte that PWM modes and
    maps share, bit by bit. */
module It87ShowModes {
  import opened Bytes
  import opened It87Chip
  import opened It87Spec
  import opened It87Ops
  import opened It87Snapshot
  import opened It87Show
  import opened It87Modes

  // ------------------------------------------------------ temperature maps

  /** The temperature sensor that a map code stands for; there is no fourth. */
  function MapSensor(code: bv8): Third {
    if code == 1 then 1 else if code == 2 then 2 else 0
  }

  function PowerOfTwo(k: Chan): nat {
    if k == 0 then 1 else if k == 1 then 2 else if k == 2 then 4 else if k == 3 then 8 else if k == 4 then 16 else 32
  }

  /** show_pwm_temp_map: the bit of a sensor, counted from the fourth one for the
      last three channels. */
  function ShowMap(c: Cache, nr: Chan): nat {
    PowerOfTwo(MapSensor(c.pwms[nr].tempMap) + if nr >= 3 then 3 else 0)
  }

  /** What set_pwm_temp_map accepts: the last three channels take the bit of one of
      three sensors plus three. */
  predicate MapAccepted(nr: Chan, val: int) { if nr < 3 then val in {1, 2, 4} else val in {4, 5, 7} }

  function MapShownAs(nr: Chan, val: int): int { if nr < 3 then val else 8 * (val - 3) }

  /** The cached map alone decides what is shown. */
  lemma CodeShown(c: Cache, nr: Chan, val: int)
    requires MapAccepted(nr, val) && c.pwms[nr].tempMap == TempMapCode(nr, val)
    ensures ShowMap(c, nr) == MapShownAs(nr, val)
    ensures nr >= 3 ==> ShowMap(c, nr) != val
  {
  }

  lemma MapCode(nr: Chan, val: int)
    ensures MapAccepted(nr, val) <==> TempMapCode(nr, val) != 0xff
    ensures TempMapCode(nr, val) != 0xff ==> TempMapCode(nr, val) < 3
  {
  }

  function WithMap(ctrl: bv8, code: bv8): bv8 { (ctrl & 0xfc) | code }

  lemma MapBits(ctrl: bv8, code: bv8, k: nat)
    requires code < 3 && k < 8
    ensures WithMap(ctrl, code) & 0x03 == code
    ensures k >= 2 ==> (Flag(WithMap(ctrl, code), k) <==> Flag(ctrl, k))
  {
  }

  /** In automatic mode the map goes into the register, and is read back. */
  lemma MapStoredAuto(chip: Chip, c: Cache, m: Regs, nr: Chan, code: bv8)
    requires nr in chip.hasPwm && code < 3 && m[Pwm(nr)] & 0x80 != 0
    ensures var e := StoreTempMap(chip, c, m, nr, code);
      && e.ok && e.cache.pwms[nr].tempMap == code
      && Apply(m, e.writes) == Put(m, Write(Pwm(nr), WithMap(m[Pwm(nr)], code)))
  {
    ModeDecoded(chip, m, nr, c.pwms[nr]);
    hide DecodePwm;
    ApplyOne(m, Write(Pwm(nr), WithMap(m[Pwm(nr)], code)));
  }

  /** In manual mode it stays in the cache. */
  lemma MapStoredManual(chip: Chip, c: Cache, m: Regs, nr: Chan, code: bv8)
    requires nr in chip.hasPwm && m[Pwm(nr)] & 0x80 == 0
    ensures var e := StoreTempMap(chip, c, m, nr, code);
      e.ok && e.cache.pwms[nr].tempMap == code && Apply(m, e.writes) == m
  {
    ModeDecoded(chip, m, nr, c.pwms[nr]);
    hide DecodePwm;
    NoWrites(m, []);
  }

  lemma MapRefreshed(chip: Chip, c: Cache, m: Regs, nr: Chan)
    requires nr in chip.hasPwm
    ensures Refresh(chip, m, c).pwms[nr].tempMap ==
      if chip.Newer() || Flag(m[Pwm(nr)], 7) then m[Pwm(nr)] & 0x03 else c.pwms[nr].tempMap
  {
    if chip.Newer() {
      RefreshedNewer(chip, m, c, nr);
    } else {
      RefreshedOlder(chip, m, c, nr);
    }
    hide Refresh;
  }

  /** set_pwm_temp_map accepts the bits of three sensors, plus three for the last
      three channels. In automatic mode it is in force at once: only the two low bits
      of the control byte change. In manual mode no register changes; a newer chip
      then shows the map of its register again at the next refresh, an older one
      the map that was set. On the last three channels no map is shown as it was
      set: 4, 5 and 7 are shown as 8, 16 and 32. */
  lemma MapShown(chip: Chip, c: Cache, m: Regs, nr: Chan, val: int, k: nat)
    requires Legal(chip, OpTempMap(nr, val)) && k < 8
    ensures var e, automatic := SetTempMap(chip, c, m, nr, val), Flag(m[Pwm(nr)], 7);
      var n, d := Apply(m, e.writes), Reread(chip, m, e);
      && (e.ok <==> MapAccepted(nr, val))
      && (e.ok ==>
            && ShowMap(e.cache, nr) == MapShownAs(nr, val)
            && (nr >= 3 ==> ShowMap(e.cache, nr) != val)
            && (automatic || !chip.Newer() ==> ShowMap(d, nr) == MapShownAs(nr, val))
            && (!automatic ==> n == m)
            && (!automatic && chip.Newer() ==> d.pwms[nr].tempMap == m[Pwm(nr)] & 0x03)
            && (k >= 2 ==> (Flag(n[Pwm(nr)], k) <==> Flag(m[Pwm(nr)], k))))
  {
    hide StoreTempMap, TempMapCode, Refresh, Apply, ShowMap, WithMap, MapAccepted, MapShownAs;
    var e, code := SetTempMap(chip, c, m, nr, val), TempMapCode(nr, val);
    MapCode(nr, val);
    if MapAccepted(nr, val) {
      MapBits(m[Pwm(nr)], code, k);
      MapBits(m[Pwm(nr)], code, 7);
      if m[Pwm(nr)] & 0x80 != 0 {
        MapStoredAuto(chip, c, m, nr, code);
      } else {
        MapStoredManual(chip, c, m, nr, code);
      }
      MapRefreshed(chip, e.cache, Apply(m, e.writes), nr);
      CodeShown(e.cache, nr, val);
      if Flag(m[Pwm(nr)], 7) || !chip.Newer() {
        CodeShown(Reread(chip, m, e), nr, val);
      }
    }
  }

  // -------------------------------------------- the control byte of a mode

  function Joined(ctrl: bv8, tempMap: bv8, automatic: bool): bv8 {
    (ctrl & 0x7c) | tempMap | (if automatic then 0x80 else 0)
  }

  lemma JoinedBits(ctrl: bv8, tempMap: bv8, automatic: bool, k: nat)
    requires k < 8
    ensures Flag(Joined(ctrl, tempMap, automatic), k) <==>
      || Flag(tempMap, k)
      || (2 <= k < 7 && Flag(ctrl, k))
      || (k == 7 && automatic)
  {
  }

  lemma AutomaticByte(k: nat)
    requires k < 8
    ensures Flag(0x80, k) <==> k == 7
  {
  }

  lemma NewerCtrlJoined(chip: Chip, p: PwmState, automatic: bool)
    requires chip.Newer()
    ensures ModeCtrl(chip, p, automatic) == Joined(p.ctrl, p.tempMap, automatic)
    ensures NewerCtrl(p) == Joined(p.ctrl, p.tempMap, false)
  {
    JoinedZero((p.ctrl & 0x7c) | p.tempMap);
  }

  lemma JoinedZero(b: bv8)
    ensures b | 0 == b
  {
  }

  /** The control byte that a mode request writes, or leaves. */
  ghost function CtrlAfter(chip: Chip, c: Cache, m: Regs, nr: Chan, val: int): bv8 {
    Apply(m, SetPwmEnable(chip, c, m, nr, val).writes)[Pwm(nr)]
  }

  lemma CtrlWritten(chip: Chip, c: Cache, m: Regs, nr: Chan, val: int)
    requires SetPwmEnable(chip, c, m, nr, val).ok
    ensures CtrlAfter(chip, c, m, nr, val) ==
      if val == 0 && chip.OnOff(nr) then m[Pwm(nr)]
      else if val == 0 then (if chip.Newer() then NewerCtrl(c.pwms[nr]) else PwmToReg(chip, 0xff))
      else ModeCtrl(chip, c.pwms[nr], val == 2)
  {
    hide Apply, NewerCtrl, ModeCtrl, PwmToReg, TripPointsOk, Bit;
    var e := SetPwmEnable(chip, c, m, nr, val);
    if |e.writes| == 2 {
      TwoRead(m, e.writes[0], e.writes[1], Pwm(nr));
      assert e.writes == [e.writes[0], e.writes[1]];
    } else {
      ApplyOne(m, e.writes[0]);
      assert e.writes == [e.writes[0]];
    }
  }

  /** A mode request on a newer chip: bit 7 of the control byte is automatic mode,
      its low bits the cached map, and bits 2 to 6 as they were cached; full speed
      through on/off control does not write it. On an older chip the byte is the
      cached duty or 0x80, whose map is the first sensor. */
  lemma CtrlBits(chip: Chip, c: Cache, m: Regs, nr: Chan, val: int, k: nat)
    requires Legal(chip, OpEnable(nr, val)) && SetPwmEnable(chip, c, m, nr, val).ok && k < 8
    ensures var p, b := c.pwms[nr], CtrlAfter(chip, c, m, nr, val);
      if val == 0 && chip.OnOff(nr) then b == m[Pwm(nr)]
      else if chip.Newer() then
        Flag(b, k) <==> Flag(p.tempMap, k) || (2 <= k < 7 && Flag(p.ctrl, k)) || (k == 7 && val == 2)
      else if val == 1 then b == p.duty
      else val == 2 && (Flag(b, k) <==> k == 7)
  {
    hide SetPwmEnable, CtrlAfter, Flag, NewerCtrl, Joined;
    var p := c.pwms[nr];
    CtrlWritten(chip, c, m, nr, val);
    JoinedBits(p.ctrl, p.tempMap, val == 2, k);
    AutomaticByte(k);
    if chip.Newer() {
      NewerCtrlJoined(chip, p, val == 2);
      hide ModeCtrl;
    } else {
      ModeRange(chip, c, m, nr, val);
    }
  }

  lemma ModeRange(chip: Chip, c: Cache, m: Regs, nr: Chan, val: int)
    requires SetPwmEnable(chip, c, m, nr, val).ok
    ensures 0 <= val <= 2
  {
    hide TripPointsOk;
  }
}
