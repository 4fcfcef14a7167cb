/** A refresh of the it87ts cache is a snapshot of the registers: what the
    decoded fields stand for, what it leaves alone, and what it forgets. */
module It87Snapshot {
  import opened Bytes
  import opened It87Chip
  import opened It87Spec

  // ------------------------------------------------------- decoded numbers

  /** Byte k of an alarm word. */
  function AlarmByte(w: bv32, k: nat): bv8
    requires k < 4
  {
    if k == 0 then (w & 0xff) as bv8
    else if k == 1 then ((w >> 8) & 0xff) as bv8
    else if k == 2 then ((w >> 16) & 0xff) as bv8
    else ((w >> 24) & 0xff) as bv8
  }

  lemma AlarmWordBytes(a: bv8, b: bv8, c: bv8)
    ensures var w := AlarmWord(a, b, c);
      AlarmByte(w, 0) == a && AlarmByte(w, 1) == b && AlarmByte(w, 2) == c && AlarmByte(w, 3) == 0
  {
  }

  lemma FanValue(chip: Chip, m: Regs, i: Chan, old_: Fan)
    requires i in chip.hasFan
    ensures var f := DecodeFan(chip, m, i, old_);
      && f.speed as nat == m[FanLo(i)] as nat + 0x100 * (if chip.Fan16() then m[FanHi(i)] as nat else 0)
      && f.min as nat == m[FanMinLo(i)] as nat + 0x100 * (if chip.Fan16() then m[FanMinHi(i)] as nat else 0)
  {
    JoinValue(m[FanLo(i)], m[FanHi(i)]);
    JoinValue(m[FanMinLo(i)], m[FanMinHi(i)]);
    JoinValue(m[FanLo(i)], 0);
    JoinValue(m[FanMinLo(i)], 0);
    hide Join;
  }

  /** Two-byte fans, as numbers, and the three alarm bytes. */
  lemma SnapshotNumbers(chip: Chip, m: Regs, c: Cache, i: Chan)
    ensures var r := Refresh(chip, m, c);
      && (forall k: Third | 0 <= k < 3 :: AlarmByte(r.alarms, k) == m[Alarm(k)]) && AlarmByte(r.alarms, 3) == 0
      && (i in chip.hasFan ==>
            && r.fans[i].speed as nat == m[FanLo(i)] as nat + 0x100 * (if chip.Fan16() then m[FanHi(i)] as nat else 0)
            && r.fans[i].min as nat ==
                m[FanMinLo(i)] as nat + 0x100 * (if chip.Fan16() then m[FanMinHi(i)] as nat else 0))
  {
    AlarmWordBytes(m[Alarm(0)], m[Alarm(1)], m[Alarm(2)]);
    if i in chip.hasFan {
      FanValue(chip, m, i, c.fans[i]);
    }
    assert Refresh(chip, m, c).fans[i] == DecodeFan(chip, m, i, c.fans[i]);
    hide AlarmWord, AlarmByte, DecodeFan;
  }

  // ------------------------------------------------------ disabled channels

  /** A refresh leaves every channel alone that the chip does not have. */
  lemma DisabledKept(chip: Chip, m: Regs, c: Cache)
    ensures var r := Refresh(chip, m, c);
      && (forall i | 0 <= i < 13 && i !in chip.hasIn :: r.vins[i] == c.vins[i])
      && (forall i | 0 <= i < 6 && i !in chip.hasFan :: r.fans[i] == c.fans[i])
      && (forall i | 0 <= i < 6 && i !in chip.hasTemp :: r.temps[i] == c.temps[i])
      && (forall i | 0 <= i < 6 && i !in chip.hasPwm :: r.pwms[i] == c.pwms[i])
      && (!chip.HasDividers() ==> r.fanDiv == c.fanDiv)
      && (chip.kind !in {It8712, It8716} ==> r.vid == c.vid)
  {
    hide DecodePwm, UnpackDiv, AlarmWord, Join;
  }

  // ------------------------------------------------------ what is forgotten

  lemma VinForgets(chip: Chip, m: Regs, n: Regs, i: nat, v: Vin)
    requires i < 13
    ensures DecodeVin(chip, m, i, DecodeVin(chip, n, i, v)) == DecodeVin(chip, m, i, v)
  {
  }

  lemma FanForgets(chip: Chip, m: Regs, n: Regs, i: Chan, f: Fan)
    ensures DecodeFan(chip, m, i, DecodeFan(chip, n, i, f)) == DecodeFan(chip, m, i, f)
  {
    hide Join;
  }

  lemma TempForgets(chip: Chip, m: Regs, n: Regs, i: Chan, t: Temp)
    ensures DecodeTemp(chip, m, i, DecodeTemp(chip, n, i, t)) == DecodeTemp(chip, m, i, t)
  {
  }

  lemma NewerAutoForgets(m: Regs, n: Regs, i: Chan, p: PwmState, q: PwmState)
    requires q == NewerAuto(n, i, p)
    ensures NewerAuto(m, i, q) == NewerAuto(m, i, p)
  {
  }

  lemma OldAutoForgets(m: Regs, n: Regs, i: Third, p: PwmState, q: PwmState)
    requires q == OldAuto(n, i, p)
    ensures OldAuto(m, i, q) == OldAuto(m, i, p)
  {
  }

  lemma ModeForgets(chip: Chip, m: Regs, n: Regs, i: Chan, p: PwmState, q: PwmState)
    requires chip.Newer() || n == m
    requires q == DecodeMode(chip, n, i, p).(autoTemp := q.autoTemp, autoPwm := q.autoPwm)
    ensures DecodeMode(chip, m, i, q) ==
      DecodeMode(chip, m, i, p).(autoTemp := q.autoTemp, autoPwm := q.autoPwm)
  {
  }

  lemma ModeKeepsAuto(chip: Chip, m: Regs, i: Chan, p: PwmState)
    ensures var q := DecodeMode(chip, m, i, p); q.autoTemp == p.autoTemp && q.autoPwm == p.autoPwm
  {
  }

  lemma AutoForgets(chip: Chip, m: Regs, n: Regs, i: Chan, p: PwmState)
    requires chip.Newer() || i < 3
    ensures var q := DecodeAuto(chip, n, i, p);
      && q == p.(autoTemp := q.autoTemp, autoPwm := q.autoPwm)
      && DecodeAuto(chip, m, i, q) == DecodeAuto(chip, m, i, p)
  {
    if chip.Old() && i < 3 {
      OldAutoForgets(m, n, i, p, OldAuto(n, i, p));
    } else if chip.Newer() {
      NewerAutoForgets(m, n, i, p, NewerAuto(n, i, p));
    }
  }

  /** Newer chips keep everything in registers of its own, so a refresh forgets
      what an earlier one saw; older chips share a register between the manual
      duty and the temperature map, and only a refresh of the same registers
      changes nothing. */
  lemma PwmForgets(chip: Chip, m: Regs, n: Regs, i: Chan, p: PwmState)
    requires (chip.Newer() || n == m) && (chip.Newer() || i < 3)
    ensures DecodePwm(chip, m, i, DecodePwm(chip, n, i, p)) == DecodePwm(chip, m, i, p)
  {
    hide DecodeMode, DecodeAuto;
    var a := DecodeMode(chip, n, i, p);
    AutoForgets(chip, m, n, i, a);
    var q := DecodeAuto(chip, n, i, a);
    ModeForgets(chip, m, n, i, p, q);
    var b := DecodeMode(chip, m, i, p);
    ModeKeepsAuto(chip, n, i, p);
    ModeKeepsAuto(chip, m, i, p);
    AutoReplaced(chip, m, n, i, a, b);
  }

  /** What the automatic half becomes depends on the automatic half alone. */
  lemma AutoReplaced(chip: Chip, m: Regs, n: Regs, i: Chan, a: PwmState, b: PwmState)
    requires (chip.Newer() || i < 3) && a.autoTemp == b.autoTemp && a.autoPwm == b.autoPwm
    ensures var q := DecodeAuto(chip, n, i, a);
      DecodeAuto(chip, m, i, b.(autoTemp := q.autoTemp, autoPwm := q.autoPwm)) == DecodeAuto(chip, m, i, b)
  {
    if chip.Old() && i < 3 {
      OldAutoForgets(m, n, i, b, OldAuto(n, i, b));
    } else if chip.Newer() {
      NewerAutoForgets(m, n, i, b, NewerAuto(n, i, b));
    }
  }

  /** On newer chips the last refresh alone decides what the cache holds; on the
      others a second refresh of the same registers changes nothing. */
  lemma LastRefreshWins(chip: Chip, m: Regs, n: Regs, c: Cache)
    requires chip.Newer() || n == m
    ensures Refresh(chip, m, Refresh(chip, n, c)) == Refresh(chip, m, c)
  {
    var d := Refresh(chip, n, c);
    hide DecodeVin, DecodeFan, DecodeTemp, DecodePwm, AlarmWord, UnpackDiv;
    forall i | 0 <= i < 13
      ensures DecodeVin(chip, m, i, d.vins[i]) == DecodeVin(chip, m, i, c.vins[i])
    {
      VinForgets(chip, m, n, i, c.vins[i]);
    }
    forall i: Chan | 0 <= i < 6
      ensures DecodeFan(chip, m, i, d.fans[i]) == DecodeFan(chip, m, i, c.fans[i])
      ensures DecodeTemp(chip, m, i, d.temps[i]) == DecodeTemp(chip, m, i, c.temps[i])
      ensures RefreshPwm(chip, m, i, d.pwms[i]) == RefreshPwm(chip, m, i, c.pwms[i])
    {
      FanForgets(chip, m, n, i, c.fans[i]);
      TempForgets(chip, m, n, i, c.temps[i]);
      if i in chip.hasPwm {
        PwmForgets(chip, m, n, i, c.pwms[i]);
      }
    }
  }

  // ------------------------------------------------- the fields, one by one

  /** An enabled voltage is read from the register of its own channel, in10 to
      in12 from those of temp4 to temp6; in8 to in12 have no limits. */
  lemma RefreshedVin(chip: Chip, m: Regs, c: Cache, i: nat)
    requires i < 13 && i in chip.hasIn
    ensures var v := Refresh(chip, m, c).vins[i];
      && v.input == (if i < 10 then m[Voltage(i)] else m[Sensor(i - 7)])
      && v.min == (if i < 8 then m[VinMin(i)] else c.vins[i].min)
      && v.max == (if i < 8 then m[VinMax(i)] else c.vins[i].max)
  {
    hide DecodeFan, DecodeTemp, RefreshPwm, DecodeDiv, DecodeAlarms;
  }

  /** An enabled temperature is read from the registers of its own channel, which
      has limits only below the limit count and an offset only on some chips. */
  lemma RefreshedTemp(chip: Chip, m: Regs, c: Cache, i: Chan)
    requires i in chip.hasTemp
    ensures var t := Refresh(chip, m, c).temps[i];
      && t.input == m[Sensor(i)]
      && t.low == (if i < chip.numTempLimit then m[TempLow(i)] else c.temps[i].low)
      && t.high == (if i < chip.numTempLimit then m[TempHigh(i)] else c.temps[i].high)
      && t.offset == (if i < chip.numTempLimit && TempOffsets in chip.features then m[TempOffset(i)]
                      else c.temps[i].offset)
  {
    hide DecodeVin, DecodeFan, RefreshPwm, DecodeDiv, DecodeAlarms;
  }

  lemma NewerDecoded(chip: Chip, m: Regs, i: Chan, p: PwmState)
    requires chip.Newer()
    ensures var q := DecodePwm(chip, m, i, p);
      && q.ctrl == m[Pwm(i)] && q.tempMap == m[Pwm(i)] & 0x03 && q.duty == m[AutoPoint(i, 3)]
      && q.autoTemp[0] == m[AutoPoint(i, 5)] && q.autoTemp[4] == p.autoTemp[4]
      && (forall k: Chan | 1 <= k < 4 :: q.autoTemp[k] == m[AutoPoint(i, k - 1)])
      && q.autoPwm == [m[AutoPoint(i, 3)], m[AutoPoint(i, 4)], p.autoPwm[2], p.autoPwm[3]]
  {
  }

  /** On newer chips the control byte, its two low bits as the map, the duty and
      every trip point are what the registers of the channel hold. */
  lemma RefreshedNewer(chip: Chip, m: Regs, c: Cache, i: Chan)
    requires i in chip.hasPwm && chip.Newer()
    ensures var p, q := c.pwms[i], Refresh(chip, m, c).pwms[i];
      && q.ctrl == m[Pwm(i)] && q.tempMap == m[Pwm(i)] & 0x03 && q.duty == m[AutoPoint(i, 3)]
      && q.autoTemp[0] == m[AutoPoint(i, 5)] && q.autoTemp[4] == p.autoTemp[4]
      && (forall k: Chan | 1 <= k < 4 :: q.autoTemp[k] == m[AutoPoint(i, k - 1)])
      && q.autoPwm == [m[AutoPoint(i, 3)], m[AutoPoint(i, 4)], p.autoPwm[2], p.autoPwm[3]]
  {
    hide DecodeVin, DecodeFan, DecodeTemp, DecodeDiv, DecodeAlarms, DecodePwm;
    NewerDecoded(chip, m, i, c.pwms[i]);
  }

  lemma OlderPoints(chip: Chip, m: Regs, i: Third, p: PwmState)
    requires !chip.Newer()
    ensures var q := DecodePwm(chip, m, i, p);
      && (chip.Old() ==>
            && (forall k: Chan | 0 <= k < 5 :: q.autoTemp[k] == m[AutoPoint(i, k)])
            && q.autoPwm == [m[AutoPoint(i, 5)], m[OldDuty(i, 0)], m[OldDuty(i, 1)], p.autoPwm[3]])
      && (!chip.Old() ==> q.autoTemp == p.autoTemp && q.autoPwm == p.autoPwm)
  {
    hide DecodeMode;
    ModeKeepsAuto(chip, m, i, p);
  }

  lemma OlderMode(chip: Chip, m: Regs, i: Third, p: PwmState)
    requires !chip.Newer()
    ensures var q := DecodePwm(chip, m, i, p);
      && q.ctrl == m[Pwm(i)]
      && (q.ctrl & 0x80 != 0 ==> q.tempMap == q.ctrl & 0x03 && q.duty == p.duty)
      && (q.ctrl & 0x80 == 0 ==> q.duty == q.ctrl & 0x7f && q.tempMap == p.tempMap)
  {
    hide DecodeAuto;
    AutoForgets(chip, m, m, i, DecodeMode(chip, m, i, p));
  }

  /** On the older chips bit 7 of the control byte says whether the rest of it is
      the map or the duty, and the other one is kept; the chips with automatic mode
      hold five temperatures and three duties for it. */
  lemma RefreshedOlder(chip: Chip, m: Regs, c: Cache, i: Chan)
    requires i in chip.hasPwm && !chip.Newer()
    ensures i < 3
    ensures var p, q := c.pwms[i], Refresh(chip, m, c).pwms[i];
      && q.ctrl == m[Pwm(i)]
      && (q.ctrl & 0x80 != 0 ==> q.tempMap == q.ctrl & 0x03 && q.duty == p.duty)
      && (q.ctrl & 0x80 == 0 ==> q.duty == q.ctrl & 0x7f && q.tempMap == p.tempMap)
      && (chip.Old() ==>
            && (forall k: Chan | 0 <= k < 5 :: q.autoTemp[k] == m[AutoPoint(i, k)])
            && q.autoPwm == [m[AutoPoint(i, 5)], m[OldDuty(i, 0)], m[OldDuty(i, 1)], p.autoPwm[3]])
      && (!chip.Old() ==> q.autoTemp == p.autoTemp && q.autoPwm == p.autoPwm)
  {
    hide DecodeVin, DecodeFan, DecodeTemp, DecodeDiv, DecodeAlarms, DecodePwm;
    OlderPoints(chip, m, i, c.pwms[i]);
    OlderMode(chip, m, i, c.pwms[i]);
  }

  lemma FieldBits(b: bv8, k: nat)
    requires k < 3
    ensures b & 0x07 < 8 && (b >> 3) & 0x07 < 8
    ensures Flag(b & 0x07, k) <==> Flag(b, k)
    ensures Flag((b >> 3) & 0x07, k) <==> Flag(b, k + 3)
    ensures Flag(b, 6) <==> b & 0x40 != 0
  {
  }

  /** The dividers by bit position: bits 0 to 2 and 3 to 5 of their register, and
      bit 6 for the third fan, which divides by 8 or by 2; the top bit is not read. */
  lemma RefreshedDividers(chip: Chip, m: Regs, c: Cache, k: nat)
    requires chip.HasDividers() && k < 3
    ensures var d := Refresh(chip, m, c).fanDiv;
      && d[0] < 8 && d[1] < 8
      && (Flag(d[0], k) <==> Flag(m[FanDiv], k))
      && (Flag(d[1], k) <==> Flag(m[FanDiv], k + 3))
      && d[2] == (if Flag(m[FanDiv], 6) then 3 else 1)
  {
    hide DecodeVin, DecodeFan, DecodeTemp, RefreshPwm, DecodeAlarms, Flag;
    FieldBits(m[FanDiv], k);
  }

  /** The control registers are copied, and the six VID pins where there are any. */
  lemma RefreshedControls(chip: Chip, m: Regs, c: Cache)
    ensures var d := Refresh(chip, m, c);
      && d.beeps == m[BeepEnable] && d.fanMain == m[FanMain] && d.fanCtl == m[FanCtl]
      && d.sensor == m[TempEnable] && d.extra == m[TempExtra]
      && (chip.kind == It8712 || chip.kind == It8716 ==> d.vid == m[Vid] & 0x3f)
  {
    hide DecodeVin, DecodeFan, DecodeTemp, RefreshPwm, DecodeDiv, DecodeAlarms;
  }
}
