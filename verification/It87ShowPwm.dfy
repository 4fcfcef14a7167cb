/** Set and show in the user's units, for the attributes of automatic mode, the
    PWM frequency and the beeps. */
module It87ShowPwm {
  import opened Bytes
  import opened It87Chip
  import opened It87Convert
  import opened It87Spec
  import opened It87Ops
  import opened It87Snapshot
  import opened It87Duty
  import opened It87Show

  // -------------------------------------------- temperatures of automatic mode

  /** The register of a trip point. On newer chips the hysteresis, point 0, is in
      the sixth register of the channel and the others count from the first. */
  function PointNo(chip: Chip, point: nat): Chan
    requires point < 5
  {
    if !chip.Newer() then point else if point == 0 then 5 else point - 1
  }

  /** The temperature that a trip point stands for: on the newer chips the first
      one lies so many degrees below the second. */
  function PointDegrees(chip: Chip, p: PwmState, point: nat): int
    requires point < 5
  {
    if chip.Old() || point != 0 then Signed(p.autoTemp[point])
    else Signed(p.autoTemp[1]) - (p.autoTemp[0] & 0x1f) as int
  }

  /** show_auto_temp, in millidegrees. */
  function ShowAutoTemp(chip: Chip, c: Cache, nr: Chan, point: nat): int
    requires point < 5
  {
    TempFromReg(PointDegrees(chip, c.pwms[nr], point))
  }

  /** The codes of the points, as a refresh reads them. */
  lemma PointsRead(chip: Chip, m: Regs, c: Cache, nr: Chan, point: nat)
    requires nr in chip.hasPwm && ((chip.Old() && point < 5) || (chip.Newer() && point < 4))
    ensures Refresh(chip, m, c).pwms[nr].autoTemp[point] == m[AutoPoint(nr, PointNo(chip, point))]
  {
    if chip.Newer() {
      RefreshedNewer(chip, m, c, nr);
    } else {
      RefreshedOlder(chip, m, c, nr);
    }
    hide Refresh;
  }

  /** A stored point is read back, and the others are kept. */
  lemma PointStored(chip: Chip, c: Cache, m: Regs, nr: Chan, point: nat, b: bv8, other: nat)
    requires Legal(chip, OpAutoTemp(nr, point, 0)) && other < 5 && other != point
    ensures var e := StoreAutoTemp(chip, c, nr, point, b);
      var n := Apply(m, e.writes);
      && e.ok
      && e.cache.pwms[nr].autoTemp[point] == Reread(chip, m, e).pwms[nr].autoTemp[point] == b
      && e.cache.pwms[nr].autoTemp[other] == c.pwms[nr].autoTemp[other]
      && (forall r: Reg | r != AutoPoint(nr, PointNo(chip, point)) :: n[r] == m[r])
  {
    hide Refresh;
    var e := StoreAutoTemp(chip, c, nr, point, b);
    ApplyOne(m, e.writes[0]);
    PointsRead(chip, Apply(m, e.writes), e.cache, nr, point);
  }

  lemma LowBits(x: bv8, y: bv8)
    requires x as nat < 0x20
    ensures (x | (y & 0xe0)) & 0x1f == x && (x | (y & 0xe0)) & 0xe0 == y & 0xe0
  {
  }

  lemma HysteresisCode(chip: Chip, p: PwmState, val: int, r: int)
    requires chip.Newer() && -128000 <= val <= 127000 && NearestDegree(val, r)
    ensures var b, s := AutoTempCode(chip, p, 0, val), Signed(p.autoTemp[1]);
      s - (b & 0x1f) as int == Clamp(r, s - 31, s) && b & 0xe0 == p.autoTemp[0] & 0xe0
  {
    hide TempToReg, ByteOf, Signed, Clamp, NearestDegree;
    InRange(val, r);
    var s := Signed(p.autoTemp[1]);
    var below := Clamp(s - r, 0, 0x1f);
    LowBits(ByteOf(below), p.autoTemp[0]);
    ClampedBelow(s, r);
  }

  lemma InRange(val: int, r: int)
    requires -128000 <= val <= 127000 && NearestDegree(val, r)
    ensures TempToReg(val) == r
  {
    RoundedDegree(val, r);
    hide TempToReg;
  }

  lemma ClampedBelow(s: int, r: int)
    ensures s - Clamp(s - r, 0, 0x1f) == Clamp(r, s - 31, s)
  {
  }

  /** set_auto_temp accepts -128 to 127 degrees. A trip point is then shown, at once
      and after a forced refresh, as the nearest whole degree r. */
  lemma AutoTempShown(chip: Chip, c: Cache, m: Regs, nr: Chan, point: nat, val: int, r: int)
    requires Legal(chip, OpAutoTemp(nr, point, val)) && NearestDegree(val, r)
    requires chip.Old() || point != 0
    ensures var e := SetAutoTemp(chip, c, nr, point, val);
      && (e.ok <==> -128000 <= val <= 127000)
      && (e.ok ==>
            && ShowAutoTemp(chip, e.cache, nr, point) == 1000 * r
            && ShowAutoTemp(chip, Reread(chip, m, e), nr, point) == 1000 * r)
  {
    hide StoreAutoTemp, Reread, TempToReg, SignedByte, Signed;
    if -128000 <= val <= 127000 {
      RoundedDegree(val, r);
      PointStored(chip, c, m, nr, point, SignedByte(TempToReg(val)), if point == 0 then 1 else 0);
    }
  }

  /** On newer chips the first point is a hysteresis of at most 31 degrees below the
      second one: the degree shown is r moved into that range, at once, and after a
      forced refresh if the second point was cached as its register has it. The
      upper three bits of the code are kept. */
  lemma HysteresisShown(chip: Chip, c: Cache, m: Regs, nr: Chan, val: int, r: int)
    requires Legal(chip, OpAutoTemp(nr, 0, val)) && chip.Newer() && NearestDegree(val, r)
    ensures var e, s := SetAutoTemp(chip, c, nr, 0, val), Signed(c.pwms[nr].autoTemp[1]);
      var d := Reread(chip, m, e);
      && (e.ok <==> -128000 <= val <= 127000)
      && (e.ok ==>
            && ShowAutoTemp(chip, e.cache, nr, 0) == 1000 * Clamp(r, s - 31, s)
            && (m[AutoPoint(nr, 0)] == c.pwms[nr].autoTemp[1] ==>
                  ShowAutoTemp(chip, d, nr, 0) == 1000 * Clamp(r, s - 31, s))
            && d.pwms[nr].autoTemp[0] & 0xe0 == e.cache.pwms[nr].autoTemp[0] & 0xe0
                 == c.pwms[nr].autoTemp[0] & 0xe0)
  {
    hide StoreAutoTemp, AutoTempCode, Refresh, Apply, Signed, Clamp;
    if -128000 <= val <= 127000 {
      var e := SetAutoTemp(chip, c, nr, 0, val);
      HysteresisCode(chip, c.pwms[nr], val, r);
      PointStored(chip, c, m, nr, 0, AutoTempCode(chip, c.pwms[nr], 0, val), 1);
      PointsRead(chip, Apply(m, e.writes), e.cache, nr, 1);
    }
  }

  // ------------------------------------------------ consistent trip points

  /** show_auto_pwm. */
  function ShowAutoPwm(chip: Chip, c: Cache, nr: Chan, point: nat): nat
    requires point < 4
  {
    PwmFromReg(chip, c.pwms[nr].autoPwm[point]) as nat
  }

  /** The first point that the automatic mode goes by: point 0 of the newer chips
      is the hysteresis. */
  function FirstPoint(chip: Chip): nat { if chip.Old() then 0 else 1 }

  predicate TempsAscend(chip: Chip, c: Cache, nr: Chan) {
    forall i, k | FirstPoint(chip) <= i <= k < 4 :: ShowAutoTemp(chip, c, nr, i) <= ShowAutoTemp(chip, c, nr, k)
  }

  /** The duty of a point as the chip holds it. */
  function DutyLevel(p: PwmState, point: nat): nat
    requires point < 4
  {
    p.autoPwm[point] as nat
  }

  predicate DutiesAscend(p: PwmState) { forall i, k | 0 <= i <= k < 3 :: DutyLevel(p, i) <= DutyLevel(p, k) }

  lemma PointShown(chip: Chip, c: Cache, nr: Chan, i: nat)
    requires FirstPoint(chip) <= i < 5
    ensures ShowAutoTemp(chip, c, nr, i) == 1000 * Signed(c.pwms[nr].autoTemp[i])
  {
    hide Signed;
  }

  lemma TempsInChain(chip: Chip, c: Cache, nr: Chan)
    ensures var t := c.pwms[nr].autoTemp;
      TempsAscend(chip, c, nr) <==>
        Signed(t[1]) <= Signed(t[2]) <= Signed(t[3]) && (chip.Old() ==> Signed(t[0]) <= Signed(t[1]))
  {
    hide ShowAutoTemp, Signed;
    forall i | FirstPoint(chip) <= i < 4
      ensures ShowAutoTemp(chip, c, nr, i) == 1000 * Signed(c.pwms[nr].autoTemp[i])
    {
      PointShown(chip, c, nr, i);
    }
    if TempsAscend(chip, c, nr) {
      assert ShowAutoTemp(chip, c, nr, 1) <= ShowAutoTemp(chip, c, nr, 2) <= ShowAutoTemp(chip, c, nr, 3);
      if chip.Old() {
        assert ShowAutoTemp(chip, c, nr, 0) <= ShowAutoTemp(chip, c, nr, 1);
      }
    }
  }

  lemma DutyOrder(p: PwmState, i: nat, k: nat)
    requires i < 4 && k < 4
    ensures p.autoPwm[i] <= p.autoPwm[k] <==> DutyLevel(p, i) <= DutyLevel(p, k)
  {
  }

  lemma DutiesInChain(p: PwmState)
    ensures DutiesAscend(p) <==> p.autoPwm[0] <= p.autoPwm[1] <= p.autoPwm[2]
  {
    hide DutyLevel;
    DutyOrder(p, 0, 1);
    DutyOrder(p, 1, 2);
  }

  /** Automatic mode is accepted exactly when the trip points ascend: four
      temperatures and three duties on the older chips that have it, three
      temperatures on the newer ones. The other chips ask for nothing. */
  lemma AutomaticAccepted(chip: Chip, c: Cache, m: Regs, nr: Chan)
    requires Legal(chip, OpEnable(nr, 2))
    ensures SetPwmEnable(chip, c, m, nr, 2).ok <==>
      && (chip.Old() || chip.Newer() ==> TempsAscend(chip, c, nr))
      && (chip.Old() ==> DutiesAscend(c.pwms[nr]))
  {
    hide TempsAscend, DutiesAscend, PutPwm, ModeCtrl, Signed;
    TempsInChain(chip, c, nr);
    DutiesInChain(c.pwms[nr]);
  }

  // ------------------------------------------------ duties of automatic mode

  lemma AutoPwmStored(chip: Chip, c: Cache, m: Regs, nr: Chan, point: Third, b: bv8, other: nat)
    requires Legal(chip, OpAutoPwm(nr, point, 0)) && other < 4 && other != point
    ensures var e := StoreAutoPwm(chip, c, nr, point, b);
      && e.ok
      && e.cache.pwms[nr].autoPwm[point] == Reread(chip, m, e).pwms[nr].autoPwm[point] == b
      && e.cache.pwms[nr].autoPwm[other] == c.pwms[nr].autoPwm[other]
  {
    hide Refresh;
    var e := StoreAutoPwm(chip, c, nr, point, b);
    ApplyOne(m, e.writes[0]);
    if chip.Newer() {
      RefreshedNewer(chip, Apply(m, e.writes), e.cache, nr);
    } else {
      RefreshedOlder(chip, Apply(m, e.writes), e.cache, nr);
    }
  }

  /** set_auto_pwm accepts 0 to 255; the duty shown, at once and after a forced
      refresh, is the one asked for, less its last bit on older chips, and the
      other points keep theirs. */
  lemma AutoPwmShown(chip: Chip, c: Cache, m: Regs, nr: Chan, point: Third, val: int, other: nat)
    requires Legal(chip, OpAutoPwm(nr, point, val)) && other < 4 && other != point
    ensures var e := SetAutoPwm(chip, c, nr, point, val);
      && (e.ok <==> 0 <= val <= 255)
      && ShowAutoPwm(chip, e.cache, nr, other) == ShowAutoPwm(chip, c, nr, other)
      && (e.ok ==>
            && ShowAutoPwm(chip, e.cache, nr, point) == ShownDuty(chip, val)
            && ShowAutoPwm(chip, Reread(chip, m, e), nr, point) == ShownDuty(chip, val))
  {
    hide StoreAutoPwm, Reread, PwmToReg, PwmFromReg, ByteOf, ShownDuty;
    if 0 <= val <= 255 {
      DutyCode(chip, val);
      AutoPwmStored(chip, c, m, nr, point, PwmToReg(chip, ByteOf(val)), other);
    }
  }

  /** show_auto_pwm_slope. */
  function ShowSlope(c: Cache, nr: Chan): nat { (c.pwms[nr].autoPwm[1] & 0x7f) as nat }

  lemma SlopeBits(old_: bv8, slope: bv8)
    requires slope as nat < 0x80
    ensures ((old_ & 0x80) | slope) & 0x7f == slope
    ensures Flag((old_ & 0x80) | slope, 7) <==> Flag(old_, 7)
  {
  }

  lemma SlopeStored(chip: Chip, c: Cache, m: Regs, nr: Chan, slope: bv8)
    requires nr in chip.hasPwm && chip.Newer()
    ensures var e := StoreSlope(c, nr, slope);
      && e.ok
      && e.cache.pwms[nr].autoPwm[1] == Reread(chip, m, e).pwms[nr].autoPwm[1]
           == (c.pwms[nr].autoPwm[1] & 0x80) | slope
      && e.cache.pwms[nr].autoPwm[0] == c.pwms[nr].autoPwm[0]
  {
    hide Refresh;
    var e := StoreSlope(c, nr, slope);
    ApplyOne(m, e.writes[0]);
    RefreshedNewer(chip, Apply(m, e.writes), e.cache, nr);
  }

  /** set_auto_pwm_slope accepts 0 to 127, which is then shown, and keeps the top
      bit of the code and the start value. */
  lemma SlopeShown(chip: Chip, c: Cache, m: Regs, nr: Chan, val: nat)
    requires Legal(chip, OpSlope(nr, val))
    ensures var e := SetAutoPwmSlope(c, nr, val);
      var d := Reread(chip, m, e);
      && (e.ok <==> val <= 127)
      && e.cache.pwms[nr].autoPwm[0] == c.pwms[nr].autoPwm[0]
      && (e.ok ==>
            && ShowSlope(e.cache, nr) == ShowSlope(d, nr) == val
            && (Flag(d.pwms[nr].autoPwm[1], 7) <==> Flag(c.pwms[nr].autoPwm[1], 7)))
  {
    hide StoreSlope, Reread, ByteOf, Flag;
    if val <= 127 {
      SlopeBits(c.pwms[nr].autoPwm[1], ByteOf(val));
      SlopeStored(chip, c, m, nr, ByteOf(val));
    }
  }

  // ------------------------------------------------------------ frequencies

  function FreqBits(b: bv8): (i: nat)
    ensures i <= 7
  {
    ((b >> 4) & 0x07) as nat
  }

  /** show_pwm_freq, in hertz: the second channel has a select of its own on some
      chips. */
  function ShowFreq(chip: Chip, c: Cache, nr: Chan): nat {
    FreqFromReg(chip.Newer(), FreqBits(if PwmFreq2 in chip.features && nr == 1 then c.extra else c.fanCtl))
  }

  lemma FreqFieldBits(b: bv8, i: bv8)
    requires i as nat <= 7
    ensures FreqBits(FreqField(b, i)) == i as nat && FreqField(b, i) & 0x8f == b & 0x8f
  {
  }

  /** The register that holds a channel's select, of those that can set it. */
  function FreqReg(nr: Chan): Reg { if nr == 0 then FanCtl else TempExtra }

  lemma FreqStored(chip: Chip, c: Cache, m: Regs, nr: Chan, i: bv8)
    requires Legal(chip, OpFreq(nr, 0))
    ensures var e := StoreFreq(c, m, nr, i);
      var b, d := FreqField(m[FreqReg(nr)], i), Reread(chip, m, e);
      && e.ok && Apply(m, e.writes)[FreqReg(nr)] == b
      && (if nr == 0 then e.cache.fanCtl == d.fanCtl == b else e.cache.extra == d.extra == b)
  {
    hide Refresh, FreqField;
    var e := StoreFreq(c, m, nr, i);
    ApplyOne(m, e.writes[0]);
    RefreshedControls(chip, Apply(m, e.writes), e.cache);
  }

  lemma FreqChosen(newer: bool, val: nat, j: nat)
    requires j <= 7
    ensures var i, scaled := FreqToReg(newer, val), Clamp(val, 0, 1000000) * (if newer then 256 else 128);
      && Abs(scaled - PWM_FREQ[i]) <= Abs(scaled - PWM_FREQ[j])
      && FreqFromReg(newer, i) == PWM_FREQ[i] / if newer then 256 else 128
  {
    hide PWM_FREQ, Abs, Clamp;
    FreqNearest(Clamp(val, 0, 1000000) * (if newer then 256 else 128), j);
  }

  /** set_pwm_freq selects the base frequency nearest to the one asked for, scaled up
      by 256 on newer chips and 128 on the others; it is shown scaled down, and the
      other bits of the register are kept. */
  lemma FreqShown(chip: Chip, c: Cache, m: Regs, nr: Chan, val: nat, j: nat)
    requires Legal(chip, OpFreq(nr, val)) && j <= 7
    ensures var e, scale := SetPwmFreq(chip, c, m, nr, val), if chip.Newer() then 256 else 128;
      var b, scaled := Apply(m, e.writes)[FreqReg(nr)], Clamp(val, 0, 1000000) * scale;
      && e.ok
      && Abs(scaled - PWM_FREQ[FreqBits(b)]) <= Abs(scaled - PWM_FREQ[j])
      && ShowFreq(chip, e.cache, nr) == ShowFreq(chip, Reread(chip, m, e), nr) == PWM_FREQ[FreqBits(b)] / scale
      && b & 0x8f == m[FreqReg(nr)] & 0x8f
  {
    hide StoreFreq, Reread, Apply, FreqBits, FreqField, FreqToReg, ByteOf, PWM_FREQ, Abs, Clamp, FreqFromReg;
    var i := FreqToReg(chip.Newer(), val);
    FreqFieldBits(m[FreqReg(nr)], ByteOf(i));
    FreqStored(chip, c, m, nr, ByteOf(i));
    FreqChosen(chip.Newer(), val, j);
  }

  // ------------------------------------------------------------------ beeps

  lemma BeepStored(chip: Chip, c: Cache, m: Regs, b: bv8)
    ensures Refresh(chip, Apply(m, [Write(BeepEnable, b)]), c.(beeps := b)).beeps == b
  {
    hide Refresh;
    ApplyOne(m, Write(BeepEnable, b));
    RefreshedControls(chip, Apply(m, [Write(BeepEnable, b)]), c.(beeps := b));
  }

  lemma BitWritten(b: bv8, i: Octet, on: bool, j: Octet)
    ensures Flag(WithBit(b, i, on), j) <==> if j == i then on else Flag(b, j)
  {
  }

  /** set_beep accepts 0 and 1: the beep is on exactly for 1, at once and after a
      forced refresh, and every other beep is what its register bit was. */
  lemma BeepShown(chip: Chip, c: Cache, m: Regs, i: Octet, val: int, j: Octet)
    ensures var e := SetBeep(c, m, i, val);
      && (e.ok <==> val == 0 || val == 1)
      && (e.ok ==>
            && (Flag(e.cache.beeps, j) <==> if j == i then val == 1 else Flag(m[BeepEnable], j))
            && Reread(chip, m, e).beeps == e.cache.beeps)
  {
    hide Refresh, Apply, WithBit, Flag;
    BitWritten(m[BeepEnable], i, val == 1, j);
    BeepStored(chip, c, m, WithBit(m[BeepEnable], i, val == 1));
  }
}
