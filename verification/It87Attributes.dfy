/** Non-interference: which attributes a setter can change, as seen through the
    show functions after a forced refresh. */
module It87Attributes {
  import opened Bytes
  import opened It87Chip
  import opened It87Convert
  import opened It87Spec
  import opened It87Ops
  import opened It87Coherence
  import opened It87WriteThrough

  type VinNo = i: nat | i < 13
  type PointNo = i: nat | i < 5

  // What can be read, by table.
  datatype VinAttr = InInput(vin: VinNo) | InMin(oct: Octet) | InMax(oct: Octet)
  datatype TempAttr = TempInput(nr: Chan) | TempMin(nr: Chan) | TempMax(nr: Chan) | TempOff(nr: Chan)
  datatype FanAttr = FanInput(nr: Chan) | FanMin(nr: Chan) | FanDivider(ch: Third)
  datatype PwmAttr = Enable | Value | TempMap | AutoPwmPoint(point: Third) | AutoTempPoint(temp: PointNo)
  datatype OtherAttr = PwmFreq(nr: Chan) | SensorType(ch: Third) | Beep(oct: Octet) | Alarms | CpuVid

  datatype Attr =
    | OfVin(v: VinAttr) | OfTemp(t: TempAttr) | OfFan(f: FanAttr) | OfPwm(nr: Chan, p: PwmAttr) | Other(o: OtherAttr)

  /** What a show function formats: the codes it reads from the cache. */
  datatype Reading =
    | Code(b: bv8) | Difference(b: bv8, below: bv8) | Speed(w: bv16, div: bv8) | Choice(n: nat) | Word(all: bv32)

  function VinShown(vins: Vins, v: VinAttr): Reading {
    match v
    case InInput(i) => Code(vins[i].input)
    case InMin(i) => Code(vins[i].min)
    case InMax(i) => Code(vins[i].max)
  }

  function TempShown(temps: Temps, t: TempAttr): Reading {
    match t
    case TempInput(i) => Code(temps[i].input)
    case TempMin(i) => Code(temps[i].low)
    case TempMax(i) => Code(temps[i].high)
    case TempOff(i) => Code(temps[i].offset)
  }

  /** In 16-bit mode the divider is fixed. */
  function FanShown(chip: Chip, fans: Fans, fanDiv: Divs, f: FanAttr): Reading {
    match f
    case FanInput(i) => Speed(fans[i].speed, if chip.Fan16() || i >= 3 then 1 else fanDiv[i])
    case FanMin(i) => Speed(fans[i].min, if chip.Fan16() || i >= 3 then 1 else fanDiv[i])
    case FanDivider(i) => Code(fanDiv[i])
  }

  /** On newer chips the hysteresis is shown as the temperature it reaches. */
  function PwmShown(chip: Chip, nr: Chan, p: PwmState, fanMain: bv8, k: PwmAttr): Reading {
    match k
    case Enable => Choice(ModeOf(chip, nr, p, fanMain))
    case Value => Code(p.duty)
    case TempMap => Code(p.tempMap)
    case AutoPwmPoint(i) => Code(p.autoPwm[i])
    case AutoTempPoint(i) =>
      if chip.Newer() && i == 0 then Difference(p.autoTemp[1], p.autoTemp[0] & 0x1f) else Code(p.autoTemp[i])
  }

  function OtherShown(chip: Chip, c: Cache, o: OtherAttr): Reading {
    match o
    case PwmFreq(i) => Code((if PwmFreq2 in chip.features && i == 1 then c.extra else c.fanCtl) & 0x70)
    case SensorType(i) => Choice(TempType(chip, c.sensor, c.extra, i))
    case Beep(i) => Code(c.beeps & Bit(i))
    case Alarms => Word(c.alarms)
    case CpuVid => Code(c.vid)
  }

  /** The codes behind each attribute. */
  function Shown(chip: Chip, c: Cache, a: Attr): Reading {
    match a
    case OfVin(v) => VinShown(c.vins, v)
    case OfTemp(t) => TempShown(c.temps, t)
    case OfFan(f) => FanShown(chip, c.fans, c.fanDiv, f)
    case OfPwm(nr, k) => PwmShown(chip, nr, c.pwms[nr], c.fanMain, k)
    case Other(o) => OtherShown(chip, c, o)
  }

  /** The attributes that an operation is about, or shares a register with. */
  predicate Interferes(chip: Chip, op: Op, a: Attr) {
    match op
    case OpIn(i, index, _) => a == OfVin(if index == 1 then InMin(i) else InMax(i))
    case OpTemp(i, index, _) =>
      if index == 3 then a == OfTemp(TempOff(i)) || a == Other(Beep(7))
      else a == OfTemp(if index == 2 then TempMax(i) else TempMin(i))
    case OpFan(i, _) => a == OfFan(FanMin(i))
    case OpFanDiv(i, _) => a in {OfFan(FanDivider(i)), OfFan(FanMin(i)), OfFan(FanInput(i))}
    case OpEnable(i, val) =>
      || a == OfPwm(i, Enable)
      || (val == 0 && !chip.OnOff(i) && a in {OfPwm(i, Value), OfPwm(i, AutoPwmPoint(0))})
      || (val == 2 && !chip.Newer() && a == OfPwm(i, TempMap))
    case OpPwm(i, _) =>
      || a == OfPwm(i, Value)
      || (chip.Newer() && a == OfPwm(i, AutoPwmPoint(0)))
      || (!chip.OnOff(i) && a == OfPwm(i, Enable))
    case OpFreq(i, _) =>
      if i == 0 then a.Other? && a.o.PwmFreq? && !(PwmFreq2 in chip.features && a.o.nr == 1)
      else a == Other(PwmFreq(1))
    case OpTempMap(i, _) => a == OfPwm(i, TempMap)
    case OpAutoPwm(i, k, _) =>
      || a == OfPwm(i, AutoPwmPoint(k))
      || (chip.Newer() && a == OfPwm(i, Value))
      || (chip.Newer() && !chip.OnOff(i) && a == OfPwm(i, Enable))
    case OpSlope(i, _) => a == OfPwm(i, AutoPwmPoint(1))
    case OpAutoTemp(i, k, _) =>
      && a.OfPwm? && a.nr == i && a.p.AutoTempPoint?
      && (a.p.temp == k || (chip.Newer() && k == 1 && a.p.temp == 0))
    case OpBeep(i, _) => a == Other(Beep(i))
    case OpTempType(_, _) => a.Other? && a.o.SensorType?
  }

  lemma BitsApart(b: bv8, i: Octet, j: Octet)
    requires i != j
    ensures (b | Bit(i)) & Bit(j) == b & Bit(j)
    ensures (b & !Bit(i)) & Bit(j) == b & Bit(j)
  {
  }

  ghost predicate Keeps(chip: Chip, c: Cache, m: Regs, op: Op, a: Attr)
    requires Legal(chip, op)
  {
    Shown(chip, Settled(chip, c, m, op, Step(chip, c, m, op)), a) == Shown(chip, c, a)
  }

  // Replacing a table entry keeps the readings of every field that stays.

  lemma VinShownAfter(chip: Chip, c: Cache, nr: Octet, v: Vin, a: Attr)
    requires a.OfVin? ==> VinShown(c.vins[nr := v], a.v) == VinShown(c.vins, a.v)
    ensures Shown(chip, PutVin(c, nr, v), a) == Shown(chip, c, a)
  {
  }

  lemma TempShownAfter(chip: Chip, c: Cache, nr: Chan, t: Temp, a: Attr)
    requires a.OfTemp? ==> TempShown(c.temps[nr := t], a.t) == TempShown(c.temps, a.t)
    ensures Shown(chip, PutTemp(c, nr, t), a) == Shown(chip, c, a)
  {
  }

  lemma FanShownAfter(chip: Chip, c: Cache, nr: Chan, w: bv16, a: Attr)
    requires a != OfFan(FanMin(nr))
    ensures Shown(chip, PutFan(c, nr, c.fans[nr].(min := w)), a) == Shown(chip, c, a)
  {
  }

  lemma DivShown(chip: Chip, c: Cache, nr: Third, code: bv8, a: Attr)
    requires a !in {OfFan(FanDivider(nr)), OfFan(FanMin(nr)), OfFan(FanInput(nr))}
    ensures Shown(chip, c.(fanDiv := c.fanDiv[nr := code]), a) == Shown(chip, c, a)
  {
  }

  lemma PwmShownAfter(chip: Chip, c: Cache, nr: Chan, p: PwmState, a: Attr)
    requires a.OfPwm? && a.nr == nr ==>
      PwmShown(chip, nr, p, c.fanMain, a.p) == PwmShown(chip, nr, c.pwms[nr], c.fanMain, a.p)
    ensures Shown(chip, PutPwm(c, nr, p), a) == Shown(chip, c, a)
  {
  }

  lemma ModeOfSameBit(chip: Chip, nr: Chan, p: PwmState, x: bv8, y: bv8)
    requires x & Bit(nr) == y & Bit(nr)
    ensures ModeOf(chip, nr, p, x) == ModeOf(chip, nr, p, y)
  {
  }

  lemma MainRead(chip: Chip, c: Cache, main: bv8, nr: Chan, k: PwmAttr)
    requires k.Enable? ==> main & Bit(nr) == c.fanMain & Bit(nr)
    ensures PwmShown(chip, nr, c.pwms[nr], main, k) == PwmShown(chip, nr, c.pwms[nr], c.fanMain, k)
  {
    if k.Enable? {
      ModeOfSameBit(chip, nr, c.pwms[nr], main, c.fanMain);
    }
    hide Bit, ModeOf;
  }

  lemma MainShown(chip: Chip, c: Cache, main: bv8, a: Attr)
    requires a.OfPwm? && a.p.Enable? ==> main & Bit(a.nr) == c.fanMain & Bit(a.nr)
    ensures Shown(chip, c.(fanMain := main), a) == Shown(chip, c, a)
  {
    hide Bit;
    if a.OfPwm? {
      MainRead(chip, c, main, a.nr, a.p);
      hide PwmShown;
    }
  }

  lemma CtlShown(chip: Chip, c: Cache, ctl: bv8, a: Attr)
    requires ctl & 0x70 == c.fanCtl & 0x70
    ensures Shown(chip, c.(fanCtl := ctl), a) == Shown(chip, c, a)
  {
  }

  lemma TypeIgnoresFreq(chip: Chip, reg: bv8, x: bv8, y: bv8, nr: Third)
    requires x & 0x80 == y & 0x80
    ensures TempType(chip, reg, x, nr) == TempType(chip, reg, y, nr)
  {
  }

  lemma ExtraShown(chip: Chip, c: Cache, extra: bv8, a: Attr)
    requires extra & 0x80 == c.extra & 0x80 && a != Other(PwmFreq(1))
    ensures Shown(chip, c.(extra := extra), a) == Shown(chip, c, a)
  {
    if a.Other? && a.o.SensorType? {
      TypeIgnoresFreq(chip, c.sensor, extra, c.extra, a.o.ch);
    }
    hide TempType;
  }

  lemma SensorShown(chip: Chip, c: Cache, sensor: bv8, extra: bv8, a: Attr)
    requires extra & 0x70 == c.extra & 0x70 && !(a.Other? && a.o.SensorType?)
    ensures Shown(chip, c.(sensor := sensor, extra := extra), a) == Shown(chip, c, a)
  {
    hide TempType;
  }

  lemma FreqFieldBits(b: bv8, i: bv8)
    requires i < 8
    ensures FreqField(b, i) & 0x80 == b & 0x80
    ensures FreqField(b, i) & 0x0f == b & 0x0f
    ensures FreqField(b, i) & 0x70 == i << 4
  {
  }

  // ----------------------------------------------------- one lemma per setter

  lemma InKeeps(chip: Chip, c: Cache, nr: Octet, index: nat, code: bv8, a: Attr)
    requires index in {1, 2} && a != OfVin(if index == 1 then InMin(nr) else InMax(nr))
    ensures Shown(chip, StoreIn(c, nr, index, code).cache, a) == Shown(chip, c, a)
  {
    if index == 1 {
      VinShownAfter(chip, c, nr, c.vins[nr].(min := code), a);
    } else {
      VinShownAfter(chip, c, nr, c.vins[nr].(max := code), a);
    }
    hide Shown;
  }

  lemma TempKeeps(chip: Chip, c: Cache, m: Regs, nr: Chan, index: nat, code: bv8, a: Attr)
    requires index in {1, 2, 3}
    requires a != OfTemp(if index == 1 then TempMin(nr) else if index == 2 then TempMax(nr) else TempOff(nr))
    ensures Shown(chip, StoreTemp(c, m, nr, index, code).cache, a) == Shown(chip, c, a)
  {
    var t := c.temps[nr];
    TempShownAfter(chip, c, nr, if index == 1 then t.(low := code) else if index == 2 then t.(high := code)
      else t.(offset := code), a);
    hide Shown;
  }

  lemma FanKeeps(chip: Chip, c: Cache, nr: Chan, w: bv16, a: Attr)
    requires a != OfFan(FanMin(nr))
    ensures Shown(chip, StoreFan16(c, nr, w).cache, a) == Shown(chip, c, a)
  {
    FanShownAfter(chip, c, nr, w, a);
    hide Shown;
  }

  lemma DivKeeps(chip: Chip, c: Cache, m: Regs, nr: Third, code: bv8, limit: bv8, a: Attr)
    requires a !in {OfFan(FanDivider(nr)), OfFan(FanMin(nr)), OfFan(FanInput(nr))}
    ensures Shown(chip, StoreDiv(c, m, nr, code, limit).cache, a) == Shown(chip, c, a)
  {
    var d := c.(fanDiv := c.fanDiv[nr := code]);
    DivShown(chip, c, nr, code, a);
    FanShownAfter(chip, d, nr, Join(limit, 0), a);
    hide Shown;
  }

  lemma FreqKeeps(chip: Chip, c: Cache, m: Regs, nr: Chan, i: bv8, a: Attr)
    requires c.extra == m[TempExtra] && i < 8
    requires nr == 0 || (nr == 1 && PwmFreq2 in chip.features)
    requires nr == 0 ==> !(a.Other? && a.o.PwmFreq?) || (PwmFreq2 in chip.features && a.o.nr == 1)
    requires nr == 1 ==> a != Other(PwmFreq(1))
    ensures Shown(chip, StoreFreq(c, m, nr, i).cache, a) == Shown(chip, c, a)
  {
    if nr == 0 {
      FreqCtlShown(chip, c, FreqField(m[FanCtl], i), a);
    } else {
      FreqFieldBits(m[TempExtra], i);
      ExtraShown(chip, c, FreqField(m[TempExtra], i), a);
    }
    hide Shown, FreqField;
  }

  lemma FreqCtlShown(chip: Chip, c: Cache, ctl: bv8, a: Attr)
    requires !(a.Other? && a.o.PwmFreq?) || (PwmFreq2 in chip.features && a.o.nr == 1)
    ensures Shown(chip, c.(fanCtl := ctl), a) == Shown(chip, c, a)
  {
  }

  lemma BeepByteRead(chip: Chip, c: Cache, beeps: bv8, o: OtherAttr)
    requires o.Beep? ==> beeps & Bit(o.oct) == c.beeps & Bit(o.oct)
    ensures OtherShown(chip, c.(beeps := beeps), o) == OtherShown(chip, c, o)
  {
    hide Bit, TempType;
  }

  lemma BeepByteShown(chip: Chip, c: Cache, beeps: bv8, a: Attr)
    requires a.Other? && a.o.Beep? ==> beeps & Bit(a.o.oct) == c.beeps & Bit(a.o.oct)
    ensures Shown(chip, c.(beeps := beeps), a) == Shown(chip, c, a)
  {
    hide Bit;
    if a.Other? {
      BeepByteRead(chip, c, beeps, a.o);
      hide OtherShown;
    }
  }

  lemma BeepSetShown(chip: Chip, c: Cache, bit: Octet, a: Attr)
    requires a != Other(Beep(bit))
    ensures Shown(chip, c.(beeps := c.beeps | Bit(bit)), a) == Shown(chip, c, a)
  {
    if a.Other? && a.o.Beep? {
      BitsApart(c.beeps, bit, a.o.oct);
    }
    hide Shown, Bit;
    BeepByteShown(chip, c, c.beeps | Bit(bit), a);
  }

  lemma BeepClearedShown(chip: Chip, c: Cache, bit: Octet, a: Attr)
    requires a != Other(Beep(bit))
    ensures Shown(chip, c.(beeps := c.beeps & !Bit(bit)), a) == Shown(chip, c, a)
  {
    if a.Other? && a.o.Beep? {
      BitsApart(c.beeps, bit, a.o.oct);
    }
    hide Shown, Bit;
    BeepByteShown(chip, c, c.beeps & !Bit(bit), a);
  }

  lemma BeepKeeps(chip: Chip, c: Cache, m: Regs, bit: Octet, val: int, a: Attr)
    requires c.beeps == m[BeepEnable] && a != Other(Beep(bit))
    ensures Shown(chip, SetBeep(c, m, bit, val).cache, a) == Shown(chip, c, a)
  {
    hide Shown, Bit;
    if val == 1 {
      BeepSetShown(chip, c, bit, a);
    } else if val == 0 {
      BeepClearedShown(chip, c, bit, a);
    }
  }

  lemma PeciClearedKeepsFreq(chip: Chip, extra: bv8, nr: Third, val: int)
    ensures PeciCleared(chip, extra, nr, val) & 0x7f == extra & 0x7f
    ensures (PeciCleared(chip, extra, nr, val) | 0x80) & 0x7f == extra & 0x7f
  {
  }

  lemma TypeCodeKeepsFreq(chip: Chip, reg: bv8, extra: bv8, nr: Third, val: int)
    ensures TempTypeCode(chip, reg, extra, nr, val).extra & 0x7f == extra & 0x7f
  {
    PeciClearedKeepsFreq(chip, extra, nr, val);
    hide TypeCleared, PeciCleared, Bit, PeciSource, PeciSelect;
  }

  lemma TypeKeeps(chip: Chip, c: Cache, m: Regs, nr: Third, val: int, a: Attr)
    requires c.extra == m[TempExtra] && !(a.Other? && a.o.SensorType?)
    ensures Shown(chip, SetTempType(chip, c, m, nr, val).cache, a) == Shown(chip, c, a)
  {
    var t := TempTypeCode(chip, m[TempEnable], m[TempExtra], nr, val);
    TypeCodeKeepsFreq(chip, m[TempEnable], m[TempExtra], nr, val);
    assert t.extra & 0x70 == c.extra & 0x70 by {
      assert (t.extra & 0x7f) & 0x70 == t.extra & 0x70 && (c.extra & 0x7f) & 0x70 == c.extra & 0x70;
    }
    SensorShown(chip, c, t.reg, t.extra, a);
    hide Shown, TempTypeCode;
  }

  // ------------------------------------------------------------ PWM setters

  lemma AutoPwmShown(chip: Chip, c: Cache, nr: Chan, point: Third, b: bv8, a: Attr)
    requires a.OfPwm? && a.nr == nr && a != OfPwm(nr, AutoPwmPoint(point))
    ensures var p := c.pwms[nr].(autoPwm := c.pwms[nr].autoPwm[point := b]);
      && PwmShown(chip, nr, p, c.fanMain, a.p) == PwmShown(chip, nr, c.pwms[nr], c.fanMain, a.p)
      && (a != OfPwm(nr, Value) && (chip.OnOff(nr) || a != OfPwm(nr, Enable)) ==>
            PwmShown(chip, nr, p.(duty := p.autoPwm[0]), c.fanMain, a.p) ==
              PwmShown(chip, nr, c.pwms[nr], c.fanMain, a.p))
  {
    hide Bit, PwmToReg;
  }

  lemma AutoPwmKeeps(chip: Chip, c: Cache, m: Regs, nr: Chan, point: Third, b: bv8, a: Attr)
    requires chip.Newer() || nr < 3
    requires a != OfPwm(nr, AutoPwmPoint(point))
    requires chip.Newer() ==> a != OfPwm(nr, Value) && (chip.OnOff(nr) || a != OfPwm(nr, Enable))
    ensures var e := StoreAutoPwm(chip, c, nr, point, b).cache;
      var d := if chip.Newer() then PutPwm(e, nr, e.pwms[nr].(duty := e.pwms[nr].autoPwm[0])) else e;
      Shown(chip, d, a) == Shown(chip, c, a)
  {
    hide Shown, PwmShown;
    var p := c.pwms[nr].(autoPwm := c.pwms[nr].autoPwm[point := b]);
    var q := if chip.Newer() then p.(duty := p.autoPwm[0]) else p;
    assert PutPwm(PutPwm(c, nr, p), nr, q) == PutPwm(c, nr, q);
    if a.OfPwm? && a.nr == nr {
      AutoPwmShown(chip, c, nr, point, b, a);
    }
    PwmShownAfter(chip, c, nr, q, a);
  }

  lemma SlopeKeeps(chip: Chip, c: Cache, nr: Chan, slope: bv8, a: Attr)
    requires a != OfPwm(nr, AutoPwmPoint(1))
    ensures Shown(chip, StoreSlope(c, nr, slope).cache, a) == Shown(chip, c, a)
  {
    var p := c.pwms[nr];
    PwmShownAfter(chip, c, nr, p.(autoPwm := p.autoPwm[1 := (p.autoPwm[1] & 0x80) | slope]), a);
    hide Shown;
  }

  lemma AutoTempKeeps(chip: Chip, c: Cache, nr: Chan, point: nat, b: bv8, a: Attr)
    requires point < 5
    requires a.OfPwm? && a.nr == nr && a.p.AutoTempPoint? ==>
      a.p.temp != point && !(chip.Newer() && point == 1 && a.p.temp == 0)
    ensures Shown(chip, StoreAutoTemp(chip, c, nr, point, b).cache, a) == Shown(chip, c, a)
  {
    var p := c.pwms[nr];
    PwmShownAfter(chip, c, nr, p.(autoTemp := p.autoTemp[point := b]), a);
    hide Shown;
  }

  lemma MapShown(chip: Chip, nr: Chan, p: PwmState, q: PwmState, fanMain: bv8, k: PwmAttr)
    requires k != TempMap && q == p.(tempMap := q.tempMap, ctrl := q.ctrl)
    requires (p.ctrl & 0x80 != 0) == (q.ctrl & 0x80 != 0)
    ensures PwmShown(chip, nr, q, fanMain, k) == PwmShown(chip, nr, p, fanMain, k)
  {
    hide Bit;
  }

  lemma TempMapKeeps(chip: Chip, c: Cache, m: Regs, nr: Chan, code: bv8, a: Attr)
    requires (chip.Newer() || nr < 3) && DecodePwm(chip, m, nr, c.pwms[nr]) == c.pwms[nr]
    requires a != OfPwm(nr, TempMap) && code < 3
    ensures Shown(chip, StoreTempMap(chip, c, m, nr, code).cache, a) == Shown(chip, c, a)
  {
    hide Shown, DecodePwm, PwmShown;
    var p := c.pwms[nr];
    var q := if p.ctrl & 0x80 != 0 then p.(tempMap := code, ctrl := (p.ctrl & 0xfc) | code) else p.(tempMap := code);
    if p.ctrl & 0x80 != 0 {
      MapReplaced(p.ctrl, code);
    }
    if a.OfPwm? && a.nr == nr {
      MapShown(chip, nr, p, q, c.fanMain, a.p);
    }
    PwmShownAfter(chip, c, nr, q, a);
  }

  lemma MainSet(chip: Chip, c: Cache, nr: Chan, a: Attr)
    requires a != OfPwm(nr, Enable)
    ensures Shown(chip, c.(fanMain := c.fanMain | Bit(nr)), a) == Shown(chip, c, a)
  {
    if a.OfPwm? && a.nr != nr {
      BitsApart(c.fanMain, nr, a.nr);
    }
    MainShown(chip, c, c.fanMain | Bit(nr), a);
    hide Shown, Bit;
  }

  lemma MainCleared(chip: Chip, c: Cache, nr: Chan, a: Attr)
    requires a != OfPwm(nr, Enable)
    ensures Shown(chip, c.(fanMain := c.fanMain & !Bit(nr)), a) == Shown(chip, c, a)
  {
    if a.OfPwm? && a.nr != nr {
      BitsApart(c.fanMain, nr, a.nr);
    }
    MainShown(chip, c, c.fanMain & !Bit(nr), a);
    hide Shown, Bit;
  }

  /** The cache after set_pwm_enable(0) and a refresh, in on/off mode. */
  lemma OnOffKeeps(chip: Chip, c: Cache, m: Regs, nr: Third, a: Attr)
    requires c.fanCtl == m[FanCtl] && a != OfPwm(nr, Enable)
    ensures Shown(chip, EnterOnOff(c, m, nr).cache.(fanCtl := m[FanCtl] | Bit(nr)), a) == Shown(chip, c, a)
  {
    OnBitOutsideFreq(m[FanCtl], nr);
    MainCleared(chip, c, nr, a);
    CtlShown(chip, c.(fanMain := c.fanMain & !Bit(nr)), m[FanCtl] | Bit(nr), a);
    hide Shown, Bit;
  }

  lemma OnBitOutsideFreq(b: bv8, nr: Third)
    ensures (b | Bit(nr)) & 0x70 == b & 0x70
  {
  }

  lemma FullDutyKeeps(chip: Chip, c: Cache, nr: Chan, a: Attr)
    requires a !in {OfPwm(nr, Enable), OfPwm(nr, Value), OfPwm(nr, AutoPwmPoint(0))} && chip.Newer()
    ensures Shown(chip, WithStart(EnterFullDuty(chip, c, nr).cache, nr, 0xff), a) == Shown(chip, c, a)
  {
    var p := c.pwms[nr].(duty := 0xff, ctrl := NewerCtrl(c.pwms[nr]));
    var q := p.(autoPwm := p.autoPwm[0 := 0xff]);
    assert PutPwm(PutPwm(c, nr, p), nr, q) == PutPwm(c, nr, q);
    PwmShownAfter(chip, c, nr, q, a);
    hide Shown;
  }

  lemma CtrlKeeps(chip: Chip, c: Cache, nr: Chan, p: PwmState, a: Attr)
    requires p == c.pwms[nr].(ctrl := p.ctrl, tempMap := p.tempMap)
    requires a != OfPwm(nr, Enable) && (p.tempMap != c.pwms[nr].tempMap ==> a != OfPwm(nr, TempMap))
    ensures Shown(chip, PutPwm(c, nr, p), a) == Shown(chip, c, a)
  {
    PwmShownAfter(chip, c, nr, p, a);
    hide Shown;
  }

  lemma ModeSettledCache(chip: Chip, c: Cache, nr: Chan, ctrl: bv8, automatic: bool)
    ensures var e := EnterPwmMode(chip, c, nr, ctrl).cache;
      var d := PutPwm(c, nr, ModeSettled(chip, c.pwms[nr].(ctrl := ctrl), automatic));
      PutPwm(e, nr, ModeSettled(chip, e.pwms[nr], automatic))
        == if chip.OnOff(nr) then d.(fanMain := c.fanMain | Bit(nr)) else d
  {
    hide Bit;
  }

  lemma ModeKeeps(chip: Chip, c: Cache, nr: Chan, automatic: bool, a: Attr)
    requires a != OfPwm(nr, Enable) && (automatic && !chip.Newer() ==> a != OfPwm(nr, TempMap))
    ensures var e := EnterPwmMode(chip, c, nr, ModeCtrl(chip, c.pwms[nr], automatic)).cache;
      Shown(chip, PutPwm(e, nr, ModeSettled(chip, e.pwms[nr], automatic)), a) == Shown(chip, c, a)
  {
    hide Shown, Bit, ModeCtrl, EnterPwmMode;
    var ctrl := ModeCtrl(chip, c.pwms[nr], automatic);
    var q := ModeSettled(chip, c.pwms[nr].(ctrl := ctrl), automatic);
    ModeSettledCache(chip, c, nr, ctrl, automatic);
    CtrlKeeps(chip, c, nr, q, a);
    MainSet(chip, PutPwm(c, nr, q), nr, a);
  }

  lemma NewerPwmKeeps(chip: Chip, c: Cache, m: Regs, nr: Chan, duty: bv8, a: Attr)
    requires chip.Newer() && DecodePwm(chip, m, nr, c.pwms[nr]) == c.pwms[nr]
    requires a !in {OfPwm(nr, Value), OfPwm(nr, AutoPwmPoint(0))} && (chip.OnOff(nr) || a != OfPwm(nr, Enable))
    ensures var e := StorePwm(chip, c, m, nr, duty);
      Shown(chip, if e.ok then WithStart(e.cache, nr, duty) else e.cache, a) == Shown(chip, c, a)
  {
    var p := c.pwms[nr].(duty := duty);
    var q := p.(autoPwm := p.autoPwm[0 := duty]);
    assert PutPwm(PutPwm(c, nr, p), nr, q) == PutPwm(c, nr, q);
    assert PutPwm(c, nr, c.pwms[nr]) == c;
    PwmShownAfter(chip, c, nr, q, a);
    hide Shown, DecodePwm;
  }

  lemma OldPwmKeeps(chip: Chip, c: Cache, m: Regs, nr: Third, duty: bv8, a: Attr)
    requires !chip.Newer() && DecodePwm(chip, m, nr, c.pwms[nr]) == c.pwms[nr] && duty < 0x80
    requires a != OfPwm(nr, Value)
    ensures Shown(chip, StorePwm(chip, c, m, nr, duty).cache, a) == Shown(chip, c, a)
  {
    var p := c.pwms[nr];
    if p.ctrl & 0x80 == 0 {
      assert duty & 0x80 == 0;
      PwmShownAfter(chip, c, nr, p.(duty := duty, ctrl := duty), a);
    } else {
      PwmShownAfter(chip, c, nr, p.(duty := duty), a);
    }
    hide Shown, DecodePwm;
  }

  // ------------------------------------------------------ all the setters

  lemma InOpKeeps(chip: Chip, c: Cache, m: Regs, nr: Octet, index: nat, val: int, a: Attr)
    requires Legal(chip, OpIn(nr, index, val)) && !Interferes(chip, OpIn(nr, index, val), a)
    ensures Keeps(chip, c, m, OpIn(nr, index, val), a)
  {
    InKeeps(chip, c, nr, index, ByteOf(InToReg(chip.AdcLsb(nr), val)), a);
    hide Shown, Refresh, ByteOf, InToReg;
  }

  lemma LimitOpKeeps(chip: Chip, c: Cache, m: Regs, nr: Chan, index: nat, val: int, a: Attr)
    requires Legal(chip, OpTemp(nr, index, val)) && index != 3 && !Interferes(chip, OpTemp(nr, index, val), a)
    ensures Keeps(chip, c, m, OpTemp(nr, index, val), a)
  {
    hide Shown, SignedByte, TempToReg, StoreTemp;
    TempKeeps(chip, c, m, nr, index, SignedByte(TempToReg(val)), a);
  }

  lemma OffsetStoreKeepsBeeps(c: Cache, m: Regs, nr: Chan, code: bv8)
    ensures StoreTemp(c, m, nr, 3, code).ok && StoreTemp(c, m, nr, 3, code).cache.beeps == c.beeps
  {
  }

  lemma OffsetOpKeeps(chip: Chip, c: Cache, m: Regs, nr: Chan, val: int, a: Attr)
    requires Legal(chip, OpTemp(nr, 3, val)) && c.beeps == m[BeepEnable]
    requires !Interferes(chip, OpTemp(nr, 3, val), a)
    ensures Keeps(chip, c, m, OpTemp(nr, 3, val), a)
  {
    hide Shown, SignedByte, TempToReg, StoreTemp;
    var code := SignedByte(TempToReg(val));
    OffsetStoreKeepsBeeps(c, m, nr, code);
    TempKeeps(chip, c, m, nr, 3, code, a);
    OffsetBeeps(chip, StoreTemp(c, m, nr, 3, code).cache, a);
  }

  lemma TempOpKeeps(chip: Chip, c: Cache, m: Regs, nr: Chan, index: nat, val: int, a: Attr)
    requires Legal(chip, OpTemp(nr, index, val)) && Fresh(chip, m, c)
    requires !Interferes(chip, OpTemp(nr, index, val), a)
    ensures Keeps(chip, c, m, OpTemp(nr, index, val), a)
  {
    FreshBeeps(chip, m, c);
    hide Keeps, Interferes, Legal, Refresh;
    if index == 3 {
      OffsetOpKeeps(chip, c, m, nr, val, a);
    } else {
      LimitOpKeeps(chip, c, m, nr, index, val, a);
    }
  }

  lemma LimitsKeep(chip: Chip, c: Cache, m: Regs, op: Op, a: Attr)
    requires op.OpIn? || op.OpTemp?
    requires Legal(chip, op) && Fresh(chip, m, c) && !Interferes(chip, op, a)
    ensures Keeps(chip, c, m, op, a)
  {
    hide Keeps, Interferes, Legal, Fresh;
    match op
    case OpIn(nr, index, val) => InOpKeeps(chip, c, m, nr, index, val, a);
    case OpTemp(nr, index, val) => TempOpKeeps(chip, c, m, nr, index, val, a);
  }

  lemma OffsetBeeps(chip: Chip, c: Cache, a: Attr)
    requires a != Other(Beep(7))
    ensures Shown(chip, c.(beeps := c.beeps | 0x80), a) == Shown(chip, c, a)
  {
    if a.Other? && a.o.Beep? {
      BitsApart(c.beeps, 7, a.o.oct);
    }
    hide Shown, Bit;
    BeepByteShown(chip, c, c.beeps | 0x80, a);
  }

  lemma FansKeep(chip: Chip, c: Cache, m: Regs, op: Op, a: Attr)
    requires op.OpFan? || op.OpFanDiv?
    requires Legal(chip, op) && Fresh(chip, m, c) && !Interferes(chip, op, a)
    ensures Keeps(chip, c, m, op, a)
  {
    match op
    case OpFan(nr, val) =>
      if chip.Fan16() {
        hide Shown, Refresh;
        FanKeeps(chip, c, nr, WordOf(Fan16ToReg(val)), a);
      } else {
        var div := UnpackDiv(m[FanDiv]);
        var b := ByteOf(FanToReg(val, Divider(div[nr])));
        FreshDiv(chip, m, c, nr);
        hide Shown, Refresh;
        assert c.(fanDiv := c.fanDiv[nr := div[nr]]) == c;
        FanShownAfter(chip, c, nr, Join(b, 0), a);
      }
    case OpFanDiv(nr, val) =>
      hide Shown, Refresh;
      var code := NewDivCode(nr, val);
      DivKeeps(chip, c, m, nr, code, RescaledLimit(c, nr, code), a);
  }

  lemma RegistersKeep(chip: Chip, c: Cache, m: Regs, op: Op, a: Attr)
    requires op.OpFreq? || op.OpBeep? || op.OpTempType?
    requires Legal(chip, op) && Fresh(chip, m, c) && !Interferes(chip, op, a)
    ensures Keeps(chip, c, m, op, a)
  {
    FreshBeeps(chip, m, c);
    hide Shown, Refresh;
    match op
    case OpFreq(nr, val) =>
      SmallByte(FreqToReg(chip.Newer(), val));
      FreqKeeps(chip, c, m, nr, ByteOf(FreqToReg(chip.Newer(), val)), a);
    case OpBeep(bit, val) => BeepKeeps(chip, c, m, bit, val, a);
    case OpTempType(nr, val) => TypeKeeps(chip, c, m, nr, val, a);
  }

  lemma SmallByte(n: nat)
    requires n < 8
    ensures ByteOf(n) < 8
  {
  }

  lemma AutoPwmStored(chip: Chip, c: Cache, nr: Chan, point: Third, b: bv8)
    requires chip.Newer() || nr < 3
    ensures StoreAutoPwm(chip, c, nr, point, b).ok
  {
  }

  lemma AutosKeep(chip: Chip, c: Cache, m: Regs, op: Op, a: Attr)
    requires op.OpAutoPwm? || op.OpSlope? || op.OpAutoTemp?
    requires Legal(chip, op) && !Interferes(chip, op, a)
    ensures Keeps(chip, c, m, op, a)
  {
    hide Shown, ByteOf, AutoTempCode, PwmToReg, StoreAutoPwm, StoreSlope, StoreAutoTemp;
    match op
    case OpAutoPwm(nr, point, val) =>
      if 0 <= val <= 255 {
        AutoPwmStored(chip, c, nr, point, PwmToReg(chip, ByteOf(val)));
        AutoPwmKeeps(chip, c, m, nr, point, PwmToReg(chip, ByteOf(val)), a);
      }
    case OpSlope(nr, val) =>
      if val <= 127 {
        SlopeKeeps(chip, c, nr, ByteOf(val), a);
      }
    case OpAutoTemp(nr, point, val) =>
      if -128000 <= val <= 127000 {
        AutoTempKeeps(chip, c, nr, point, AutoTempCode(chip, c.pwms[nr], point, val), a);
      }
  }

  lemma FullSpeedOpKeeps(chip: Chip, c: Cache, m: Regs, nr: Chan, a: Attr)
    requires Legal(chip, OpEnable(nr, 0)) && c.fanCtl == m[FanCtl] && !Interferes(chip, OpEnable(nr, 0), a)
    ensures Keeps(chip, c, m, OpEnable(nr, 0), a)
  {
    hide Shown, TripPointsOk, Bit, NewerCtrl;
    if chip.OnOff(nr) {
      OnOffKeeps(chip, c, m, nr, a);
    } else {
      FullDutyKeeps(chip, c, nr, a);
    }
  }

  lemma ModeOpKeeps(chip: Chip, c: Cache, m: Regs, nr: Chan, val: int, a: Attr)
    requires Legal(chip, OpEnable(nr, val)) && val != 0 && !Interferes(chip, OpEnable(nr, val), a)
    ensures Keeps(chip, c, m, OpEnable(nr, val), a)
  {
    hide Shown, TripPointsOk, EnterPwmMode, ModeCtrl;
    ModeKeeps(chip, c, nr, val == 2, a);
    ModeEffectOk(chip, c, nr, ModeCtrl(chip, c.pwms[nr], val == 2));
  }

  lemma ModeEffectOk(chip: Chip, c: Cache, nr: Chan, ctrl: bv8)
    ensures EnterPwmMode(chip, c, nr, ctrl).ok
  {
  }

  lemma EnableKeeps(chip: Chip, c: Cache, m: Regs, nr: Chan, val: int, a: Attr)
    requires Legal(chip, OpEnable(nr, val)) && Fresh(chip, m, c) && !Interferes(chip, OpEnable(nr, val), a)
    ensures Keeps(chip, c, m, OpEnable(nr, val), a)
  {
    FreshBeeps(chip, m, c);
    hide Keeps, Interferes, Legal, Refresh;
    if val == 0 {
      FullSpeedOpKeeps(chip, c, m, nr, a);
    } else {
      ModeOpKeeps(chip, c, m, nr, val, a);
    }
  }

  lemma DutyKeeps(chip: Chip, c: Cache, m: Regs, nr: Chan, val: int, a: Attr)
    requires Legal(chip, OpPwm(nr, val)) && Fresh(chip, m, c) && !Interferes(chip, OpPwm(nr, val), a)
    ensures Keeps(chip, c, m, OpPwm(nr, val), a)
  {
    FreshPwm(chip, m, c, nr);
    hide Shown, Refresh, DecodePwm;
    if 0 <= val <= 255 {
      var duty := PwmToReg(chip, ByteOf(val));
      HalfDuty(ByteOf(val));
      if chip.Newer() {
        NewerPwmKeeps(chip, c, m, nr, duty, a);
      } else {
        OldPwmKeeps(chip, c, m, nr, duty, a);
      }
    }
  }

  lemma MapKeeps(chip: Chip, c: Cache, m: Regs, nr: Chan, val: int, a: Attr)
    requires Legal(chip, OpTempMap(nr, val)) && Fresh(chip, m, c) && !Interferes(chip, OpTempMap(nr, val), a)
    ensures Keeps(chip, c, m, OpTempMap(nr, val), a)
  {
    FreshPwm(chip, m, c, nr);
    hide Shown, Refresh, DecodePwm;
    if TempMapCode(nr, val) != 0xff {
      TempMapKeeps(chip, c, m, nr, TempMapCode(nr, val), a);
    }
  }

  lemma SettersKeep(chip: Chip, c: Cache, m: Regs, op: Op, a: Attr)
    requires Legal(chip, op) && Fresh(chip, m, c) && !Interferes(chip, op, a)
    ensures Keeps(chip, c, m, op, a)
  {
    hide Shown, Refresh, Settled, Step, Interferes;
    match op
    case OpIn(_, _, _) => LimitsKeep(chip, c, m, op, a);
    case OpTemp(_, _, _) => LimitsKeep(chip, c, m, op, a);
    case OpFan(_, _) => FansKeep(chip, c, m, op, a);
    case OpFanDiv(_, _) => FansKeep(chip, c, m, op, a);
    case OpFreq(_, _) => RegistersKeep(chip, c, m, op, a);
    case OpBeep(_, _) => RegistersKeep(chip, c, m, op, a);
    case OpTempType(_, _) => RegistersKeep(chip, c, m, op, a);
    case OpAutoPwm(_, _, _) => AutosKeep(chip, c, m, op, a);
    case OpSlope(_, _) => AutosKeep(chip, c, m, op, a);
    case OpAutoTemp(_, _, _) => AutosKeep(chip, c, m, op, a);
    case OpEnable(nr, val) => EnableKeeps(chip, c, m, nr, val, a);
    case OpPwm(nr, val) => DutyKeeps(chip, c, m, nr, val, a);
    case OpTempMap(nr, val) => MapKeeps(chip, c, m, nr, val, a);
  }

  /** Non-interference: from a fresh cache, after any setter and a forced
      refresh, every attribute reads as before unless Interferes names it. */
  lemma NonInterference(chip: Chip, c: Cache, m: Regs, op: Op, a: Attr)
    requires Legal(chip, op) && Fresh(chip, m, c) && DutyShadow(chip, c) && !Interferes(chip, op, a)
    ensures var e := Step(chip, c, m, op);
      Shown(chip, Refresh(chip, Apply(m, e.writes), e.cache), a) == Shown(chip, c, a)
  {
    hide Shown, Refresh, Settled, Step, Interferes, Legal;
    WriteThrough(chip, c, m, op);
    SettersKeep(chip, c, m, op, a);
  }
}
