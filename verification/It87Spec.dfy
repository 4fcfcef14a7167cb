/** What the operations of the it87ts driver mean: decoding the register file
    into the cache, and the cache and register changes of every setter. */
module It87Spec {
  import opened Bytes
  import opened It87Chip
  import opened It87Convert

  /** The register file, by role. */
  ghost predicate Total(m: imap<Reg, bv8>) { forall r: Reg :: r in m }

  type Regs = m: imap<Reg, bv8> | Total(m) ghost witness (imap r: Reg | true :: 0 as bv8)

  datatype Vin = Vin(input: bv8, min: bv8, max: bv8)
  datatype Fan = Fan(speed: bv16, min: bv16)
  datatype Temp = Temp(input: bv8, low: bv8, high: bv8, offset: bv8)
  datatype PwmState = PwmState(ctrl: bv8, duty: bv8, tempMap: bv8, autoPwm: AutoPwms, autoTemp: AutoTemps)

  // The tables of it87_data, with the lengths they are declared with.
  type Vins = s: seq<Vin> | |s| == 13 witness seq(13, _ => Vin(0, 0, 0))
  type Fans = s: seq<Fan> | |s| == 6 witness seq(6, _ => Fan(0, 0))
  type Temps = s: seq<Temp> | |s| == 6 witness seq(6, _ => Temp(0, 0, 0, 0))
  type AutoPwms = s: seq<bv8> | |s| == 4 witness [0, 0, 0, 0]
  type AutoTemps = s: seq<bv8> | |s| == 5 witness [0, 0, 0, 0, 0]
  type Pwms = s: seq<PwmState> | |s| == 6 witness seq(6, _ => PwmState(0, 0, 0, [0, 0, 0, 0], [0, 0, 0, 0, 0]))
  type Divs = s: seq<bv8> | |s| == 3 witness [0, 0, 0]

  /** The fields of it87_data that mirror registers. */
  datatype Cache = Cache(
    vins: Vins,
    fans: Fans,
    temps: Temps,
    pwms: Pwms,
    fanDiv: Divs,
    alarms: bv32,
    beeps: bv8,
    fanMain: bv8,
    fanCtl: bv8,
    sensor: bv8,
    extra: bv8,
    vid: bv8)

  // ------------------------------------------------------------- decoding

  ghost function DecodeVin(chip: Chip, m: Regs, i: nat, old_: Vin): Vin
    requires i < 13
  {
    if i !in chip.hasIn then old_
    else if i >= 8 then old_.(input := m[VinInput(i)])
    else Vin(m[VinInput(i)], m[VinMin(i)], m[VinMax(i)])
  }

  ghost function DecodeFan(chip: Chip, m: Regs, i: Chan, old_: Fan): Fan {
    if i !in chip.hasFan then old_
    else if chip.Fan16() then Fan(Join(m[FanLo(i)], m[FanHi(i)]), Join(m[FanMinLo(i)], m[FanMinHi(i)]))
    else Fan(Join(m[FanLo(i)], 0), Join(m[FanMinLo(i)], 0))
  }

  ghost function DecodeTemp(chip: Chip, m: Regs, i: Chan, old_: Temp): Temp {
    if i !in chip.hasTemp then old_
    else if i >= chip.numTempLimit then old_.(input := m[Sensor(i)])
    else Temp(m[Sensor(i)], m[TempLow(i)], m[TempHigh(i)],
              if TempOffsets in chip.features then m[TempOffset(i)] else old_.offset)
  }

  /** Manual duty and temperature map, which the older chips keep in one
      register whose bit 7 says which of the two it holds. */
  ghost function DecodeMode(chip: Chip, m: Regs, i: Chan, old_: PwmState): PwmState {
    var ctrl := m[Pwm(i)];
    if chip.Newer() then old_.(ctrl := ctrl, tempMap := ctrl & 0x03, duty := m[Duty(i)])
    else if ctrl & 0x80 != 0 then old_.(ctrl := ctrl, tempMap := ctrl & 0x03)
    else old_.(ctrl := ctrl, duty := ctrl & 0x7f)
  }

  /** Five temperatures and three duties; the last duty is hard-coded. */
  ghost function OldAuto(m: Regs, i: Third, old_: PwmState): PwmState {
    old_.(autoTemp := [m[AutoPoint(i, 0)], m[AutoPoint(i, 1)], m[AutoPoint(i, 2)], m[AutoPoint(i, 3)],
                       m[AutoPoint(i, 4)]],
          autoPwm := [m[AutoPoint(i, 5)], m[OldDuty(i, 0)], m[OldDuty(i, 1)], old_.autoPwm[3]])
  }

  /** Hysteresis, off, start and maximum temperature; start value and slope. */
  ghost function NewerAuto(m: Regs, i: Chan, old_: PwmState): PwmState {
    old_.(autoTemp := [m[AutoPoint(i, 5)], m[AutoPoint(i, 0)], m[AutoPoint(i, 1)], m[AutoPoint(i, 2)],
                       old_.autoTemp[4]],
          autoPwm := [m[AutoPoint(i, 3)], m[AutoPoint(i, 4)], old_.autoPwm[2], old_.autoPwm[3]])
  }

  ghost function DecodeAuto(chip: Chip, m: Regs, i: Chan, old_: PwmState): PwmState
    requires chip.Newer() || i < 3
  {
    if chip.Old() && i < 3 then OldAuto(m, i, old_)
    else if chip.Newer() then NewerAuto(m, i, old_)
    else old_
  }

  /** it87_update_pwm_ctrl. */
  ghost function DecodePwm(chip: Chip, m: Regs, i: Chan, old_: PwmState): PwmState
    requires chip.Newer() || i < 3
  {
    DecodeAuto(chip, m, i, DecodeMode(chip, m, i, old_))
  }

  ghost function RefreshPwm(chip: Chip, m: Regs, i: Chan, old_: PwmState): PwmState {
    if i in chip.hasPwm then DecodePwm(chip, m, i, old_) else old_
  }

  function UnpackDiv(b: bv8): Divs {
    [b & 0x07, (b >> 3) & 0x07, if b & 0x40 != 0 then 3 else 1]
  }

  ghost function DecodeDiv(chip: Chip, m: Regs, old_: Divs): Divs {
    if chip.HasDividers() then UnpackDiv(m[FanDiv]) else old_
  }

  /** Three bytes side by side. */
  function AlarmWord(a: bv8, b: bv8, c: bv8): bv32 {
    (a as bv32) | ((b as bv32) << 8) | ((c as bv32) << 16)
  }

  ghost function DecodeAlarms(m: Regs): bv32 { AlarmWord(m[Alarm(0)], m[Alarm(1)], m[Alarm(2)]) }

  /** The snapshot that a refresh takes. */
  ghost function Refresh(chip: Chip, m: Regs, c: Cache): Cache {
    Cache(
      seq(13, i requires 0 <= i < 13 => DecodeVin(chip, m, i, c.vins[i])),
      seq(6, i requires 0 <= i < 6 => DecodeFan(chip, m, i, c.fans[i])),
      seq(6, i requires 0 <= i < 6 => DecodeTemp(chip, m, i, c.temps[i])),
      seq(6, i requires 0 <= i < 6 => RefreshPwm(chip, m, i, c.pwms[i])),
      DecodeDiv(chip, m, c.fanDiv),
      DecodeAlarms(m), m[BeepEnable], m[FanMain], m[FanCtl], m[TempEnable], m[TempExtra],
      if chip.kind in {It8712, It8716} then m[Vid] & 0x3f else c.vid)
  }

  // --------------------------------------------------------------- setters

  datatype Write = Write(reg: Reg, value: bv8)

  /** What one call does: its verdict, the cache it leaves, and the register
      writes it performs, in order. */
  datatype Effect = Effect(ok: bool, cache: Cache, writes: seq<Write>)

  ghost function Put(m: Regs, w: Write): Regs { m[w.reg := w.value] }

  ghost function Apply(m: Regs, writes: seq<Write>): Regs
    decreases |writes|
  {
    if writes == [] then m
    else
      var last := |writes| - 1;
      Put(Apply(m, writes[..last]), writes[last])
  }

  function Refused(c: Cache): Effect { Effect(false, c, []) }

  function PutVin(c: Cache, nr: nat, v: Vin): Cache
    requires nr < 13
  {
    c.(vins := c.vins[nr := v])
  }

  function PutFan(c: Cache, nr: nat, f: Fan): Cache
    requires nr < 6
  {
    c.(fans := c.fans[nr := f])
  }

  function PutTemp(c: Cache, nr: nat, t: Temp): Cache
    requires nr < 6
  {
    c.(temps := c.temps[nr := t])
  }

  function PutPwm(c: Cache, nr: nat, p: PwmState): Cache
    requires nr < 6
  {
    c.(pwms := c.pwms[nr := p])
  }

  /** Index 1 is the low limit, 2 the high one. */
  function StoreIn(c: Cache, nr: Octet, index: nat, code: bv8): Effect {
    if index == 1 then Effect(true, PutVin(c, nr, c.vins[nr].(min := code)), [Write(VinMin(nr), code)])
    else Effect(true, PutVin(c, nr, c.vins[nr].(max := code)), [Write(VinMax(nr), code)])
  }

  /** set_in. */
  function SetIn(chip: Chip, c: Cache, nr: Octet, index: nat, val: int): Effect {
    StoreIn(c, nr, index, ByteOf(InToReg(chip.AdcLsb(nr), val)))
  }

  /** Index 1 is the low limit, 2 the high one, 3 the offset, which is only in
      force while the top bit of BEEP_ENABLE is set. */
  ghost function StoreTemp(c: Cache, m: Regs, nr: Chan, index: nat, code: bv8): Effect {
    if index == 2 then Effect(true, PutTemp(c, nr, c.temps[nr].(high := code)), [Write(TempHigh(nr), code)])
    else if index != 3 then Effect(true, PutTemp(c, nr, c.temps[nr].(low := code)), [Write(TempLow(nr), code)])
    else if m[BeepEnable] & 0x80 == 0 then
      Effect(true, PutTemp(c, nr, c.temps[nr].(offset := code)),
        [Write(BeepEnable, m[BeepEnable] | 0x80), Write(TempOffset(nr), code)])
    else Effect(true, PutTemp(c, nr, c.temps[nr].(offset := code)), [Write(TempOffset(nr), code)])
  }

  /** set_temp. */
  ghost function SetTemp(c: Cache, m: Regs, nr: Chan, index: nat, val: int): Effect {
    StoreTemp(c, m, nr, index, SignedByte(TempToReg(val)))
  }

  function Divider(code: bv8): (d: nat)
    ensures d > 0
  {
    DivFromReg(code as nat)
  }

  ghost function StoreFan16(c: Cache, nr: Chan, w: bv16): Effect {
    Effect(true, PutFan(c, nr, c.fans[nr].(min := w)),
      [Write(FanMinLo(nr), Low(w)), Write(FanMinHi(nr), High(w))])
  }

  ghost function StoreFan(c: Cache, nr: Third, div: bv8, b: bv8): Effect {
    Effect(true, PutFan(c.(fanDiv := c.fanDiv[nr := div]), nr, c.fans[nr].(min := Join(b, 0))),
      [Write(FanMinLo(nr), b)])
  }

  /** set_fan for the minimum speed. */
  ghost function SetFan(chip: Chip, c: Cache, m: Regs, nr: Chan, val: int): Effect
    requires (chip.Fan16() || nr < 3)
  {
    if chip.Fan16() then StoreFan16(c, nr, WordOf(Fan16ToReg(val)))
    else
      var div := UnpackDiv(m[FanDiv])[nr];
      StoreFan(c, nr, div, ByteOf(FanToReg(val, Divider(div))))
  }

  /** The divider code that set_fan_div chooses; the third fan has two only. */
  function NewDivCode(nr: Third, val: nat): (code: bv8) {
    if nr < 2 then DivToRegBound(val); ByteOf(DivToReg(val)) else if val < 8 then 1 else 3
  }

  lemma DivToRegBound(val: int)
    ensures DivToReg(val) <= 7
  {
  }

  function PackDiv(old_: bv8, div: Divs): bv8 {
    (old_ & 0x80) | (div[0] & 0x07) | ((div[1] & 0x07) << 3) | (if div[2] == 3 then 0x40 else 0x00)
  }

  ghost function StoreDiv(c: Cache, m: Regs, nr: Third, code: bv8, b: bv8): Effect {
    var div := c.fanDiv[nr := code];
    Effect(true, PutFan(c.(fanDiv := div), nr, c.fans[nr].(min := Join(b, 0))),
      [Write(FanDiv, PackDiv(m[FanDiv], div)), Write(FanMinLo(nr), b)])
  }

  /** The limit code that set_fan_div stores: the cached limit, read with the
      cached divider, encoded again with the new one. */
  function RescaledLimit(c: Cache, nr: Third, code: bv8): (b: bv8) {
    ByteOf(FanToReg(FanFromReg(c.fans[nr].min as nat, Divider(c.fanDiv[nr])), Divider(code)))
  }

  /** set_fan_div: the divider changes and the minimum speed is re-encoded. */
  ghost function SetFanDiv(c: Cache, m: Regs, nr: Third, val: nat): Effect {
    var code := NewDivCode(nr, val);
    StoreDiv(c, m, nr, code, RescaledLimit(c, nr, code))
  }

  /** The consistency that check_trip_points demands of the cached points. */
  predicate TripPointsOk(chip: Chip, p: PwmState) {
    if chip.Old() then
      && Signed(p.autoTemp[0]) <= Signed(p.autoTemp[1]) <= Signed(p.autoTemp[2]) <= Signed(p.autoTemp[3])
      && p.autoPwm[0] <= p.autoPwm[1] <= p.autoPwm[2]
    else
      chip.Newer() ==> Signed(p.autoTemp[1]) <= Signed(p.autoTemp[2]) <= Signed(p.autoTemp[3])
  }

  function PwmToReg(chip: Chip, val: bv8): bv8 { if chip.Newer() then val else val >> 1 }

  function PwmFromReg(chip: Chip, b: bv8): bv8 { if chip.Newer() then b else (b & 0x7f) << 1 }

  /** The control byte of a newer chip, with its mode bit clear. */
  function NewerCtrl(p: PwmState): bv8 { (p.ctrl & 0x7c) | p.tempMap }

  /** On/off mode, with the fan switched on first. */
  ghost function EnterOnOff(c: Cache, m: Regs, nr: Third): Effect {
    var main := c.fanMain & !Bit(nr);
    Effect(true, c.(fanMain := main), [Write(FanCtl, m[FanCtl] | Bit(nr)), Write(FanMain, main)])
  }

  /** Manual mode at full duty, for channels without on/off mode. */
  ghost function EnterFullDuty(chip: Chip, c: Cache, nr: Chan): Effect {
    var p, duty := c.pwms[nr], PwmToReg(chip, 0xff);
    var ctrl := if chip.Newer() then NewerCtrl(p) else duty;
    Effect(true, PutPwm(c, nr, p.(duty := duty, ctrl := ctrl)), [Write(Duty(nr), duty), Write(Pwm(nr), ctrl)])
  }

  /** The control byte for manual or automatic mode. */
  function ModeCtrl(chip: Chip, p: PwmState, automatic: bool): bv8 {
    if chip.Newer() then (if automatic then NewerCtrl(p) | 0x80 else NewerCtrl(p))
    else if automatic then 0x80 else p.duty
  }

  /** Manual or automatic mode, leaving on/off mode if the channel has it. */
  ghost function EnterPwmMode(chip: Chip, c: Cache, nr: Chan, ctrl: bv8): Effect {
    var d := PutPwm(c, nr, c.pwms[nr].(ctrl := ctrl));
    if chip.OnOff(nr) then
      var main := c.fanMain | Bit(nr);
      Effect(true, d.(fanMain := main), [Write(Pwm(nr), ctrl), Write(FanMain, main)])
    else Effect(true, d, [Write(Pwm(nr), ctrl)])
  }

  /** set_pwm_enable: 0 full speed, 1 manual, 2 automatic. */
  ghost function SetPwmEnable(chip: Chip, c: Cache, m: Regs, nr: Chan, val: int): Effect {
    if val < 0 || val > 2 || (val == 2 && !TripPointsOk(chip, c.pwms[nr])) then Refused(c)
    else if val == 0 && chip.OnOff(nr) then EnterOnOff(c, m, nr)
    else if val == 0 then EnterFullDuty(chip, c, nr)
    else EnterPwmMode(chip, c, nr, ModeCtrl(chip, c.pwms[nr], val == 2))
  }

  ghost function StorePwm(chip: Chip, c: Cache, m: Regs, nr: Chan, duty: bv8): Effect
    requires (chip.Newer() || nr < 3)
  {
    var p := DecodePwm(chip, m, nr, c.pwms[nr]);
    if chip.Newer() && p.ctrl & 0x80 != 0 then Refused(PutPwm(c, nr, p))
    else if chip.Newer() then Effect(true, PutPwm(c, nr, p.(duty := duty)), [Write(Duty(nr), duty)])
    else if p.ctrl & 0x80 == 0 then
      Effect(true, PutPwm(c, nr, p.(duty := duty, ctrl := duty)), [Write(Pwm(nr), duty)])
    else Effect(true, PutPwm(c, nr, p.(duty := duty)), [])
  }

  /** set_pwm. */
  ghost function SetPwm(chip: Chip, c: Cache, m: Regs, nr: Chan, val: int): Effect
    requires (chip.Newer() || nr < 3)
  {
    if val < 0 || val > 255 then Refused(c) else StorePwm(chip, c, m, nr, PwmToReg(chip, ByteOf(val)))
  }

  function FreqField(b: bv8, i: bv8): bv8 { (b & 0x8f) | (i << 4) }

  ghost function StoreFreq(c: Cache, m: Regs, nr: Chan, i: bv8): Effect {
    if nr == 0 then
      var b := FreqField(m[FanCtl], i);
      Effect(true, c.(fanCtl := b), [Write(FanCtl, b)])
    else
      var b := FreqField(m[TempExtra], i);
      Effect(true, c.(extra := b), [Write(TempExtra, b)])
  }

  /** set_pwm_freq: the first channel's select is in FAN_CTL, the other one in
      TEMP_EXTRA. */
  ghost function SetPwmFreq(chip: Chip, c: Cache, m: Regs, nr: Chan, val: nat): Effect {
    StoreFreq(c, m, nr, ByteOf(FreqToReg(chip.Newer(), val)))
  }

  /** The map code of set_pwm_temp_map, if there is one. */
  function TempMapCode(nr: Chan, val: int): (code: bv8) {
    var v := if nr >= 3 then val - 3 else val;
    if v == 1 then 0x00 else if v == 2 then 0x01 else if v == 4 then 0x02 else 0xff
  }

  ghost function StoreTempMap(chip: Chip, c: Cache, m: Regs, nr: Chan, code: bv8): Effect
    requires (chip.Newer() || nr < 3)
  {
    var p := DecodePwm(chip, m, nr, c.pwms[nr]).(tempMap := code);
    if p.ctrl & 0x80 != 0 then
      var ctrl := (p.ctrl & 0xfc) | code;
      Effect(true, PutPwm(c, nr, p.(ctrl := ctrl)), [Write(Pwm(nr), ctrl)])
    else Effect(true, PutPwm(c, nr, p), [])
  }

  /** set_pwm_temp_map. */
  ghost function SetTempMap(chip: Chip, c: Cache, m: Regs, nr: Chan, val: int): Effect
    requires (chip.Newer() || nr < 3)
  {
    if TempMapCode(nr, val) == 0xff then Refused(c) else StoreTempMap(chip, c, m, nr, TempMapCode(nr, val))
  }

  function StoreAutoPwm(chip: Chip, c: Cache, nr: Chan, point: Third, b: bv8): Effect
    requires (chip.Newer() || nr < 3)
  {
    var p := c.pwms[nr];
    Effect(true, PutPwm(c, nr, p.(autoPwm := p.autoPwm[point := b])),
      [Write(if chip.Newer() then AutoPoint(nr, 3) else OldAutoPwm(nr, point), b)])
  }

  /** set_auto_pwm. */
  function SetAutoPwm(chip: Chip, c: Cache, nr: Chan, point: Third, val: int): Effect
    requires (chip.Newer() || nr < 3)
  {
    if val < 0 || val > 255 then Refused(c)
    else StoreAutoPwm(chip, c, nr, point, PwmToReg(chip, ByteOf(val)))
  }

  function StoreSlope(c: Cache, nr: Chan, slope: bv8): Effect {
    var p := c.pwms[nr];
    var b := (p.autoPwm[1] & 0x80) | slope;
    Effect(true, PutPwm(c, nr, p.(autoPwm := p.autoPwm[1 := b])), [Write(AutoPoint(nr, 4), b)])
  }

  /** set_auto_pwm_slope. */
  function SetAutoPwmSlope(c: Cache, nr: Chan, val: nat): Effect {
    if val > 127 then Refused(c) else StoreSlope(c, nr, ByteOf(val))
  }

  function StoreAutoTemp(chip: Chip, c: Cache, nr: Chan, point: nat, b: bv8): Effect
    requires point < 5
  {
    var p := c.pwms[nr];
    var k := if !chip.Newer() then point else if point == 0 then 5 else point - 1;
    Effect(true, PutPwm(c, nr, p.(autoTemp := p.autoTemp[point := b])), [Write(AutoPoint(nr, k), b)])
  }

  /** The register value of set_auto_temp: on newer chips point 0 is a
      hysteresis below point 1, in the low five bits. */
  function AutoTempCode(chip: Chip, p: PwmState, point: nat, val: int): bv8 {
    if chip.Newer() && point == 0 then
      ByteOf(Clamp(Signed(p.autoTemp[1]) - TempToReg(val), 0, 0x1f)) | (p.autoTemp[0] & 0xe0)
    else SignedByte(TempToReg(val))
  }

  /** set_auto_temp. */
  function SetAutoTemp(chip: Chip, c: Cache, nr: Chan, point: nat, val: int): Effect
    requires point < 5
  {
    if val < -128000 || val > 127000 then Refused(c)
    else StoreAutoTemp(chip, c, nr, point, AutoTempCode(chip, c.pwms[nr], point, val))
  }

  function WithBit(b: bv8, k: Octet, on: bool): bv8 { if on then b | Bit(k) else b & !Bit(k) }

  /** set_beep. */
  ghost function SetBeep(c: Cache, m: Regs, bit: Octet, val: int): Effect {
    if val != 0 && val != 1 then Refused(c)
    else
      var b := WithBit(m[BeepEnable], bit, val == 1);
      Effect(true, c.(beeps := b), [Write(BeepEnable, b)])
  }

  // ---------------------------------------------------------- sensor types

  /** get_temp_type on the chips without bank select. */
  function TempType(chip: Chip, reg: bv8, extra: bv8, nr: Third): nat {
    if reg & Bit(nr) != 0 then 3
    else if reg & Bit(nr + 3) != 0 then 4
    else if (chip.Peci(nr) && reg >> 6 == PeciSource(nr)) || (chip.OldPeci(nr) && extra & 0x80 != 0) then 6
    else 0
  }

  /** The two-bit source select that means channel nr. */
  function PeciSource(nr: Third): bv8 { if nr == 0 then 1 else if nr == 1 then 2 else 3 }

  /** It is in the top two bits. */
  function PeciSelect(nr: Third): bv8 { PeciSource(nr) << 6 }

  datatype TypeCode = TypeCode(ok: bool, reg: bv8, extra: bv8)

  /** TEMP_ENABLE without the type bits of channel nr, and without the PECI
      source select if that is, or is to become, this channel's. */
  function TypeCleared(chip: Chip, reg: bv8, nr: Third, val: int): bv8 {
    var r := reg & !Bit(nr) & !Bit(nr + 3);
    if chip.Peci(nr) && (r >> 6 == PeciSource(nr) || val == 6) then r & 0x3f else r
  }

  /** TEMP_EXTRA without the PECI bit, if that is channel nr's. */
  function PeciCleared(chip: Chip, extra: bv8, nr: Third, val: int): bv8 {
    if chip.OldPeci(nr) && (extra & 0x80 != 0 || val == 6) then extra & 0x7f else extra
  }

  function BitsSet(b: bv8, mask: bv8): bv8 { b | mask }

  /** The register values that set_temp_type computes. */
  function TempTypeCode(chip: Chip, reg: bv8, extra: bv8, nr: Third, val: int): TypeCode {
    var r, e := TypeCleared(chip, reg, nr, val), PeciCleared(chip, extra, nr, val);
    if val == 3 then TypeCode(true, BitsSet(r, Bit(nr)), e)
    else if val == 2 || val == 4 then TypeCode(true, BitsSet(r, Bit(nr + 3)), e)
    else if chip.Peci(nr) && val == 6 then TypeCode(true, BitsSet(r, PeciSelect(nr)), e)
    else if chip.OldPeci(nr) && val == 6 then TypeCode(true, r, e | 0x80)
    else TypeCode(val == 0, r, e)
  }

  /** set_temp_type. */
  ghost function SetTempType(chip: Chip, c: Cache, m: Regs, nr: Third, val: int): Effect {
    var t := TempTypeCode(chip, m[TempEnable], m[TempExtra], nr, val);
    if !t.ok then Refused(c)
    else
      Effect(true, c.(sensor := t.reg, extra := t.extra),
        [Write(TempEnable, t.reg)] + if chip.OldPeci(nr) then [Write(TempExtra, t.extra)] else [])
  }

  // ------------------------------------------------------------- PWM modes

  /** pwm_mode, from what it reads. */
  function ModeOf(chip: Chip, nr: Chan, p: PwmState, fanMain: bv8): nat {
    if chip.OnOff(nr) && fanMain & Bit(nr) == 0 then 0
    else if p.ctrl & 0x80 != 0 then 2
    else if !chip.OnOff(nr) && p.duty == PwmToReg(chip, 0xff) then 0
    else 1
  }

  function PwmMode(chip: Chip, c: Cache, nr: Chan): nat { ModeOf(chip, nr, c.pwms[nr], c.fanMain) }
}
