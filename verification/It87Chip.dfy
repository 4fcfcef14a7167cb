/** Chip families of the it87ts driver: feature sets, register tables, and the
    proof that, on every layout, each register role has an address of its own. */
module It87Chip {

  /** A channel number of the six-entry register tables. */
  type Chan = i: nat | i < 6

  datatype ChipType =
    | It87 | It8712 | It8716 | It8718 | It8720 | It8721 | It8728 | It8732
    | It8771 | It8772 | It8781 | It8782 | It8783 | It8786 | It8790 | It8792
    | It8603 | It8607 | It8613 | It8620 | It8622 | It8628 | It8655 | It8665
    | It8686

  datatype Feature =
    | Adc12mv | NewerAutopwm | OldAutopwm | Fans16Bit | TempOffsets | TempPeci
    | TempOldPeci | Fan16Config | FiveFans | VidPins | In7Internal | SixFans
    | Adc10_9mv | Avcc3 | FivePwm | SixPwm | PwmFreq2 | SixTemp | Vin3Is5V
    | FourFans | FourPwm | BankSel | Scaling | FanctlOnOff | Adc11mv

  /** The driver's device table. */
  function TableFeatures(t: ChipType): set<Feature> {
    match t
    case It87 => {OldAutopwm, FanctlOnOff}
    case It8712 => {OldAutopwm, VidPins, FanctlOnOff}
    case It8716 => {Fans16Bit, TempOffsets, VidPins, Fan16Config, FiveFans, PwmFreq2, FanctlOnOff}
    case It8718 | It8720 =>
      {Fans16Bit, TempOffsets, VidPins, TempOldPeci, Fan16Config, FiveFans, PwmFreq2, FanctlOnOff}
    case It8721 =>
      {NewerAutopwm, Adc12mv, Fans16Bit, TempOffsets, TempOldPeci, TempPeci, Fan16Config, FourFans,
       In7Internal, PwmFreq2, Scaling, FanctlOnOff}
    case It8728 =>
      {NewerAutopwm, Adc12mv, Fans16Bit, TempOffsets, TempPeci, FiveFans, In7Internal, PwmFreq2, Scaling,
       FanctlOnOff}
    case It8732 =>
      {NewerAutopwm, Fans16Bit, TempOffsets, TempOldPeci, TempPeci, Adc10_9mv, In7Internal, FourFans,
       FourPwm, FanctlOnOff}
    case It8771 | It8772 =>
      {NewerAutopwm, Adc12mv, Fans16Bit, TempOffsets, TempPeci, In7Internal, PwmFreq2, Scaling, FanctlOnOff}
    case It8781 | It8782 | It8783 =>
      {Fans16Bit, TempOffsets, TempOldPeci, Fan16Config, PwmFreq2, FanctlOnOff}
    case It8786 =>
      {NewerAutopwm, Adc12mv, Fans16Bit, TempOffsets, TempPeci, In7Internal, PwmFreq2, FanctlOnOff}
    case It8790 | It8792 =>
      {NewerAutopwm, Adc10_9mv, Scaling, Fans16Bit, TempOffsets, TempPeci, In7Internal, PwmFreq2, FanctlOnOff}
    case It8603 =>
      {NewerAutopwm, Adc12mv, Fans16Bit, TempOffsets, TempPeci, In7Internal, Avcc3, PwmFreq2, Scaling}
    case It8607 =>
      {NewerAutopwm, Adc12mv, Fans16Bit, TempOffsets, TempPeci, In7Internal, Avcc3, PwmFreq2, Scaling,
       FanctlOnOff}
    case It8613 =>
      {NewerAutopwm, Adc11mv, Fans16Bit, TempOffsets, TempPeci, FiveFans, FivePwm, In7Internal, PwmFreq2,
       Avcc3, Vin3Is5V, Scaling}
    case It8620 =>
      {NewerAutopwm, Adc12mv, Fans16Bit, TempOffsets, TempPeci, SixFans, In7Internal, SixPwm, PwmFreq2,
       SixTemp, Vin3Is5V, Scaling, FanctlOnOff}
    case It8622 =>
      {NewerAutopwm, Adc12mv, Fans16Bit, TempOffsets, TempPeci, FiveFans, FivePwm, In7Internal, PwmFreq2,
       Avcc3, Vin3Is5V, Scaling}
    case It8628 =>
      {NewerAutopwm, Adc12mv, Fans16Bit, TempOffsets, TempPeci, SixFans, In7Internal, SixPwm, PwmFreq2,
       SixTemp, Scaling, Avcc3, FanctlOnOff}
    case It8655 =>
      {NewerAutopwm, Fans16Bit, TempOffsets, Avcc3, Adc10_9mv, In7Internal, BankSel}
    case It8665 =>
      {NewerAutopwm, Fans16Bit, TempOffsets, Avcc3, Adc10_9mv, In7Internal, SixFans, SixPwm, BankSel}
    case It8686 =>
      {NewerAutopwm, Adc12mv, Fans16Bit, TempOffsets, SixFans, In7Internal, SixPwm, PwmFreq2, SixTemp,
       BankSel, Scaling, Avcc3}
  }

  function NumTempLimit(t: ChipType): nat {
    if t in {It8655, It8665, It8686} then 6 else 3
  }

  /** The channels of a bit mask, as the driver's per-channel tests see them. */
  function PeciChannels(t: ChipType): set<nat> {
    match t
    case It8721 => {0, 2}
    case It8728 | It8732 | It8771 | It8772 | It8786 | It8790 | It8792 | It8603 | It8607 | It8613 | It8620
       | It8622 | It8628 => {0, 1, 2}
    case _ => {}
  }

  function OldPeciChannels(t: ChipType): set<nat> {
    match t
    case It8718 | It8720 | It8781 | It8782 | It8783 => {2}
    case It8721 | It8732 => {1}
    case _ => {}
  }

  /** Probing upgrades the features of the later IT8705F and IT8712F revisions. */
  function ProbedFeatures(t: ChipType, revision: nat): set<Feature> {
    var f := TableFeatures(t);
    if t == It87 && revision >= 0x03 then f - {OldAutopwm} + {Fan16Config, Fans16Bit}
    else if t == It8712 && revision >= 0x08 then f - {OldAutopwm} + {Fan16Config, Fans16Bit, FiveFans}
    else f
  }

  predicate HasFourFans(f: set<Feature>) { FourFans in f || FiveFans in f || SixFans in f }
  predicate HasFiveFans(f: set<Feature>) { FiveFans in f || SixFans in f }
  predicate HasFourPwm(f: set<Feature>) { FourPwm in f || FivePwm in f || SixPwm in f }
  predicate HasFivePwm(f: set<Feature>) { FivePwm in f || SixPwm in f }

  /** One probed chip: what the driver keeps about it for its whole life. The
      driver's channel bit masks are sets of channel numbers here. */
  datatype ChipData = ChipData(
    kind: ChipType,
    features: set<Feature>,
    numTempLimit: nat,
    peci: set<nat>,
    oldPeci: set<nat>,
    inScaled: set<nat>,
    hasIn: set<nat>,
    hasFan: set<nat>,
    hasTemp: set<nat>,
    hasPwm: set<nat>)
  {
    /** The ADC step of voltage channel nr, in tenths of a millivolt. */
    function AdcLsb(nr: nat): (lsb: nat)
      ensures lsb in {109, 110, 120, 160, 218, 220, 240, 320}
    {
      var lsb :=
        if Adc12mv in features then 120
        else if Adc10_9mv in features then 109
        else if Adc11mv in features then 110
        else 160;
      if nr in inScaled then 2 * lsb else lsb
    }

    predicate Newer() { NewerAutopwm in features }
    predicate Old() { OldAutopwm in features }
    predicate Fan16() { Fans16Bit in features }
    predicate OnOff(nr: nat) { FanctlOnOff in features && nr < 3 }
    predicate Peci(nr: nat) { TempPeci in features && nr in peci }
    predicate OldPeci(nr: nat) { TempOldPeci in features && nr in oldPeci }
    predicate HasDividers() { !Fan16() && (0 in hasFan || 1 in hasFan || 2 in hasFan) }

    /** What every driver operation relies on about the probed chip. */
    predicate Valid() {
      && numTempLimit <= 6
      && !(Old() && Newer())
      && (!Newer() ==> FanctlOnOff in features && 3 !in hasPwm && 4 !in hasPwm && 5 !in hasPwm)
      && (!Fan16() ==> 3 !in hasFan && 4 !in hasFan && 5 !in hasFan)
      && !(OldPeci(0) && OldPeci(1)) && !(OldPeci(0) && OldPeci(2)) && !(OldPeci(1) && OldPeci(2))
    }
  }

  type Chip = c: ChipData | c.Valid()
    witness ChipData(It8728, TableFeatures(It8728), 3, {}, {}, {}, {}, {}, {}, {})

  /** Which of the alternative register tables the chip uses. */
  datatype Layout = Layout(fan8665: bool, pwm8665: bool, temp8686: bool)

  function LayoutOf(t: ChipType): Layout {
    match t
    case It8686 => Layout(false, false, true)
    case It8655 | It8665 => Layout(true, true, false)
    case It8622 | It8613 => Layout(false, true, false)
    case _ => Layout(false, false, false)
  }

  const REG_FAN: seq<nat> := [0x0d, 0x0e, 0x0f, 0x80, 0x82, 0x4c]
  const REG_FAN_MIN: seq<nat> := [0x10, 0x11, 0x12, 0x84, 0x86, 0x4e]
  const REG_FANX: seq<nat> := [0x18, 0x19, 0x1a, 0x81, 0x83, 0x4d]
  const REG_FANX_MIN: seq<nat> := [0x1b, 0x1c, 0x1d, 0x85, 0x87, 0x4f]
  const REG_FAN_8665: seq<nat> := [0x0d, 0x0e, 0x0f, 0x80, 0x82, 0x93]
  const REG_FAN_MIN_8665: seq<nat> := [0x10, 0x11, 0x12, 0x84, 0x86, 0xb2]
  const REG_FANX_8665: seq<nat> := [0x18, 0x19, 0x1a, 0x81, 0x83, 0x94]
  const REG_FANX_MIN_8665: seq<nat> := [0x1b, 0x1c, 0x1d, 0x85, 0x87, 0xb3]
  const REG_TEMP_OFFSET: seq<nat> := [0x56, 0x57, 0x59, 0x5a, 0x90, 0x91]
  const REG_TEMP_OFFSET_8686: seq<nat> := [0x56, 0x57, 0x59, 0x90, 0x91, 0x92]
  const REG_PWM: seq<nat> := [0x15, 0x16, 0x17, 0x7f, 0xa7, 0xaf]
  const REG_PWM_8665: seq<nat> := [0x15, 0x16, 0x17, 0x1e, 0x1f, 0x92]
  const REG_PWM_DUTY: seq<nat> := [0x63, 0x6b, 0x73, 0x7b, 0xa3, 0xab]
  const REG_VIN: seq<nat> := [0x20, 0x21, 0x22, 0x23, 0x24, 0x25, 0x26, 0x27, 0x28, 0x2f, 0x2c, 0x2d, 0x2e]
  const REG_TEMP_HIGH: seq<nat> := [0x40, 0x42, 0x44, 0x46, 0xb4, 0xb6]
  const REG_TEMP_LOW: seq<nat> := [0x41, 0x43, 0x45, 0x47, 0xb5, 0xb7]
  const REG_TEMP_HIGH_8686: seq<nat> := [0x40, 0x42, 0x44, 0xb4, 0xb6, 0xb8]
  const REG_TEMP_LOW_8686: seq<nat> := [0x41, 0x43, 0x45, 0xb5, 0xb7, 0xb9]
  const REG_AUTO_BASE: seq<nat> := [0x60, 0x68, 0x70, 0x78, 0xa0, 0xa8]

  /** The role a register plays. Two table entries of the driver with one and
      the same address are one role: the duty register of a channel is
      AutoPoint(nr, 3), in10..in12 are Sensor(3..5). */
  datatype Reg =
    | Config | Alarm(k: Third) | Vid | FanDiv | Fan16Bit | FanMain | FanCtl
    | FanLo(i: Chan) | FanHi(i: Chan) | FanMinLo(i: Chan) | FanMinHi(i: Chan)
    | Pwm(i: Chan) | AutoPoint(i: Chan, point: Chan) | OldDuty(ch: Third, step: Second)
    | Voltage(v: Digit) | Sensor(i: Chan) | VinMin(w: Octet) | VinMax(w: Octet)
    | TempHigh(i: Chan) | TempLow(i: Chan) | TempOffset(i: Chan)
    | VinEnable | TempEnable | TempExtra | BeepEnable | ChipId

  type Second = i: nat | i < 2
  type Third = i: nat | i < 3
  type Octet = i: nat | i < 8
  type Digit = i: nat | i < 10

  /** PWM_DUTY[nr] of the driver. */
  function Duty(nr: Chan): Reg { AutoPoint(nr, 3) }

  /** IT87_REG_VIN[i] of the driver. */
  function VinInput(i: nat): Reg
    requires i < 13
  {
    if i < 10 then Voltage(i) else Sensor(i - 7)
  }

  /** IT87_REG_AUTO_PWM(nr, i) of the driver, for the chips with three channels. */
  function OldAutoPwm(nr: Third, i: Third): Reg {
    if i == 0 then AutoPoint(nr, 5) else OldDuty(nr, i - 1)
  }

  /** The address the driver uses for each role. */
  function Addr(l: Layout, r: Reg): (a: nat)
    ensures a < 0x100 && a != 0x06
  {
    match r
    case Config => 0x00
    case Alarm(k) => 0x01 + k
    case Vid => 0x0a
    case FanDiv => 0x0b
    case Fan16Bit => 0x0c
    case FanMain => 0x13
    case FanCtl => 0x14
    case FanLo(i) => if l.fan8665 then REG_FAN_8665[i] else REG_FAN[i]
    case FanHi(i) => if l.fan8665 then REG_FANX_8665[i] else REG_FANX[i]
    case FanMinLo(i) => if l.fan8665 then REG_FAN_MIN_8665[i] else REG_FAN_MIN[i]
    case FanMinHi(i) => if l.fan8665 then REG_FANX_MIN_8665[i] else REG_FANX_MIN[i]
    case Pwm(i) => if l.pwm8665 then REG_PWM_8665[i] else REG_PWM[i]
    case AutoPoint(i, k) => REG_AUTO_BASE[i] + k
    case OldDuty(i, k) => REG_AUTO_BASE[i] + 6 + k
    case Voltage(i) => if i < 9 then 0x20 + i else 0x2f
    case Sensor(i) => 0x29 + i
    case VinMin(i) => 0x31 + 2 * i
    case VinMax(i) => 0x30 + 2 * i
    case TempHigh(i) => if l.temp8686 then REG_TEMP_HIGH_8686[i] else REG_TEMP_HIGH[i]
    case TempLow(i) => if l.temp8686 then REG_TEMP_LOW_8686[i] else REG_TEMP_LOW[i]
    case TempOffset(i) => if l.temp8686 then REG_TEMP_OFFSET_8686[i] else REG_TEMP_OFFSET[i]
    case VinEnable => 0x50
    case TempEnable => 0x51
    case TempExtra => 0x55
    case ChipId => 0x58
    case BeepEnable => 0x5c
  }

  /** The register map read the other way: the role found at an address. */
  function Role(l: Layout, a: nat): Reg {
    if a == 0 then Config
    else if a <= 0x03 then Alarm(a - 1)
    else if a == 0x0a then Vid
    else if a == 0x0b then FanDiv
    else if a == 0x0c then Fan16Bit
    else if 0x0d <= a <= 0x0f then FanLo(a - 0x0d)
    else if 0x10 <= a <= 0x12 then FanMinLo(a - 0x10)
    else if a == 0x13 then FanMain
    else if a == 0x14 then FanCtl
    else if 0x15 <= a <= 0x17 then Pwm(a - 0x15)
    else if 0x18 <= a <= 0x1a then FanHi(a - 0x18)
    else if 0x1b <= a <= 0x1d then FanMinHi(a - 0x1b)
    else if 0x1e <= a <= 0x1f then Pwm(a - 0x1b)
    else if 0x20 <= a <= 0x28 then Voltage(a - 0x20)
    else if 0x29 <= a <= 0x2e then Sensor(a - 0x29)
    else if a == 0x2f then Voltage(9)
    else if 0x30 <= a <= 0x3f then (if a % 2 == 0 then VinMax((a - 0x30) / 2) else VinMin((a - 0x31) / 2))
    else if 0x40 <= a <= 0x47 then (if a % 2 == 0 then TempHigh((a - 0x40) / 2) else TempLow((a - 0x41) / 2))
    else if a == 0x4c then FanLo(5)
    else if a == 0x4d then FanHi(5)
    else if a == 0x4e then FanMinLo(5)
    else if a == 0x4f then FanMinHi(5)
    else if a == 0x50 then VinEnable
    else if a == 0x51 then TempEnable
    else if a == 0x55 then TempExtra
    else if a == 0x56 || a == 0x57 then TempOffset(a - 0x56)
    else if a == 0x58 then ChipId
    else if a == 0x59 || a == 0x5a then TempOffset(a - 0x57)
    else if a == 0x5c then BeepEnable
    else if 0x60 <= a <= 0x77 then
      (if a % 8 < 6 then AutoPoint((a - 0x60) / 8, a % 8) else OldDuty((a - 0x60) / 8, a % 8 - 6))
    else if 0x78 <= a <= 0x7d then AutoPoint(3, a - 0x78)
    else if a == 0x7f then Pwm(3)
    else if a == 0x80 || a == 0x82 then FanLo(3 + (a - 0x80) / 2)
    else if a == 0x81 || a == 0x83 then FanHi(3 + (a - 0x81) / 2)
    else if a == 0x84 || a == 0x86 then FanMinLo(3 + (a - 0x84) / 2)
    else if a == 0x85 || a == 0x87 then FanMinHi(3 + (a - 0x85) / 2)
    else if a == 0x90 || a == 0x91 then (if l.temp8686 then TempOffset(a - 0x8d) else TempOffset(a - 0x8c))
    else if a == 0x92 then (if l.temp8686 then TempOffset(5) else Pwm(5))
    else if a == 0x93 then FanLo(5)
    else if a == 0x94 then FanHi(5)
    else if 0xa0 <= a <= 0xa5 then AutoPoint(4, a - 0xa0)
    else if a == 0xa7 then Pwm(4)
    else if 0xa8 <= a <= 0xad then AutoPoint(5, a - 0xa8)
    else if a == 0xaf then Pwm(5)
    else if a == 0xb2 then FanMinLo(5)
    else if a == 0xb3 then FanMinHi(5)
    else if a == 0xb4 || a == 0xb6 || a == 0xb8 then
      (var k := (a - 0xb4) / 2; TempHigh(if l.temp8686 then 3 + k else if k < 2 then 4 + k else 5))
    else if a == 0xb5 || a == 0xb7 || a == 0xb9 then
      (var k := (a - 0xb5) / 2; TempLow(if l.temp8686 then 3 + k else if k < 2 then 4 + k else 5))
    else Config
  }

  /** The four table combinations that the driver selects. */
  predicate Selected(l: Layout) {
    l in {Layout(false, false, true), Layout(true, true, false), Layout(false, true, false),
          Layout(false, false, false)}
  }

  lemma FanLoRole(l: Layout, i: Chan)
    requires Selected(l)
    ensures Role(l, Addr(l, FanLo(i))) == FanLo(i)
  {
    if i < 3 { } else if i == 3 { } else if i == 4 { } else { }
  }

  lemma FanHiRole(l: Layout, i: Chan)
    requires Selected(l)
    ensures Role(l, Addr(l, FanHi(i))) == FanHi(i)
  {
    if i < 3 { } else if i == 3 { } else if i == 4 { } else { }
  }

  lemma FanMinLoRole(l: Layout, i: Chan)
    requires Selected(l)
    ensures Role(l, Addr(l, FanMinLo(i))) == FanMinLo(i)
  {
    if i < 3 { } else if i == 3 { } else if i == 4 { } else { }
  }

  lemma FanMinHiRole(l: Layout, i: Chan)
    requires Selected(l)
    ensures Role(l, Addr(l, FanMinHi(i))) == FanMinHi(i)
  {
    if i < 3 { } else if i == 3 { } else if i == 4 { } else { }
  }

  lemma TempHighRole(l: Layout, i: Chan)
    requires Selected(l)
    ensures Role(l, Addr(l, TempHigh(i))) == TempHigh(i)
  {
    if i < 3 { } else if i == 3 { } else if i == 4 { } else { }
  }

  lemma TempLowRole(l: Layout, i: Chan)
    requires Selected(l)
    ensures Role(l, Addr(l, TempLow(i))) == TempLow(i)
  {
    if i < 3 { } else if i == 3 { } else if i == 4 { } else { }
  }

  lemma TempOffsetRole(l: Layout, i: Chan)
    requires Selected(l)
    ensures Role(l, Addr(l, TempOffset(i))) == TempOffset(i)
  {
    if i < 3 { } else if i == 3 { } else if i == 4 { } else { }
  }

  lemma PwmRole(l: Layout, i: Chan)
    requires Selected(l)
    ensures Role(l, Addr(l, Pwm(i))) == Pwm(i)
  {
    if i < 3 { } else if i == 3 { } else if i == 4 { } else { }
  }

  lemma AutoPointRole(l: Layout, i: Chan, k: Chan)
    requires Selected(l)
    ensures Role(l, Addr(l, AutoPoint(i, k))) == AutoPoint(i, k)
  {
    if i < 3 { } else if i == 3 { } else if i == 4 { } else { }
  }

  lemma FixedRolesAtAddr(l: Layout, r: Reg)
    requires Selected(l)
    requires r.OldDuty? || r.Voltage? || r.Sensor? || r.VinMin? || r.VinMax? || r.Alarm?
    ensures Role(l, Addr(l, r)) == r
  {
    match r
    case OldDuty(i, k) => if i == 0 { } else if i == 1 { } else { }
    case _ =>
  }

  /** Every role is found again at its own address, so on each selected layout
      the register tables are pairwise distinct. */
  lemma RoleAtAddr(l: Layout, r: Reg)
    requires Selected(l)
    ensures Role(l, Addr(l, r)) == r
  {
    match r
    case FanLo(i) => FanLoRole(l, i);
    case FanHi(i) => FanHiRole(l, i);
    case FanMinLo(i) => FanMinLoRole(l, i);
    case FanMinHi(i) => FanMinHiRole(l, i);
    case TempHigh(i) => TempHighRole(l, i);
    case TempLow(i) => TempLowRole(l, i);
    case TempOffset(i) => TempOffsetRole(l, i);
    case Pwm(i) => PwmRole(l, i);
    case AutoPoint(i, k) => AutoPointRole(l, i, k);
    case OldDuty(_, _) => FixedRolesAtAddr(l, r);
    case Voltage(_) => FixedRolesAtAddr(l, r);
    case Sensor(_) => FixedRolesAtAddr(l, r);
    case VinMin(_) => FixedRolesAtAddr(l, r);
    case VinMax(_) => FixedRolesAtAddr(l, r);
    case Alarm(_) => FixedRolesAtAddr(l, r);
    case _ =>
  }

  /** No two roles share an address. */
  lemma AddrInjective(t: ChipType, r: Reg, s: Reg)
    requires Addr(LayoutOf(t), r) == Addr(LayoutOf(t), s)
    ensures r == s
  {
    RoleAtAddr(LayoutOf(t), r);
    RoleAtAddr(LayoutOf(t), s);
  }

  lemma SharedAddresses(l: Layout, nr: Chan, i: nat)
    requires i < 13
    ensures Addr(l, AutoPoint(nr, 3)) == REG_PWM_DUTY[nr] == REG_AUTO_BASE[nr] + 3
    ensures Addr(l, if i < 10 then Voltage(i) else Sensor(i - 7)) == REG_VIN[i]
  {
  }

  /** The table entries that the driver keeps apart but the chip does not, and no
      other role is at their addresses: a channel's duty register is its fourth
      automatic-mode register, and in10..in12 are read where temp4..temp6 are. */
  lemma SharedRegisters(t: ChipType, nr: Chan, i: nat, r: Reg)
    requires i < 13
    ensures Addr(LayoutOf(t), r) == REG_PWM_DUTY[nr] <==> r == AutoPoint(nr, 3)
    ensures Addr(LayoutOf(t), r) == REG_VIN[i] <==> r == if i < 10 then Voltage(i) else Sensor(i - 7)
  {
    hide Addr, LayoutOf;
    SharedAddresses(LayoutOf(t), nr, i);
    if Addr(LayoutOf(t), r) == REG_PWM_DUTY[nr] {
      AddrInjective(t, r, AutoPoint(nr, 3));
    }
    if Addr(LayoutOf(t), r) == REG_VIN[i] {
      AddrInjective(t, r, if i < 10 then Voltage(i) else Sensor(i - 7));
    }
  }
}
