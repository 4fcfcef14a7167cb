/** Probing of the it87ts driver: the channels and features that it keeps for
    the life of the device, and what every operation relies on about them. */
module It87Probe {
  import opened Bytes
  import opened It87Chip
  import opened It87Spec

  type Channels = set<nat>

  /** What the Super-I/O configuration space said: internal voltages, and the
      pins that serve another purpose on this board. */
  datatype Straps = Straps(
    internal: Channels, skipIn: Channels, skipFan: Channels, skipPwm: Channels, skipTemp: Channels)

  /** PWM channels that the chip type does not have at all. */
  function MissingPwm(f: set<Feature>): Channels {
    if !HasFourPwm(f) then {3, 4, 5}
    else if !HasFivePwm(f) then {4, 5}
    else if SixPwm !in f then {5}
    else {}
  }

  /** One of the three two-bit fields that say what a pin measures. */
  function PinField(b: bv8, k: Third): bv8 {
    if k == 0 then b & 0x03 else if k == 1 then (b >> 2) & 0x03 else (b >> 4) & 0x03
  }

  function AlsoTemp(b: bv8, k: Third): Channels { if PinField(b, k) >= 2 then {3 + k} else {} }

  function AlsoIn(b: bv8, k: Third): Channels { if PinField(b, k) == 1 then {10 + k} else {} }

  function ProbedTemp(t: ChipType, s: Straps, pins: bv8, extra: bv8): Channels {
    var f := TableFeatures(t);
    var three := if 2 in s.skipTemp && t == It8782 && extra & 0x80 == 0 then {0, 1} else {0, 1, 2};
    if SixTemp in f then three + AlsoTemp(pins, 0) + AlsoTemp(pins, 1) + AlsoTemp(pins, 2) else three
  }

  function ProbedIn(t: ChipType, s: Straps, pins: bv8): Channels {
    var ten := {0, 1, 2, 3, 4, 5, 6, 7, 8, 9} - s.skipIn;
    if SixTemp in TableFeatures(t) then ten + AlsoIn(pins, 0) + AlsoIn(pins, 1) + AlsoIn(pins, 2) else ten
  }

  /** The sixth fan, whose enable bit is in a register of its own on one type. */
  function SixthFan(t: ChipType, fan16: bv8, fanDiv: bv8): Channels {
    if t in {It8620, It8628, It8686} then if fan16 & 0x04 != 0 then {5} else {}
    else if t == It8665 then if fanDiv & 0x08 != 0 then {5} else {}
    else {}
  }

  function ProbedFan(t: ChipType, revision: nat, s: Straps, fanMain: bv8, fan16: bv8, fanDiv: bv8): Channels {
    var f := ProbedFeatures(t, revision);
    var three :=
      (if fanMain & 0x10 != 0 then {0} else {}) + (if fanMain & 0x20 != 0 then {1} else {}) +
      (if fanMain & 0x40 != 0 then {2} else {});
    var fourth := if HasFourFans(f) && fan16 & 0x10 != 0 then {3} else {};
    var fifth := if HasFiveFans(f) && fan16 & 0x20 != 0 then {4} else {};
    var sixth := if SixFans in f then SixthFan(t, fan16, fanDiv) else {};
    three + fourth + fifth + sixth - s.skipFan
  }

  /** The sixth PWM can be switched off in the chip. */
  function ProbedPwm(t: ChipType, s: Straps, fanDiv: bv8): Channels {
    var f := TableFeatures(t);
    var off := if SixPwm in f && t in {It8620, It8686} && fanDiv & 0x08 == 0 then {5} else {};
    {0, 1, 2, 3, 4, 5} - MissingPwm(f) - s.skipPwm - off
  }

  function ProbedScaling(t: ChipType, s: Straps): Channels {
    var early := (if 0 in s.internal then {3} else {}) + (if 1 in s.internal then {7} else {});
    if Scaling in TableFeatures(t) then
      early + (if 2 in s.internal then {8} else {}) + (if 3 in s.internal then {9} else {})
    else if t in {It8781, It8782, It8783} then early
    else {}
  }

  /** The probed device: pins is the register that says what the six shared pins
      measure, and pwmSafe the verdict of it87_check_pwm. */
  ghost function Probe(t: ChipType, revision: nat, s: Straps, m: Regs, pins: bv8, pwmSafe: bool): ChipData {
    ChipData(t, ProbedFeatures(t, revision), NumTempLimit(t), PeciChannels(t), OldPeciChannels(t),
      ProbedScaling(t, s), ProbedIn(t, s, pins), ProbedFan(t, revision, s, m[FanMain], m[Fan16Bit], m[FanDiv]),
      ProbedTemp(t, s, pins, m[TempExtra]), if pwmSafe then ProbedPwm(t, s, m[FanDiv]) else {})
  }

  /** Chips without newer automatic mode have on/off control and three PWMs. */
  lemma OlderTypes(t: ChipType, revision: nat)
    ensures var f := ProbedFeatures(t, revision);
      && !(OldAutopwm in f && NewerAutopwm in f)
      && (NewerAutopwm !in f ==> FanctlOnOff in f && !HasFourPwm(TableFeatures(t)))
  {
  }

  /** Chips with 8-bit tachometers have three of them. */
  lemma ThreeTachometers(t: ChipType, revision: nat)
    ensures var f := ProbedFeatures(t, revision);
      Fans16Bit !in f ==> !HasFourFans(f)
  {
  }

  lemma OnePeciChannel(t: ChipType, i: nat, j: nat)
    requires i in OldPeciChannels(t) && j in OldPeciChannels(t)
    ensures i == j
  {
  }

  /** Whatever the board and the registers say, the probed device is one that
      every operation of the driver can rely on. */
  lemma ProbedValid(t: ChipType, revision: nat, s: Straps, m: Regs, pins: bv8, pwmSafe: bool)
    ensures Probe(t, revision, s, m, pins, pwmSafe).Valid()
  {
    OlderTypes(t, revision);
    ThreeTachometers(t, revision);
    hide ProbedTemp, ProbedIn, ProbedScaling, ProbedFeatures, SixthFan, TableFeatures;
    var c := Probe(t, revision, s, m, pins, pwmSafe);
    forall i, j | i in c.oldPeci && j in c.oldPeci
      ensures i == j
    {
      OnePeciChannel(t, i, j);
    }
  }

  // ------------------------------------------------ the channels, one by one

  lemma ProbedFlag(b: bv8)
    ensures Flag(b, 2) <==> b & 0x04 != 0
    ensures Flag(b, 3) <==> b & 0x08 != 0
    ensures Flag(b, 4) <==> b & 0x10 != 0
    ensures Flag(b, 5) <==> b & 0x20 != 0
    ensures Flag(b, 6) <==> b & 0x40 != 0
  {
  }

  /** A fan is there if its pin serves as one and its enable bit is set: bits 4 to 6
      of the mode register for the first three; bits 4 and 5 of the 16-bit register
      on the chips with that many; for the sixth, by chip type, bit 2 of that
      register or bit 3 of the divider register. */
  lemma ProbedFans(t: ChipType, revision: nat, s: Straps, m: Regs, pins: bv8, pwmSafe: bool, i: Chan)
    ensures var f := ProbedFeatures(t, revision);
      i in Probe(t, revision, s, m, pins, pwmSafe).hasFan <==>
        && i !in s.skipFan
        && if i < 3 then Flag(m[FanMain], i + 4)
           else if i == 3 then (FourFans in f || FiveFans in f || SixFans in f) && Flag(m[Fan16Bit], 4)
           else if i == 4 then (FiveFans in f || SixFans in f) && Flag(m[Fan16Bit], 5)
           else SixFans in f && if t == It8665 then Flag(m[FanDiv], 3)
                                else t in {It8620, It8628, It8686} && Flag(m[Fan16Bit], 2)
  {
    hide Flag, ProbedFeatures, ProbedTemp, ProbedIn, ProbedPwm, ProbedScaling, NumTempLimit, PeciChannels,
      OldPeciChannels;
    ProbedFlag(m[FanMain]);
    ProbedFlag(m[Fan16Bit]);
    ProbedFlag(m[FanDiv]);
  }

  /** A PWM channel is there if the chip has that many, its pin serves as one, and
      the polarity check let the driver touch any; the sixth one of two chip types
      must be switched on in bit 3 of the divider register. */
  lemma ProbedPwms(t: ChipType, revision: nat, s: Straps, m: Regs, pins: bv8, pwmSafe: bool, i: Chan)
    ensures var f := TableFeatures(t);
      i in Probe(t, revision, s, m, pins, pwmSafe).hasPwm <==>
        && pwmSafe && i !in s.skipPwm
        && if i < 3 then true
           else if i == 3 then FourPwm in f || FivePwm in f || SixPwm in f
           else if i == 4 then FivePwm in f || SixPwm in f
           else SixPwm in f && (t in {It8620, It8686} ==> Flag(m[FanDiv], 3))
  {
    hide Flag, TableFeatures, ProbedFeatures, ProbedTemp, ProbedIn, ProbedFan, ProbedScaling, NumTempLimit,
      PeciChannels, OldPeciChannels;
    ProbedFlag(m[FanDiv]);
  }

  lemma FieldFlags(b: bv8, k: Third)
    ensures PinField(b, k) >= 2 <==> Flag(b, 2 * k + 1)
    ensures PinField(b, k) == 1 <==> Flag(b, 2 * k) && !Flag(b, 2 * k + 1)
  {
  }

  lemma TempPins(t: ChipType, s: Straps, pins: bv8, extra: bv8, k: Third)
    ensures 3 + k in ProbedTemp(t, s, pins, extra) <==> SixTemp in TableFeatures(t) && Flag(pins, 2 * k + 1)
  {
    hide Flag, TableFeatures, PinField;
    FieldFlags(pins, k);
  }

  lemma InPins(t: ChipType, s: Straps, pins: bv8, k: Third)
    ensures 10 + k in ProbedIn(t, s, pins) <==>
      SixTemp in TableFeatures(t) && Flag(pins, 2 * k) && !Flag(pins, 2 * k + 1)
  {
    hide Flag, TableFeatures, PinField;
    FieldFlags(pins, k);
  }

  /** The three shared pins of the chips with six temperatures measure a temperature
      if the upper bit of their field is set, a voltage if only the lower one is, and
      nothing otherwise; no other chip uses them. */
  lemma ProbedPins(t: ChipType, revision: nat, s: Straps, m: Regs, pins: bv8, pwmSafe: bool, k: Third)
    ensures var c, six := Probe(t, revision, s, m, pins, pwmSafe), SixTemp in TableFeatures(t);
      && (3 + k in c.hasTemp <==> six && Flag(pins, 2 * k + 1))
      && (10 + k in c.hasIn <==> six && Flag(pins, 2 * k) && !Flag(pins, 2 * k + 1))
  {
    hide Flag, TableFeatures, ProbedFeatures, ProbedFan, ProbedPwm, ProbedScaling, ProbedTemp, ProbedIn, NumTempLimit,
      PeciChannels, OldPeciChannels;
    TempPins(t, s, pins, m[TempExtra], k);
    InPins(t, s, pins, k);
  }

  /** So temp4..temp6 and in10..in12, which read the same three registers, are never
      both enabled. */
  lemma SharedPinsApart(t: ChipType, revision: nat, s: Straps, m: Regs, pins: bv8, pwmSafe: bool, k: Third)
    ensures var c := Probe(t, revision, s, m, pins, pwmSafe);
      && !(3 + k in c.hasTemp && 10 + k in c.hasIn)
      && VinInput(10 + k) == Sensor(3 + k)
  {
    hide Probe, Flag, TableFeatures;
    ProbedPins(t, revision, s, m, pins, pwmSafe, k);
  }

  lemma TopFlag(b: bv8)
    ensures Flag(b, 7) <==> b & 0x80 != 0
  {
  }

  lemma FirstTemps(t: ChipType, s: Straps, pins: bv8, extra: bv8, i: Third)
    ensures i in ProbedTemp(t, s, pins, extra) <==> i < 2 || !(t == It8782 && 2 in s.skipTemp && !Flag(extra, 7))
  {
    hide Flag, TableFeatures, PinField;
    TopFlag(extra);
  }

  lemma FirstIns(t: ChipType, s: Straps, pins: bv8, i: Digit)
    ensures i in ProbedIn(t, s, pins) <==> i !in s.skipIn
  {
    hide TableFeatures, PinField;
  }

  /** The inputs with pins of their own: ten voltages unless their pins serve
      otherwise, two temperatures, and a third one but on one chip type. Some of the
      voltages are scaled down inside the chip: four on the types that say so, two on
      three others. */
  lemma ProbedInputs(t: ChipType, revision: nat, s: Straps, m: Regs, pins: bv8, pwmSafe: bool, i: Digit)
    ensures var c := Probe(t, revision, s, m, pins, pwmSafe);
      && (i in c.hasIn <==> i !in s.skipIn)
      && (i < 3 ==> (i in c.hasTemp <==> i < 2 || !(t == It8782 && 2 in s.skipTemp && !Flag(m[TempExtra], 7))))
      && (i in c.inScaled <==>
            && (Scaling in TableFeatures(t) || (t in {It8781, It8782, It8783} && i < 8))
            && ((i == 3 && 0 in s.internal) || (i == 7 && 1 in s.internal) || (i == 8 && 2 in s.internal)
                || (i == 9 && 3 in s.internal)))
  {
    hide Flag, TableFeatures, ProbedFeatures, ProbedFan, ProbedPwm, ProbedTemp, ProbedIn, NumTempLimit, PeciChannels,
      OldPeciChannels;
    FirstIns(t, s, pins, i);
    if i < 3 {
      FirstTemps(t, s, pins, m[TempExtra], i);
    }
  }
}
