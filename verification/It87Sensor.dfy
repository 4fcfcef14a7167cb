/** Sensor types of the it87ts driver on the chips without bank select, and the
    TEMP_EXTRA register that sensor types and the second PWM frequency share. */
module It87Sensor {
  import opened Bytes
  import opened It87Chip
  import opened It87Convert
  import opened It87Spec
  import opened It87Ops
  import opened It87Footprint
  import opened It87Runs

  // -------------------------------------------------------- one call, in bits

  /** The types that a channel accepts. */
  predicate Accepts(chip: Chip, nr: Third, val: int) {
    val in {0, 2, 3, 4} || (val == 6 && (chip.Peci(nr) || chip.OldPeci(nr)))
  }

  /** Type 2 is the older name of type 4. */
  function Canonical(val: int): int { if val == 2 then 4 else val }

  /** The PECI bit of TEMP_EXTRA after a call for channel nr. */
  function PeciBit(chip: Chip, nr: Third, val: int, extra: bv8): bv8 {
    if !chip.OldPeci(nr) then extra & 0x80 else if val == 6 && !chip.Peci(nr) then 0x80 else 0
  }

  lemma TypeAccepted(chip: Chip, reg: bv8, extra: bv8, nr: Third, val: int)
    ensures TempTypeCode(chip, reg, extra, nr, val).ok <==> Accepts(chip, nr, val)
  {
    hide Bit, PeciSource;
  }

  lemma ExtraBits(e: bv8)
    ensures e & 0x7f & 0x7f == e & 0x7f && e & 0x7f & 0x80 == 0
    ensures ((e & 0x7f) | 0x80) & 0x7f == e & 0x7f && ((e & 0x7f) | 0x80) & 0x80 == 0x80
  {
  }

  lemma ExtraCleared(chip: Chip, extra: bv8, nr: Third, val: int)
    ensures var e := PeciCleared(chip, extra, nr, val);
      && e & 0x7f == extra & 0x7f
      && (if chip.OldPeci(nr) then e & 0x80 == 0 else e == extra)
      && (chip.OldPeci(nr) && val == 6 ==> e == extra & 0x7f)
  {
    ExtraBits(extra);
  }

  lemma ExtraAfterType(chip: Chip, reg: bv8, extra: bv8, nr: Third, val: int)
    ensures var t := TempTypeCode(chip, reg, extra, nr, val);
      && t.extra & 0x7f == extra & 0x7f
      && (Accepts(chip, nr, val) ==> t.extra & 0x80 == PeciBit(chip, nr, val, extra))
      && (!chip.OldPeci(nr) ==> t.extra == extra)
  {
    ExtraCleared(chip, extra, nr, val);
    ExtraBits(extra);
    hide Bit, PeciSource, PeciSelect, TypeCleared, PeciCleared, BitsSet;
  }

  lemma ClearedBits(chip: Chip, reg: bv8, nr: Third, val: int)
    ensures var r := TypeCleared(chip, reg, nr, val);
      && r & Bit(nr) == 0 && r & Bit(nr + 3) == 0
      && (chip.Peci(nr) ==> r >> 6 != PeciSource(nr))
      && (chip.Peci(nr) && val == 6 ==> r >> 6 == 0)
  {
    MaskedBits(reg, nr);
    hide Bit;
  }

  lemma MaskedBits(reg: bv8, nr: Third)
    ensures var r := reg & !Bit(nr) & !Bit(nr + 3);
      && r & Bit(nr) == 0 && r & Bit(nr + 3) == 0 && r >> 6 == reg >> 6
      && r & 0x3f & Bit(nr) == 0 && r & 0x3f & Bit(nr + 3) == 0 && (r & 0x3f) >> 6 == 0
  {
  }

  lemma TypeBits(r: bv8, nr: Third)
    requires r & Bit(nr) == 0 && r & Bit(nr + 3) == 0
    ensures BitsSet(r, Bit(nr)) & Bit(nr) != 0
    ensures BitsSet(r, Bit(nr + 3)) & Bit(nr) == 0 && BitsSet(r, Bit(nr + 3)) & Bit(nr + 3) != 0
    ensures r >> 6 == 0 ==>
      var s := BitsSet(r, PeciSelect(nr));
      s >> 6 == PeciSource(nr) && s & Bit(nr) == 0 && s & Bit(nr + 3) == 0
  {
  }

  lemma TransistorRegister(chip: Chip, reg: bv8, extra: bv8, nr: Third, val: int)
    requires val in {2, 3, 4}
    ensures var r := TempTypeCode(chip, reg, extra, nr, val).reg;
      && (r & Bit(nr) != 0 <==> val == 3)
      && (val != 3 ==> r & Bit(nr + 3) != 0)
  {
    ClearedBits(chip, reg, nr, val);
    var r := TypeCleared(chip, reg, nr, val);
    TypeBits(r, nr);
    hide Bit, PeciSource, PeciSelect, TypeCleared, PeciCleared, BitsSet;
    if val == 3 {
    } else {
    }
  }

  lemma PeciRegister(chip: Chip, reg: bv8, extra: bv8, nr: Third, val: int)
    requires Accepts(chip, nr, val) && val in {0, 6}
    ensures var r := TempTypeCode(chip, reg, extra, nr, val).reg;
      && r & Bit(nr) == 0 && r & Bit(nr + 3) == 0
      && (chip.Peci(nr) ==> (r >> 6 == PeciSource(nr) <==> val == 6))
  {
    ClearedBits(chip, reg, nr, val);
    var r := TypeCleared(chip, reg, nr, val);
    TypeBits(r, nr);
    hide Bit, PeciSource, PeciSelect, TypeCleared, PeciCleared, BitsSet;
  }

  lemma TransistorReadsBack(chip: Chip, reg: bv8, extra: bv8, nr: Third, val: int)
    requires Accepts(chip, nr, val) && val in {2, 3, 4}
    ensures var t := TempTypeCode(chip, reg, extra, nr, val);
      TempType(chip, t.reg, t.extra, nr) == Canonical(val)
  {
    hide Bit, PeciSource, TempTypeCode, Accepts;
    TransistorRegister(chip, reg, extra, nr, val);
  }

  lemma PeciReadsBack(chip: Chip, reg: bv8, extra: bv8, nr: Third, val: int)
    requires Accepts(chip, nr, val) && val in {0, 6}
    ensures var t := TempTypeCode(chip, reg, extra, nr, val);
      TempType(chip, t.reg, t.extra, nr) == Canonical(val)
  {
    hide Bit, PeciSource, TempTypeCode;
    ExtraAfterType(chip, reg, extra, nr, val);
    PeciRegister(chip, reg, extra, nr, val);
  }

  /** set_temp_type then get_temp_type: the accepted type, 2 read as 4. */
  lemma OwnTypeReadsBack(chip: Chip, reg: bv8, extra: bv8, nr: Third, val: int)
    requires Accepts(chip, nr, val)
    ensures var t := TempTypeCode(chip, reg, extra, nr, val);
      TempType(chip, t.reg, t.extra, nr) == Canonical(val)
  {
    hide TempTypeCode, TempType;
    if val in {2, 3, 4} {
      TransistorReadsBack(chip, reg, extra, nr, val);
    } else {
      PeciReadsBack(chip, reg, extra, nr, val);
    }
  }

  // ---------------------------------------------------- the other channels

  /** Channel j had its type from the newer-style source select alone, and the
      call for channel nr takes the select away. */
  predicate MovedAway(chip: Chip, reg: bv8, extra: bv8, nr: Third, val: int, j: Third) {
    && val == 6 && chip.Peci(nr) && chip.Peci(j) && reg >> 6 == PeciSource(j)
    && reg & Bit(j) == 0 && reg & Bit(j + 3) == 0
    && !(chip.OldPeci(j) && extra & 0x80 != 0)
  }

  /** What decides the type of channel j in TEMP_ENABLE. */
  datatype TypeBitsOf = TypeBitsOf(diode: bv8, thermistor: bv8, select: bv8)

  function BitsOf(r: bv8, j: Third): TypeBitsOf { TypeBitsOf(r & Bit(j), r & Bit(j + 3), r >> 6) }

  lemma OtherTypeBits(reg: bv8, nr: Third, j: Third)
    requires nr != j
    ensures var r := reg & !Bit(nr) & !Bit(nr + 3);
      BitsOf(r, j) == BitsOf(reg, j) && BitsOf(r & 0x3f, j) == BitsOf(reg, j).(select := 0) && r >> 6 == reg >> 6
  {
  }

  lemma OtherBitsCleared(chip: Chip, reg: bv8, nr: Third, val: int, j: Third)
    requires nr != j
    ensures var s, b := BitsOf(TypeCleared(chip, reg, nr, val), j), BitsOf(reg, j);
      && s == b.(select := s.select)
      && (s.select == PeciSource(j) <==> b.select == PeciSource(j) && !(chip.Peci(nr) && val == 6))
      && (chip.Peci(nr) && val == 6 ==> s.select == 0)
  {
    OtherTypeBits(reg, nr, j);
    SourcesApart(nr, j);
    hide Bit, PeciSource;
  }

  lemma SourcesApart(nr: Third, j: Third)
    requires nr != j
    ensures PeciSource(nr) != PeciSource(j) && PeciSource(j) != 0
  {
  }

  lemma OtherTypeSet(r: bv8, nr: Third, j: Third)
    requires nr != j
    ensures BitsOf(BitsSet(r, Bit(nr)), j) == BitsOf(r, j)
    ensures BitsOf(BitsSet(r, Bit(nr + 3)), j) == BitsOf(r, j)
  {
  }

  lemma OtherSelectSet(r: bv8, nr: Third, j: Third)
    requires nr != j && BitsOf(r, j).select == 0
    ensures BitsOf(BitsSet(r, PeciSelect(nr)), j) == BitsOf(r, j).(select := PeciSource(nr))
  {
  }

  /** What a call for channel nr leaves of channel j's type bits and select. */
  lemma OtherRegister(chip: Chip, reg: bv8, extra: bv8, nr: Third, val: int, j: Third)
    requires nr != j
    ensures var s, b := BitsOf(TempTypeCode(chip, reg, extra, nr, val).reg, j), BitsOf(reg, j);
      && s == b.(select := s.select)
      && (s.select == PeciSource(j) <==> b.select == PeciSource(j) && !(chip.Peci(nr) && val == 6))
  {
    hide Bit, PeciSource, PeciSelect, TypeCleared, PeciCleared, BitsOf, BitsSet;
    OtherBitsCleared(chip, reg, nr, val, j);
    var r := TypeCleared(chip, reg, nr, val);
    OtherTypeSet(r, nr, j);
    if BitsOf(r, j).select == 0 {
      OtherSelectSet(r, nr, j);
    }
    SourcesApart(nr, j);
  }

  lemma SameBitsOf(reg: bv8, r: bv8, j: Third)
    ensures BitsOf(reg, j) == TypeBitsOf(reg & Bit(j), reg & Bit(j + 3), reg >> 6)
    ensures BitsOf(r, j) == TypeBitsOf(r & Bit(j), r & Bit(j + 3), r >> 6)
  {
  }

  /** Every other channel keeps its type, unless the newer-style PECI source is
      moved away from it; then it has none. */
  lemma OtherTypesKept(chip: Chip, reg: bv8, extra: bv8, nr: Third, val: int, j: Third)
    requires nr != j
    ensures var t := TempTypeCode(chip, reg, extra, nr, val);
      TempType(chip, t.reg, t.extra, j) ==
        if MovedAway(chip, reg, extra, nr, val, j) then 0 else TempType(chip, reg, extra, j)
  {
    OtherRegister(chip, reg, extra, nr, val, j);
    ExtraAfterType(chip, reg, extra, nr, val);
    OneOldPeci(chip, nr, j);
    SameBitsOf(reg, TempTypeCode(chip, reg, extra, nr, val).reg, j);
    hide Bit, PeciSource, TempTypeCode, BitsOf;
  }

  /** At most one channel has the older-style PECI. */
  lemma OneOldPeci(chip: Chip, i: Third, j: Third)
    requires i != j
    ensures !(chip.OldPeci(i) && chip.OldPeci(j))
  {
    assert chip.Valid();
  }

  // ------------------------------------------------------- the whole operation

  lemma TypeWritten(chip: Chip, c: Cache, m: Regs, nr: Third, val: int)
    requires Accepts(chip, nr, val)
    ensures var e := SetTempType(chip, c, m, nr, val);
      var n, t := Apply(m, e.writes), TempTypeCode(chip, m[TempEnable], m[TempExtra], nr, val);
      e.ok && n[TempEnable] == t.reg && n[TempExtra] == t.extra
  {
    hide Apply, TempTypeCode, Accepts;
    var t := TempTypeCode(chip, m[TempEnable], m[TempExtra], nr, val);
    TypeAccepted(chip, m[TempEnable], m[TempExtra], nr, val);
    ExtraAfterType(chip, m[TempEnable], m[TempExtra], nr, val);
    if chip.OldPeci(nr) {
      ApplyTwo(m, Write(TempEnable, t.reg), Write(TempExtra, t.extra));
      assert [Write(TempEnable, t.reg)] + [Write(TempExtra, t.extra)] ==
        [Write(TempEnable, t.reg), Write(TempExtra, t.extra)];
    } else {
      ApplyOne(m, Write(TempEnable, t.reg));
      assert [Write(TempEnable, t.reg)] + [] == [Write(TempEnable, t.reg)];
    }
  }

  /** The type that get_temp_type reads from the registers. */
  ghost function TypeIn(chip: Chip, m: Regs, nr: Third): nat { TempType(chip, m[TempEnable], m[TempExtra], nr) }

  /** Sensor type law: for every content of the two registers, a type is accepted
      exactly when the channel can have it, it is then read back, and another
      channel loses its type only if the PECI source is moved away from it. */
  lemma SensorTypeLaw(chip: Chip, c: Cache, m: Regs, nr: Third, val: int, j: Third)
    ensures var e := SetTempType(chip, c, m, nr, val);
      var n := Apply(m, e.writes);
      && (e.ok <==> Accepts(chip, nr, val))
      && (!e.ok ==> n == m)
      && (e.ok ==> TypeIn(chip, n, nr) == Canonical(val))
      && (e.ok && j != nr ==>
            TypeIn(chip, n, j) ==
              if MovedAway(chip, m[TempEnable], m[TempExtra], nr, val, j) then 0 else TypeIn(chip, m, j))
  {
    hide Accepts, TempType, TempTypeCode, MovedAway, Canonical;
    var reg, extra := m[TempEnable], m[TempExtra];
    TypeAccepted(chip, reg, extra, nr, val);
    if Accepts(chip, nr, val) {
      TypeWritten(chip, c, m, nr, val);
      OwnTypeReadsBack(chip, reg, extra, nr, val);
      if j != nr {
        OtherTypesKept(chip, reg, extra, nr, val, j);
      }
      hide SetTempType, Apply;
    }
  }

  // ------------------------------------------------- TEMP_EXTRA over whole runs

  /** The frequency bits after one more event. */
  function NextFreq(chip: Chip, bits: bv8, v: Event): bv8 {
    if v.Set? && v.op.OpFreq? && v.op.nr != 0 then ByteOf(FreqToReg(chip.Newer(), v.op.size)) << 4 else bits
  }

  /** The PECI bit after one more event. */
  function NextPeci(chip: Chip, bit: bv8, v: Event): bv8 {
    if v.Set? && v.op.OpTempType? && Accepts(chip, v.op.ch, v.op.val) then PeciBit(chip, v.op.ch, v.op.val, bit)
    else bit
  }

  function FreqAfter(chip: Chip, bits: bv8, events: seq<Event>): bv8
    decreases |events|
  {
    if events == [] then bits else FreqAfter(chip, NextFreq(chip, bits, events[0]), events[1..])
  }

  function PeciAfter(chip: Chip, bit: bv8, events: seq<Event>): bv8
    decreases |events|
  {
    if events == [] then bit else PeciAfter(chip, NextPeci(chip, bit, events[0]), events[1..])
  }

  /** TEMP_EXTRA, field by field. */
  predicate Fields(extra: bv8, freq: bv8, peci: bv8, rest: bv8) {
    extra & 0x70 == freq && extra & 0x80 == peci && extra & 0x0f == rest
  }

  lemma FieldsOfFreq(extra: bv8, i: bv8, freq: bv8, peci: bv8, rest: bv8)
    requires Fields(extra, freq, peci, rest) && i < 8
    ensures Fields(FreqField(extra, i), i << 4, peci, rest)
  {
  }

  lemma SmallSelect(newer: bool, val: nat)
    ensures ByteOf(FreqToReg(newer, val)) < 8
  {
    assert ByteOf(FreqToReg(newer, val)) as nat < 8;
  }

  lemma FreqExtra(chip: Chip, c: Cache, m: Regs, nr: Chan, val: nat, freq: bv8, peci: bv8, rest: bv8)
    requires nr != 0 && Fields(m[TempExtra], freq, peci, rest)
    ensures var n := Apply(m, SetPwmFreq(chip, c, m, nr, val).writes);
      Fields(n[TempExtra], ByteOf(FreqToReg(chip.Newer(), val)) << 4, peci, rest)
  {
    hide Apply, Fields, FreqField, FreqToReg, ByteOf;
    var i := ByteOf(FreqToReg(chip.Newer(), val));
    SmallSelect(chip.Newer(), val);
    FieldsOfFreq(m[TempExtra], i, freq, peci, rest);
    ApplyOne(m, Write(TempExtra, FreqField(m[TempExtra], i)));
  }

  lemma FieldsOfPeci(extra: bv8, e: bv8, freq: bv8, peci: bv8, rest: bv8)
    requires Fields(extra, freq, peci, rest) && e & 0x7f == extra & 0x7f
    ensures Fields(e, freq, e & 0x80, rest)
  {
  }

  lemma TypeExtra(chip: Chip, c: Cache, m: Regs, nr: Third, val: int, freq: bv8, peci: bv8, rest: bv8)
    requires Accepts(chip, nr, val) && Fields(m[TempExtra], freq, peci, rest)
    ensures var n := Apply(m, SetTempType(chip, c, m, nr, val).writes);
      Fields(n[TempExtra], freq, PeciBit(chip, nr, val, peci), rest)
  {
    var t := TempTypeCode(chip, m[TempEnable], m[TempExtra], nr, val);
    TypeWritten(chip, c, m, nr, val);
    ExtraAfterType(chip, m[TempEnable], m[TempExtra], nr, val);
    FieldsOfPeci(m[TempExtra], t.extra, freq, peci, rest);
    PeciBitOfBit(chip, nr, val, m[TempExtra]);
    assert m[TempExtra] & 0x80 == peci;
    hide Apply, TempTypeCode, SetTempType, Accepts, PeciBit;
  }

  lemma PeciBitOfBit(chip: Chip, nr: Third, val: int, extra: bv8)
    ensures PeciBit(chip, nr, val, extra & 0x80) == PeciBit(chip, nr, val, extra)
  {
  }

  lemma StepExtra(chip: Chip, s: State, op: Op, freq: bv8, peci: bv8, rest: bv8)
    requires Legal(chip, op) && Fields(s.m[TempExtra], freq, peci, rest)
    ensures Fields(After(chip, s, Set(op)).m[TempExtra],
      NextFreq(chip, freq, Set(op)), NextPeci(chip, peci, Set(op)), rest)
  {
    hide Fields, Apply, Accepts, PeciBit, SetPwmFreq, SetTempType;
    match op {
      case OpFreq(nr, val) =>
        if nr != 0 {
          FreqExtra(chip, s.c, s.m, nr, val, freq, peci, rest);
        } else {
          ExtraUnwritten(chip, s.c, s.m, op);
        }
      case OpTempType(nr, val) =>
        if Accepts(chip, nr, val) {
          TypeExtra(chip, s.c, s.m, nr, val, freq, peci, rest);
        } else {
          RefusedType(chip, s.c, s.m, nr, val);
        }
      case _ =>
        ExtraUnwritten(chip, s.c, s.m, op);
        hide Step;
    }
  }

  lemma RefusedType(chip: Chip, c: Cache, m: Regs, nr: Third, val: int)
    requires !Accepts(chip, nr, val)
    ensures Apply(m, SetTempType(chip, c, m, nr, val).writes) == m
  {
    TypeAccepted(chip, m[TempEnable], m[TempExtra], nr, val);
    hide TempTypeCode, Accepts;
    NoWrites(m, SetTempType(chip, c, m, nr, val).writes);
  }

  lemma ExtraUnwritten(chip: Chip, c: Cache, m: Regs, op: Op)
    requires Legal(chip, op) && !MayWrite(op, TempExtra)
    ensures Apply(m, Step(chip, c, m, op).writes)[TempExtra] == m[TempExtra]
  {
    hide Step, Apply, Within, MayWrite;
    Footprint(chip, c, m, op, 0);
    Unwritten(c, m, Step(chip, c, m, op), op, 0, TempExtra);
  }

  lemma EventExtra(chip: Chip, s: State, v: Event, freq: bv8, peci: bv8, rest: bv8)
    requires Possible(chip, s, v) && Fields(s.m[TempExtra], freq, peci, rest)
    ensures Fields(After(chip, s, v).m[TempExtra], NextFreq(chip, freq, v), NextPeci(chip, peci, v), rest)
  {
    match v
    case Set(op) =>
      hide After, Fields, NextFreq, NextPeci;
      StepExtra(chip, s, op, freq, peci, rest);
    case Poll =>
    case Drift(_) => assert !Measured(TempExtra);
  }

  /** In every run, the frequency bits of TEMP_EXTRA follow the second channel's
      set_pwm_freq alone, its PECI bit follows set_temp_type alone, and the other
      four bits never change: neither use of the register disturbs the other. */
  lemma {:induction false} ExtraFieldsApart(chip: Chip, s: State, events: seq<Event>, freq: bv8, peci: bv8, rest: bv8)
    requires Run(chip, s, events) && Fields(s.m[TempExtra], freq, peci, rest)
    ensures Fields(Final(chip, s, events).m[TempExtra],
      FreqAfter(chip, freq, events), PeciAfter(chip, peci, events), rest)
    decreases |events|
  {
    hide Fields, After, NextFreq, NextPeci;
    if events != [] {
      var v := events[0];
      EventExtra(chip, s, v, freq, peci, rest);
      ExtraFieldsApart(chip, After(chip, s, v), events[1..], NextFreq(chip, freq, v), NextPeci(chip, peci, v), rest);
    }
  }
}
