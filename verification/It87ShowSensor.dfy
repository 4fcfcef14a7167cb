/** Sensor types by the bits of their registers: what get_temp_type reads and
    what set_temp_type writes. */
module It87ShowSensor {
  import opened Bytes
  import opened It87Chip
  import opened It87Spec
  import opened It87Sensor

  /** The PECI source select in the top two bits of TEMP_ENABLE. */
  function Select(reg: bv8): nat { (if Flag(reg, 6) then 1 else 0) + (if Flag(reg, 7) then 2 else 0) }

  lemma SelectIsSource(reg: bv8, nr: Third)
    ensures reg >> 6 == PeciSource(nr) <==> Select(reg) == nr + 1
  {
  }

  lemma ExtraFlag(extra: bv8)
    ensures Flag(extra, 7) <==> extra & 0x80 != 0
  {
  }

  /** A channel is a thermal diode if its own bit is set, otherwise a thermistor if
      the bit three places up is, otherwise PECI if the source select is its number
      or the PECI bit of TEMP_EXTRA is on for it; otherwise it is off. */
  lemma TypeRead(chip: Chip, reg: bv8, extra: bv8, nr: Third)
    ensures TempType(chip, reg, extra, nr) ==
      if Flag(reg, nr) then 3
      else if Flag(reg, nr + 3) then 4
      else if chip.Peci(nr) && Select(reg) == nr + 1 then 6
      else if chip.OldPeci(nr) && Flag(extra, 7) then 6
      else 0
  {
    SelectIsSource(reg, nr);
    ExtraFlag(extra);
    hide Bit, PeciSource, Select;
  }

  lemma ClearedFlags(reg: bv8, nr: Third, k: Octet)
    ensures Flag(reg & !Bit(nr) & !Bit(nr + 3), k) <==> k != nr && k != nr + 3 && Flag(reg, k)
    ensures Flag(reg & !Bit(nr) & !Bit(nr + 3) & 0x3f, k) <==> k < 6 && k != nr && k != nr + 3 && Flag(reg, k)
  {
  }

  lemma SelectKept(reg: bv8, nr: Third)
    ensures (reg & !Bit(nr) & !Bit(nr + 3)) >> 6 == reg >> 6
  {
  }

  lemma FlagSet(b: bv8, i: Octet, k: Octet)
    ensures Flag(BitsSet(b, Bit(i)), k) <==> k == i || Flag(b, k)
  {
  }

  lemma SourceSet(b: bv8, nr: Third, k: Octet)
    ensures Flag(BitsSet(b, PeciSelect(nr)), k) <==> (k == 6 && nr != 1) || (k == 7 && nr != 0) || Flag(b, k)
  {
  }

  /** Bit k of what remains of TEMP_ENABLE before the new type is put in. */
  lemma RemainingFlags(chip: Chip, reg: bv8, nr: Third, val: int, k: Octet)
    ensures Flag(TypeCleared(chip, reg, nr, val), k) <==>
      && k != nr && k != nr + 3 && Flag(reg, k)
      && (k >= 6 ==> !(chip.Peci(nr) && (Select(reg) == nr + 1 || val == 6)))
  {
    ClearedFlags(reg, nr, k);
    SelectKept(reg, nr);
    SelectIsSource(reg, nr);
    hide Bit, PeciSource, Select, Flag;
  }

  /** Bit k of TEMP_ENABLE after a call for channel nr. */
  predicate TypeFlag(chip: Chip, reg: bv8, nr: Third, val: int, k: Octet) {
    if k == nr then val == 3
    else if k == nr + 3 then val == 2 || val == 4
    else if k < 6 || !chip.Peci(nr) then Flag(reg, k)
    else if val == 6 then (if k == 6 then nr != 1 else nr != 0)
    else Select(reg) != nr + 1 && Flag(reg, k)
  }

  lemma RegisterFlags(chip: Chip, reg: bv8, extra: bv8, nr: Third, val: int, k: Octet)
    requires Accepts(chip, nr, val)
    ensures Flag(TempTypeCode(chip, reg, extra, nr, val).reg, k) <==> TypeFlag(chip, reg, nr, val, k)
  {
    hide Bit, PeciSource, PeciSelect, Select, Flag, TypeCleared, PeciCleared, BitsSet;
    var r := TypeCleared(chip, reg, nr, val);
    RemainingFlags(chip, reg, nr, val, k);
    if val == 3 {
      FlagSet(r, nr, k);
    } else if val == 2 || val == 4 {
      FlagSet(r, nr + 3, k);
    } else if chip.Peci(nr) {
      SourceSet(r, nr, k);
    }
  }

  /** set_temp_type, bit by bit: the diode bit of the channel is set exactly for 3,
      the thermistor bit exactly for 2 and 4, and the source select becomes the
      number of the channel for 6 and 0 if it was that before. Where the older PECI
      is this channel's, bit 7 of TEMP_EXTRA is set for 6 unless the select does it.
      All other bits are as they were. */
  lemma TypeWrittenBits(chip: Chip, c: Cache, m: Regs, nr: Third, val: int, k: Octet)
    requires Accepts(chip, nr, val)
    ensures var n := Apply(m, SetTempType(chip, c, m, nr, val).writes);
      && (Flag(n[TempEnable], k) <==> TypeFlag(chip, m[TempEnable], nr, val, k))
      && (Flag(n[TempExtra], k) <==>
            if k == 7 && chip.OldPeci(nr) then val == 6 && !chip.Peci(nr) else Flag(m[TempExtra], k))
  {
    hide SetTempType, Apply, Accepts, TempTypeCode, TypeFlag, Flag;
    TypeWritten(chip, c, m, nr, val);
    RegisterFlags(chip, m[TempEnable], m[TempExtra], nr, val, k);
    ExtraFlags(chip, m[TempEnable], m[TempExtra], nr, val, k);
  }

  lemma ExtraFlags(chip: Chip, reg: bv8, extra: bv8, nr: Third, val: int, k: Octet)
    requires Accepts(chip, nr, val)
    ensures Flag(TempTypeCode(chip, reg, extra, nr, val).extra, k) <==>
      if k == 7 && chip.OldPeci(nr) then val == 6 && !chip.Peci(nr) else Flag(extra, k)
  {
    hide Accepts, TempTypeCode;
    ExtraAfterType(chip, reg, extra, nr, val);
    var e := TempTypeCode(chip, reg, extra, nr, val).extra;
    ExtraFlag(e);
    if k < 7 {
      LowFlags(e, extra, k);
    }
    hide Flag;
  }

  lemma LowFlags(a: bv8, b: bv8, k: Octet)
    requires k < 7 && a & 0x7f == b & 0x7f
    ensures Flag(a, k) <==> Flag(b, k)
  {
  }
}
