/** Set and show in the user's units: what an attribute shows, at once and after
    a forced refresh, when a value has been written to it. */
module It87Show {
  import opened Bytes
  import opened It87Chip
  import opened It87Convert
  import opened It87Spec
  import opened It87Ops
  import opened It87Snapshot
  import opened It87Coherence
  import opened It87Divider

  /** The cache after a call and a forced refresh. */
  ghost function Reread(chip: Chip, m: Regs, e: Effect): Cache { Refresh(chip, Apply(m, e.writes), e.cache) }

  // ---------------------------------------------------------------- volts

  /** Index 0 is the reading, 1 the low limit, 2 the high one. */
  function VinCode(v: Vin, index: nat): bv8 {
    if index == 0 then v.input else if index == 1 then v.min else v.max
  }

  /** show_in, in millivolts. */
  function ShowIn(chip: Chip, c: Cache, nr: Octet, index: nat): int {
    InFromReg(chip.AdcLsb(nr), VinCode(c.vins[nr], index) as nat)
  }

  /** The ADC step in tenths of a millivolt, doubled on a channel whose inputs are
      scaled down. */
  lemma StepOfChannel(chip: Chip, nr: nat)
    ensures var times := if nr in chip.inScaled then 2 else 1;
      var lsb := chip.AdcLsb(nr);
      && (Adc12mv in chip.features ==> lsb == 120 * times)
      && (Adc12mv !in chip.features && Adc10_9mv in chip.features ==> lsb == 109 * times)
      && ({Adc12mv, Adc10_9mv} !! chip.features && Adc11mv in chip.features ==> lsb == 110 * times)
      && ({Adc12mv, Adc10_9mv, Adc11mv} !! chip.features ==> lsb == 160 * times)
  {
  }

  /** The code is the nearest of all 256, and so the end one out of range. */
  lemma NearestStep(lsb: int, val: int, code: nat, k: nat)
    requires AdcStep(lsb) && k < 256 && code == InToReg(lsb, val)
    ensures Abs(code * lsb - 10 * val) <= Abs(k * lsb - 10 * val)
  {
    hide InToReg, Clamp;
    if val < 0 {
      BelowZero(lsb, val);
      MulMono(0, k, lsb);
    } else {
      InToRegIs(lsb, val);
      NearestMultiple(lsb, 10 * val, code, k);
    }
  }

  lemma BelowZero(lsb: int, val: int)
    requires AdcStep(lsb) && val < 0
    ensures InToReg(lsb, val) == 0
  {
  }

  lemma NearestMultiple(lsb: int, x: nat, code: nat, k: nat)
    requires AdcStep(lsb) && k < 256 && code == Clamp((x + lsb / 2) / lsb, 0, 255)
    ensures Abs(code * lsb - x) <= Abs(k * lsb - x)
  {
    var q := (x + lsb / 2) / lsb;
    DivBounds(x + lsb / 2, lsb);
    if q > 255 {
      MulStep(255, q, lsb);
      MulMono(k, 255, lsb);
    } else if k < q {
      MulStep(k, q, lsb);
    } else if q < k {
      MulStep(q, k, lsb);
    }
  }

  /** The limit is stored, read back, and the other one kept. */
  lemma InStored(chip: Chip, c: Cache, m: Regs, nr: Octet, index: nat, code: bv8)
    requires nr in chip.hasIn && index in {1, 2}
    ensures var e := StoreIn(c, nr, index, code);
      && e.ok
      && VinCode(e.cache.vins[nr], index) == VinCode(Reread(chip, m, e).vins[nr], index) == code
      && VinCode(e.cache.vins[nr], 3 - index) == VinCode(c.vins[nr], 3 - index)
  {
    hide Refresh;
    var e := StoreIn(c, nr, index, code);
    ApplyOne(m, e.writes[0]);
    RefreshedVin(chip, Apply(m, e.writes), e.cache, nr);
  }

  /** A voltage limit keeps its code over a refresh; it is the code nearest to the
      voltage asked for, and is shown as its voltage in whole millivolts. */
  lemma InShown(chip: Chip, c: Cache, m: Regs, nr: Octet, index: nat, val: int, k: nat)
    requires Legal(chip, OpIn(nr, index, val)) && k < 256
    ensures var e := SetIn(chip, c, nr, index, val);
      var d, lsb := Reread(chip, m, e), chip.AdcLsb(nr);
      var code := VinCode(d.vins[nr], index) as nat;
      && e.ok
      && VinCode(e.cache.vins[nr], index) == VinCode(d.vins[nr], index)
      && VinCode(e.cache.vins[nr], 3 - index) == VinCode(c.vins[nr], 3 - index)
      && Abs(code * lsb - 10 * val) <= Abs(k * lsb - 10 * val)
      && ShowIn(chip, e.cache, nr, index) == ShowIn(chip, d, nr, index)
      && Abs(10 * ShowIn(chip, d, nr, index) - code * lsb) <= 5
  {
    hide InToReg, InFromReg, ByteOf, Reread, StoreIn, VinCode;
    var lsb := chip.AdcLsb(nr);
    var code := InToReg(lsb, val);
    InStored(chip, c, m, nr, index, ByteOf(code));
    NearestStep(lsb, val, code, k);
    InFromRegBounds(lsb, code);
  }

  // --------------------------------------------------------- temperatures

  /** r is the whole degree nearest to val millidegrees; half a degree counts
      away from zero. */
  predicate NearestDegree(val: int, r: int) {
    && 2 * Abs(1000 * r - val) <= 1000
    && (2 * Abs(1000 * r - val) == 1000 ==> Abs(1000 * r) > Abs(val))
  }

  lemma RoundedDegree(val: int, r: int)
    requires NearestDegree(val, r)
    ensures TempToReg(val) == Clamp(r, -128, 127)
  {
  }

  /** Index 0 is the reading, 1 the low limit, 2 the high one, 3 the offset. */
  function TempCode(t: Temp, index: nat): bv8 {
    if index == 0 then t.input else if index == 1 then t.low else if index == 2 then t.high else t.offset
  }

  /** show_temp, in millidegrees. */
  function ShowTemp(c: Cache, nr: Chan, index: nat): int { TempFromReg(Signed(TempCode(c.temps[nr], index))) }

  lemma TopBitSet(b: bv8)
    ensures b & 0x80 != 0 ==> b | 0x80 == b
  {
  }

  lemma FirstOffsetWrites(m: Regs, nr: Chan, b: bv8, code: bv8)
    ensures var n := Apply(m, [Write(BeepEnable, b), Write(TempOffset(nr), code)]);
      n[TempOffset(nr)] == code && n[BeepEnable] == b
  {
    ApplyTwo(m, Write(BeepEnable, b), Write(TempOffset(nr), code));
  }

  lemma OffsetWrites(c: Cache, m: Regs, nr: Chan, code: bv8)
    ensures var n := Apply(m, StoreTemp(c, m, nr, 3, code).writes);
      n[TempOffset(nr)] == code && n[BeepEnable] == m[BeepEnable] | 0x80
  {
    hide Apply, PutTemp;
    FirstOffsetWrites(m, nr, m[BeepEnable] | 0x80, code);
    ApplyOne(m, Write(TempOffset(nr), code));
    TopBitSet(m[BeepEnable]);
  }

  lemma OffsetCached(c: Cache, m: Regs, nr: Chan, code: bv8)
    ensures var e := StoreTemp(c, m, nr, 3, code); e.ok && e.cache == PutTemp(c, nr, c.temps[nr].(offset := code))
  {
    hide PutTemp;
  }

  lemma LimitCached(c: Cache, m: Regs, nr: Chan, index: nat, code: bv8)
    requires index in {1, 2}
    ensures var e := StoreTemp(c, m, nr, index, code);
      && e.ok
      && e.cache == PutTemp(c, nr, if index == 1 then c.temps[nr].(low := code) else c.temps[nr].(high := code))
  {
    hide PutTemp;
  }

  lemma TempCached(c: Cache, m: Regs, nr: Chan, index: nat, code: bv8, other: nat)
    requires 1 <= index < 4 && other < 4 && other != index
    ensures var e := StoreTemp(c, m, nr, index, code);
      e.ok && TempCode(e.cache.temps[nr], index) == code &&
      TempCode(e.cache.temps[nr], other) == TempCode(c.temps[nr], other)
  {
    hide StoreTemp;
    if index == 3 {
      OffsetCached(c, m, nr, code);
    } else {
      LimitCached(c, m, nr, index, code);
    }
  }

  /** The code is stored where a refresh finds it. */
  lemma TempStored(chip: Chip, c: Cache, m: Regs, nr: Chan, index: nat, code: bv8)
    requires nr in chip.hasTemp && nr < chip.numTempLimit
    requires index in {1, 2} || (index == 3 && TempOffsets in chip.features)
    ensures var e := StoreTemp(c, m, nr, index, code);
      && TempCode(Reread(chip, m, e).temps[nr], index) == code
      && Apply(m, e.writes)[BeepEnable] == if index == 3 then m[BeepEnable] | 0x80 else m[BeepEnable]
  {
    hide Refresh;
    var e := StoreTemp(c, m, nr, index, code);
    RefreshedTemp(chip, Apply(m, e.writes), e.cache, nr);
    if index == 3 {
      hide StoreTemp;
      OffsetWrites(c, m, nr, code);
    } else {
      ApplyOne(m, e.writes[0]);
    }
  }

  /** A limit or offset is shown as the nearest whole degree that a byte can hold,
      and the other ones are as they were. Offsets are enabled with the first one
      that is set, by the top bit of BEEP_ENABLE. */
  lemma TempShown(chip: Chip, c: Cache, m: Regs, nr: Chan, index: nat, val: int, r: int, other: nat)
    requires Legal(chip, OpTemp(nr, index, val)) && NearestDegree(val, r) && other < 4 && other != index
    ensures var e := SetTemp(c, m, nr, index, val);
      var d := Reread(chip, m, e);
      && e.ok
      && ShowTemp(e.cache, nr, index) == ShowTemp(d, nr, index) == 1000 * Clamp(r, -128, 127)
      && ShowTemp(e.cache, nr, other) == ShowTemp(c, nr, other)
      && Apply(m, e.writes)[BeepEnable] == if index == 3 then m[BeepEnable] | 0x80 else m[BeepEnable]
  {
    hide Reread, Apply, StoreTemp, TempCode, SignedByte, Signed, TempToReg, Clamp;
    RoundedDegree(val, r);
    TempCached(c, m, nr, index, SignedByte(TempToReg(val)), other);
    TempStored(chip, c, m, nr, index, SignedByte(TempToReg(val)));
  }

  // ------------------------------------------------------------------ fans

  /** show_fan for the minimum, in revolutions per minute. */
  function ShowFanMin(chip: Chip, c: Cache, nr: Chan): int
    requires chip.Fan16() || nr < 3
  {
    if chip.Fan16() then Fan16FromReg(c.fans[nr].min as nat)
    else FanFromReg(c.fans[nr].min as nat, Divider(c.fanDiv[nr]))
  }

  /** Of the codes from 1 to last, the rounded and clamped one is that whose
      revolutions of p ticks each come nearest to the clock. */
  lemma NearestTicks(p: nat, last: nat, code: nat, k: nat)
    requires p > 0 && 1 <= k <= last && code == Clamp((CLOCK + p / 2) / p, 1, last)
    ensures Abs(CLOCK - code * p) <= Abs(CLOCK - k * p)
  {
    var t := (CLOCK + p / 2) / p;
    DivBounds(CLOCK + p / 2, p);
    if t > last {
      MulStep(last, t, p);
      MulMono(k, last, p);
    } else if t < 1 {
      MulMono(1, k, p);
    } else if k < t {
      MulStep(k, t, p);
    } else if t < k {
      MulStep(t, k, p);
    }
  }

  /** The divider of a fan by the bits of its register: the weight of each set bit
      of a field is a factor, and the third fan divides by 8 or by 2. */
  function RegDivider(b: bv8, nr: Third): nat {
    if nr == 2 then (if Flag(b, 6) then 8 else 2)
    else
      (if Flag(b, 3 * nr) then 2 else 1) * (if Flag(b, 3 * nr + 1) then 4 else 1)
        * (if Flag(b, 3 * nr + 2) then 16 else 1)
  }

  lemma SmallDivider(b: bv8)
    requires b < 8
    ensures Divider(b) == RegDivider(b, 0)
  {
    PowersOfTwo(b);
    hide Divider;
    SmallBits(b);
    hide Flag;
  }

  lemma SmallBits(b: bv8)
    requires b < 8
    ensures b == (if Flag(b, 0) then 1 else 0) + (if Flag(b, 1) then 2 else 0) + (if Flag(b, 2) then 4 else 0)
  {
  }

  lemma UnpackedDivider(b: bv8, nr: Third)
    ensures Divider(UnpackDiv(b)[nr]) == RegDivider(b, nr)
  {
    hide Divider, Flag;
    FieldBits(b, 0);
    FieldBits(b, 1);
    FieldBits(b, 2);
    if nr == 2 {
      PowersOfTwo(UnpackDiv(b)[2]);
    } else {
      SmallDivider(UnpackDiv(b)[nr]);
    }
  }

  lemma FanStored(chip: Chip, c: Cache, m: Regs, nr: Third, b: bv8)
    requires nr in chip.hasFan && !chip.Fan16()
    ensures var e := StoreFan(c, nr, UnpackDiv(m[FanDiv])[nr], b);
      var d := Reread(chip, m, e);
      && e.ok && e.cache.fans[nr].min as nat == d.fans[nr].min as nat == b as nat
      && Divider(e.cache.fanDiv[nr]) == Divider(d.fanDiv[nr]) == RegDivider(m[FanDiv], nr)
  {
    hide Join, UnpackDiv, Divider, RegDivider;
    var e := StoreFan(c, nr, UnpackDiv(m[FanDiv])[nr], b);
    ApplyOne(m, e.writes[0]);
    hide Apply;
    UnpackedDivider(m[FanDiv], nr);
    JoinValue(b, 0);
    FanDecoded(chip, Apply(m, e.writes), e.cache, nr);
  }

  lemma FanDecoded(chip: Chip, m: Regs, c: Cache, nr: Chan)
    requires nr in chip.hasFan && (chip.Fan16() || nr < 3)
    ensures var d := Refresh(chip, m, c);
      && (chip.Fan16() ==> d.fans[nr].min == Join(m[FanMinLo(nr)], m[FanMinHi(nr)]))
      && (!chip.Fan16() ==> d.fans[nr].min == Join(m[FanMinLo(nr)], 0) && d.fanDiv == UnpackDiv(m[FanDiv]))
  {
    hide DecodeVin, DecodeTemp, RefreshPwm, DecodeAlarms, Join, UnpackDiv;
  }

  /** The code is one of 1 to last, and none of them, such as k, has its count of
      code revolutions, of s * div ticks each, nearer to the clock; s is the speed,
      where less than 1 counts as 1 and none is above 1000000. */
  predicate CountsBest(rpm: int, div: nat, last: nat, code: nat, k: nat) {
    var s := Clamp(rpm, 1, 1000000);
    1 <= code <= last && Abs(1350000 - code * (s * div)) <= Abs(1350000 - k * (s * div))
  }

  lemma LimitShown(rpm: int, div: nat, code: nat, k: nat)
    requires div > 0 && 1 <= k <= 254 && code == FanToReg(rpm, div)
    ensures rpm == 0 ==> code == 255 && FanFromReg(code, div) == 0
    ensures rpm != 0 ==>
      CountsBest(rpm, div, 254, code, k) && code * div > 0 && FanFromReg(code, div) == 1350000 / (code * div)
  {
    if rpm != 0 {
      var s := Clamp(rpm, 1, 1000000);
      MulMono(1, s, div);
      MulMono(1, code, div);
      NearestTicks(s * div, 254, code, k);
    }
  }

  /** A minimum speed on a chip with dividers, div being what the divider register
      holds: 0 disables the limit and is shown as 0; otherwise the code is the one
      of 1 to 254 whose count comes nearest, and its own speed is shown. */
  lemma FanMinShown(chip: Chip, c: Cache, m: Regs, nr: Third, val: int, k: nat)
    requires Legal(chip, OpFan(nr, val)) && !chip.Fan16() && 1 <= k <= 254
    ensures var e, div := SetFan(chip, c, m, nr, val), RegDivider(m[FanDiv], nr);
      var d := Reread(chip, m, e);
      var code := d.fans[nr].min as nat;
      && e.ok && ShowFanMin(chip, e.cache, nr) == ShowFanMin(chip, d, nr)
      && (val == 0 ==> code == 255 && ShowFanMin(chip, d, nr) == 0)
      && (val != 0 ==>
            && CountsBest(val, div, 254, code, k)
            && code * div > 0 && ShowFanMin(chip, d, nr) == 1350000 / (code * div))
  {
    hide UnpackDiv, Divider, RegDivider, FanToReg, FanFromReg, ByteOf, Reread, StoreFan, CountsBest;
    var div := Divider(UnpackDiv(m[FanDiv])[nr]);
    var code := FanToReg(val, div);
    FanStored(chip, c, m, nr, ByteOf(code));
    LimitShown(val, div, code, k);
    UnpackedDivider(m[FanDiv], nr);
  }

  lemma Fan16Stored(chip: Chip, c: Cache, m: Regs, nr: Chan, w: bv16)
    requires nr in chip.hasFan && chip.Fan16()
    ensures var e := StoreFan16(c, nr, w);
      e.ok && e.cache.fans[nr].min == Reread(chip, m, e).fans[nr].min == w
  {
    hide Join, Low, High;
    var e := StoreFan16(c, nr, w);
    ApplyTwo(m, e.writes[0], e.writes[1]);
    hide Apply;
    JoinSplit(w);
    FanDecoded(chip, Apply(m, e.writes), e.cache, nr);
  }

  lemma Limit16Shown(rpm: int, code: nat, k: nat)
    requires 1 <= k <= 0xfffe && code == Fan16ToReg(rpm)
    ensures rpm == 0 ==> code == 0xffff && Fan16FromReg(code) == 0
    ensures rpm != 0 ==> CountsBest(rpm, 2, 0xfffe, code, k) && Fan16FromReg(code) == 1350000 / (2 * code)
  {
    if rpm != 0 {
      NearestTicks(Clamp(rpm, 1, 1000000) * 2, 0xfffe, code, k);
    }
  }

  /** A minimum speed in 16-bit mode, where every fan has the divider 2. */
  lemma Fan16MinShown(chip: Chip, c: Cache, m: Regs, nr: Chan, val: int, k: nat)
    requires Legal(chip, OpFan(nr, val)) && chip.Fan16() && 1 <= k <= 0xfffe
    ensures var e := SetFan(chip, c, m, nr, val);
      var d := Reread(chip, m, e);
      var code := d.fans[nr].min as nat;
      && e.ok && ShowFanMin(chip, e.cache, nr) == ShowFanMin(chip, d, nr)
      && (val == 0 ==> code == 0xffff && ShowFanMin(chip, d, nr) == 0)
      && (val != 0 ==> CountsBest(val, 2, 0xfffe, code, k) && ShowFanMin(chip, d, nr) == 1350000 / (2 * code))
  {
    hide Fan16ToReg, Fan16FromReg, WordOf, Reread, StoreFan16, CountsBest, UnpackDiv, Divider, FanToReg, FanFromReg;
    hide ByteOf, StoreFan;
    var code := Fan16ToReg(val);
    Fan16Stored(chip, c, m, nr, WordOf(code));
    Limit16Shown(val, code, k);
  }

  // -------------------------------------------------------------- dividers

  /** show_fan_div. */
  function ShowDivider(c: Cache, nr: Third): nat { Divider(c.fanDiv[nr]) }

  /** d is the greatest power of two that is at most val, but at least 1 and at
      most 128. */
  predicate GreatestPower(val: nat, d: nat) {
    && d in {1, 2, 4, 8, 16, 32, 64, 128}
    && (d <= val || d == 1)
    && (val < 2 * d || d == 128)
  }

  lemma ChosenPower(nr: Third, val: nat)
    ensures nr < 2 ==> GreatestPower(val, Divider(NewDivCode(nr, val)))
    ensures nr == 2 ==> Divider(NewDivCode(nr, val)) == if val < 8 then 2 else 8
  {
    if nr == 2 {
      PowersOfTwo(NewDivCode(nr, val));
    } else {
      DivToRegBound(val);
      var r := DivToReg(val);
      if val > 0 {
        DivToRegIsLog(val);
      }
      PowersOfTwo(ByteOf(r));
    }
  }

  lemma PackedFields(b: bv8, d: Divs, j: Third)
    requires DivCode(j, d[j])
    ensures UnpackDiv(PackDiv(b, d))[j] == d[j]
    ensures Flag(PackDiv(b, d), 7) <==> Flag(b, 7)
  {
  }

  /** The divider and the limit are stored where a refresh finds them. */
  lemma DivStoredAt(chip: Chip, c: Cache, m: Regs, nr: Third, code: bv8, b: bv8)
    requires nr in chip.hasFan && !chip.Fan16()
    ensures var e := StoreDiv(c, m, nr, code, b);
      var d := Reread(chip, m, e);
      && e.ok && e.cache.fanDiv == c.fanDiv[nr := code] && e.cache.fans[nr].min == Join(b, 0)
      && d.fanDiv == UnpackDiv(PackDiv(m[FanDiv], c.fanDiv[nr := code])) && d.fans[nr].min == Join(b, 0)
      && Apply(m, e.writes)[FanDiv] == PackDiv(m[FanDiv], c.fanDiv[nr := code])
  {
    hide Join, UnpackDiv, PackDiv;
    var e := StoreDiv(c, m, nr, code, b);
    ApplyTwo(m, e.writes[0], e.writes[1]);
    hide Apply;
    FanDecoded(chip, Apply(m, e.writes), e.cache, nr);
  }

  /** set_fan_div: the divider becomes the greatest possible one that is not above
      the one asked for (the third fan has 2 and 8 only), the other fans keep
      theirs, and the top bit of the register is kept. The limit becomes the one
      that set_fan would store under the new divider for the speed shown before. */
  lemma FanDivShown(chip: Chip, c: Cache, m: Regs, nr: Third, val: nat, j: Third, k: nat)
    requires Legal(chip, OpFanDiv(nr, val)) && j != nr && DivCode(j, c.fanDiv[j]) && 1 <= k <= 254
    ensures var e := SetFanDiv(c, m, nr, val);
      var d, rpm := Reread(chip, m, e), ShowFanMin(chip, c, nr);
      var div, code := ShowDivider(d, nr), d.fans[nr].min as nat;
      && e.ok
      && div == ShowDivider(e.cache, nr)
      && (if nr == 2 then div == (if val < 8 then 2 else 8) else GreatestPower(val, div))
      && ShowDivider(e.cache, j) == ShowDivider(d, j) == ShowDivider(c, j)
      && (Flag(Apply(m, e.writes)[FanDiv], 7) <==> Flag(m[FanDiv], 7))
      && e.cache.fans[nr].min as nat == code
      && (rpm == 0 ==> code == 255)
      && (rpm != 0 ==> CountsBest(rpm, div, 254, code, k))
  {
    hide NewDivCode, DivCode, UnpackDiv, PackDiv, Divider, FanToReg, FanFromReg, ByteOf, Reread, StoreDiv, CountsBest;
    hide Join, Apply, Flag, GreatestPower;
    var code := NewDivCode(nr, val);
    var rpm := ShowFanMin(chip, c, nr);
    var b := FanToReg(rpm, Divider(code));
    ChosenPower(nr, val);
    NewDivCodeFits(nr, val);
    PackedFields(m[FanDiv], c.fanDiv[nr := code], nr);
    PackedFields(m[FanDiv], c.fanDiv[nr := code], j);
    DivStoredAt(chip, c, m, nr, code, ByteOf(b));
    JoinValue(ByteOf(b), 0);
    LimitShown(rpm, Divider(code), b, k);
  }
}
