/** The it87ts driver object: fields updated in place, registers reached through
    the two ports, each method proved against the functions of It87Spec. */
module It87Driver {
  import opened Bytes
  import opened It87Chip
  import opened It87Convert
  import opened It87Spec
  import opened It87Ops
  import opened It87View
  import opened It87Age
  import P = It87Ports

  datatype Port = AddressPort | DataPort

  /** The device behind its two I/O ports. */
  class IoPorts {
    var device: P.Ports

    method Out(v: bv8, port: Port)
      modifies this
      ensures device == if port.AddressPort? then old(device).WriteAddressPort(v) else old(device).WriteDataPort(v)
    {
      if port.AddressPort? {
        device := device.WriteAddressPort(v);
      } else {
        device := device.WriteDataPort(v);
      }
    }

    method InData() returns (v: bv8)
      ensures v == device.ReadDataPort()
    {
      v := device.ReadDataPort();
    }
  }

  /** Cache, registers and writes so far, as one value. */
  datatype Picture = Picture(c: Cache, m: Regs, log: seq<Write>)

  /** What an operation makes of it. */
  ghost function Done(s: Picture, e: Effect): Picture {
    Picture(e.cache, Apply(s.m, e.writes), s.log + e.writes)
  }

  /** Every byte that a refresh itself writes: with update_vbat, the bit of CONFIG
      that starts the next measurement of the battery. */
  ghost function Restart(m: Regs, updateVbat: bool): seq<Write> {
    if updateVbat then [Write(Config, m[Config] | 0x40)] else []
  }

  /** What a refresh makes of it. */
  ghost function Filled(chip: Chip, s: Picture, updateVbat: bool): Picture {
    var writes := Restart(s.m, updateVbat);
    var m := Apply(s.m, writes);
    Picture(Refresh(chip, m, s.c), m, s.log + writes)
  }

  /** A refresh itself writes at most one bit: bit 6 of CONFIG, with update_vbat. */
  lemma RestartBit(m: Regs, updateVbat: bool, r: Reg, k: Octet)
    ensures var n := Apply(m, Restart(m, updateVbat));
      Flag(n[r], k) <==> (updateVbat && r == Config && k == 6) || Flag(m[r], k)
  {
    hide Flag;
    if updateVbat {
      ApplyOne(m, Write(Config, m[Config] | 0x40));
      BitSixSet(m[Config], k);
    } else {
      NoWrites(m, []);
    }
  }

  lemma BitSixSet(b: bv8, k: Octet)
    ensures Flag(b | 0x40, k) <==> k == 6 || Flag(b, k)
  {
  }

  // The tables that a refresh makes, whole.

  ghost function DecodeVins(chip: Chip, m: Regs, old_: Vins): Vins {
    seq(13, i requires 0 <= i < 13 => DecodeVin(chip, m, i, old_[i]))
  }

  ghost function DecodeFans(chip: Chip, m: Regs, old_: Fans): Fans {
    seq(6, i requires 0 <= i < 6 => DecodeFan(chip, m, i, old_[i]))
  }

  ghost function DecodeTemps(chip: Chip, m: Regs, old_: Temps): Temps {
    seq(6, i requires 0 <= i < 6 => DecodeTemp(chip, m, i, old_[i]))
  }

  ghost function DecodePwms(chip: Chip, m: Regs, old_: Pwms): Pwms {
    seq(6, i requires 0 <= i < 6 => RefreshPwm(chip, m, i, old_[i]))
  }

  lemma RefreshByTable(chip: Chip, m: Regs, c: Cache)
    ensures Refresh(chip, m, c) == Cache(
      DecodeVins(chip, m, c.vins), DecodeFans(chip, m, c.fans), DecodeTemps(chip, m, c.temps),
      DecodePwms(chip, m, c.pwms), DecodeDiv(chip, m, c.fanDiv),
      DecodeAlarms(m), m[BeepEnable], m[FanMain], m[FanCtl], m[TempEnable], m[TempExtra],
      if chip.kind in {It8712, It8716} then m[Vid] & 0x3f else c.vid)
  {
    hide DecodeVin, DecodeFan, DecodeTemp, RefreshPwm;
    var r := Refresh(chip, m, c);
    assert r.vins == DecodeVins(chip, m, c.vins);
    assert r.fans == DecodeFans(chip, m, c.fans);
    assert r.temps == DecodeTemps(chip, m, c.temps);
    assert r.pwms == DecodePwms(chip, m, c.pwms);
  }

  /** One register write, as an effect... */
  lemma OneWrite(s: Picture, c: Cache, r: Reg, v: bv8)
    ensures Done(s, Effect(true, c, [Write(r, v)])) == Picture(c, Put(s.m, Write(r, v)), s.log + [Write(r, v)])
  {
    hide Put;
    ApplyOne(s.m, Write(r, v));
  }

  /** ...and two. */
  lemma TwoWrites(s: Picture, c: Cache, q: Reg, u: bv8, r: Reg, v: bv8)
    ensures Done(s, Effect(true, c, [Write(q, u), Write(r, v)])) ==
      Picture(c, Put(Put(s.m, Write(q, u)), Write(r, v)), s.log + [Write(q, u)] + [Write(r, v)])
  {
    hide Put;
    ApplyTwo(s.m, Write(q, u), Write(r, v));
    assert s.log + [Write(q, u)] + [Write(r, v)] == s.log + [Write(q, u), Write(r, v)];
  }

  lemma NoWrite(s: Picture, ok: bool, c: Cache)
    ensures Done(s, Effect(ok, c, [])) == Picture(c, s.m, s.log)
  {
  }

  /** An offset is in force only while the top bit of BEEP_ENABLE is set. */
  ghost function OffsetsEnabled(s: Picture): Picture {
    var on := Write(BeepEnable, s.m[BeepEnable] | 0x80);
    if s.m[BeepEnable] & 0x80 == 0 then Picture(s.c, Put(s.m, on), s.log + [on]) else s
  }

  lemma OffsetDone(s: Picture, nr: Chan, code: bv8)
    ensures var t, w := OffsetsEnabled(s), Write(TempOffset(nr), code);
      && t.c == s.c
      && Done(s, StoreTemp(s.c, s.m, nr, 3, code)) ==
          Picture(PutTemp(s.c, nr, s.c.temps[nr].(offset := code)), Put(t.m, w), t.log + [w])
  {
    var c := PutTemp(s.c, nr, s.c.temps[nr].(offset := code));
    hide Put, PutTemp;
    OneWrite(s, c, TempOffset(nr), code);
    TwoWrites(s, c, BeepEnable, s.m[BeepEnable] | 0x80, TempOffset(nr), code);
    hide Done;
  }

  // Bits set, cleared, tested and replaced.

  function With(b: bv8, nr: Octet): bv8 { b | Bit(nr) }

  function Without(b: bv8, nr: Octet): bv8 { b & !Bit(nr) }

  predicate Automatic(ctrl: bv8) { ctrl & 0x80 != 0 }

  function Mapped(ctrl: bv8, code: bv8): bv8 { (ctrl & 0xfc) | code }

  /** One channel's divider code in FAN_DIV. */
  function DivOf(reg: bv8, nr: Third): bv8 {
    match nr
    case 0 => reg & 0x07
    case 1 => (reg >> 3) & 0x07
    case _ => if reg & 0x40 != 0 then 3 else 1
  }

  lemma DivOfUnpacks(reg: bv8, nr: Third)
    ensures DivOf(reg, nr) == UnpackDiv(reg)[nr]
  {
  }

  lemma OnOffDone(s: Picture, nr: Third)
    ensures var on, main := With(s.m[FanCtl], nr), Without(s.c.fanMain, nr);
      Done(s, EnterOnOff(s.c, s.m, nr)) ==
        Picture(s.c.(fanMain := main), Put(Put(s.m, Write(FanCtl, on)), Write(FanMain, main)),
                s.log + [Write(FanCtl, on)] + [Write(FanMain, main)])
  {
    hide Bit, Put, Done;
    var on, main := With(s.m[FanCtl], nr), Without(s.c.fanMain, nr);
    TwoWrites(s, s.c.(fanMain := main), FanCtl, on, FanMain, main);
  }

  lemma ModeDone(chip: Chip, s: Picture, nr: Chan, ctrl: bv8)
    ensures var c, w := PutPwm(s.c, nr, s.c.pwms[nr].(ctrl := ctrl)), Write(Pwm(nr), ctrl);
      Done(s, EnterPwmMode(chip, s.c, nr, ctrl)) ==
        if chip.OnOff(nr) then
          var x := Write(FanMain, With(s.c.fanMain, nr));
          Picture(c.(fanMain := x.value), Put(Put(s.m, w), x), s.log + [w] + [x])
        else Picture(c, Put(s.m, w), s.log + [w])
  {
    hide Bit, Put, Done;
    var c := PutPwm(s.c, nr, s.c.pwms[nr].(ctrl := ctrl));
    if chip.OnOff(nr) {
      var main := With(s.c.fanMain, nr);
      TwoWrites(s, c.(fanMain := main), Pwm(nr), ctrl, FanMain, main);
    } else {
      OneWrite(s, c, Pwm(nr), ctrl);
    }
  }

  lemma PutTwice(c: Cache, nr: nat, p: PwmState, q: PwmState)
    requires nr < 6
    ensures PutPwm(PutPwm(c, nr, p), nr, q) == PutPwm(c, nr, q)
  {
    assert c.pwms[nr := p][nr := q] == c.pwms[nr := q];
  }

  /** set_pwm on a channel that has just been read. */
  ghost function DutyEffect(chip: Chip, c: Cache, nr: Chan, duty: bv8): Effect {
    var p := c.pwms[nr];
    if chip.Newer() && Automatic(p.ctrl) then Refused(c)
    else if chip.Newer() then Effect(true, PutPwm(c, nr, p.(duty := duty)), [Write(Duty(nr), duty)])
    else if !Automatic(p.ctrl) then
      Effect(true, PutPwm(c, nr, p.(duty := duty, ctrl := duty)), [Write(Pwm(nr), duty)])
    else Effect(true, PutPwm(c, nr, p.(duty := duty)), [])
  }

  lemma DutyDone(chip: Chip, s: Picture, nr: Chan, duty: bv8)
    ensures var p, e := s.c.pwms[nr], DutyEffect(chip, s.c, nr, duty);
      var q := p.(duty := duty);
      && e.ok == !(chip.Newer() && Automatic(p.ctrl))
      && Done(s, e) ==
        if !e.ok then s
        else if chip.Newer() then
          Picture(PutPwm(s.c, nr, q), Put(s.m, Write(Duty(nr), duty)), s.log + [Write(Duty(nr), duty)])
        else if !Automatic(p.ctrl) then
          Picture(PutPwm(s.c, nr, q.(ctrl := duty)), Put(s.m, Write(Pwm(nr), duty)), s.log + [Write(Pwm(nr), duty)])
        else Picture(PutPwm(s.c, nr, q), s.m, s.log)
  {
    hide Put, Done, PutPwm, Automatic;
    var q := s.c.pwms[nr].(duty := duty);
    NoWrite(s, false, s.c);
    NoWrite(s, true, PutPwm(s.c, nr, q));
    OneWrite(s, PutPwm(s.c, nr, q), Duty(nr), duty);
    OneWrite(s, PutPwm(s.c, nr, q.(ctrl := duty)), Pwm(nr), duty);
  }

  /** Reading the channel first changes what the cache says of it. */
  ghost function ChannelRead(chip: Chip, s: Picture, nr: Chan): Picture
    requires chip.Newer() || nr < 3
  {
    s.(c := PutPwm(s.c, nr, DecodePwm(chip, s.m, nr, s.c.pwms[nr])))
  }

  lemma DutyAfterRead(chip: Chip, s: Picture, nr: Chan, duty: bv8)
    requires chip.Newer() || nr < 3
    ensures var e, f := StorePwm(chip, s.c, s.m, nr, duty), DutyEffect(chip, ChannelRead(chip, s, nr).c, nr, duty);
      Done(s, e) == Done(ChannelRead(chip, s, nr), f) && e.ok == f.ok
  {
    hide DecodePwm, Apply;
    var p := DecodePwm(chip, s.m, nr, s.c.pwms[nr]);
    PutTwice(s.c, nr, p, p.(duty := duty));
    PutTwice(s.c, nr, p, p.(duty := duty, ctrl := duty));
    assert PutPwm(s.c, nr, p).pwms[nr] == p;
    hide PutPwm;
  }

  ghost function MapEffect(c: Cache, nr: Chan, code: bv8): Effect {
    var q := c.pwms[nr].(tempMap := code);
    var r := q.(ctrl := Mapped(q.ctrl, code));
    if Automatic(q.ctrl) then Effect(true, PutPwm(c, nr, r), [Write(Pwm(nr), r.ctrl)])
    else Effect(true, PutPwm(c, nr, q), [])
  }

  lemma MapDone(s: Picture, nr: Chan, code: bv8)
    ensures var q := s.c.pwms[nr].(tempMap := code);
      var ctrl := Mapped(q.ctrl, code);
      Done(s, MapEffect(s.c, nr, code)) ==
        if Automatic(q.ctrl) then
          Picture(PutPwm(s.c, nr, q.(ctrl := ctrl)), Put(s.m, Write(Pwm(nr), ctrl)), s.log + [Write(Pwm(nr), ctrl)])
        else Picture(PutPwm(s.c, nr, q), s.m, s.log)
  {
    hide Put, Done, PutPwm, Automatic, Mapped;
    var q := s.c.pwms[nr].(tempMap := code);
    var r := q.(ctrl := Mapped(q.ctrl, code));
    NoWrite(s, true, PutPwm(s.c, nr, q));
    OneWrite(s, PutPwm(s.c, nr, r), Pwm(nr), r.ctrl);
  }

  lemma MapAfterRead(chip: Chip, s: Picture, nr: Chan, code: bv8)
    requires chip.Newer() || nr < 3
    ensures Done(s, StoreTempMap(chip, s.c, s.m, nr, code)) ==
      Done(ChannelRead(chip, s, nr), MapEffect(ChannelRead(chip, s, nr).c, nr, code))
  {
    hide DecodePwm, Apply;
    var p := DecodePwm(chip, s.m, nr, s.c.pwms[nr]);
    var q := p.(tempMap := code);
    PutTwice(s.c, nr, p, q);
    PutTwice(s.c, nr, p, q.(ctrl := (q.ctrl & 0xfc) | code));
    assert PutPwm(s.c, nr, p).pwms[nr] == p;
    hide PutPwm;
  }

  lemma MapOk(chip: Chip, c: Cache, m: Regs, nr: Chan, code: bv8)
    requires chip.Newer() || nr < 3
    ensures StoreTempMap(chip, c, m, nr, code).ok
  {
  }

  /** A table that a loop has finished up to entry i. */
  lemma NextDone<T>(done: seq<T>, todo: seq<T>, i: nat)
    requires i < |done| == |todo|
    ensures (done[..i] + todo[i..])[i] == todo[i]
    ensures (done[..i] + todo[i..])[i := done[i]] == done[..i + 1] + todo[i + 1..]
  {
  }

  predicate Ascends(p: PwmState, k: nat)
    requires k < 3
  {
    Signed(p.autoTemp[k]) <= Signed(p.autoTemp[k + 1])
  }

  predicate Rises(p: PwmState, k: nat)
    requires k < 2
  {
    p.autoPwm[k] <= p.autoPwm[k + 1]
  }

  /** The default temperature map of a channel. */
  function MapOf(i: Chan): bv8 { ByteOf(i) }

  class It87Data {
    const chip: Chip
    const io: IoPorts
    var bank: bv8
    var vins: Vins
    var fans: Fans
    var temps: Temps
    var pwms: Pwms
    var fanDiv: Divs
    var alarms: bv32
    var beeps: bv8
    var fanMain: bv8
    var fanCtl: bv8
    var sensor: bv8
    var extra: bv8
    var vid: bv8
    var valid: bool
    var lastUpdated: nat

    /** Every register write so far, in order. */
    ghost var log: seq<Write>

    /** The tick, never wrapping, at which the cache was last filled. */
    ghost var filledAt: nat

    /** A freshly allocated driver, with no bank believed to be selected. Manual
        mode starts at full speed, the temperature maps one to one. */
    constructor (chip: Chip, io: IoPorts)
      requires io.device.banked == (BankSel in chip.features)
      ensures this.chip == chip && this.io == io
      ensures Valid() && M() == View(LayoutOf(chip.kind), io.device) && log == []
      ensures !valid && lastUpdated == 0
      ensures C().pwms == seq(6, i requires 0 <= i < 6 => PwmState(0, 0x7f, MapOf(i), [0, 0, 0, 0x7f], [0, 0, 0, 0, 0]))
    {
      this.chip, this.io := chip, io;
      bank := 0xff;
      vins, fans := seq(13, _ => Vin(0, 0, 0)), seq(6, _ => Fan(0, 0));
      temps, fanDiv := seq(6, _ => Temp(0, 0, 0, 0)), [0, 0, 0];
      pwms := seq(6, i requires 0 <= i < 6 => PwmState(0, 0x7f, MapOf(i), [0, 0, 0, 0x7f], [0, 0, 0, 0, 0]));
      alarms, beeps, fanMain, fanCtl, sensor, extra, vid := 0, 0, 0, 0, 0, 0, 0;
      valid, lastUpdated, log := false, 0, [];
    }

    ghost function C(): Cache
      reads `vins, `fans, `temps, `pwms, `fanDiv, `alarms, `beeps, `fanMain, `fanCtl, `sensor, `extra, `vid
    {
      Cache(vins, fans, temps, pwms, fanDiv, alarms, beeps, fanMain, fanCtl, sensor, extra, vid)
    }

    ghost function Ec(): P.Ec
      reads `bank, io
    {
      P.Ec(io.device, bank)
    }

    /** The device has banks if and only if the feature table says so. */
    ghost predicate Fits()
      reads io
    {
      io.device.banked == (BankSel in chip.features)
    }

    ghost predicate Valid()
      reads `bank, io
    {
      P.Synced(Ec()) && Fits()
    }

    /** The registers of the device. */
    ghost function M(): Regs
      reads io
    {
      View(LayoutOf(chip.kind), io.device)
    }

    ghost function Now(): Picture
      reads `vins, `fans, `temps, `pwms, `fanDiv, `alarms, `beeps, `fanMain, `fanCtl, `sensor, `extra, `vid, `log, io
    {
      Picture(C(), M(), log)
    }

    // ------------------------------------------------------ register access

    method RawRead(reg: bv8) returns (v: bv8)
      modifies io
      ensures (v, io.device) == P.RawRead(old(io.device), reg)
    {
      io.Out(reg, AddressPort);
      v := io.InData();
    }

    method RawWrite(reg: bv8, v: bv8)
      modifies io
      ensures io.device == P.RawWrite(old(io.device), reg, v)
    {
      io.Out(reg, AddressPort);
      io.Out(v, DataPort);
    }

    method SetBank(b: bv8)
      requires Fits()
      modifies `bank, io
      ensures Ec() == P.SetBank(old(Ec()), b)
    {
      if BankSel in chip.features && b != bank {
        var breg := RawRead(P.REG_BANK);
        breg := breg & 0x1f;
        breg := breg | (b << 5);
        bank := b;
        RawWrite(P.REG_BANK, breg);
      }
    }

    method ReadValue(reg: P.RegNo) returns (v: bv8)
      requires Fits()
      modifies `bank, io
      ensures (v, Ec()) == P.ReadValue(old(Ec()), reg)
    {
      SetBank((reg >> 8) as bv8);
      v := RawRead((reg & 0xff) as bv8);
    }

    method WriteValue(reg: P.RegNo, v: bv8)
      requires Fits()
      modifies `bank, io
      ensures Ec() == P.WriteValue(old(Ec()), reg, v)
    {
      SetBank((reg >> 8) as bv8);
      RawWrite((reg & 0xff) as bv8, v);
    }

    /** A read at the register number of a role. */
    method Read(r: Reg) returns (v: bv8)
      requires Valid()
      modifies `bank, io
      ensures Valid() && M() == old(M()) && v == M()[r]
    {
      ReadView(Ec(), LayoutOf(chip.kind), r);
      v := ReadValue(RegAt(LayoutOf(chip.kind), r));
    }

    method Write(r: Reg, v: bv8)
      requires Valid()
      modifies `bank, io, `log
      ensures Valid() && M() == Put(old(M()), It87Spec.Write.Write(r, v))
      ensures log == old(log) + [It87Spec.Write.Write(r, v)]
    {
      WriteView(Ec(), chip.kind, r, v);
      WriteValue(RegAt(LayoutOf(chip.kind), r), v);
      log := log + [It87Spec.Write.Write(r, v)];
    }

    // -------------------------------------------------------------- refresh

    method UpdateVin(i: nat)
      requires Valid() && i < 13
      modifies `bank, io, `vins
      ensures Valid() && M() == old(M())
      ensures vins == old(vins)[i := DecodeVin(chip, M(), i, old(vins[i]))]
    {
      if i in chip.hasIn {
        hide M, Valid;
        var v := vins[i];
        var input := Read(VinInput(i));
        v := v.(input := input);
        if i < 8 {
          var lo := Read(VinMin(i));
          var hi := Read(VinMax(i));
          v := v.(min := lo, max := hi);
        }
        vins := vins[i := v];
      }
    }

    method UpdateVins()
      requires Valid()
      modifies `bank, io, `vins
      ensures Valid() && M() == old(M()) && vins == DecodeVins(chip, M(), old(vins))
    {
      ghost var todo, done := vins, DecodeVins(chip, M(), vins);
      for i := 0 to 13
        invariant Valid() && M() == old(M()) && vins == done[..i] + todo[i..]
      {
        NextDone(done, todo, i);
        UpdateVin(i);
      }
    }

    method UpdateFan(i: Chan)
      requires Valid()
      modifies `bank, io, `fans
      ensures Valid() && M() == old(M())
      ensures fans == old(fans)[i := DecodeFan(chip, M(), i, old(fans[i]))]
    {
      if i in chip.hasFan {
        hide M, Valid;
        var minLo := Read(FanMinLo(i));
        var lo := Read(FanLo(i));
        var hi, minHi := 0, 0;
        if chip.Fan16() {
          hi := Read(FanHi(i));
          minHi := Read(FanMinHi(i));
        }
        fans := fans[i := Fan(Join(lo, hi), Join(minLo, minHi))];
      }
    }

    method UpdateFans()
      requires Valid()
      modifies `bank, io, `fans
      ensures Valid() && M() == old(M()) && fans == DecodeFans(chip, M(), old(fans))
    {
      ghost var todo, done := fans, DecodeFans(chip, M(), fans);
      for i := 0 to 6
        invariant Valid() && M() == old(M()) && fans == done[..i] + todo[i..]
      {
        NextDone(done, todo, i);
        UpdateFan(i);
      }
    }

    method UpdateTemp(i: Chan)
      requires Valid()
      modifies `bank, io, `temps
      ensures Valid() && M() == old(M())
      ensures temps == old(temps)[i := DecodeTemp(chip, M(), i, old(temps[i]))]
    {
      if i in chip.hasTemp {
        hide M, Valid;
        var t := temps[i];
        var input := Read(Sensor(i));
        t := t.(input := input);
        if i < chip.numTempLimit {
          if TempOffsets in chip.features {
            var offset := Read(TempOffset(i));
            t := t.(offset := offset);
          }
          var low := Read(TempLow(i));
          var high := Read(TempHigh(i));
          t := t.(low := low, high := high);
        }
        temps := temps[i := t];
      }
    }

    method UpdateTemps()
      requires Valid()
      modifies `bank, io, `temps
      ensures Valid() && M() == old(M()) && temps == DecodeTemps(chip, M(), old(temps))
    {
      ghost var todo, done := temps, DecodeTemps(chip, M(), temps);
      for i := 0 to 6
        invariant Valid() && M() == old(M()) && temps == done[..i] + todo[i..]
      {
        NextDone(done, todo, i);
        UpdateTemp(i);
      }
    }

    /** Mode, manual duty and temperature map of one channel. */
    method UpdateMode(nr: Chan)
      requires Valid()
      modifies `bank, io, `pwms
      ensures Valid() && M() == old(M())
      ensures pwms == old(pwms)[nr := DecodeMode(chip, M(), nr, old(pwms[nr]))]
    {
      hide M, Valid;
      var p := pwms[nr];
      var ctrl := Read(Pwm(nr));
      p := p.(ctrl := ctrl);
      if chip.Newer() {
        var duty := Read(Duty(nr));
        p := p.(tempMap := ctrl & 0x03, duty := duty);
      } else if ctrl & 0x80 != 0 {
        p := p.(tempMap := ctrl & 0x03);
      } else {
        p := p.(duty := ctrl & 0x7f);
      }
      pwms := pwms[nr := p];
    }

    method UpdateOldAuto(nr: Third)
      requires Valid()
      modifies `bank, io, `pwms
      ensures Valid() && M() == old(M())
      ensures pwms == old(pwms)[nr := OldAuto(M(), nr, old(pwms[nr]))]
    {
      hide M, Valid;
      var temps, duties: seq<bv8> := pwms[nr].autoTemp, pwms[nr].autoPwm;
      for i := 0 to 5
        invariant Valid() && M() == old(M()) && pwms == old(pwms) && |temps| == 5
        invariant forall k | 0 <= k < i :: temps[k] == M()[AutoPoint(nr, k)]
      {
        var t := Read(AutoPoint(nr, i));
        temps := temps[i := t];
      }
      for i := 0 to 3
        invariant Valid() && M() == old(M()) && pwms == old(pwms) && |duties| == 4
        invariant duties[3] == pwms[nr].autoPwm[3]
        invariant forall k | 0 <= k < i :: duties[k] == M()[OldAutoPwm(nr, k)]
      {
        var d := Read(OldAutoPwm(nr, i));
        duties := duties[i := d];
      }
      assert temps == OldAuto(M(), nr, pwms[nr]).autoTemp;
      assert duties == OldAuto(M(), nr, pwms[nr]).autoPwm;
      pwms := pwms[nr := pwms[nr].(autoTemp := temps, autoPwm := duties)];
    }

    method UpdateNewerAuto(nr: Chan)
      requires Valid()
      modifies `bank, io, `pwms
      ensures Valid() && M() == old(M())
      ensures pwms == old(pwms)[nr := NewerAuto(M(), nr, old(pwms[nr]))]
    {
      hide M, Valid;
      var temps: seq<bv8> := pwms[nr].autoTemp;
      var hysteresis := Read(AutoPoint(nr, 5));
      temps := temps[0 := hysteresis];
      for i := 0 to 3
        invariant Valid() && M() == old(M()) && pwms == old(pwms) && |temps| == 5
        invariant temps[0] == M()[AutoPoint(nr, 5)] && temps[4] == pwms[nr].autoTemp[4]
        invariant forall k | 0 <= k < i :: temps[k + 1] == M()[AutoPoint(nr, k)]
      {
        var t := Read(AutoPoint(nr, i));
        temps := temps[i + 1 := t];
      }
      var start := Read(AutoPoint(nr, 3));
      var slope := Read(AutoPoint(nr, 4));
      assert temps == NewerAuto(M(), nr, pwms[nr]).autoTemp;
      var duties := pwms[nr].autoPwm[0 := start][1 := slope];
      assert duties == NewerAuto(M(), nr, pwms[nr]).autoPwm;
      pwms := pwms[nr := pwms[nr].(autoTemp := temps, autoPwm := duties)];
    }

    /** it87_update_pwm_ctrl. */
    method UpdatePwmCtrl(nr: Chan)
      requires Valid() && (chip.Newer() || nr < 3)
      modifies `bank, io, `pwms
      ensures Valid() && M() == old(M())
      ensures pwms == old(pwms)[nr := DecodePwm(chip, M(), nr, old(pwms[nr]))]
    {
      hide M, Valid, DecodeMode, OldAuto, NewerAuto;
      UpdateMode(nr);
      if chip.Old() {
        UpdateOldAuto(nr);
      } else if chip.Newer() {
        UpdateNewerAuto(nr);
      }
    }

    method UpdatePwms()
      requires Valid()
      modifies `bank, io, `pwms
      ensures Valid() && M() == old(M()) && pwms == DecodePwms(chip, M(), old(pwms))
    {
      ghost var todo, done := pwms, DecodePwms(chip, M(), pwms);
      hide DecodePwm;
      for i := 0 to 6
        invariant Valid() && M() == old(M()) && pwms == done[..i] + todo[i..]
      {
        NextDone(done, todo, i);
        if i in chip.hasPwm {
          UpdatePwmCtrl(i);
        }
      }
    }

    method UpdateDividers()
      requires Valid()
      modifies `bank, io, `fanDiv
      ensures Valid() && M() == old(M()) && fanDiv == DecodeDiv(chip, M(), old(fanDiv))
    {
      hide M, Valid;
      if chip.HasDividers() {
        var b := Read(FanDiv);
        fanDiv := [b & 0x07, (b >> 3) & 0x07, if b & 0x40 != 0 then 3 else 1];
      }
    }

    method UpdateAlarms()
      requires Valid()
      modifies `bank, io, `alarms, `beeps
      ensures Valid() && M() == old(M()) && alarms == DecodeAlarms(M()) && beeps == M()[BeepEnable]
    {
      hide M, Valid, AlarmWord;
      var first := Read(Alarm(0));
      var second := Read(Alarm(1));
      var third := Read(Alarm(2));
      alarms := AlarmWord(first, second, third);
      beeps := Read(BeepEnable);
    }

    method UpdateFanControl()
      requires Valid()
      modifies `bank, io, `fanMain, `fanCtl
      ensures Valid() && M() == old(M()) && fanMain == M()[FanMain] && fanCtl == M()[FanCtl]
    {
      hide M, Valid;
      fanMain := Read(FanMain);
      fanCtl := Read(FanCtl);
    }

    method UpdateSources()
      requires Valid()
      modifies `bank, io, `sensor, `extra, `vid
      ensures Valid() && M() == old(M()) && sensor == M()[TempEnable] && extra == M()[TempExtra]
      ensures vid == if chip.kind in {It8712, It8716} then M()[Vid] & 0x3f else old(vid)
    {
      hide M, Valid;
      sensor := Read(TempEnable);
      extra := Read(TempExtra);
      if chip.kind == It8712 || chip.kind == It8716 {
        var pins := Read(Vid);
        vid := pins & 0x3f;
      }
    }

    /** Voltages, fans, temperatures and dividers. */
    method UpdateTables()
      requires Valid()
      modifies `bank, io, `vins, `fans, `temps, `fanDiv
      ensures Valid() && M() == old(M())
      ensures vins == DecodeVins(chip, M(), old(vins)) && fans == DecodeFans(chip, M(), old(fans))
      ensures temps == DecodeTemps(chip, M(), old(temps)) && fanDiv == DecodeDiv(chip, M(), old(fanDiv))
    {
      hide M, Valid, DecodeVins, DecodeFans, DecodeTemps, DecodeDiv;
      UpdateVins();
      UpdateFans();
      UpdateTemps();
      UpdateDividers();
    }

    /** Alarms, fan control and sensor sources. */
    method UpdateControls()
      requires Valid()
      modifies `bank, io, `pwms, `alarms, `beeps, `fanMain, `fanCtl, `sensor, `extra, `vid
      ensures Valid() && M() == old(M()) && pwms == DecodePwms(chip, M(), old(pwms))
      ensures alarms == DecodeAlarms(M()) && beeps == M()[BeepEnable]
      ensures fanMain == M()[FanMain] && fanCtl == M()[FanCtl]
      ensures sensor == M()[TempEnable] && extra == M()[TempExtra]
      ensures vid == if chip.kind in {It8712, It8716} then M()[Vid] & 0x3f else old(vid)
    {
      hide M, Valid, DecodePwms, DecodeAlarms;
      UpdateAlarms();
      UpdateFanControl();
      UpdatePwms();
      UpdateSources();
    }

    /** The reads of it87_update_device: the cache becomes the snapshot. */
    method UpdateAll()
      requires Valid()
      modifies `bank, io, `vins, `fans, `temps, `pwms, `fanDiv, `alarms, `beeps, `fanMain, `fanCtl, `sensor, `extra,
        `vid
      ensures Valid() && M() == old(M()) && C() == Refresh(chip, M(), old(C()))
    {
      RefreshByTable(chip, M(), C());
      hide M, Valid, Refresh, DecodeVins, DecodeFans, DecodeTemps, DecodePwms, DecodeDiv, DecodeAlarms;
      UpdateTables();
      UpdateControls();
    }

    ghost predicate Dated(k: Clock)
      reads `lastUpdated, `filledAt
    {
      lastUpdated == k.Jiffies(filledAt)
    }

    method Fill(updateVbat: bool)
      requires Valid()
      modifies this, io
      ensures Valid() && Now() == Filled(chip, old(Now()), updateVbat)
      ensures lastUpdated == old(lastUpdated) && filledAt == old(filledAt)
    {
      hide M, Valid, Refresh, C, Apply;
      NoWrites(M(), []);
      if updateVbat {
        var config := Read(Config);
        ApplyOne(M(), It87Spec.Write.Write(Config, config | 0x40));
        Write(Config, config | 0x40);
      }
      UpdateAll();
    }

    /** The last filling is dated, and not too much time has passed since for the
        counter to tell. */
    ghost predicate InRange(k: Clock, now: nat)
      reads `lastUpdated, `filledAt
    {
      Dated(k) && filledAt <= now <= filledAt + k.MaxAge() + k.Range() / 2
    }

    /** The test of it87_update_device, which fills a cache that is not valid
        whatever the counter reads. */
    method NeedsRefresh(k: Clock, jiffies: nat, ghost now: nat) returns (b: bool)
      requires k.Valid() && jiffies == k.Jiffies(now)
      ensures b <==> !valid || k.Old(jiffies, lastUpdated)
      ensures valid && InRange(k, now) ==> (b <==> now > filledAt + k.MaxAge())
    {
      if InRange(k, now) {
        OldExactly(k, filledAt, now);
      }
      hide k.Old, k.Jiffies, k.MaxAge;
      b := k.Old(jiffies, lastUpdated) || !valid;
    }

    /** it87_update_device, from any state: a cache that is not valid, or that the
        counter says is old, is filled again. On return it is valid, and not too
        old if it was not valid before or the counter could tell its age. */
    method UpdateDevice(k: Clock, updateVbat: bool, jiffies: nat, ghost now: nat)
      requires Valid() && k.Valid() && jiffies == k.Jiffies(now)
      modifies this, io
      ensures Valid() && valid
      ensures var refresh := !old(valid) || k.Old(jiffies, old(lastUpdated));
        && Now() == (if refresh then Filled(chip, old(Now()), updateVbat) else old(Now()))
        && (lastUpdated, filledAt) == (if refresh then (jiffies, now) else (old(lastUpdated), old(filledAt)))
      ensures !old(valid) || old(InRange(k, now)) ==> InRange(k, now) && now <= filledAt + k.MaxAge()
    {
      hide M, Valid, Now, Filled, k.Old;
      var refresh := NeedsRefresh(k, jiffies, now);
      if refresh {
        hide Dated;
        Fill(updateVbat);
        lastUpdated, filledAt := jiffies, now;
        valid := true;
      }
    }

    // -------------------------------------------------------------- setters

    /** set_in. */
    method StoreIn(nr: Octet, index: nat, val: int)
      requires Valid() && index in {1, 2}
      modifies `vins, `bank, io, `log
      ensures var s := old(Now()); Valid() && Now() == Done(s, SetIn(chip, s.c, nr, index, val))
    {
      hide M, Valid, Put, Apply, InToReg, ByteOf;
      var code := ByteOf(InToReg(chip.AdcLsb(nr), val));
      var reg := if index == 1 then VinMin(nr) else VinMax(nr);
      OneWrite(Now(), SetIn(chip, C(), nr, index, val).cache, reg, code);
      hide Done;
      vins := vins[nr := if index == 1 then vins[nr].(min := code) else vins[nr].(max := code)];
      Write(reg, code);
    }

    method StoreLimit(nr: Chan, high: bool, code: bv8)
      requires Valid()
      modifies `temps, `bank, io, `log
      ensures var s := old(Now());
        Valid() && Now() == Done(s, It87Spec.StoreTemp(s.c, s.m, nr, if high then 2 else 1, code))
    {
      hide M, Valid, Put;
      var reg := if high then TempHigh(nr) else TempLow(nr);
      var t := if high then temps[nr].(high := code) else temps[nr].(low := code);
      OneWrite(Now(), PutTemp(C(), nr, t), reg, code);
      hide Done;
      temps := temps[nr := t];
      Write(reg, code);
    }

    method EnableOffsets()
      requires Valid()
      modifies `bank, io, `log
      ensures Valid() && Now() == OffsetsEnabled(old(Now()))
    {
      hide M, Valid, Put, C;
      var regval := Read(BeepEnable);
      if regval & 0x80 == 0 {
        regval := regval | 0x80;
        Write(BeepEnable, regval);
      }
    }

    method StoreOffset(nr: Chan, code: bv8)
      requires Valid()
      modifies `temps, `bank, io, `log, `valid
      ensures var s := old(Now()); Valid() && Now() == Done(s, It87Spec.StoreTemp(s.c, s.m, nr, 3, code)) && !valid
    {
      hide M, Valid, Put;
      OffsetDone(Now(), nr, code);
      hide Done, OffsetsEnabled, It87Spec.StoreTemp;
      EnableOffsets();
      valid := false;
      temps := temps[nr := temps[nr].(offset := code)];
      Write(TempOffset(nr), code);
    }

    /** set_temp. */
    method StoreTemp(nr: Chan, index: nat, val: int)
      requires Valid() && index in {1, 2, 3}
      modifies `temps, `bank, io, `log, `valid
      ensures var s := old(Now()); Valid() && Now() == Done(s, SetTemp(s.c, s.m, nr, index, val))
      ensures valid == (old(valid) && index != 3)
    {
      hide Valid, Done, It87Spec.StoreTemp;
      var code := SignedByte(TempToReg(val));
      match index {
        case 3 => StoreOffset(nr, code);
        case 2 => StoreLimit(nr, true, code);
        case _ => StoreLimit(nr, false, code);
      }
    }

    method StoreFan16(nr: Chan, w: bv16)
      requires Valid()
      modifies `fans, `bank, io, `log
      ensures var s := old(Now()); Valid() && Now() == Done(s, It87Spec.StoreFan16(s.c, nr, w))
    {
      hide M, Valid, Put;
      var f := fans[nr].(min := w);
      TwoWrites(Now(), PutFan(C(), nr, f), FanMinLo(nr), Low(w), FanMinHi(nr), High(w));
      hide Done;
      fans := fans[nr := f];
      Write(FanMinLo(nr), Low(w));
      Write(FanMinHi(nr), High(w));
    }

    method StoreFan8(nr: Third, div: bv8, b: bv8)
      requires Valid()
      modifies `fans, `fanDiv, `bank, io, `log
      ensures var s := old(Now()); Valid() && Now() == Done(s, It87Spec.StoreFan(s.c, nr, div, b))
    {
      hide M, Valid, Put;
      var f := fans[nr].(min := Join(b, 0));
      OneWrite(Now(), PutFan(C().(fanDiv := fanDiv[nr := div]), nr, f), FanMinLo(nr), b);
      hide Done;
      fanDiv := fanDiv[nr := div];
      fans := fans[nr := f];
      Write(FanMinLo(nr), b);
    }

    /** set_fan. */
    method StoreFan(nr: Chan, val: int)
      requires Valid() && (chip.Fan16() || nr < 3)
      modifies `fans, `fanDiv, `bank, io, `log
      ensures var s := old(Now()); Valid() && Now() == Done(s, SetFan(chip, s.c, s.m, nr, val))
    {
      hide M, Valid, Done, It87Spec.StoreFan16, It87Spec.StoreFan, FanToReg, Fan16ToReg, WordOf, ByteOf, Divider,
        UnpackDiv, DivOf;
      if chip.Fan16() {
        StoreFan16(nr, WordOf(Fan16ToReg(val)));
      } else {
        var reg := Read(FanDiv);
        DivOfUnpacks(reg, nr);
        var div := DivOf(reg, nr);
        StoreFan8(nr, div, ByteOf(FanToReg(val, Divider(div))));
      }
    }

    method StoreDivider(nr: Third, before: bv8, code: bv8, b: bv8)
      requires Valid() && before == M()[FanDiv]
      modifies `fans, `fanDiv, `bank, io, `log
      ensures var s := old(Now()); Valid() && Now() == Done(s, StoreDiv(s.c, s.m, nr, code, b))
    {
      hide M, Valid, Put, PackDiv;
      var f, div := fans[nr].(min := Join(b, 0)), fanDiv[nr := code];
      TwoWrites(Now(), PutFan(C().(fanDiv := div), nr, f), FanDiv, PackDiv(before, div), FanMinLo(nr), b);
      hide Done, Join;
      fanDiv, fans := div, fans[nr := f];
      Write(FanDiv, PackDiv(before, div));
      Write(FanMinLo(nr), b);
    }

    /** set_fan_div. */
    method StoreFanDiv(nr: Third, val: nat)
      requires Valid()
      modifies `fans, `fanDiv, `bank, io, `log
      ensures var s := old(Now()); Valid() && Now() == Done(s, SetFanDiv(s.c, s.m, nr, val))
    {
      hide M, Valid, Done, StoreDiv;
      var before := Read(FanDiv);
      var min := FanFromReg(fans[nr].min as nat, Divider(fanDiv[nr]));
      var code: bv8;
      if nr < 2 {
        var log2 := ComputeDivToReg(val);
        DivToRegBound(val);
        code := ByteOf(log2);
      } else {
        code := if val < 8 then 1 else 3;
      }
      StoreDivider(nr, before, code, ByteOf(FanToReg(min, Divider(code))));
    }

    /** check_trip_points. */
    method CheckTripPoints(nr: Chan) returns (ok: bool)
      ensures ok == TripPointsOk(chip, pwms[nr])
    {
      TripPointsInOrder(chip, pwms[nr]);
      hide TripPointsOk;
      ok := true;
      if chip.Old() {
        var temps := CheckTemps(pwms[nr], 0);
        var duties := CheckDuties(pwms[nr]);
        ok := temps && duties;
      } else if chip.Newer() {
        ok := CheckTemps(pwms[nr], 1);
      }
    }

    /** Full speed, on a channel with on/off mode. */
    method SwitchOn(nr: Third)
      requires Valid()
      modifies `fanMain, `bank, io, `log
      ensures var s := old(Now()); Valid() && Now() == Done(s, EnterOnOff(s.c, s.m, nr))
    {
      OnOffDone(Now(), nr);
      hide M, Valid, Put, Done, EnterOnOff, With, Without;
      // switched on first, so that leaving PWM mode does not stop the fan
      var tmp := Read(FanCtl);
      Write(FanCtl, With(tmp, nr));
      fanMain := Without(fanMain, nr);
      Write(FanMain, fanMain);
    }

    /** Full speed, on the other channels: maximum duty in manual mode. */
    method FullDuty(nr: Chan)
      requires Valid()
      modifies `pwms, `bank, io, `log
      ensures var s := old(Now()); Valid() && Now() == Done(s, EnterFullDuty(chip, s.c, nr))
    {
      hide M, Valid, Put, NewerCtrl, PwmToReg;
      var duty := PwmToReg(chip, 0xff);
      var ctrl := if chip.Newer() then NewerCtrl(pwms[nr]) else duty;
      var p := pwms[nr].(duty := duty, ctrl := ctrl);
      TwoWrites(Now(), PutPwm(C(), nr, p), Duty(nr), duty, Pwm(nr), ctrl);
      hide Done;
      Write(Duty(nr), duty);
      pwms := pwms[nr := p];
      Write(Pwm(nr), ctrl);
    }

    /** Manual or automatic mode. */
    method EnterMode(nr: Chan, ctrl: bv8)
      requires Valid()
      modifies `pwms, `fanMain, `bank, io, `log
      ensures var s := old(Now()); Valid() && Now() == Done(s, EnterPwmMode(chip, s.c, nr, ctrl))
    {
      ModeDone(chip, Now(), nr, ctrl);
      hide M, Valid, Put, Done, EnterPwmMode, With;
      pwms := pwms[nr := pwms[nr].(ctrl := ctrl)];
      Write(Pwm(nr), ctrl);
      if chip.OnOff(nr) {
        fanMain := With(fanMain, nr);
        Write(FanMain, fanMain);
      }
    }

    /** set_pwm_enable. */
    method StorePwmEnable(nr: Chan, val: int) returns (ok: bool)
      requires Valid()
      modifies `pwms, `fanMain, `bank, io, `log
      ensures var s := old(Now());
        var e := SetPwmEnable(chip, s.c, s.m, nr, val);
        Valid() && Now() == Done(s, e) && ok == e.ok
    {
      NoWrite(Now(), false, C());
      EnterOk(chip, C(), M(), nr, ModeCtrl(chip, pwms[nr], val == 2));
      hide Valid, Done, EnterOnOff, EnterFullDuty, EnterPwmMode, ModeCtrl, TripPointsOk, C, M;
      if val < 0 || val > 2 {
        return false;
      }
      if val == 2 {
        var orderly := CheckTripPoints(nr);
        if !orderly {
          return false;
        }
      }
      if val == 0 {
        if chip.OnOff(nr) {
          SwitchOn(nr);
        } else {
          FullDuty(nr);
        }
      } else {
        EnterMode(nr, ModeCtrl(chip, pwms[nr], val == 2));
      }
      ok := true;
    }

    method ReadChannel(nr: Chan)
      requires Valid() && (chip.Newer() || nr < 3)
      modifies `pwms, `bank, io
      ensures Valid() && Now() == ChannelRead(chip, old(Now()), nr)
    {
      hide M, Valid, DecodePwm;
      UpdatePwmCtrl(nr);
    }

    /** The write that set_pwm makes, if any, once the channel has been read. */
    method WriteDuty(nr: Chan, duty: bv8) returns (ok: bool)
      requires Valid()
      modifies `pwms, `bank, io, `log
      ensures var s := old(Now());
        var e := DutyEffect(chip, s.c, nr, duty);
        Valid() && Now() == Done(s, e) && ok == e.ok
    {
      hide M, Valid, Put, Done, DutyEffect, Automatic;
      DutyDone(chip, Now(), nr, duty);
      var p := pwms[nr];
      var automatic := Automatic(p.ctrl);
      ok := !(chip.Newer() && automatic);
      if ok {
        p := p.(duty := duty);
        if !chip.Newer() && !automatic {
          p := p.(ctrl := duty);
        }
        pwms := pwms[nr := p];
        if chip.Newer() {
          Write(Duty(nr), duty);
        } else if !automatic {
          Write(Pwm(nr), duty);
        }
      }
    }

    method StoreDuty(nr: Chan, duty: bv8) returns (ok: bool)
      requires Valid() && (chip.Newer() || nr < 3)
      modifies `pwms, `bank, io, `log
      ensures var s := old(Now());
        var e := It87Spec.StorePwm(chip, s.c, s.m, nr, duty);
        Valid() && Now() == Done(s, e) && ok == e.ok
    {
      DutyAfterRead(chip, Now(), nr, duty);
      hide M, Valid, Now, Done, DutyEffect, It87Spec.StorePwm, ChannelRead;
      ReadChannel(nr);
      ok := WriteDuty(nr, duty);
    }

    /** set_pwm. */
    method StorePwm(nr: Chan, val: int) returns (ok: bool)
      requires Valid() && (chip.Newer() || nr < 3)
      modifies `pwms, `bank, io, `log
      ensures var s := old(Now());
        var e := SetPwm(chip, s.c, s.m, nr, val);
        Valid() && Now() == Done(s, e) && ok == e.ok
    {
      NoWrite(Now(), false, C());
      hide Valid, Done, It87Spec.StorePwm, C, M;
      ok := 0 <= val <= 255;
      if ok {
        ok := StoreDuty(nr, PwmToReg(chip, ByteOf(val)));
      }
    }

    method WriteMap(nr: Chan, code: bv8)
      requires Valid()
      modifies `pwms, `bank, io, `log
      ensures var s := old(Now()); Valid() && Now() == Done(s, MapEffect(s.c, nr, code))
    {
      MapDone(Now(), nr, code);
      hide M, Valid, Put, Done, MapEffect, Automatic, Mapped;
      var p := pwms[nr].(tempMap := code);
      var automatic := Automatic(p.ctrl);
      if automatic {
        p := p.(ctrl := Mapped(p.ctrl, code));
      }
      pwms := pwms[nr := p];
      if automatic {
        Write(Pwm(nr), p.ctrl);
      }
    }

    method StoreMap(nr: Chan, code: bv8)
      requires Valid() && (chip.Newer() || nr < 3)
      modifies `pwms, `bank, io, `log
      ensures var s := old(Now()); Valid() && Now() == Done(s, StoreTempMap(chip, s.c, s.m, nr, code))
    {
      MapAfterRead(chip, Now(), nr, code);
      hide M, Valid, Now, Done, MapEffect, StoreTempMap, ChannelRead;
      ReadChannel(nr);
      WriteMap(nr, code);
    }

    /** set_pwm_temp_map. */
    method StorePwmTempMap(nr: Chan, val: int) returns (ok: bool)
      requires Valid() && (chip.Newer() || nr < 3)
      modifies `pwms, `bank, io, `log
      ensures var s := old(Now());
        var e := SetTempMap(chip, s.c, s.m, nr, val);
        Valid() && Now() == Done(s, e) && ok == e.ok
    {
      NoWrite(Now(), false, C());
      MapOk(chip, C(), M(), nr, TempMapCode(nr, val));
      hide Valid, Done, StoreTempMap, C, M;
      var code := TempMapCode(nr, val);
      ok := code != 0xff;
      if ok {
        StoreMap(nr, code);
      }
    }

    /** set_pwm_freq. */
    method StorePwmFreq(nr: Chan, val: nat)
      requires Valid()
      modifies `fanCtl, `extra, `bank, io, `log
      ensures var s := old(Now()); Valid() && Now() == Done(s, SetPwmFreq(chip, s.c, s.m, nr, val))
    {
      hide M, Valid, Put, FreqField, FreqToReg;
      var i := ComputeFreqToReg(chip.Newer(), val);
      if nr == 0 {
        var ctl := Read(FanCtl);
        ctl := FreqField(ctl, ByteOf(i));
        OneWrite(Now(), C().(fanCtl := ctl), FanCtl, ctl);
        hide Done;
        fanCtl := ctl;
        Write(FanCtl, ctl);
      } else {
        var b := Read(TempExtra);
        b := FreqField(b, ByteOf(i));
        OneWrite(Now(), C().(extra := b), TempExtra, b);
        hide Done;
        extra := b;
        Write(TempExtra, b);
      }
    }

    /** set_auto_pwm. */
    method StoreAutoPwm(nr: Chan, point: Third, val: int) returns (ok: bool)
      requires Valid() && (chip.Newer() || nr < 3)
      modifies `pwms, `bank, io, `log
      ensures var s := old(Now());
        var e := SetAutoPwm(chip, s.c, nr, point, val);
        Valid() && Now() == Done(s, e) && ok == e.ok
    {
      hide M, Valid, Put, PwmToReg, ByteOf;
      NoWrite(Now(), false, C());
      ok := 0 <= val <= 255;
      if ok {
        var b := PwmToReg(chip, ByteOf(val));
        var p := pwms[nr].(autoPwm := pwms[nr].autoPwm[point := b]);
        var reg := if chip.Newer() then AutoPoint(nr, 3) else OldAutoPwm(nr, point);
        OneWrite(Now(), PutPwm(C(), nr, p), reg, b);
        hide Done;
        pwms := pwms[nr := p];
        Write(reg, b);
      }
    }

    /** set_auto_pwm_slope. */
    method StoreAutoPwmSlope(nr: Chan, val: nat) returns (ok: bool)
      requires Valid()
      modifies `pwms, `bank, io, `log
      ensures var s := old(Now());
        var e := SetAutoPwmSlope(s.c, nr, val);
        Valid() && Now() == Done(s, e) && ok == e.ok
    {
      hide M, Valid, Put, ByteOf;
      NoWrite(Now(), false, C());
      ok := val <= 127;
      if ok {
        var b := (pwms[nr].autoPwm[1] & 0x80) | ByteOf(val);
        var p := pwms[nr].(autoPwm := pwms[nr].autoPwm[1 := b]);
        OneWrite(Now(), PutPwm(C(), nr, p), AutoPoint(nr, 4), b);
        hide Done;
        pwms := pwms[nr := p];
        Write(AutoPoint(nr, 4), b);
      }
    }

    method WriteAutoTemp(nr: Chan, point: nat, b: bv8)
      requires Valid() && point < 5
      modifies `pwms, `bank, io, `log
      ensures var s := old(Now()); Valid() && Now() == Done(s, It87Spec.StoreAutoTemp(chip, s.c, nr, point, b))
    {
      hide M, Valid, Put;
      var p := pwms[nr].(autoTemp := pwms[nr].autoTemp[point := b]);
      var k := if !chip.Newer() then point else if point == 0 then 5 else point - 1;
      OneWrite(Now(), PutPwm(C(), nr, p), AutoPoint(nr, k), b);
      hide Done;
      pwms := pwms[nr := p];
      Write(AutoPoint(nr, k), b);
    }

    /** set_auto_temp. */
    method StoreAutoTemp(nr: Chan, point: nat, val: int) returns (ok: bool)
      requires Valid() && point < 5
      modifies `pwms, `bank, io, `log
      ensures var s := old(Now());
        var e := SetAutoTemp(chip, s.c, nr, point, val);
        Valid() && Now() == Done(s, e) && ok == e.ok
    {
      NoWrite(Now(), false, C());
      hide Valid, Done, AutoTempCode, M;
      ok := -128000 <= val <= 127000;
      if ok {
        WriteAutoTemp(nr, point, AutoTempCode(chip, pwms[nr], point, val));
      }
    }

    /** set_beep. */
    method StoreBeep(bit: Octet, val: int) returns (ok: bool)
      requires Valid()
      modifies `beeps, `bank, io, `log
      ensures var s := old(Now());
        var e := SetBeep(s.c, s.m, bit, val);
        Valid() && Now() == Done(s, e) && ok == e.ok
    {
      hide M, Valid, Put, Bit;
      NoWrite(Now(), false, C());
      ok := val == 0 || val == 1;
      if ok {
        var b := Read(BeepEnable);
        b := if val == 1 then b | Bit(bit) else b & !Bit(bit);
        OneWrite(Now(), C().(beeps := b), BeepEnable, b);
        hide Done;
        beeps := b;
        Write(BeepEnable, b);
      }
    }

    /** The two writes of set_temp_type. */
    method WriteTempType(nr: Third, t: TypeCode)
      requires Valid()
      modifies `sensor, `extra, `bank, io, `log, `valid
      ensures var s := old(Now()); Valid() && Now() == Done(s, TypeEffect(chip, s.c, nr, t)) && !valid
    {
      hide M, Valid, Put, Done, TypeEffect;
      TypeDone(chip, Now(), nr, t);
      sensor, extra := t.reg, t.extra;
      Write(TempEnable, t.reg);
      if chip.OldPeci(nr) {
        Write(TempExtra, t.extra);
      }
      valid := false;
    }

    /** set_temp_type. */
    method StoreTempType(nr: Third, val: int) returns (ok: bool)
      requires Valid()
      modifies `sensor, `extra, `bank, io, `log, `valid
      ensures var s := old(Now());
        var e := SetTempType(chip, s.c, s.m, nr, val);
        Valid() && Now() == Done(s, e) && ok == e.ok
      ensures valid == (old(valid) && !ok)
    {
      NoWrite(Now(), false, C());
      hide M, Valid, Done, TempTypeCode;
      var reg := Read(TempEnable);
      var extra := Read(TempExtra);
      var t := TempTypeCode(chip, reg, extra, nr, val);
      ok := t.ok;
      if ok {
        WriteTempType(nr, t);
      }
    }

    // ------------------------------------------------------- initialisation

    /** Low voltage limits of 0xff are changed to 0. */
    method FixVinLimits()
      requires Valid()
      modifies `bank, io, `log
      ensures Valid() && Now().c == old(Now().c)
      ensures M() == VinLimitsFixed(old(M()), 8)
    {
      hide M, Valid, Put;
      for i := 0 to 8
        invariant Valid() && M() == VinLimitsFixed(old(M()), i)
      {
        hide C;
        var tmp := Read(VinMin(i));
        if tmp == 0xff {
          Write(VinMin(i), 0);
        }
      }
    }

    /** High temperature limits of 0xff are changed to 127 degrees. */
    method FixTempLimits()
      requires Valid()
      modifies `bank, io, `log
      ensures Valid() && Now().c == old(Now().c)
      ensures M() == TempLimitsFixed(old(M()), chip.numTempLimit)
    {
      hide M, Valid, Put;
      for i := 0 to chip.numTempLimit
        invariant Valid() && M() == TempLimitsFixed(old(M()), i)
      {
        hide C;
        var tmp := Read(TempHigh(i));
        if tmp == 0xff {
          Write(TempHigh(i), 127);
        }
      }
    }

    /** The tachometers are enabled if none of those in mask is; either way the
        cached mode register is the register from here on. */
    method EnableTachometers(mask: bv8)
      requires Valid()
      modifies `fanMain, `bank, io, `log
      ensures Valid() && fanMain == M()[FanMain]
      ensures M() == if old(M())[FanMain] & mask == 0 then
          Put(old(M()), It87Spec.Write.Write(FanMain, old(M())[FanMain] | mask))
        else old(M())
    {
      hide M, Valid;
      fanMain := Read(FanMain);
      if fanMain & mask == 0 {
        fanMain := fanMain | mask;
        Write(FanMain, fanMain);
      }
    }
  }

  /** The register file after the first i low voltage limits were fixed. */
  ghost function VinLimitsFixed(m: Regs, i: nat): Regs
    requires i <= 8
  {
    if i == 0 then m
    else
      var n := VinLimitsFixed(m, i - 1);
      if n[VinMin(i - 1)] == 0xff then Put(n, Write(VinMin(i - 1), 0)) else n
  }

  ghost function TempLimitsFixed(m: Regs, i: nat): Regs
    requires i <= 6
  {
    if i == 0 then m
    else
      var n := TempLimitsFixed(m, i - 1);
      if n[TempHigh(i - 1)] == 0xff then Put(n, Write(TempHigh(i - 1), 127)) else n
  }

  /** Every register but the low voltage limits that were 0xff is as before. */
  lemma {:induction false} VinLimitsFixedExactly(m: Regs, i: nat, r: Reg)
    requires i <= 8
    ensures VinLimitsFixed(m, i)[r] == if r.VinMin? && r.w < i && m[r] == 0xff then 0 else m[r]
  {
    if i > 0 {
      VinLimitsFixedExactly(m, i - 1, r);
      VinLimitsFixedExactly(m, i - 1, VinMin(i - 1));
    }
  }

  /** Every register but the high temperature limits that were 0xff is as before. */
  lemma {:induction false} TempLimitsFixedExactly(m: Regs, i: nat, r: Reg)
    requires i <= 6
    ensures TempLimitsFixed(m, i)[r] == if r.TempHigh? && r.i < i && m[r] == 0xff then 127 else m[r]
  {
    if i > 0 {
      TempLimitsFixedExactly(m, i - 1, r);
      TempLimitsFixedExactly(m, i - 1, TempHigh(i - 1));
    }
  }

  /** set_temp_type, once the register values are known. */
  ghost function TypeEffect(chip: Chip, c: Cache, nr: Third, t: TypeCode): Effect {
    Effect(true, c.(sensor := t.reg, extra := t.extra),
      [Write(TempEnable, t.reg)] + if chip.OldPeci(nr) then [Write(TempExtra, t.extra)] else [])
  }

  lemma TypeDone(chip: Chip, s: Picture, nr: Third, t: TypeCode)
    ensures var c, w, x := s.c.(sensor := t.reg, extra := t.extra), Write(TempEnable, t.reg), Write(TempExtra, t.extra);
      Done(s, TypeEffect(chip, s.c, nr, t)) ==
        if chip.OldPeci(nr) then Picture(c, Put(Put(s.m, w), x), s.log + [w] + [x])
        else Picture(c, Put(s.m, w), s.log + [w])
  {
    hide Put, Done;
    var c, w, x := s.c.(sensor := t.reg, extra := t.extra), Write(TempEnable, t.reg), Write(TempExtra, t.extra);
    TwoWrites(s, c, TempEnable, t.reg, TempExtra, t.extra);
    OneWrite(s, c, TempEnable, t.reg);
    assert [w] + [x] == [w, x] && [w] + [] == [w];
  }

  lemma EnterOk(chip: Chip, c: Cache, m: Regs, nr: Chan, ctrl: bv8)
    ensures nr < 3 ==> EnterOnOff(c, m, nr).ok
    ensures EnterFullDuty(chip, c, nr).ok && EnterPwmMode(chip, c, nr, ctrl).ok
  {
    hide Bit, NewerCtrl, PwmToReg;
  }

  /** The loops of check_trip_points over the temperatures... */
  method CheckTemps(p: PwmState, first: nat) returns (ok: bool)
    requires first <= 3
    ensures ok == forall k | first <= k < 3 :: Ascends(p, k)
  {
    hide Signed;
    ok := true;
    for i := first to 3
      invariant ok == forall k | first <= k < i :: Ascends(p, k)
    {
      if Signed(p.autoTemp[i]) > Signed(p.autoTemp[i + 1]) {
        assert !Ascends(p, i);
        ok := false;
      }
    }
  }

  /** ...and over the duties. */
  method CheckDuties(p: PwmState) returns (ok: bool)
    ensures ok == forall k | 0 <= k < 2 :: Rises(p, k)
  {
    ok := true;
    for i := 0 to 2
      invariant ok == forall k | 0 <= k < i :: Rises(p, k)
    {
      if p.autoPwm[i] > p.autoPwm[i + 1] {
        assert !Rises(p, i);
        ok := false;
      }
    }
  }

  lemma TempsInOrder(p: PwmState)
    ensures (forall k | 1 <= k < 3 :: Ascends(p, k)) ==
      (Signed(p.autoTemp[1]) <= Signed(p.autoTemp[2]) <= Signed(p.autoTemp[3]))
    ensures (forall k | 0 <= k < 3 :: Ascends(p, k)) ==
      (Signed(p.autoTemp[0]) <= Signed(p.autoTemp[1]) <= Signed(p.autoTemp[2]) <= Signed(p.autoTemp[3]))
  {
    hide Signed;
    assert Ascends(p, 0) == (Signed(p.autoTemp[0]) <= Signed(p.autoTemp[1]));
    assert Ascends(p, 1) == (Signed(p.autoTemp[1]) <= Signed(p.autoTemp[2]));
    assert Ascends(p, 2) == (Signed(p.autoTemp[2]) <= Signed(p.autoTemp[3]));
    hide Ascends;
  }

  lemma DutiesInOrder(p: PwmState)
    ensures (forall k | 0 <= k < 2 :: Rises(p, k)) == (p.autoPwm[0] <= p.autoPwm[1] <= p.autoPwm[2])
  {
    assert Rises(p, 0) == (p.autoPwm[0] <= p.autoPwm[1]);
    assert Rises(p, 1) == (p.autoPwm[1] <= p.autoPwm[2]);
  }

  lemma TripPointsInOrder(chip: Chip, p: PwmState)
    ensures TripPointsOk(chip, p) ==
      if chip.Old() then (forall k | 0 <= k < 3 :: Ascends(p, k)) && (forall k | 0 <= k < 2 :: Rises(p, k))
      else chip.Newer() ==> forall k | 1 <= k < 3 :: Ascends(p, k)
  {
    TempsInOrder(p);
    DutiesInOrder(p);
    hide Signed, Ascends, Rises;
  }
}
