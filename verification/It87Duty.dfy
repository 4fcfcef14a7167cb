/** Duties of the it87ts driver, as the user sets and sees them. */
module It87Duty {
  import opened Bytes
  import opened It87Chip
  import opened It87Spec
  import opened It87Ops
  import opened It87Modes

  /** What a requested duty is shown as: older chips keep seven bits of it. */
  function ShownDuty(chip: Chip, val: nat): nat { if chip.Newer() then val else val - val % 2 }

  lemma HalfAndBack(b: bv8)
    ensures ((b >> 1) & 0x7f) << 1 == b & 0xfe
    ensures (b & 0xfe) as nat == b as nat - b as nat % 2
  {
  }

  lemma DutyCode(chip: Chip, val: nat)
    requires val <= 255
    ensures PwmFromReg(chip, PwmToReg(chip, ByteOf(val))) as nat == ShownDuty(chip, val)
  {
    HalfAndBack(ByteOf(val));
  }

  /** A shown duty, set again, gives the same code. */
  lemma DutyRoundTrip(chip: Chip, b: bv8)
    requires chip.Newer() || b & 0x80 == 0
    ensures PwmToReg(chip, PwmFromReg(chip, b)) == b
  {
  }

  /** In range, and not refused because a newer chip is in automatic mode. */
  ghost predicate AcceptsDuty(chip: Chip, m: Regs, nr: Chan, val: int) {
    0 <= val <= 255 && (chip.Newer() ==> m[Pwm(nr)] & 0x80 == 0)
  }

  lemma SevenBitsKept(b: bv8)
    ensures (b >> 1) & 0x7f == b >> 1 && (b >> 1) & 0x80 == 0
  {
  }

  /** set_pwm stores the duty, and the register that a refresh takes it from. */
  lemma DutyStored(chip: Chip, c: Cache, m: Regs, nr: Chan, duty: bv8)
    requires nr in chip.hasPwm && (chip.Newer() ==> m[Pwm(nr)] & 0x80 == 0)
    requires !chip.Newer() ==> duty & 0x7f == duty && duty & 0x80 == 0
    ensures var e := StorePwm(chip, c, m, nr, duty);
      && e.ok && e.cache.pwms[nr].duty == duty
      && DecodePwm(chip, Apply(m, e.writes), nr, e.cache.pwms[nr]).duty == duty
  {
    var e := StorePwm(chip, c, m, nr, duty);
    ModeDecoded(chip, m, nr, c.pwms[nr]);
    ModeDecoded(chip, Apply(m, e.writes), nr, e.cache.pwms[nr]);
    ApplyOne(m, Write(Duty(nr), duty));
    ApplyOne(m, Write(Pwm(nr), duty));
    NoWrites(m, []);
    hide DecodePwm, Apply;
  }

  lemma DutyAccepted(chip: Chip, c: Cache, m: Regs, nr: Chan, val: nat)
    requires nr in chip.hasPwm && AcceptsDuty(chip, m, nr, val)
    ensures var e := SetPwm(chip, c, m, nr, val);
      && e.ok
      && PwmFromReg(chip, e.cache.pwms[nr].duty) as nat == ShownDuty(chip, val)
      && PwmFromReg(chip, Refresh(chip, Apply(m, e.writes), e.cache).pwms[nr].duty) as nat == ShownDuty(chip, val)
  {
    var e, duty := SetPwm(chip, c, m, nr, val), PwmToReg(chip, ByteOf(val));
    SevenBitsKept(ByteOf(val));
    assert !chip.Newer() ==> duty & 0x7f == duty && duty & 0x80 == 0;
    hide Refresh, DecodePwm, Apply, PwmFromReg, PwmToReg, ByteOf, StorePwm;
    DutyCode(chip, val);
    DutyStored(chip, c, m, nr, duty);
    RefreshedChannel(chip, Apply(m, e.writes), e.cache, nr);
  }

  /** Whatever the cache: a duty is accepted exactly when it is in range and a
      newer chip is not in automatic mode; then what is shown, at once and after a
      forced refresh, is the duty asked for, less its last bit on older chips. */
  lemma DutyReadBack(chip: Chip, c: Cache, m: Regs, nr: Chan, val: int)
    requires nr in chip.hasPwm
    ensures var e := SetPwm(chip, c, m, nr, val);
      && (e.ok <==> AcceptsDuty(chip, m, nr, val))
      && (e.ok ==>
            && PwmFromReg(chip, e.cache.pwms[nr].duty) as nat == ShownDuty(chip, val)
            && PwmFromReg(chip, Refresh(chip, Apply(m, e.writes), e.cache).pwms[nr].duty) as nat
                 == ShownDuty(chip, val))
  {
    if 0 <= val <= 255 {
      if AcceptsDuty(chip, m, nr, val) {
        DutyAccepted(chip, c, m, nr, val);
      } else {
        ModeDecoded(chip, m, nr, c.pwms[nr]);
        hide Refresh, DecodePwm, Apply, PwmFromReg, PwmToReg, ByteOf;
      }
    }
  }
}
