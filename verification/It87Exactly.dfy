/** Exactly which calls of the it87ts driver leave a cache that needs no refresh,
    and the register contents with which a stored temperature map is lost. */
module It87Exactly {
  import opened Bytes
  import opened It87Chip
  import opened It87Convert
  import opened It87Spec
  import opened It87Ops
  import opened It87Coherence
  import opened It87WriteThrough
  import opened It87Modes

  /** The calls after which the cache needs no refresh, from what it held before:
      the bit switched on was on already, or the register that two fields share
      had the value stored already. */
  ghost predicate Coherent(chip: Chip, c: Cache, m: Regs, op: Op)
    requires Legal(chip, op)
  {
    match op
    case OpTemp(_, index, _) => index == 3 ==> m[BeepEnable] & 0x80 != 0
    case OpEnable(nr, val) =>
      if val == 0 then (if chip.OnOff(nr) then m[FanCtl] & Bit(nr) != 0 else c.pwms[nr].autoPwm[0] == 0xff)
      else val == 2 && !chip.Newer() && TripPointsOk(chip, c.pwms[nr]) ==> c.pwms[nr].tempMap == 0
    case OpPwm(nr, val) =>
      chip.Newer() && 0 <= val <= 255 && c.pwms[nr].ctrl & 0x80 == 0 ==> c.pwms[nr].autoPwm[0] == ByteOf(val)
    case OpTempMap(nr, val) =>
      chip.Newer() && c.pwms[nr].ctrl & 0x80 == 0 && TempMapCode(nr, val) != 0xff ==>
        c.pwms[nr].tempMap == TempMapCode(nr, val)
    case OpAutoPwm(nr, _, val) => chip.Newer() && 0 <= val <= 255 ==> c.pwms[nr].duty == ByteOf(val)
    case _ => true
  }

  lemma SameBitSet(b: bv8, i: Third)
    ensures b | 0x80 == b <==> b & 0x80 != 0
    ensures b | Bit(i) == b <==> b & Bit(i) != 0
  {
  }

  lemma SameStart(c: Cache, nr: Chan, b: bv8)
    ensures WithStart(c, nr, b) == c <==> c.pwms[nr].autoPwm[0] == b
  {
    if c.pwms[nr].autoPwm[0] == b {
      assert c.pwms[nr].autoPwm[0 := b] == c.pwms[nr].autoPwm;
      assert c.pwms[nr := c.pwms[nr]] == c.pwms;
    } else {
      assert WithStart(c, nr, b).pwms[nr].autoPwm[0] == b;
    }
  }

  lemma SamePwm(c: Cache, nr: Chan, p: PwmState)
    ensures PutPwm(c, nr, p) == c <==> c.pwms[nr] == p
  {
    if c.pwms[nr] == p {
      assert c.pwms[nr := p] == c.pwms;
    } else {
      assert PutPwm(c, nr, p).pwms[nr] == p;
    }
  }

  lemma OnOffExactly(c: Cache, m: Regs, nr: Third)
    requires c.fanCtl == m[FanCtl]
    ensures EnterOnOff(c, m, nr).ok
    ensures var d := EnterOnOff(c, m, nr).cache; d.(fanCtl := m[FanCtl] | Bit(nr)) == d <==> m[FanCtl] & Bit(nr) != 0
  {
    SameBitSet(m[FanCtl], nr);
    hide Bit;
  }

  lemma FullDutyExactly(chip: Chip, c: Cache, nr: Chan)
    ensures var d := EnterFullDuty(chip, c, nr).cache; WithStart(d, nr, 0xff) == d <==> c.pwms[nr].autoPwm[0] == 0xff
  {
    SameStart(EnterFullDuty(chip, c, nr).cache, nr, 0xff);
    hide NewerCtrl, PwmToReg, WithStart;
  }

  lemma ModeExactly(chip: Chip, c: Cache, nr: Chan, ctrl: bv8, automatic: bool)
    ensures var d := EnterPwmMode(chip, c, nr, ctrl).cache;
      PutPwm(d, nr, ModeSettled(chip, d.pwms[nr], automatic)) == d <==>
        (automatic && !chip.Newer() ==> c.pwms[nr].tempMap == 0)
  {
    var d := EnterPwmMode(chip, c, nr, ctrl).cache;
    ModeShadows(chip, c, nr, ctrl);
    SamePwm(d, nr, ModeSettled(chip, d.pwms[nr], automatic));
    hide EnterPwmMode, PutPwm;
  }

  ghost predicate Exact(chip: Chip, c: Cache, m: Regs, op: Op, e: Effect)
    requires Legal(chip, op)
  {
    Settled(chip, c, m, op, e) == e.cache <==> Coherent(chip, c, m, op)
  }

  lemma SwitchOnSettled(chip: Chip, c: Cache, m: Regs, nr: Third, e: Effect)
    requires e.ok && chip.OnOff(nr)
    ensures Settled(chip, c, m, OpEnable(nr, 0), e) == e.cache.(fanCtl := m[FanCtl] | Bit(nr))
  {
    hide Bit;
  }

  lemma SwitchOnExactly(chip: Chip, c: Cache, m: Regs, nr: Third)
    requires nr in chip.hasPwm && c.fanCtl == m[FanCtl] && chip.OnOff(nr)
    ensures Exact(chip, c, m, OpEnable(nr, 0), EnterOnOff(c, m, nr))
  {
    hide Bit, EnterOnOff, Settled, TripPointsOk;
    OnOffExactly(c, m, nr);
    SwitchOnSettled(chip, c, m, nr, EnterOnOff(c, m, nr));
  }

  lemma MaximumExactly(chip: Chip, c: Cache, m: Regs, nr: Chan)
    requires nr in chip.hasPwm && !chip.OnOff(nr)
    ensures Exact(chip, c, m, OpEnable(nr, 0), EnterFullDuty(chip, c, nr))
  {
    FullDutyExactly(chip, c, nr);
    assert EnterFullDuty(chip, c, nr).ok;
    hide EnterFullDuty, WithStart;
  }

  lemma ModesExactly(chip: Chip, c: Cache, m: Regs, nr: Chan, val: int)
    requires nr in chip.hasPwm && val != 0
    ensures Exact(chip, c, m, OpEnable(nr, val), SetPwmEnable(chip, c, m, nr, val))
  {
    ModeExactly(chip, c, nr, ModeCtrl(chip, c.pwms[nr], val == 2), val == 2);
    hide TripPointsOk, ModeCtrl, EnterPwmMode, PutPwm, ModeSettled;
  }

  lemma EnableExactly(chip: Chip, c: Cache, m: Regs, nr: Chan, val: int)
    requires Legal(chip, OpEnable(nr, val)) && Fresh(chip, m, c)
    ensures Exact(chip, c, m, OpEnable(nr, val), SetPwmEnable(chip, c, m, nr, val))
  {
    FreshBeeps(chip, m, c);
    if val != 0 {
      ModesExactly(chip, c, m, nr, val);
    } else if chip.OnOff(nr) {
      SwitchOnExactly(chip, c, m, nr);
    } else {
      MaximumExactly(chip, c, m, nr);
    }
    hide Exact, Fresh, EnterOnOff, EnterFullDuty, EnterPwmMode, TripPointsOk, ModeCtrl;
  }

  lemma PwmExactly(chip: Chip, c: Cache, m: Regs, nr: Chan, val: int)
    requires Legal(chip, OpPwm(nr, val)) && Fresh(chip, m, c)
    ensures Exact(chip, c, m, OpPwm(nr, val), SetPwm(chip, c, m, nr, val))
  {
    FreshPwm(chip, m, c, nr);
    var e := SetPwm(chip, c, m, nr, val);
    SameStart(e.cache, nr, e.cache.pwms[nr].duty);
    hide Fresh, DecodePwm, ByteOf, WithStart;
  }

  lemma TempMapExactly(chip: Chip, c: Cache, m: Regs, nr: Chan, val: int)
    requires Legal(chip, OpTempMap(nr, val)) && Fresh(chip, m, c)
    ensures Exact(chip, c, m, OpTempMap(nr, val), SetTempMap(chip, c, m, nr, val))
  {
    FreshPwm(chip, m, c, nr);
    SamePwm(c, nr, c.pwms[nr].(tempMap := TempMapCode(nr, val)));
    hide Fresh, DecodePwm, TempMapCode;
  }

  lemma StartExactly(c: Cache, nr: Chan, b: bv8)
    ensures var p := c.pwms[nr].(autoPwm := c.pwms[nr].autoPwm[0 := b]); var d := PutPwm(c, nr, p);
      PutPwm(d, nr, d.pwms[nr].(duty := d.pwms[nr].autoPwm[0])) == d <==> c.pwms[nr].duty == b
  {
    var p := c.pwms[nr].(autoPwm := c.pwms[nr].autoPwm[0 := b]);
    var d := PutPwm(c, nr, p);
    assert d.pwms[nr] == p;
    SamePwm(d, nr, p.(duty := b));
  }

  lemma AutoPwmExactly(chip: Chip, c: Cache, m: Regs, nr: Chan, point: Third, val: int)
    requires Legal(chip, OpAutoPwm(nr, point, val))
    ensures Exact(chip, c, m, OpAutoPwm(nr, point, val), SetAutoPwm(chip, c, nr, point, val))
  {
    if chip.Newer() && 0 <= val <= 255 {
      StartExactly(c, nr, ByteOf(val));
    }
    hide ByteOf, PutPwm;
  }

  lemma TempExactly(chip: Chip, c: Cache, m: Regs, nr: Chan, index: nat, val: int)
    requires Legal(chip, OpTemp(nr, index, val)) && Fresh(chip, m, c)
    ensures Exact(chip, c, m, OpTemp(nr, index, val), SetTemp(c, m, nr, index, val))
  {
    FreshBeeps(chip, m, c);
    SameBitSet(m[BeepEnable], 0);
    hide Fresh, SignedByte, TempToReg, Bit;
  }

  /** In terms of what a refresh finds. */
  lemma SettledExactly(chip: Chip, c: Cache, m: Regs, op: Op)
    requires Legal(chip, op) && Fresh(chip, m, c)
    ensures Exact(chip, c, m, op, Step(chip, c, m, op))
  {
    match op {
      case OpTemp(nr, index, val) => TempExactly(chip, c, m, nr, index, val);
      case OpEnable(nr, val) => EnableExactly(chip, c, m, nr, val);
      case OpPwm(nr, val) => PwmExactly(chip, c, m, nr, val);
      case OpTempMap(nr, val) => TempMapExactly(chip, c, m, nr, val);
      case OpAutoPwm(nr, point, val) => AutoPwmExactly(chip, c, m, nr, point, val);
      case _ => OthersSettled(chip, c, m, op);
    }
    hide Fresh, Exact;
  }

  lemma OthersSettled(chip: Chip, c: Cache, m: Regs, op: Op)
    requires Legal(chip, op)
    requires !op.OpTemp? && !op.OpEnable? && !op.OpPwm? && !op.OpTempMap? && !op.OpAutoPwm?
    ensures Exact(chip, c, m, op, Step(chip, c, m, op))
  {
    hide Step;
  }

  /** Write-through exactly: from a fresh cache, the refresh after a setter finds
      the cache as the setter left it if and only if the call is coherent. */
  lemma WriteThroughExactly(chip: Chip, c: Cache, m: Regs, op: Op)
    requires Legal(chip, op) && Fresh(chip, m, c) && DutyShadow(chip, c)
    ensures var e := Step(chip, c, m, op); Refresh(chip, Apply(m, e.writes), e.cache) == e.cache <==>
      Coherent(chip, c, m, op)
  {
    WriteThrough(chip, c, m, op);
    hide Refresh, Apply;
    SettledExactly(chip, c, m, op);
  }

  /** A lost map: on every newer chip, whatever was cached before, when the control
      register of a channel is 0, the channel told to follow the second temperature
      caches map 1, and the next refresh forgets it. */
  lemma TempMapLost(chip: Chip, c0: Cache, m: Regs, nr: Chan)
    requires chip.Newer() && nr in chip.hasPwm && m[Pwm(nr)] == 0
    ensures var c := Refresh(chip, m, c0);
      var e := SetTempMap(chip, c, m, nr, if nr < 3 then 2 else 5);
      && e.ok && e.cache.pwms[nr].tempMap == 1
      && Refresh(chip, Apply(m, e.writes), e.cache).pwms[nr].tempMap == 0
  {
    var c := Refresh(chip, m, c0);
    var e := SetTempMap(chip, c, m, nr, if nr < 3 then 2 else 5);
    ModeDecoded(chip, m, nr, c.pwms[nr]);
    hide Refresh, DecodePwm, Apply;
    NoWrites(m, e.writes);
    RefreshedChannel(chip, m, e.cache, nr);
    ModeDecoded(chip, m, nr, e.cache.pwms[nr]);
  }
}
