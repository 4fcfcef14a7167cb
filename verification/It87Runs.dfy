/** Runs of the it87ts driver: setters, refreshes and drifting measurements in
    any order, watched at every single register write. */
module It87Runs {
  import opened Bytes
  import opened It87Chip
  import opened It87Convert
  import opened It87Spec
  import opened It87Ops
  import opened It87Footprint

  /** The registers that the chip itself changes. */
  predicate Measured(r: Reg) {
    r.FanLo? || r.FanHi? || r.Voltage? || r.Sensor? || r.Alarm? || r.Vid? || r.Config?
  }

  ghost predicate Drifted(m: Regs, n: Regs) { forall r: Reg | !Measured(r) :: n[r] == m[r] }

  /** One call into the driver, or a change of the measured quantities. */
  datatype Event = Set(op: Op) | Poll | Drift(regs: Regs)

  datatype State = State(c: Cache, m: Regs)

  ghost predicate Possible(chip: Chip, s: State, v: Event) {
    match v
    case Set(op) => Legal(chip, op)
    case Poll => true
    case Drift(n) => Drifted(s.m, n)
  }

  ghost function After(chip: Chip, s: State, v: Event): State
    requires Possible(chip, s, v)
  {
    match v
    case Set(op) => var e := Step(chip, s.c, s.m, op); State(e.cache, Apply(s.m, e.writes))
    case Poll => State(Refresh(chip, s.m, s.c), s.m)
    case Drift(n) => State(s.c, n)
  }

  /** The register file after each single write. */
  ghost function Steps(m: Regs, writes: seq<Write>): seq<Regs> {
    if writes == [] then [] else [Put(m, writes[0])] + Steps(Put(m, writes[0]), writes[1..])
  }

  /** The register files seen during one event. */
  ghost function Seen(chip: Chip, s: State, v: Event): seq<Regs>
    requires Possible(chip, s, v)
  {
    match v
    case Set(op) => Steps(s.m, Step(chip, s.c, s.m, op).writes)
    case Poll => []
    case Drift(n) => [n]
  }

  ghost predicate Run(chip: Chip, s: State, events: seq<Event>)
    decreases |events|
  {
    events == [] || (Possible(chip, s, events[0]) && Run(chip, After(chip, s, events[0]), events[1..]))
  }

  ghost function Final(chip: Chip, s: State, events: seq<Event>): State
    requires Run(chip, s, events)
    decreases |events|
  {
    if events == [] then s else Final(chip, After(chip, s, events[0]), events[1..])
  }

  /** All the register files seen in a run, after the initial one. */
  ghost function History(chip: Chip, s: State, events: seq<Event>): seq<Regs>
    requires Run(chip, s, events)
    decreases |events|
  {
    if events == [] then []
    else Seen(chip, s, events[0]) + History(chip, After(chip, s, events[0]), events[1..])
  }

  // ------------------------------------------------------------ fan safety

  /** The cached FAN_MAIN_CTRL is the register. */
  ghost predicate Linked(s: State) { s.c.fanMain == s.m[FanMain] }

  /** From one register file to a later one: a fan that is switched on stays on,
      a fan that entered on/off mode is on, and the other bits of the mode
      register, the tachometer enables among them, stay as they are. */
  ghost predicate Safe(m: Regs, n: Regs) {
    && n[FanMain] & 0xf8 == m[FanMain] & 0xf8
    && SafeBits(m[FanMain], m[FanCtl], n[FanMain], n[FanCtl])
  }

  predicate SafeBits(main: bv8, ctl: bv8, main': bv8, ctl': bv8) {
    && ctl & 0x07 & ctl' == ctl & 0x07
    && main & 0x07 & !main' & !ctl' == 0
  }

  /** What SafeBits says of each fan. */
  lemma SafeFan(m: Regs, n: Regs, nr: Third)
    requires Safe(m, n)
    ensures m[FanCtl] & Bit(nr) != 0 ==> n[FanCtl] & Bit(nr) != 0
    ensures m[FanMain] & Bit(nr) != 0 && n[FanMain] & Bit(nr) == 0 ==> n[FanCtl] & Bit(nr) != 0
  {
    FanBits(m[FanMain], m[FanCtl], n[FanMain], n[FanCtl], nr);
  }

  lemma FanBits(main: bv8, ctl: bv8, main': bv8, ctl': bv8, nr: Third)
    requires SafeBits(main, ctl, main', ctl')
    ensures ctl & Bit(nr) != 0 ==> ctl' & Bit(nr) != 0
    ensures main & Bit(nr) != 0 && main' & Bit(nr) == 0 ==> ctl' & Bit(nr) != 0
  {
  }

  lemma SafeBitsTransitive(a: bv8, b: bv8, c: bv8, d: bv8, e: bv8, f: bv8)
    requires SafeBits(a, b, c, d) && SafeBits(c, d, e, f)
    ensures SafeBits(a, b, e, f)
  {
  }

  lemma SafeTransitive(m: Regs, n: Regs, o: Regs)
    requires Safe(m, n) && Safe(n, o)
    ensures Safe(m, o)
  {
    SafeBitsTransitive(m[FanMain], m[FanCtl], n[FanMain], n[FanCtl], o[FanMain], o[FanCtl]);
  }

  /** The writes of a setter, one by one, are safe, and the cached mode register
      is right again when it returns. */
  ghost predicate SafeEffect(m: Regs, e: Effect) {
    match |e.writes|
    case 0 => e.cache.fanMain == m[FanMain]
    case 1 =>
      var n := Put(m, e.writes[0]);
      Safe(m, n) && e.cache.fanMain == n[FanMain]
    case 2 =>
      var n := Put(m, e.writes[0]);
      var o := Put(n, e.writes[1]);
      Safe(m, n) && Safe(n, o) && e.cache.fanMain == o[FanMain]
    case _ => false
  }

  lemma SafeReflexive(m: Regs, n: Regs)
    requires n[FanMain] == m[FanMain] && n[FanCtl] == m[FanCtl]
    ensures Safe(m, n)
  {
    SameBitsSafe(m[FanMain], m[FanCtl]);
  }

  lemma SameBitsSafe(main: bv8, ctl: bv8)
    ensures SafeBits(main, ctl, main, ctl)
  {
  }

  /** A setter that writes neither register. */
  predicate Quiet(c: Cache, e: Effect) {
    && |e.writes| <= 2 && e.cache.fanMain == c.fanMain
    && (|e.writes| > 0 ==> e.writes[0].reg != FanMain && e.writes[0].reg != FanCtl)
    && (|e.writes| > 1 ==> e.writes[1].reg != FanMain && e.writes[1].reg != FanCtl)
  }

  lemma QuietSafe(c: Cache, m: Regs, e: Effect)
    requires Quiet(c, e) && c.fanMain == m[FanMain]
    ensures SafeEffect(m, e)
  {
    if |e.writes| > 0 {
      SafeReflexive(m, Put(m, e.writes[0]));
      if |e.writes| > 1 {
        SafeReflexive(Put(m, e.writes[0]), Put(Put(m, e.writes[0]), e.writes[1]));
      }
    }
  }

  lemma SwitchedOnSafe(main: bv8, ctl: bv8, nr: Third)
    ensures SafeBits(main, ctl, main, ctl | Bit(nr))
    ensures SafeBits(main, ctl | Bit(nr), main & !Bit(nr), ctl | Bit(nr))
    ensures SafeBits(main, ctl, main | Bit(nr), ctl)
    ensures (main & !Bit(nr)) & 0xf8 == main & 0xf8
    ensures (main | Bit(nr)) & 0xf8 == main & 0xf8
  {
  }

  lemma CtlSetSafe(m: Regs, nr: Third)
    ensures Safe(m, Put(m, Write(FanCtl, m[FanCtl] | Bit(nr))))
  {
    SwitchedOnSafe(m[FanMain], m[FanCtl], nr);
    hide Bit, SafeBits;
  }

  lemma MainClearedSafe(m: Regs, nr: Third, ctl: bv8)
    requires m[FanCtl] == ctl | Bit(nr)
    ensures Safe(m, Put(m, Write(FanMain, m[FanMain] & !Bit(nr))))
  {
    hide Bit, SafeBits;
    SwitchedOnSafe(m[FanMain], ctl, nr);
  }

  lemma OnOffEffect(c: Cache, m: Regs, nr: Third)
    ensures var e := EnterOnOff(c, m, nr);
      && e.writes == [Write(FanCtl, m[FanCtl] | Bit(nr)), Write(FanMain, c.fanMain & !Bit(nr))]
      && e.cache.fanMain == e.writes[1].value
  {
    hide Bit;
  }

  lemma OnOffSafe(c: Cache, m: Regs, nr: Third)
    requires c.fanMain == m[FanMain]
    ensures SafeEffect(m, EnterOnOff(c, m, nr))
  {
    hide Bit, Safe, SafeEffect, EnterOnOff;
    OnOffEffect(c, m, nr);
    var w, x := Write(FanCtl, m[FanCtl] | Bit(nr)), Write(FanMain, c.fanMain & !Bit(nr));
    CtlSetSafe(m, nr);
    MainClearedSafe(Put(m, w), nr, m[FanCtl]);
    TwoSafe(m, EnterOnOff(c, m, nr), w, x);
  }

  lemma TwoSafe(m: Regs, e: Effect, w: Write, x: Write)
    requires e.writes == [w, x]
    requires Safe(m, Put(m, w)) && Safe(Put(m, w), Put(Put(m, w), x))
    requires e.cache.fanMain == Put(Put(m, w), x)[FanMain]
    ensures SafeEffect(m, e)
  {
  }

  lemma MainSetSafe(m: Regs, nr: Third)
    ensures Safe(m, Put(m, Write(FanMain, m[FanMain] | Bit(nr))))
  {
    SwitchedOnSafe(m[FanMain], m[FanCtl], nr);
    hide Bit, SafeBits;
  }

  lemma OnOffModeSafe(chip: Chip, c: Cache, m: Regs, nr: Third, ctrl: bv8)
    requires c.fanMain == m[FanMain] && chip.OnOff(nr)
    ensures SafeEffect(m, EnterPwmMode(chip, c, nr, ctrl))
  {
    hide Bit, Safe, SafeEffect;
    var w, x := Write(Pwm(nr), ctrl), Write(FanMain, c.fanMain | Bit(nr));
    SafeReflexive(m, Put(m, w));
    MainSetSafe(Put(m, w), nr);
    TwoSafe(m, EnterPwmMode(chip, c, nr, ctrl), w, x);
  }

  lemma PwmModeSafe(chip: Chip, c: Cache, m: Regs, nr: Chan, ctrl: bv8)
    requires c.fanMain == m[FanMain]
    ensures SafeEffect(m, EnterPwmMode(chip, c, nr, ctrl))
  {
    if chip.OnOff(nr) {
      OnOffModeSafe(chip, c, m, nr, ctrl);
    } else {
      SafeReflexive(m, Put(m, Write(Pwm(nr), ctrl)));
      hide Safe, Bit;
    }
  }

  lemma FreqCtlSafe(m: Regs, i: bv8)
    ensures Safe(m, Put(m, Write(FanCtl, FreqField(m[FanCtl], i))))
  {
    FreqKeepsOnBits(m[FanMain], m[FanCtl], i);
    hide SafeBits, FreqField;
  }

  lemma FreqSafe(c: Cache, m: Regs, nr: Chan, i: bv8)
    requires c.fanMain == m[FanMain]
    ensures SafeEffect(m, StoreFreq(c, m, nr, i))
  {
    hide Safe, FreqField;
    if nr == 0 {
      FreqCtlSafe(m, i);
    } else {
      SafeReflexive(m, Put(m, Write(TempExtra, FreqField(m[TempExtra], i))));
    }
  }

  lemma FreqKeepsOnBits(main: bv8, ctl: bv8, i: bv8)
    ensures SafeBits(main, ctl, main, FreqField(ctl, i))
  {
  }

  lemma SetterQuiet(chip: Chip, c: Cache, m: Regs, op: Op)
    requires Legal(chip, op) && !op.OpEnable? && !op.OpFreq?
    ensures Quiet(c, Step(chip, c, m, op))
  {
    hide Step;
    Footprint(chip, c, m, op, 0);
  }

  lemma EnableSafe(chip: Chip, c: Cache, m: Regs, nr: Chan, val: int)
    requires c.fanMain == m[FanMain]
    ensures SafeEffect(m, SetPwmEnable(chip, c, m, nr, val))
  {
    hide SafeEffect, Quiet, TripPointsOk;
    if val == 0 && chip.OnOff(nr) {
      OnOffSafe(c, m, nr);
    } else if val == 0 {
      FullDutyQuiet(chip, c, nr);
      QuietSafe(c, m, EnterFullDuty(chip, c, nr));
    } else {
      PwmModeSafe(chip, c, m, nr, ModeCtrl(chip, c.pwms[nr], val == 2));
    }
    RefusedQuiet(c);
    QuietSafe(c, m, Refused(c));
  }

  lemma FullDutyQuiet(chip: Chip, c: Cache, nr: Chan)
    ensures Quiet(c, EnterFullDuty(chip, c, nr))
  {
  }

  lemma RefusedQuiet(c: Cache)
    ensures Quiet(c, Refused(c))
  {
  }

  /** Every write of every setter is safe. */
  lemma SetterSafe(chip: Chip, c: Cache, m: Regs, op: Op)
    requires Legal(chip, op) && c.fanMain == m[FanMain]
    ensures SafeEffect(m, Step(chip, c, m, op))
  {
    hide SafeEffect, Quiet, SetPwmFreq, SetPwmEnable;
    match op {
      case OpEnable(nr, val) => EnableSafe(chip, c, m, nr, val);
      case OpFreq(nr, val) => FreqOpSafe(chip, c, m, nr, val);
      case _ =>
        SetterQuiet(chip, c, m, op);
        QuietSafe(c, m, Step(chip, c, m, op));
        hide Step;
    }
  }

  lemma FreqOpSafe(chip: Chip, c: Cache, m: Regs, nr: Chan, val: nat)
    requires c.fanMain == m[FanMain]
    ensures SafeEffect(m, SetPwmFreq(chip, c, m, nr, val))
  {
    hide SafeEffect;
    FreqSafe(c, m, nr, ByteOf(FreqToReg(chip.Newer(), val)));
  }

  // --------------------------------------------------------- whole histories

  ghost predicate Chained(t: seq<Regs>) {
    forall i, j | 0 <= i && j == i + 1 < |t| :: Safe(t[i], t[j])
  }

  /** An initial register file followed by what was seen, ending in n. */
  ghost predicate SafePath(m: Regs, seen: seq<Regs>, n: Regs) {
    && (if seen == [] then m == n else seen[|seen| - 1] == n)
    && Chained([m] + seen)
  }

  lemma JoinPaths(m: Regs, t: seq<Regs>, n: Regs, u: seq<Regs>, o: Regs)
    requires SafePath(m, t, n) && SafePath(n, u, o)
    ensures SafePath(m, t + u, o)
  {
    hide Safe;
    var a, b, c := [m] + t, [n] + u, [m] + (t + u);
    forall i, j | 0 <= i && j == i + 1 < |c|
      ensures Safe(c[i], c[j])
    {
      if j < |a| {
        assert Safe(a[i], a[j]);
      } else {
        assert Safe(b[i - |t|], b[j - |t|]);
      }
    }
  }

  lemma OneStep(m: Regs, n: Regs)
    requires Safe(m, n)
    ensures SafePath(m, [n], n)
  {
    hide Safe;
  }

  lemma WritesPath(m: Regs, e: Effect)
    requires SafeEffect(m, e)
    ensures SafePath(m, Steps(m, e.writes), Apply(m, e.writes))
    ensures e.cache.fanMain == Apply(m, e.writes)[FanMain]
  {
    hide Safe;
    var ws := e.writes;
    if |ws| == 1 {
      assert ws == [ws[0]];
      ApplyOne(m, ws[0]);
      OneStep(m, Put(m, ws[0]));
      assert Steps(m, ws) == [Put(m, ws[0])];
    } else if |ws| == 2 {
      TwoWritesPath(m, ws[0], ws[1]);
      assert ws == [ws[0], ws[1]];
      ApplyTwo(m, ws[0], ws[1]);
    }
  }

  lemma StepsTwo(m: Regs, w: Write, x: Write)
    ensures Steps(m, [w, x]) == [Put(m, w)] + [Put(Put(m, w), x)]
  {
    var n := Put(m, w);
    assert [x][1..] == [];
    assert Steps(n, [x]) == [Put(n, x)];
    assert [w, x][1..] == [x];
  }

  lemma TwoWritesPath(m: Regs, w: Write, x: Write)
    requires Safe(m, Put(m, w)) && Safe(Put(m, w), Put(Put(m, w), x))
    ensures SafePath(m, Steps(m, [w, x]), Put(Put(m, w), x))
  {
    hide Safe;
    var n, o := Put(m, w), Put(Put(m, w), x);
    OneStep(m, n);
    OneStep(n, o);
    JoinPaths(m, [n], n, [o], o);
    StepsTwo(m, w, x);
  }

  lemma EventPath(chip: Chip, s: State, v: Event)
    requires Possible(chip, s, v) && Linked(s)
    ensures SafePath(s.m, Seen(chip, s, v), After(chip, s, v).m)
    ensures Linked(After(chip, s, v))
  {
    match v
    case Set(op) =>
      hide Safe, SafeEffect, SafePath, Step;
      SetterSafe(chip, s.c, s.m, op);
      WritesPath(s.m, Step(chip, s.c, s.m, op));
    case Poll =>
    case Drift(n) =>
      SafeReflexive(s.m, n);
      OneStep(s.m, n);
  }

  lemma {:induction false} RunPath(chip: Chip, s: State, events: seq<Event>)
    requires Run(chip, s, events) && Linked(s)
    ensures SafePath(s.m, History(chip, s, events), Final(chip, s, events).m)
    ensures Linked(Final(chip, s, events))
    decreases |events|
  {
    hide Safe;
    if events != [] {
      hide SafePath;
      var s' := After(chip, s, events[0]);
      EventPath(chip, s, events[0]);
      RunPath(chip, s', events[1..]);
      JoinPaths(s.m, Seen(chip, s, events[0]), s'.m, History(chip, s', events[1..]), Final(chip, s, events).m);
    }
  }

  lemma {:induction false} ChainedPairs(t: seq<Regs>, i: nat, j: nat)
    requires Chained(t) && i <= j < |t|
    ensures Safe(t[i], t[j])
    decreases j
  {
    if i == j {
      SafeReflexive(t[i], t[j]);
    } else {
      ChainedPairs(t, i, j - 1);
      assert Safe(t[j - 1], t[j]);
      SafeTransitive(t[i], t[j - 1], t[j]);
    }
  }

  /** No fan stops: between any two register writes of any run, a fan that was on
      is still on, a fan that was put in on/off mode is on, and the tachometer
      enables are untouched. */
  lemma FanSafety(chip: Chip, s: State, events: seq<Event>, i: nat, j: nat, nr: Third)
    requires Run(chip, s, events) && Linked(s)
    requires i <= j <= |History(chip, s, events)|
    ensures var t := [s.m] + History(chip, s, events);
      && t[j][FanMain] & 0xf8 == t[i][FanMain] & 0xf8
      && (t[i][FanCtl] & Bit(nr) != 0 ==> t[j][FanCtl] & Bit(nr) != 0)
      && (t[i][FanMain] & Bit(nr) != 0 && t[j][FanMain] & Bit(nr) == 0 ==> t[j][FanCtl] & Bit(nr) != 0)
  {
    hide Bit, SafeBits;
    var t := [s.m] + History(chip, s, events);
    RunPath(chip, s, events);
    ChainedPairs(t, i, j);
    SafeFan(t[i], t[j], nr);
  }

  /** After an accepted request for full speed on a channel with on/off mode, the
      fan is on, in that mode, and stays on through everything that follows. */
  lemma FullSpeedStaysOn(chip: Chip, s: State, nr: Third, later: seq<Event>)
    requires Linked(s) && nr in chip.hasPwm && chip.OnOff(nr)
    requires Run(chip, After(chip, s, Set(OpEnable(nr, 0))), later)
    ensures var r := After(chip, s, Set(OpEnable(nr, 0)));
      && r.m[FanMain] & Bit(nr) == 0
      && forall n | n in [r.m] + History(chip, r, later) :: n[FanCtl] & Bit(nr) != 0
  {
    var r := After(chip, s, Set(OpEnable(nr, 0)));
    OnOffResult(chip, s, nr);
    EventPath(chip, s, Set(OpEnable(nr, 0)));
    hide Bit, After, SafePath, Chained;
    var t := [r.m] + History(chip, r, later);
    forall n | n in t
      ensures n[FanCtl] & Bit(nr) != 0
    {
      var j :| 0 <= j < |t| && t[j] == n;
      FanSafety(chip, r, later, 0, j, nr);
    }
  }

  lemma OnOffResult(chip: Chip, s: State, nr: Third)
    requires nr in chip.hasPwm && chip.OnOff(nr)
    ensures var r := After(chip, s, Set(OpEnable(nr, 0)));
      r.m[FanMain] & Bit(nr) == 0 && r.m[FanCtl] & Bit(nr) != 0
  {
    OnOffWrites(s.c, s.m, nr);
    hide Bit, EnterOnOff, Apply;
  }

  lemma TwoValues(m: Regs, w: Write, x: Write)
    requires w.reg != x.reg
    ensures Apply(m, [w, x])[w.reg] == w.value && Apply(m, [w, x])[x.reg] == x.value
  {
    ApplyTwo(m, w, x);
  }

  lemma OnOffWrites(c: Cache, m: Regs, nr: Third)
    ensures var n := Apply(m, EnterOnOff(c, m, nr).writes);
      n[FanMain] & Bit(nr) == 0 && n[FanCtl] & Bit(nr) != 0
  {
    hide Apply;
    OwnBit(c.fanMain, nr);
    OwnBit(m[FanCtl], nr);
    var writes := EnterOnOff(c, m, nr).writes;
    var w, x := writes[0], writes[1];
    assert w.reg == FanCtl && w.value == m[FanCtl] | Bit(nr);
    assert x.reg == FanMain && x.value == c.fanMain & !Bit(nr);
    TwoValues(m, w, x);
    assert writes == [w, x];
  }
}
