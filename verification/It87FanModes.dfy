/** The mode bits of FAN_MAIN_CTRL: which calls of the it87ts driver change a
    channel's bit at any of their register writes. */
module It87FanModes {
  import opened Bytes
  import opened It87Chip
  import opened It87Spec
  import opened It87Ops
  import opened It87Runs

  ghost predicate SameMode(m: Regs, n: Regs, nr: Third) { n[FanMain] & Bit(nr) == m[FanMain] & Bit(nr) }

  /** Whatever an effect writes to the mode register has the bit as it was. */
  ghost predicate KeepsMode(m: Regs, writes: seq<Write>, nr: Third) {
    forall w | w in writes && w.reg == FanMain :: w.value & Bit(nr) == m[FanMain] & Bit(nr)
  }

  lemma {:induction false} StepsKeepMode(m: Regs, n: Regs, writes: seq<Write>, nr: Third)
    requires SameMode(m, n, nr) && KeepsMode(m, writes, nr)
    ensures forall o | o in Steps(n, writes) :: SameMode(m, o, nr)
    decreases |writes|
  {
    hide Bit;
    if writes != [] {
      assert writes[0] in writes;
      StepsKeepMode(m, Put(n, writes[0]), writes[1..], nr);
    }
  }

  lemma {:induction false} AppliedKeepsMode(m: Regs, writes: seq<Write>, nr: Third)
    requires KeepsMode(m, writes, nr)
    ensures SameMode(m, Apply(m, writes), nr)
    decreases |writes|
  {
    hide Bit;
    if writes != [] {
      var n := |writes| - 1;
      assert writes[n] in writes;
      AppliedKeepsMode(m, writes[..n], nr);
    }
  }

  /** A call that asks for a mode of channel nr, and gets it. */
  ghost predicate SetsMode(chip: Chip, s: State, v: Event, nr: Third)
    requires Possible(chip, s, v)
  {
    v.Set? && v.op.OpEnable? && v.op.nr == nr && chip.OnOff(nr) && Step(chip, s.c, s.m, v.op).ok
  }

  lemma QuietKeepsMode(c: Cache, m: Regs, e: Effect, nr: Third)
    requires Quiet(c, e)
    ensures KeepsMode(m, e.writes, nr)
  {
    hide Bit;
  }

  lemma OtherBitKept(main: bv8, i: Third, nr: Third)
    requires i != nr
    ensures (main & !Bit(i)) & Bit(nr) == main & Bit(nr)
    ensures (main | Bit(i)) & Bit(nr) == main & Bit(nr)
  {
  }

  lemma SwitchOnKeepsMode(c: Cache, m: Regs, i: Third, nr: Third)
    requires c.fanMain == m[FanMain] && i != nr
    ensures KeepsMode(m, EnterOnOff(c, m, i).writes, nr)
  {
    OtherBitKept(m[FanMain], i, nr);
    hide Bit;
  }

  lemma FullDutyKeepsMode(chip: Chip, c: Cache, m: Regs, i: Chan, nr: Third)
    ensures KeepsMode(m, EnterFullDuty(chip, c, i).writes, nr)
  {
    hide Bit, NewerCtrl, PwmToReg;
  }

  lemma PwmModeKeepsMode(chip: Chip, c: Cache, m: Regs, i: Chan, ctrl: bv8, nr: Third)
    requires c.fanMain == m[FanMain] && (i != nr || !chip.OnOff(i))
    ensures KeepsMode(m, EnterPwmMode(chip, c, i, ctrl).writes, nr)
  {
    if chip.OnOff(i) {
      OtherBitKept(m[FanMain], i, nr);
    }
    hide Bit;
  }

  lemma EnableKeepsMode(chip: Chip, c: Cache, m: Regs, i: Chan, val: int, nr: Third)
    requires c.fanMain == m[FanMain]
    requires i != nr || !chip.OnOff(i) || !SetPwmEnable(chip, c, m, i, val).ok
    ensures KeepsMode(m, SetPwmEnable(chip, c, m, i, val).writes, nr)
  {
    if SetPwmEnable(chip, c, m, i, val).ok {
      if val == 0 && chip.OnOff(i) {
        SwitchOnKeepsMode(c, m, i, nr);
      } else if val == 0 {
        FullDutyKeepsMode(chip, c, m, i, nr);
      } else {
        PwmModeKeepsMode(chip, c, m, i, ModeCtrl(chip, c.pwms[i], val == 2), nr);
      }
    }
    hide Bit, TripPointsOk, ModeCtrl, EnterOnOff, EnterFullDuty, EnterPwmMode, KeepsMode;
  }

  lemma FreqKeepsMode(chip: Chip, c: Cache, m: Regs, i: Chan, val: nat, nr: Third)
    ensures KeepsMode(m, SetPwmFreq(chip, c, m, i, val).writes, nr)
  {
    hide Bit, ByteOf, FreqField;
  }

  lemma SetterKeepsMode(chip: Chip, s: State, op: Op, nr: Third)
    requires Legal(chip, op) && Linked(s) && !SetsMode(chip, s, Set(op), nr)
    ensures KeepsMode(s.m, Step(chip, s.c, s.m, op).writes, nr)
  {
    var c, m := s.c, s.m;
    hide KeepsMode, Quiet, SetPwmFreq, SetPwmEnable;
    match op {
      case OpEnable(i, val) => EnableKeepsMode(chip, c, m, i, val, nr);
      case OpFreq(i, val) => FreqKeepsMode(chip, c, m, i, val, nr);
      case _ =>
        SetterQuiet(chip, c, m, op);
        QuietKeepsMode(c, m, Step(chip, c, m, op), nr);
        hide Step;
    }
  }

  lemma EventKeepsMode(chip: Chip, s: State, v: Event, nr: Third)
    requires Possible(chip, s, v) && Linked(s) && !SetsMode(chip, s, v, nr)
    ensures forall n | n in Seen(chip, s, v) :: SameMode(s.m, n, nr)
    ensures SameMode(s.m, After(chip, s, v).m, nr)
  {
    hide Bit, KeepsMode, Refresh;
    match v
    case Set(op) =>
      SetterKeepsMode(chip, s, op, nr);
      hide Step, SetsMode;
      StepsKeepMode(s.m, s.m, Step(chip, s.c, s.m, op).writes, nr);
      AppliedKeepsMode(s.m, Step(chip, s.c, s.m, op).writes, nr);
    case Poll =>
    case Drift(n) =>
  }

  lemma OwnModeWritten(chip: Chip, s: State, nr: Third, val: int)
    requires Linked(s) && nr in chip.hasPwm && SetsMode(chip, s, Set(OpEnable(nr, val)), nr)
    ensures 0 <= val <= 2
    ensures var ws := Step(chip, s.c, s.m, OpEnable(nr, val)).writes;
      |ws| == 2 && ws[0].reg != FanMain && ws[1].reg == FanMain && (ws[1].value & Bit(nr) == 0 <==> val == 0)
  {
    OwnBit(s.m[FanMain], nr);
    hide Bit, TripPointsOk, ModeCtrl;
  }

  lemma TwoSteps(m: Regs, ws: seq<Write>)
    requires |ws| == 2
    ensures Steps(m, ws) == [Put(m, ws[0])] + [Put(Put(m, ws[0]), ws[1])]
  {
    assert ws == [ws[0], ws[1]];
    StepsTwo(m, ws[0], ws[1]);
  }

  lemma EntriesSame(m: Regs, seen: seq<Regs>, i: nat, nr: Third)
    requires i < |seen| && forall n | n in seen :: SameMode(m, n, nr)
    ensures var path := [m] + seen; SameMode(path[i], path[i + 1], nr)
  {
    hide Bit;
    assert seen[i] in seen && (i > 0 ==> seen[i - 1] in seen);
  }

  lemma PathKeepsMode(chip: Chip, r: State, v: Event, i: nat, nr: Third)
    requires Possible(chip, r, v) && Linked(r) && !SetsMode(chip, r, v, nr) && i < |Seen(chip, r, v)|
    ensures var path := [r.m] + Seen(chip, r, v); SameMode(path[i], path[i + 1], nr)
  {
    hide Bit, Linked, SetsMode, After, Possible, Seen, SameMode;
    EventKeepsMode(chip, r, v, nr);
    EntriesSame(r.m, Seen(chip, r, v), i, nr);
  }

  /** Two writes, the second one to the mode register: only the second changes
      the bit. */
  lemma SecondSetsMode(m: Regs, w: Write, x: Write, i: nat, nr: Third)
    requires w.reg != FanMain && x.reg == FanMain
    requires var path := [m] + ([Put(m, w)] + [Put(Put(m, w), x)]); i < 2 && !SameMode(path[i], path[i + 1], nr)
    ensures var path := [m] + ([Put(m, w)] + [Put(Put(m, w), x)]); path[i + 1][FanMain] == x.value
  {
    hide Bit;
  }

  lemma PathSetsMode(chip: Chip, r: State, val: int, i: nat, nr: Third)
    requires nr in chip.hasPwm && Linked(r) && SetsMode(chip, r, Set(OpEnable(nr, val)), nr)
    requires var path := [r.m] + Seen(chip, r, Set(OpEnable(nr, val)));
      i + 1 < |path| && !SameMode(path[i], path[i + 1], nr)
    ensures var path := [r.m] + Seen(chip, r, Set(OpEnable(nr, val)));
      path[i + 1][FanMain] & Bit(nr) == 0 <==> val == 0
  {
    hide Bit, SetsMode, Linked, Step, Steps, SameMode, Put;
    OwnModeWritten(chip, r, nr, val);
    var ws := Step(chip, r.c, r.m, OpEnable(nr, val)).writes;
    TwoSteps(r.m, ws);
    SecondSetsMode(r.m, ws[0], ws[1], i, nr);
  }

  /** At every single register write of every run: where the mode bit of a channel
      changes, the call is an accepted mode request for that very channel; the bit
      is cleared for full speed and set for the other two modes. */
  lemma ModeBitChanges(chip: Chip, s: State, events: seq<Event>, v: Event, i: nat, nr: Third)
    requires Run(chip, s, events) && Linked(s) && Possible(chip, Final(chip, s, events), v)
    requires var r := Final(chip, s, events);
      var path := [r.m] + Seen(chip, r, v);
      i + 1 < |path| && !SameMode(path[i], path[i + 1], nr)
    ensures var r := Final(chip, s, events);
      var path := [r.m] + Seen(chip, r, v);
      SetsMode(chip, r, v, nr) && (path[i + 1][FanMain] & Bit(nr) == 0 <==> v.op.val == 0)
  {
    RunPath(chip, s, events);
    hide Bit, Run, Final, SafePath, Linked, Seen, SameMode, Step, History;
    var r := Final(chip, s, events);
    if !SetsMode(chip, r, v, nr) {
      PathKeepsMode(chip, r, v, i, nr);
    } else {
      PathSetsMode(chip, r, v.op.val, i, nr);
    }
  }

  /** A run without such a request keeps the channel's mode bit throughout. */
  lemma {:induction false} ModeBitKept(chip: Chip, s: State, events: seq<Event>, nr: Third)
    requires Run(chip, s, events) && Linked(s)
    requires forall v | v in events :: !(v.Set? && v.op.OpEnable? && v.op.nr == nr)
    ensures forall n | n in History(chip, s, events) :: SameMode(s.m, n, nr)
    decreases |events|
  {
    hide Bit, SafePath, Step, Refresh;
    if events != [] {
      assert events[0] in events;
      EventPath(chip, s, events[0]);
      EventKeepsMode(chip, s, events[0], nr);
      hide After, Seen;
      ModeBitKept(chip, After(chip, s, events[0]), events[1..], nr);
    }
  }
}
