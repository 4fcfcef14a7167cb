/** Sequences of calls on the driver object: its log of register writes is the
    history of the run that the calls make up. */
module It87Calls {
  import opened Bytes
  import opened It87Chip
  import opened It87Spec
  import opened It87Ops
  import opened It87Runs
  import opened It87Driver

  /** One write to a sysfs attribute. */
  method Perform(d: It87Data, op: Op) returns (ok: bool)
    requires d.Valid() && Legal(d.chip, op)
    modifies d, d.io
    ensures var s := old(d.Now()); var e := Step(d.chip, s.c, s.m, op);
      d.Valid() && d.Now() == Done(s, e) && ok == e.ok
  {
    hide It87Data.Valid, It87Data.M, Done, SetIn, SetTemp, SetFan, SetFanDiv, SetPwmEnable, SetPwm, SetPwmFreq,
      SetTempMap, SetAutoPwm, SetAutoPwmSlope, SetAutoTemp, SetBeep, SetTempType;
    AlwaysAccepted(d.chip, d.C(), d.M(), op);
    ok := true;
    match op {
      case OpIn(nr, index, val) => d.StoreIn(nr, index, val);
      case OpTemp(nr, index, val) => d.StoreTemp(nr, index, val);
      case OpFan(nr, val) => d.StoreFan(nr, val);
      case OpFanDiv(nr, val) => d.StoreFanDiv(nr, val);
      case OpEnable(nr, val) => ok := d.StorePwmEnable(nr, val);
      case OpPwm(nr, val) => ok := d.StorePwm(nr, val);
      case OpFreq(nr, val) => d.StorePwmFreq(nr, val);
      case OpTempMap(nr, val) => ok := d.StorePwmTempMap(nr, val);
      case OpAutoPwm(nr, point, val) => ok := d.StoreAutoPwm(nr, point, val);
      case OpSlope(nr, val) => ok := d.StoreAutoPwmSlope(nr, val);
      case OpAutoTemp(nr, point, val) => ok := d.StoreAutoTemp(nr, point, val);
      case OpBeep(bit, val) => ok := d.StoreBeep(bit, val);
      case OpTempType(nr, val) => ok := d.StoreTempType(nr, val);
    }
  }

  /** The setters that clamp or round whatever they are given. */
  lemma AlwaysAccepted(chip: Chip, c: Cache, m: Regs, op: Op)
    requires Legal(chip, op)
    ensures op.OpIn? || op.OpTemp? || op.OpFan? || op.OpFanDiv? || op.OpFreq? ==> Step(chip, c, m, op).ok
  {
    hide SetPwmEnable, SetPwm, SetTempMap, SetAutoPwm, SetAutoPwmSlope, SetAutoTemp, SetBeep, SetTempType;
  }

  // ------------------------------------------------------------------- runs

  /** The writes of a run, in order. */
  ghost function Logged(chip: Chip, s: State, events: seq<Event>): seq<Write>
    requires Run(chip, s, events)
    decreases |events|
  {
    if events == [] then []
    else
      (match events[0]
       case Set(op) => Step(chip, s.c, s.m, op).writes
       case _ => []) +
      Logged(chip, After(chip, s, events[0]), events[1..])
  }

  /** Nothing but calls. */
  predicate Undisturbed(events: seq<Event>) { forall v | v in events :: !v.Drift? }

  lemma {:induction false} ApplyConcat(m: Regs, s: seq<Write>, t: seq<Write>)
    ensures Apply(m, s + t) == Apply(Apply(m, s), t)
    decreases |t|
  {
    if t == [] {
      assert s + t == s;
    } else {
      var n := |t| - 1;
      ApplyConcat(m, s, t[..n]);
      assert (s + t)[..|s + t| - 1] == s + t[..n];
    }
  }

  lemma {:induction false} StepsConcat(m: Regs, s: seq<Write>, t: seq<Write>)
    ensures Steps(m, s + t) == Steps(m, s) + Steps(Apply(m, s), t)
    decreases |s|
  {
    if s == [] {
      assert s + t == t;
    } else {
      assert (s + t)[1..] == s[1..] + t;
      StepsConcat(Put(m, s[0]), s[1..], t);
      ApplyOne(m, s[0]);
      ApplyConcat(m, [s[0]], s[1..]);
      assert [s[0]] + s[1..] == s;
      hide Apply;
    }
  }

  /** In a run of calls, the register files seen are those that its writes lead
      through, one by one, and the last is the final one. */
  lemma {:induction false} LogIsHistory(chip: Chip, s: State, events: seq<Event>)
    requires Run(chip, s, events) && Undisturbed(events)
    ensures History(chip, s, events) == Steps(s.m, Logged(chip, s, events))
    ensures Final(chip, s, events).m == Apply(s.m, Logged(chip, s, events))
    decreases |events|
  {
    hide Step, Refresh;
    if events != [] {
      assert events[0] in events;
      var first := if events[0].Set? then Step(chip, s.c, s.m, events[0].op).writes else [];
      var s' := After(chip, s, events[0]);
      LogIsHistory(chip, s', events[1..]);
      StepsConcat(s.m, first, Logged(chip, s', events[1..]));
      ApplyConcat(s.m, first, Logged(chip, s', events[1..]));
      assert s'.m == Apply(s.m, first);
      assert Seen(chip, s, events[0]) == Steps(s.m, first);
      hide Apply, Steps;
    }
  }

  /** Any sequence of calls on the object is a run, and its log records it. */
  method PerformAll(d: It87Data, events: seq<Event>)
    requires d.Valid() && Undisturbed(events) && Run(d.chip, State(d.C(), d.M()), events)
    modifies d, d.io
    ensures d.Valid()
    ensures var s := old(State(d.C(), d.M()));
      && State(d.C(), d.M()) == Final(d.chip, s, events)
      && d.log == old(d.log) + Logged(d.chip, s, events)
    decreases |events|
  {
    hide It87Data.Valid, It87Data.M, It87Data.C, Step, Refresh, Apply;
    if events != [] {
      assert events[0] in events;
      match events[0] {
        case Set(op) => var _ := Perform(d, op);
        case Poll => d.UpdateAll();
      }
      PerformAll(d, events[1..]);
    }
  }

  /** So the fans are safe at every write that the object logs. */
  lemma LogIsSafe(chip: Chip, s: State, events: seq<Event>, i: nat, j: nat, nr: Third)
    requires Run(chip, s, events) && Undisturbed(events) && Linked(s)
    requires i <= j <= |Steps(s.m, Logged(chip, s, events))|
    ensures var t := [s.m] + Steps(s.m, Logged(chip, s, events));
      && t[j][FanMain] & 0xf8 == t[i][FanMain] & 0xf8
      && (t[i][FanCtl] & Bit(nr) != 0 ==> t[j][FanCtl] & Bit(nr) != 0)
      && (t[i][FanMain] & Bit(nr) != 0 && t[j][FanMain] & Bit(nr) == 0 ==> t[j][FanCtl] & Bit(nr) != 0)
  {
    hide Bit, Steps, History, Linked;
    LogIsHistory(chip, s, events);
    FanSafety(chip, s, events, i, j, nr);
  }
}
