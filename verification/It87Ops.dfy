/** The writable attributes of the it87ts driver as one operation type. */
module It87Ops {
  import opened It87Chip
  import opened It87Spec

  /** One write to a sysfs attribute. */
  datatype Op =
    | OpIn(oct: Octet, index: nat, val: int)
    | OpTemp(nr: Chan, index: nat, val: int)
    | OpFan(nr: Chan, val: int)
    | OpFanDiv(ch: Third, size: nat)
    | OpEnable(nr: Chan, val: int)
    | OpPwm(nr: Chan, val: int)
    | OpFreq(nr: Chan, size: nat)
    | OpTempMap(nr: Chan, val: int)
    | OpAutoPwm(nr: Chan, point: Third, val: int)
    | OpSlope(nr: Chan, size: nat)
    | OpAutoTemp(nr: Chan, index: nat, val: int)
    | OpBeep(oct: Octet, val: int)
    | OpTempType(ch: Third, val: int)

  /** The attribute exists and is writable on this chip. */
  predicate Legal(chip: Chip, op: Op) {
    match op
    case OpIn(nr, index, _) => nr in chip.hasIn && index in {1, 2}
    case OpTemp(nr, index, _) =>
      && nr in chip.hasTemp && nr < chip.numTempLimit
      && (index in {1, 2} || (index == 3 && TempOffsets in chip.features))
    case OpFan(nr, _) => nr in chip.hasFan
    case OpFanDiv(nr, _) => nr in chip.hasFan && !chip.Fan16()
    case OpEnable(nr, _) => nr in chip.hasPwm
    case OpPwm(nr, _) => nr in chip.hasPwm
    case OpFreq(nr, _) => nr in chip.hasPwm && (nr == 0 || (nr == 1 && PwmFreq2 in chip.features))
    case OpTempMap(nr, _) => nr in chip.hasPwm && (chip.Old() || chip.Newer())
    case OpAutoPwm(nr, point, _) => nr in chip.hasPwm && (chip.Old() || (chip.Newer() && point == 0))
    case OpSlope(nr, _) => nr in chip.hasPwm && chip.Newer()
    case OpAutoTemp(nr, point, _) =>
      nr in chip.hasPwm && ((chip.Old() && point < 5) || (chip.Newer() && point < 4))
    case OpBeep(_, _) => true
    case OpTempType(nr, _) => nr in chip.hasTemp && BankSel !in chip.features
  }

  /** What the operation does. */
  ghost function Step(chip: Chip, c: Cache, m: Regs, op: Op): Effect
    requires Legal(chip, op)
  {
    match op
    case OpIn(nr, index, val) => SetIn(chip, c, nr, index, val)
    case OpTemp(nr, index, val) => SetTemp(c, m, nr, index, val)
    case OpFan(nr, val) => SetFan(chip, c, m, nr, val)
    case OpFanDiv(nr, val) => SetFanDiv(c, m, nr, val)
    case OpEnable(nr, val) => SetPwmEnable(chip, c, m, nr, val)
    case OpPwm(nr, val) => SetPwm(chip, c, m, nr, val)
    case OpFreq(nr, val) => SetPwmFreq(chip, c, m, nr, val)
    case OpTempMap(nr, val) => SetTempMap(chip, c, m, nr, val)
    case OpAutoPwm(nr, point, val) => SetAutoPwm(chip, c, nr, point, val)
    case OpSlope(nr, val) => SetAutoPwmSlope(c, nr, val)
    case OpAutoTemp(nr, point, val) => SetAutoTemp(chip, c, nr, point, val)
    case OpBeep(bit, val) => SetBeep(c, m, bit, val)
    case OpTempType(nr, val) => SetTempType(chip, c, m, nr, val)
  }

  lemma NoWrites(m: Regs, writes: seq<Write>)
    requires writes == []
    ensures Apply(m, writes) == m
  {
  }

  lemma ApplyOne(m: Regs, w: Write)
    ensures Apply(m, [w]) == Put(m, w)
  {
    assert [w][..0] == [];
  }

  lemma ApplyTwo(m: Regs, w: Write, x: Write)
    ensures Apply(m, [w, x]) == Put(Put(m, w), x)
  {
    ApplyOne(m, w);
    assert [w, x][..1] == [w];
  }
}
