/** The two I/O ports of the it87ts hardware monitor, and the proof that the
    driver's banked accesses through them behave like one flat register file. */
module It87Ports {
  import opened Bytes

  /** The device behind the address and data ports. With bank select, the top
      three bits of register 0x06 choose one of eight 256-byte banks and the
      register itself is the same in every bank; without it there is bank 0
      only and 0x06 is an ordinary register. */
  datatype Ports = Ports(banked: bool, latch: bv8, bankReg: bv8, mem: Memory) {
    function HardwareBank(): bv8 { bankReg >> 5 }

    /** The memory cell that the latched offset selects. */
    function Cell(): (i: nat)
      ensures i < 0x800
    {
      Index(if banked then HardwareBank() else 0, latch)
    }

    function WriteAddressPort(v: bv8): Ports { this.(latch := v) }

    function WriteDataPort(v: bv8): Ports {
      if banked && latch == REG_BANK then this.(bankReg := v) else this.(mem := mem[Cell() := v])
    }

    function ReadDataPort(): bv8 {
      if banked && latch == REG_BANK then bankReg else mem[Cell()]
    }
  }

  /** Eight banks of 256 bytes. */
  type Memory = m: seq<bv8> | |m| == 0x800 witness seq(0x800, _ => 0)

  function Index(bank: bv8, offset: bv8): (i: nat)
    requires bank < 8
    ensures i < 0x800
  {
    SmallBank(bank);
    0x100 * (bank as nat) + offset as nat
  }

  lemma SmallBank(bank: bv8)
    requires bank < 8
    ensures bank as nat < 8
  {
  }

  const REG_BANK: bv8 := 0x06

  /** The driver's side: the ports plus the bank it believes to be selected. */
  datatype Ec = Ec(ports: Ports, bank: bv8)

  /** The bank cache is either unset or right. */
  ghost predicate Synced(e: Ec) {
    e.ports.banked && e.bank != 0xff ==> e.bank == e.ports.HardwareBank()
  }

  function RawRead(p: Ports, reg: bv8): (bv8, Ports) {
    var q := p.WriteAddressPort(reg);
    (q.ReadDataPort(), q)
  }

  function RawWrite(p: Ports, reg: bv8, v: bv8): (q: Ports) {
    p.WriteAddressPort(reg).WriteDataPort(v)
  }

  function SetBank(e: Ec, bank: bv8): Ec {
    if e.ports.banked && bank != e.bank then
      var (breg, p) := RawRead(e.ports, REG_BANK);
      Ec(RawWrite(p, REG_BANK, (breg & 0x1f) | (bank << 5)), bank)
    else e
  }

  /** A register number: bank in the high byte, offset in the low byte. */
  type RegNo = r: bv16 | r < 0x800

  function BankOf(reg: RegNo): bv8 { (reg >> 8) as bv8 }

  function OffsetOf(reg: RegNo): bv8 { (reg & 0xff) as bv8 }

  function ReadValue(e: Ec, reg: RegNo): (bv8, Ec) {
    var f := SetBank(e, BankOf(reg));
    var (v, p) := RawRead(f.ports, OffsetOf(reg));
    (v, f.(ports := p))
  }

  function WriteValue(e: Ec, reg: RegNo, v: bv8): Ec {
    var f := SetBank(e, BankOf(reg));
    f.(ports := RawWrite(f.ports, OffsetOf(reg), v))
  }

  /** The cell of the flat register file that a register number stands for. */
  function Flat(banked: bool, reg: RegNo): (i: nat)
    ensures i < 0x800
  {
    BankFits(reg);
    Index(if banked then BankOf(reg) else 0, OffsetOf(reg))
  }

  function Number(reg: RegNo): nat { reg as nat }

  /** A register number is its own place in the flat file, or its low byte without
      banks. */
  lemma FlatIsNumber(banked: bool, reg: RegNo)
    ensures Flat(banked, reg) == if banked then Number(reg) else Number(reg) % 0x100
  {
    hide Number, BankOf, OffsetOf;
    NumberOf(reg);
    LowPart(OffsetOf(reg) as nat, BankOf(reg) as nat);
  }

  lemma LowPart(o: nat, b: nat)
    requires o < 0x100
    ensures (o + 0x100 * b) % 0x100 == o
  {
  }

  lemma NumberOf(reg: RegNo)
    ensures Number(reg) == OffsetOf(reg) as nat + 0x100 * (BankOf(reg) as nat)
  {
    hide Join, Low, High, BankOf, OffsetOf;
    SplitOf(reg);
    JoinValue(OffsetOf(reg), BankOf(reg));
    JoinSplit(reg);
  }

  lemma SplitOf(reg: RegNo)
    ensures OffsetOf(reg) == Low(reg) && BankOf(reg) == High(reg)
  {
  }

  /** The bank register is reached only by the driver's own bank switch. */
  predicate Plain(banked: bool, reg: RegNo) { banked ==> OffsetOf(reg) != REG_BANK }

  /** What every access leaves behind, whatever it did before. */
  ghost predicate Settled(e: Ec, f: Ec, reg: RegNo) {
    && Synced(f)
    && f.ports.banked == e.ports.banked
    && f.ports.bankReg & 0x1f == e.ports.bankReg & 0x1f
    && (f.ports.banked ==> f.bank == f.ports.HardwareBank() == BankOf(reg))
    && (!f.ports.banked ==> f.bank == e.bank && f.ports.bankReg == e.ports.bankReg)
  }

  lemma BankField(breg: bv8, bank: bv8)
    requires bank < 8
    ensures ((breg & 0x1f) | (bank << 5)) >> 5 == bank
    ensures ((breg & 0x1f) | (bank << 5)) & 0x1f == breg & 0x1f
  {
  }

  lemma BankFits(reg: RegNo)
    ensures BankOf(reg) < 8
  {
  }

  /** Switching banks rewrites bits 5..7 of the bank register and nothing else. */
  lemma SetBankSelects(e: Ec, reg: RegNo)
    requires Synced(e)
    ensures var f := SetBank(e, BankOf(reg));
      Settled(e, f, reg) && f.ports.mem == e.ports.mem
  {
    var bank := BankOf(reg);
    BankFits(reg);
    BankField(e.ports.bankReg, bank);
  }

  lemma CellOfReg(p: Ports, reg: RegNo)
    requires Plain(p.banked, reg)
    requires p.latch == OffsetOf(reg) && (p.banked ==> p.HardwareBank() == BankOf(reg))
    ensures p.Cell() == Flat(p.banked, reg)
    ensures p.banked ==> p.latch != REG_BANK
  {
  }

  /** A read returns the flat entry and changes no register. */
  lemma ReadRefinesFlat(e: Ec, reg: RegNo)
    requires Synced(e) && Plain(e.ports.banked, reg)
    ensures var (v, f) := ReadValue(e, reg);
      && v == e.ports.mem[Flat(e.ports.banked, reg)]
      && f.ports.mem == e.ports.mem
      && Settled(e, f, reg)
  {
    SetBankSelects(e, reg);
    var f := SetBank(e, BankOf(reg));
    CellOfReg(f.ports.WriteAddressPort(OffsetOf(reg)), reg);
  }

  /** A write changes the flat entry and no other register. */
  lemma WriteRefinesFlat(e: Ec, reg: RegNo, v: bv8)
    requires Synced(e) && Plain(e.ports.banked, reg)
    ensures var f := WriteValue(e, reg, v);
      && f.ports.mem == e.ports.mem[Flat(e.ports.banked, reg) := v]
      && Settled(e, f, reg)
  {
    SetBankSelects(e, reg);
    var f := SetBank(e, BankOf(reg));
    CellOfReg(f.ports.WriteAddressPort(OffsetOf(reg)), reg);
  }

  datatype Access = Read(reg: RegNo) | Write(reg: RegNo, value: bv8)

  /** What a sequence of accesses returns and leaves, through the ports... */
  function RunPorts(e: Ec, accesses: seq<Access>): (seq<bv8>, Ec)
    decreases |accesses|
  {
    if accesses == [] then ([], e)
    else
      match accesses[0]
      case Read(reg) =>
        var (v, f) := ReadValue(e, reg);
        var (vs, g) := RunPorts(f, accesses[1..]);
        ([v] + vs, g)
      case Write(reg, v) => RunPorts(WriteValue(e, reg, v), accesses[1..])
  }

  /** ...and on a flat register file that knows nothing of banks. */
  function RunFlat(banked: bool, mem: Memory, accesses: seq<Access>): (seq<bv8>, Memory)
    decreases |accesses|
  {
    if accesses == [] then ([], mem)
    else
      match accesses[0]
      case Read(reg) =>
        var (vs, m) := RunFlat(banked, mem, accesses[1..]);
        ([mem[Flat(banked, reg)]] + vs, m)
      case Write(reg, v) => RunFlat(banked, mem[Flat(banked, reg) := v], accesses[1..])
  }

  function StepPorts(e: Ec, a: Access): Ec {
    match a
    case Read(reg) => ReadValue(e, reg).1
    case Write(reg, v) => WriteValue(e, reg, v)
  }

  /** What every access finds and leaves: the bank cache right, and the low bits
      of the bank register as they were. */
  ghost predicate Kept(e: Ec, f: Ec) {
    Synced(f) && f.ports.banked == e.ports.banked && f.ports.bankReg & 0x1f == e.ports.bankReg & 0x1f
  }

  function StepFlat(banked: bool, mem: Memory, a: Access): Memory {
    match a
    case Read(_) => mem
    case Write(reg, v) => mem[Flat(banked, reg) := v]
  }

  lemma StepRefinesFlat(e: Ec, a: Access)
    requires Synced(e) && Plain(e.ports.banked, a.reg)
    ensures var f := StepPorts(e, a);
      && Kept(e, f)
      && f.ports.mem == StepFlat(e.ports.banked, e.ports.mem, a)
      && (f.ports.banked ==> f.bank == f.ports.HardwareBank() == BankOf(a.reg))
      && (a.Read? ==> ReadValue(e, a.reg).0 == e.ports.mem[Flat(e.ports.banked, a.reg)])
  {
    match a {
      case Read(reg) => ReadRefinesFlat(e, reg);
      case Write(reg, v) => WriteRefinesFlat(e, reg, v);
    }
    hide ReadValue, WriteValue, Flat, BankOf;
  }

  lemma FirstAccess(e: Ec, accesses: seq<Access>)
    requires accesses != []
    ensures var a, rest := accesses[0], accesses[1..];
      var (vs, g) := RunPorts(StepPorts(e, a), rest);
      RunPorts(e, accesses) == (if a.Read? then [ReadValue(e, a.reg).0] + vs else vs, g)
  {
    hide ReadValue, WriteValue, Flat;
  }

  lemma FirstFlat(banked: bool, mem: Memory, accesses: seq<Access>)
    requires accesses != []
    ensures var a, rest := accesses[0], accesses[1..];
      var (vs, n) := RunFlat(banked, StepFlat(banked, mem, a), rest);
      RunFlat(banked, mem, accesses) == (if a.Read? then [mem[Flat(banked, a.reg)]] + vs else vs, n)
  {
    hide Flat;
  }

  /** Bank refinement: every sequence of accesses that keeps off the bank
      register reads and writes exactly as on the flat file, never changes the
      low bits of the bank register, and leaves the cached bank right. */
  lemma {:induction false} PortsRefineFlat(e: Ec, accesses: seq<Access>)
    requires Synced(e)
    requires forall i | 0 <= i < |accesses| :: Plain(e.ports.banked, accesses[i].reg)
    ensures var (vs, f) := RunPorts(e, accesses);
      && (vs, f.ports.mem) == RunFlat(e.ports.banked, e.ports.mem, accesses)
      && Kept(e, f)
      && (f.ports.banked && accesses != [] ==>
            f.bank == f.ports.HardwareBank() == BankOf(accesses[|accesses| - 1].reg))
    decreases |accesses|
  {
    if accesses != [] {
      hide RunPorts, RunFlat, StepPorts, StepFlat, Flat, BankOf, ReadValue;
      var a, rest := accesses[0], accesses[1..];
      StepRefinesFlat(e, a);
      PortsRefineFlat(StepPorts(e, a), rest);
      FirstAccess(e, accesses);
      FirstFlat(e.ports.banked, e.ports.mem, accesses);
    }
  }
}
