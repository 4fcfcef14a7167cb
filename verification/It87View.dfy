/** Register roles through the ports: the addresses of LayoutOf, taken through
    the banked accesses of It87Ports, read and write the register file that the
    rest of the model works on. */
module It87View {
  import opened Bytes
  import opened It87Chip
  import opened It87Spec
  import P = It87Ports

  /** The register number of a role, which is always in bank 0. */
  function RegAt(l: Layout, r: Reg): (n: P.RegNo) {
    ByteOf(Addr(l, r)) as bv16
  }

  lemma RegAtOffset(l: Layout, r: Reg)
    ensures P.OffsetOf(RegAt(l, r)) == ByteOf(Addr(l, r)) && P.BankOf(RegAt(l, r)) == 0
    ensures P.OffsetOf(RegAt(l, r)) != P.REG_BANK
  {
    hide Addr;
    var b := ByteOf(Addr(l, r));
    LowByte(b);
    assert b as nat != 0x06;
  }

  lemma LowByte(b: bv8)
    ensures ((b as bv16) & 0xff) as bv8 == b && ((b as bv16) >> 8) as bv8 == 0 && (b as bv16) & 0xff == b as bv16
  {
  }

  /** The register file that the ports give access to, by role. */
  ghost function View(l: Layout, p: P.Ports): (m: Regs)
  {
    var m := imap r: Reg | true :: p.mem[Addr(l, r)];
    assert forall r: Reg :: r in m;
    m
  }

  lemma FlatCell(banked: bool, l: Layout, r: Reg)
    ensures P.Flat(banked, RegAt(l, r)) == Addr(l, r)
  {
    RegAtOffset(l, r);
    hide RegAt, Addr;
  }

  /** A read by role returns the register and changes none. */
  lemma ReadView(e: P.Ec, l: Layout, r: Reg)
    requires P.Synced(e)
    ensures var (v, f) := P.ReadValue(e, RegAt(l, r));
      P.Synced(f) && f.ports.banked == e.ports.banked && f.ports.mem == e.ports.mem && v == View(l, e.ports)[r]
  {
    RegAtOffset(l, r);
    FlatCell(e.ports.banked, l, r);
    P.ReadRefinesFlat(e, RegAt(l, r));
    hide RegAt, Addr, P.ReadValue;
  }

  lemma ViewUpdated(t: ChipType, p: P.Ports, q: P.Ports, r: Reg, v: bv8)
    requires q.mem == p.mem[Addr(LayoutOf(t), r) := v]
    ensures View(LayoutOf(t), q) == Put(View(LayoutOf(t), p), Write(r, v))
  {
    hide Addr, LayoutOf;
    var l := LayoutOf(t);
    var m, n := Put(View(l, p), Write(r, v)), View(l, q);
    forall s: Reg
      ensures n[s] == m[s]
    {
      if s != r && Addr(l, s) == Addr(l, r) {
        AddrInjective(t, s, r);
      }
    }
  }

  /** A write by role replaces the register and no other one. */
  lemma WriteView(e: P.Ec, t: ChipType, r: Reg, v: bv8)
    requires P.Synced(e)
    ensures var f := P.WriteValue(e, RegAt(LayoutOf(t), r), v);
      && P.Synced(f) && f.ports.banked == e.ports.banked
      && View(LayoutOf(t), f.ports) == Put(View(LayoutOf(t), e.ports), Write(r, v))
  {
    var l := LayoutOf(t);
    RegAtOffset(l, r);
    FlatCell(e.ports.banked, l, r);
    P.WriteRefinesFlat(e, RegAt(l, r), v);
    hide RegAt, Addr, P.WriteValue, LayoutOf, View, Put;
    ViewUpdated(t, e.ports, P.WriteValue(e, RegAt(l, r), v).ports, r, v);
  }
}
