/** The LED commands of the Micon: one logical state per LED, spread over status
    registers that are read, masked in place and written back over the line. */
module MiconLeds {
  import opened Bytes
  import opened MiconFrame
  import opened MiconLine
  import opened MiconPort
  import opened MiconDevice

  const LED_OFF := 0
  const LED_BLINK := 2

  type Led = n: nat | n < 16

  function Or(a: bv8, m: bv8): bv8 { a | m }

  /** a & inv_mask, with the mask inverted as the commands do it. */
  function AndNot(a: bv8, m: bv8): bv8 { a & (m ^ 0xff) }

  lemma BitMasked(a: bv8, m: bv8, n: nat)
    requires n < 8
    ensures Flag(Or(a, m), n) <==> Flag(a, n) || Flag(m, n)
    ensures Flag(AndNot(a, m), n) <==> Flag(a, n) && !Flag(m, n)
  {
  }

  predicate Has(s: Status, led: Led) { if led < 8 then Flag(s.b0, led) else Flag(s.b1, led - 8) }

  /** The status with the bits of the mask set, or cleared. */
  function Masked(s: Status, on: bool, mask: Status): Status {
    if on then Status(Or(s.b0, mask.b0), Or(s.b1, mask.b1)) else Status(AndNot(s.b0, mask.b0), AndNot(s.b1, mask.b1))
  }

  lemma HasMasked(s: Status, on: bool, mask: Status, led: Led)
    ensures Has(Masked(s, on, mask), led) == if Has(mask, led) then on else Has(s, led)
  {
    hide Flag, Or, AndNot;
    if led < 8 {
      BitMasked(s.b0, mask.b0, led);
    } else {
      BitMasked(s.b1, mask.b1, led - 8);
    }
  }

  // ------------------------------------------------------ logical LED states

  /** One call: for the SATA LEDs or the others, a mode, and the LEDs meant. */
  datatype Call = Call(sata: bool, mode: int, mask: Status)

  /** One register that a call changes, by setting or clearing the bits meant. */
  datatype Change = Change(addr: bv8, on: bool)

  function Plan(call: Call): (plan: seq<Change>)
    ensures forall i | 0 <= i < |plan| :: Known(plan[i].addr)
  {
    var blinking, on := call.mode == LED_BLINK, call.mode != LED_OFF;
    if call.sata then [Change(SATA_LED_BLINK, blinking), Change(SATA_LED_ONOFF, on)]
    else [Change(CMD_LED_CPU, true), Change(CMD_LED_BLINK, blinking), Change(CMD_LED_ONOFF, on)]
  }

  function Modified(m: Registers, c: Change, mask: Status): Registers
    requires Known(c.addr)
  {
    Store(m, c.addr, Masked(Load(m, c.addr), c.on, mask))
  }

  /** The state of one LED. */
  datatype Mode = Mode(on: bool, blinking: bool)

  function ModeOf(m: Registers, sata: bool, led: Led): Mode {
    if sata then Mode(Has(m.sataOnOff, led), Has(m.sataBlink, led)) else Mode(Has(m.onOff, led), Has(m.blink, led))
  }

  /** The state that a mode argument asks for. */
  function Asked(mode: int): Mode { Mode(mode != LED_OFF, mode == LED_BLINK) }

  predicate Asks(call: Call, sata: bool, led: Led) { call.sata == sata && Has(call.mask, led) }

  /** All the changes of a call. */
  function SetAll(m: Registers, plan: seq<Change>, mask: Status): Registers
    requires forall i | 0 <= i < |plan| :: Known(plan[i].addr)
  {
    if plan == [] then m
    else
      var n := |plan| - 1;
      Modified(SetAll(m, plan[..n], mask), plan[n], mask)
  }

  lemma SetAppend(m: Registers, plan: seq<Change>, c: Change, mask: Status)
    requires Known(c.addr) && forall i | 0 <= i < |plan| :: Known(plan[i].addr)
    ensures SetAll(m, plan + [c], mask) == Modified(SetAll(m, plan, mask), c, mask)
  {
    assert (plan + [c])[..|plan|] == plan;
    hide Modified;
  }

  lemma SetLeds(m: Registers, call: Call)
    ensures SetAll(m, Plan(call), call.mask) ==
      var blinking, on := call.mode == LED_BLINK, call.mode != LED_OFF;
      if call.sata then
        m.(sataBlink := Masked(m.sataBlink, blinking, call.mask), sataOnOff := Masked(m.sataOnOff, on, call.mask))
      else
        m.(cpu := Masked(m.cpu, true, call.mask), blink := Masked(m.blink, blinking, call.mask),
           onOff := Masked(m.onOff, on, call.mask))
  {
    hide Masked;
    var plan := Plan(call);
    assert SetAll(m, [], call.mask) == m;
    SetAppend(m, [], plan[0], call.mask);
    SetAppend(m, [plan[0]], plan[1], call.mask);
    assert [] + [plan[0]] == [plan[0]] && [plan[0]] + [plan[1]] == [plan[0], plan[1]];
    if call.sata {
      assert plan == [plan[0], plan[1]];
    } else {
      SetAppend(m, [plan[0], plan[1]], plan[2], call.mask);
      assert plan == [plan[0], plan[1]] + [plan[2]];
    }
    hide SetAll;
  }

  /** A call changes exactly the LEDs it means, to the mode it asks for: 0 is off, 2
      is blinking and anything else, such as 1, is on. */
  lemma SetLedModes(m: Registers, call: Call, sata: bool, led: Led)
    ensures Asked(call.mode) == Mode(on := call.mode != 0, blinking := call.mode == 2)
    ensures ModeOf(SetAll(m, Plan(call), call.mask), sata, led) ==
      if Asks(call, sata, led) then Asked(call.mode) else ModeOf(m, sata, led)
    ensures Has(SetAll(m, Plan(call), call.mask).cpu, led) <==> Has(m.cpu, led) || Asks(call, false, led)
  {
    SetLeds(m, call);
    hide Has, Masked, SetAll;
    var blinking, on := call.mode == LED_BLINK, call.mode != LED_OFF;
    HasMasked(m.cpu, true, call.mask, led);
    HasMasked(m.blink, blinking, call.mask, led);
    HasMasked(m.onOff, on, call.mask, led);
    HasMasked(m.sataBlink, blinking, call.mask, led);
    HasMasked(m.sataOnOff, on, call.mask, led);
  }

  // --------------------------------------------------- one read-modify-write

  /** The status bytes as they are written back: the first two masked. */
  function Changed(data: ByteSeq, on: bool, mask: Status): ByteSeq
    requires |data| >= 2
  {
    var s := Masked(Status(data[0], data[1]), on, mask);
    [s.b0, s.b1] + data[2..]
  }

  /** Only the first two bytes are masked: LED number led is bit led % 8 of byte
      led / 8, and any more bytes are written back as they were read. */
  lemma ChangedBytes(data: ByteSeq, on: bool, mask: Status, led: Led, i: nat)
    requires 2 <= i && i < |data|
    ensures var out := Changed(data, on, mask);
      && |out| == |data| && out[i] == data[i]
      && (Flag(out[led / 8], led % 8) <==>
            if Flag(if led < 8 then mask.b0 else mask.b1, led % 8) then on else Flag(data[led / 8], led % 8))
  {
    hide Flag, Masked;
    HasMasked(Status(data[0], data[1]), on, mask, led);
  }

  /** The responses to the read and the write of one register, with the line before
      each, and the bytes that were written; no responses if it did not come to the
      write. */
  datatype Exchange = Exchange(
    addr: bv8, start: LineState, read: seq<seq<ByteSeq>>, middle: LineState, written: ByteSeq, write: seq<ByteSeq>)

  function SentIn(x: Exchange): seq<ByteSeq> {
    ReadSteps(ReadFrame(x.addr), x.read) + Steps(Frame(2, x.addr, x.written), x.write)
  }

  /** Its responses are what came on the line, which it leaves as given. */
  predicate OnLine(arrivals: nat -> ByteSeq, x: Exchange, end: LineState) {
    Carried(arrivals, x.start, Joined(x.read), x.middle) && Carried(arrivals, x.middle, x.write, end)
  }

  predicate ExchangeDone(arrivals: nat -> ByteSeq, t: Traffic, x: Exchange, u: Traffic) {
    x.start == t.line && u.sent == t.sent + SentIn(x) && OnLine(arrivals, x, u.line)
  }

  lemma ExchangeMade(arrivals: nat -> ByteSeq, s: Traffic, x: Exchange, t: Traffic, u: Traffic)
    requires x.start == s.line && x.middle == t.line
    requires ReadDone(arrivals, s, ReadFrame(x.addr), x.read, t)
    requires CommandDone(arrivals, t, Frame(2, x.addr, x.written), x.write, u)
    ensures ExchangeDone(arrivals, s, x, u)
  {
    hide ReadSteps, Steps, ReadFrame, Frame, Carried, Joined;
    var r, w := ReadSteps(ReadFrame(x.addr), x.read), Steps(Frame(2, x.addr, x.written), x.write);
    assert s.sent + r + w == s.sent + (r + w);
  }

  /** The read brought two bytes to mask; otherwise the masking raises an error. */
  predicate Usable(r: ReadResult) { r.Value? && |r.data| >= 2 }

  predicate Attempted(x: Exchange, c: Change, mask: Status) {
    && x.addr == c.addr && ReadTried(x.read)
    && var r := Verdict(x.read[|x.read| - 1]);
       if Usable(r) then x.written == Changed(r.data, c.on, mask) && Tried(x.write) else x.write == []
  }

  /** The status is written back exactly when the read brought two bytes or more, as
      many as it brought. */
  lemma WrittenExactly(x: Exchange, c: Change, mask: Status)
    requires Attempted(x, c, mask)
    ensures x.read != [] && x.read[|x.read| - 1] != []
    ensures var r := Verdict(x.read[|x.read| - 1]);
      && (x.write != [] <==> r.Value? && |r.data| > 1)
      && (x.write != [] ==> r.Value? && |x.written| == |r.data|)
  {
    SomeTried(x.read);
    hide ReadTried, Verdict, Masked, Rejected;
  }

  /** It was not cut short, by a bad read or by an error in the write. */
  predicate Succeeded(x: Exchange) { x.write != [] && !Conclusion(x.write).Raised? }

  lemma SomeTried(read: seq<seq<ByteSeq>>)
    requires ReadTried(read)
    ensures read != [] && read[|read| - 1] != []
  {
    hide Rejected, Fruitless;
  }

  lemma SomeResponse(got: seq<ByteSeq>)
    requires Tried(got)
    ensures got != []
  {
  }

  function Transmitted(xs: seq<Exchange>): seq<ByteSeq> {
    if xs == [] then [] else Transmitted(xs[..|xs| - 1]) + SentIn(xs[|xs| - 1])
  }

  /** The line that exchange i leaves: where the next one starts, or the end. */
  function EndOf(xs: seq<Exchange>, i: nat, end: LineState): LineState {
    if i + 1 < |xs| then xs[i + 1].start else end
  }

  /** Exchanges one after the other on one line. */
  predicate CallDone(arrivals: nat -> ByteSeq, t: Traffic, xs: seq<Exchange>, u: Traffic) {
    && u.sent == t.sent + Transmitted(xs)
    && (if xs == [] then u.line else xs[0].start) == t.line
    && forall i | 0 <= i < |xs| :: OnLine(arrivals, xs[i], EndOf(xs, i, u.line))
  }

  lemma NothingCalled(arrivals: nat -> ByteSeq, t: Traffic)
    ensures CallDone(arrivals, t, [], t)
  {
    assert t.sent + [] == t.sent;
  }

  lemma ExchangeAdded(arrivals: nat -> ByteSeq, s: Traffic, xs: seq<Exchange>, t: Traffic, x: Exchange, u: Traffic)
    requires CallDone(arrivals, s, xs, t) && ExchangeDone(arrivals, t, x, u)
    ensures CallDone(arrivals, s, xs + [x], u)
  {
    hide SentIn, OnLine;
    var ys := xs + [x];
    assert ys[..|xs|] == xs;
    assert s.sent + Transmitted(xs) + SentIn(x) == s.sent + (Transmitted(xs) + SentIn(x));
    forall i | 0 <= i < |ys|
      ensures OnLine(arrivals, ys[i], EndOf(ys, i, u.line))
    {
      if i < |xs| {
        assert OnLine(arrivals, xs[i], EndOf(xs, i, t.line)) && EndOf(ys, i, u.line) == EndOf(xs, i, t.line);
      }
    }
  }

  class LedApi {
    const api: MiconApi

    constructor (api: MiconApi)
      ensures this.api == api
    {
      this.api := api;
    }

    /** The source writes this out for every register. */
    method UpdateStatus(c: Change, mask: Status) returns (ok: bool, ghost x: Exchange)
      requires api.port.Valid()
      modifies api.port
      ensures api.port.Valid() && ExchangeDone(api.port.arrivals, old(api.port.T()), x, api.port.T())
      ensures Attempted(x, c, mask) && ok == Succeeded(x)
    {
      hide Line.Valid, Line.T, ReadTried, Verdict, Tried, Conclusion, Changed, Masked, Frame, ReadDone, CommandDone,
        ExchangeDone;
      var r;
      ghost var read;
      r, read := api.SendReadCmd(c.addr);
      SomeTried(read);
      ok := false;
      ghost var start, middle := old(api.port.T()), api.port.T();
      x := Exchange(c.addr, start.line, read, middle.line, [], []);
      if r.Value? && |r.data| >= 2 {
        var written := Changed(r.data, c.on, mask);
        var outcome;
        ghost var write;
        outcome, write := api.SendWriteCmd(2, c.addr, written);
        x := x.(written := written, write := write);
        SomeResponse(write);
        ok := !outcome.Raised?;
      } else {
        NothingDone(api.port.arrivals, middle, Frame(2, c.addr, []));
      }
      ExchangeMade(api.port.arrivals, start, x, middle, api.port.T());
    }

    /** cmd_set_led: the CPU, blink and on/off registers, in this order; the first
        one that is cut short ends the call. */
    method CmdSetLed(mode: int, mask: Status) returns (ok: bool, ghost xs: seq<Exchange>)
      requires api.port.Valid()
      modifies api.port
      ensures api.port.Valid() && CallDone(api.port.arrivals, old(api.port.T()), xs, api.port.T())
      ensures Follows(xs, Call(false, mode, mask), ok)
    {
      hide Line.Valid, Line.T, Attempted, Succeeded, ExchangeDone, CallDone;
      ghost var a, t := api.port.arrivals, api.port.T();
      ghost var x, y, z, before;
      NothingCalled(a, t);
      ok, x := UpdateStatus(Change(CMD_LED_CPU, true), mask);
      ExchangeAdded(a, t, [], t, x, api.port.T());
      xs := [] + [x];
      if !ok { return; }
      before := api.port.T();
      ok, y := UpdateStatus(Change(CMD_LED_BLINK, mode == LED_BLINK), mask);
      ExchangeAdded(a, t, xs, before, y, api.port.T());
      xs := xs + [y];
      if !ok { return; }
      before := api.port.T();
      ok, z := UpdateStatus(Change(CMD_LED_ONOFF, mode != LED_OFF), mask);
      ExchangeAdded(a, t, xs, before, z, api.port.T());
      xs := xs + [z];
    }

    /** cmd_set_sataled: the blink and on/off registers of the SATA LEDs. */
    method CmdSetSataled(mode: int, mask: Status) returns (ok: bool, ghost xs: seq<Exchange>)
      requires api.port.Valid()
      modifies api.port
      ensures api.port.Valid() && CallDone(api.port.arrivals, old(api.port.T()), xs, api.port.T())
      ensures Follows(xs, Call(true, mode, mask), ok)
    {
      hide Line.Valid, Line.T, Attempted, Succeeded, ExchangeDone, CallDone;
      ghost var a, t := api.port.arrivals, api.port.T();
      ghost var x, y;
      NothingCalled(a, t);
      ok, x := UpdateStatus(Change(SATA_LED_BLINK, mode == LED_BLINK), mask);
      ExchangeAdded(a, t, [], t, x, api.port.T());
      xs := [] + [x];
      if !ok { return; }
      ghost var before := api.port.T();
      ok, y := UpdateStatus(Change(SATA_LED_ONOFF, mode != LED_OFF), mask);
      ExchangeAdded(a, t, xs, before, y, api.port.T());
      xs := xs + [y];
    }
  }

  /** The exchanges of a call: as planned, up to the first that is cut short; the
      call succeeds if none is. */
  predicate Follows(xs: seq<Exchange>, call: Call, ok: bool) {
    var plan := Plan(call);
    && 0 < |xs| <= |plan|
    && (forall i | 0 <= i < |xs| :: Attempted(xs[i], plan[i], call.mask))
    && (forall i | 0 <= i < |xs| - 1 :: Succeeded(xs[i]))
    && ok == Succeeded(xs[|xs| - 1])
    && (ok ==> |xs| == |plan|)
  }
}
