/** The Micon's side of the protocol: which transmissions change its status
    registers, and what any number of deliveries of one command amounts to. */
module MiconDevice {
  import opened MiconFrame
  import opened MiconPort

  /** Two status bytes; LED number led is bit led % 8 of byte led / 8. */
  datatype Status = Status(b0: bv8, b1: bv8)

  const CMD_LED_CPU: bv8 := 0x50
  const CMD_LED_ONOFF: bv8 := 0x51
  const CMD_LED_BLINK: bv8 := 0x52
  const SATA_LED_ONOFF: bv8 := 0x58
  const SATA_LED_BLINK: bv8 := 0x59

  /** The LED registers, by address. */
  datatype Registers = Registers(cpu: Status, onOff: Status, blink: Status, sataOnOff: Status, sataBlink: Status)

  predicate Known(addr: bv8) {
    || addr == CMD_LED_CPU || addr == CMD_LED_ONOFF || addr == CMD_LED_BLINK || addr == SATA_LED_ONOFF
    || addr == SATA_LED_BLINK
  }

  function Load(m: Registers, addr: bv8): Status
    requires Known(addr)
  {
    if addr == CMD_LED_CPU then m.cpu
    else if addr == CMD_LED_ONOFF then m.onOff
    else if addr == CMD_LED_BLINK then m.blink
    else if addr == SATA_LED_ONOFF then m.sataOnOff
    else m.sataBlink
  }

  function Store(m: Registers, addr: bv8, s: Status): Registers
    requires Known(addr)
  {
    if addr == CMD_LED_CPU then m.(cpu := s)
    else if addr == CMD_LED_ONOFF then m.(onOff := s)
    else if addr == CMD_LED_BLINK then m.(blink := s)
    else if addr == SATA_LED_ONOFF then m.(sataOnOff := s)
    else m.(sataBlink := s)
  }

  /** A transmission that the Micon takes for a write: it checks, has no read bit,
      and its length is the one it states. */
  predicate WriteFrame(e: ByteSeq) {
    |e| >= 3 && Checksum(e) == 0 && e[0] & 0x80 == 0 && |e| == Stated(e[0]) + 3
  }

  /** What the registers are after one transmission is heard. */
  function Heard1(m: Registers, e: ByteSeq): Registers {
    if WriteFrame(e) && |e| == 5 && Known(e[1]) then Store(m, e[1], Status(e[2], e[3])) else m
  }

  function Heard(m: Registers, heard: seq<ByteSeq>): Registers {
    if heard == [] then m else Heard1(Heard(m, heard[..|heard| - 1]), heard[|heard| - 1])
  }

  /** What may be heard of what was sent: each transmission unaltered, or something
      that is no write, as when it is lost or does not check. */
  ghost predicate Through(sent: seq<ByteSeq>, heard: seq<ByteSeq>) {
    |heard| == |sent| && forall i | 0 <= i < |sent| :: heard[i] == sent[i] || !WriteFrame(heard[i])
  }

  lemma {:induction false} HeardConcat(m: Registers, s: seq<ByteSeq>, t: seq<ByteSeq>)
    ensures Heard(m, s + t) == Heard(Heard(m, s), t)
    decreases |t|
  {
    hide Heard1;
    if t == [] {
      assert s + t == s;
    } else {
      var n := |t| - 1;
      HeardConcat(m, s, t[..n]);
      assert (s + t)[..|s + t| - 1] == s + t[..n];
    }
  }

  lemma StoredAgain(m: Registers, f: ByteSeq)
    ensures Heard1(Heard1(m, f), f) == Heard1(m, f)
  {
    hide WriteFrame;
  }

  /** Where everything heard is the frame f or no write, only whether f was heard at
      all makes a difference. */
  lemma {:induction false} HeardOnce(m: Registers, f: ByteSeq, heard: seq<ByteSeq>)
    requires forall e | e in heard :: e == f || !WriteFrame(e)
    ensures Heard(m, heard) == if f in heard then Heard1(m, f) else m
  {
    if heard != [] {
      var n := |heard| - 1;
      assert heard == heard[..n] + [heard[n]];
      HeardOnce(m, f, heard[..n]);
      StoredAgain(m, f);
      if heard[n] != f {
        assert Heard1(Heard(m, heard[..n]), heard[n]) == Heard(m, heard[..n]);
      }
      hide WriteFrame, Heard1;
    }
  }

  /** The frame of a write to a status register, and what hearing it does. */
  function StatusFrame(addr: bv8, s: Status): ByteSeq { Frame(2, addr, [s.b0, s.b1]) }

  lemma StatusFrameHeard(m: Registers, addr: bv8, s: Status)
    requires Known(addr)
    ensures WriteFrame(StatusFrame(addr, s)) && Heard1(m, StatusFrame(addr, s)) == Store(m, addr, s)
  {
    var message := Message(2, addr, [s.b0, s.b1]);
    assert message.Valid();
    FrameContents(message);
    var f := Encode(message);
    assert f[2] == f[2..|f| - 1][0] && f[3] == f[2..|f| - 1][1];
    hide Checksum, Frame, Store, Known;
  }

  lemma PreambleIsNoWrite()
    ensures !WriteFrame(Preamble())
  {
    OnesAre(32, 0);
    hide Ones;
  }

  lemma ReadIsNoWrite(addr: bv8, k: nat)
    ensures !WriteFrame(Padded(ReadFrame(addr), k))
  {
    assert Padded(ReadFrame(addr), k)[0] == 0x80;
    hide Padded, ReadFrame;
  }

  lemma HeardWhat(sent: seq<ByteSeq>, heard: seq<ByteSeq>, e: ByteSeq)
    requires Through(sent, heard) && e in heard && WriteFrame(e)
    ensures e in sent
  {
    var i :| 0 <= i < |heard| && heard[i] == e;
    assert sent[i] == e;
    hide WriteFrame;
  }

  /** A write, with any responses and whatever is heard of its attempts: if any one
      of its command frames is heard, the register has the payload, no matter how
      many are; if none is, no register has changed. */
  lemma WriteHeard(m: Registers, addr: bv8, s: Status, got: seq<ByteSeq>, heard: seq<ByteSeq>)
    requires Known(addr) && Through(Steps(StatusFrame(addr, s), got), heard)
    ensures Heard(m, heard) == if StatusFrame(addr, s) in heard then Store(m, addr, s) else m
  {
    var f := StatusFrame(addr, s);
    StatusFrameHeard(m, addr, s);
    StepsEntries(f, got);
    PreambleIsNoWrite();
    hide Steps, Heard1, WriteFrame, StatusFrame, Preamble, Store, Through;
    forall e | e in heard && e != f
      ensures !WriteFrame(e)
    {
      if WriteFrame(e) {
        HeardWhat(Steps(f, got), heard, e);
      }
    }
    HeardOnce(m, f, heard);
  }

  /** A read changes no register. */
  lemma ReadHeard(m: Registers, addr: bv8, got: seq<seq<ByteSeq>>, heard: seq<ByteSeq>)
    requires Through(ReadSteps(ReadFrame(addr), got), heard)
    ensures Heard(m, heard) == m
    ensures forall e | e in heard :: !WriteFrame(e)
  {
    ReadEntries(ReadFrame(addr), got);
    PreambleIsNoWrite();
    hide Heard1, WriteFrame, Preamble, Padded, ReadFrame, ReadSteps, Through;
    forall e | e in heard
      ensures !WriteFrame(e)
    {
      if WriteFrame(e) {
        HeardWhat(ReadSteps(ReadFrame(addr), got), heard, e);
        assert OfAttempt(e, ReadFrame(addr), |got|);
        var k :| 0 <= k < |got| && e == Padded(ReadFrame(addr), k);
        ReadIsNoWrite(addr, k);
      }
    }
    NoneHeard(m, heard);
  }

  lemma {:induction false} NoneHeard(m: Registers, heard: seq<ByteSeq>)
    requires forall e | e in heard :: !WriteFrame(e)
    ensures Heard(m, heard) == m
  {
    if heard != [] {
      var n := |heard| - 1;
      assert heard == heard[..n] + [heard[n]];
      NoneHeard(m, heard[..n]);
      hide WriteFrame;
    }
  }
}
