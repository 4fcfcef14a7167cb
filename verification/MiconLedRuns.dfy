/** LED calls over a line on which transmissions may be lost or delivered more than
    once: the registers refine a map from LEDs to modes. */
module MiconLedRuns {
  import opened MiconFrame
  import opened MiconLine
  import opened MiconPort
  import opened MiconDevice
  import opened MiconLeds

  // ------------------------------------------------------------ one exchange

  function BytesOf(s: Status): ByteSeq { [s.b0, s.b1] }

  /** No response passes for a reply without carrying the register. */
  predicate Truthful(m: Registers, x: Exchange)
    requires Known(x.addr)
  {
    forall k, i | 0 <= k < |x.read| && 0 <= i < |x.read[k]| ::
      ReadReply(x.read[k][i]) ==> Payload(x.read[k][i]) == BytesOf(Load(m, x.addr))
  }

  /** At least one of the write's command frames is heard. */
  predicate Landed(x: Exchange, heard: seq<ByteSeq>) {
    x.write != [] && Frame(2, x.addr, x.written) in heard
  }

  lemma TruthfulRead(m: Registers, x: Exchange)
    requires Known(x.addr) && ReadTried(x.read) && Truthful(m, x)
    ensures x.read != [] && x.read[|x.read| - 1] != []
    ensures var r := Verdict(x.read[|x.read| - 1]); r.Value? ==> r.data == BytesOf(Load(m, x.addr))
  {
    SomeTried(x.read);
    var k := |x.read| - 1;
    ReadData(x.read, k, |x.read[k]| - 1);
    hide ReadTried, Verdict, Payload, Load, ReadReply;
  }

  lemma WrittenStatus(m: Registers, x: Exchange, c: Change, mask: Status)
    requires Known(c.addr) && Attempted(x, c, mask) && Truthful(m, x) && x.write != []
    ensures Frame(2, x.addr, x.written) == StatusFrame(c.addr, Masked(Load(m, c.addr), c.on, mask))
  {
    TruthfulRead(m, x);
    var s, r := Load(m, c.addr), Verdict(x.read[|x.read| - 1]);
    hide ReadTried, Verdict, Truthful, Load, Masked, Frame;
    assert Usable(r) && r.data == BytesOf(s);
    assert Status(r.data[0], r.data[1]) == s && r.data[2..] == [];
    assert x.written == BytesOf(Masked(s, c.on, mask));
  }

  lemma SplitHeard(s: seq<ByteSeq>, t: seq<ByteSeq>, heard: seq<ByteSeq>)
    requires Through(s + t, heard)
    ensures Through(s, heard[..|s|]) && Through(t, heard[|s|..]) && heard[..|s|] + heard[|s|..] == heard
  {
    hide WriteFrame;
    forall i | 0 <= i < |t|
      ensures heard[|s|..][i] == t[i] || !WriteFrame(heard[|s|..][i])
    {
      assert heard[|s| + i] == (s + t)[|s| + i] || !WriteFrame(heard[|s| + i]);
    }
    forall i | 0 <= i < |s|
      ensures heard[..|s|][i] == s[i] || !WriteFrame(heard[..|s|][i])
    {
      assert heard[i] == (s + t)[i] || !WriteFrame(heard[i]);
    }
  }

  /** One read-modify-write, however often its write is delivered: if it is heard at
      all, the register is changed as planned; if not, nothing is. */
  lemma ExchangeHeard(m: Registers, x: Exchange, c: Change, mask: Status, heard: seq<ByteSeq>)
    requires Known(c.addr) && Attempted(x, c, mask) && Truthful(m, x) && Through(SentIn(x), heard)
    ensures Heard(m, heard) == if Landed(x, heard) then Modified(m, c, mask) else m
  {
    var s, t := ReadSteps(ReadFrame(x.addr), x.read), Steps(Frame(2, x.addr, x.written), x.write);
    SplitHeard(s, t, heard);
    HeardConcat(m, heard[..|s|], heard[|s|..]);
    ReadHeard(m, x.addr, x.read, heard[..|s|]);
    if x.write == [] {
      assert Steps(Frame(2, x.addr, x.written), []) == [];
      assert heard[|s|..] == [];
    } else {
      WrittenStatus(m, x, c, mask);
      var status := Masked(Load(m, c.addr), c.on, mask);
      StatusFrameHeard(m, c.addr, status);
      hide Through, Attempted, Truthful, WriteFrame, StatusFrame, Frame, Masked, Load, Store, ReadSteps, Steps, Heard;
      WriteHeard(m, c.addr, status, x.write, heard[|s|..]);
    }
  }

  // ---------------------------------------------------------- truthful replies

  /** The Micon's answer to a read. */
  function Reply(m: Registers, addr: bv8): Message
    requires Known(addr)
  {
    Message(0x82, addr, BytesOf(Load(m, addr)))
  }

  /** What may arrive of a frame: it, or something with its header and length that
      does not check. */
  predicate Altered(frame: ByteSeq, e: ByteSeq)
    requires frame != []
  {
    |e| == |frame| && e[0] == frame[0] && (e == frame || Checksum(e) != 0)
  }

  /** What an attempt meets when the Micon answers the read if it hears it, and the
      answer may be lost or altered on the way: nothing, or the answer in time, and
      nothing after an altered one. */
  predicate HonestAttempt(arrivals: nat -> ByteSeq, clock: nat, frame: ByteSeq)
    requires frame != []
  {
    var now, later := arrivals(clock) + arrivals(clock + 1), arrivals(clock + 2);
    now + later != [] ==>
      && InTime(|frame|, |now|, |later|) && Altered(frame, now + later)
      && (now + later != frame ==> arrivals(clock + 3) == [])
  }

  predicate HonestAttempts(arrivals: nat -> ByteSeq, l: LineState, n: nat, frame: ByteSeq)
    requires frame != []
    decreases n
  {
    n == 0 ||
    (HonestAttempt(arrivals, l.clock, frame) && HonestAttempts(arrivals, AttemptOn(arrivals, l).1, n - 1, frame))
  }

  /** Bytes of the length that their first one states are received whole. */
  lemma ReceivedWhole(now: ByteSeq, later: ByteSeq)
    requires var e := now + later; e != [] && |e| == Stated(e[0]) + 3 && InTime(|e|, |now|, |later|)
    ensures Receive(now, later) == (now + later, [])
  {
    hide Stated;
    if now != [] {
      assert (now + later)[0] == now[0];
      assert now[..1] + (now[1..] + later) == now + later;
      assert (now[1..] + later)[..|now| - 1 + |later|] == now[1..] + later;
    } else {
      assert now + later == later && [] + later == later;
      if |later| == 32 {
        assert later[..32] == later && later[32..] == [];
      }
    }
  }

  lemma HonestResponse(arrivals: nat -> ByteSeq, l: LineState, r: Message)
    requires r.Valid() && l.waiting == [] && HonestAttempt(arrivals, l.clock, Encode(r))
    ensures var (response, next) := AttemptOn(arrivals, l);
      next.waiting == [] && (ReadReply(response) ==> response == Encode(r))
  {
    FrameContents(r);
    hide Checksum, Stated, Encode, Message.Valid, InTime;
    var k, frame := l.clock, Encode(r);
    var now, later := arrivals(k) + arrivals(k + 1), arrivals(k + 2);
    assert l.waiting + arrivals(k) + arrivals(k + 1) == now;
    if now + later == [] {
      assert now == [] && later == [];
      NothingReceived();
    } else {
      hide Receive;
      ReceivedWhole(now, later);
    }
  }

  lemma NothingReceived()
    ensures Receive([], []) == ([], [])
  {
  }

  lemma {:induction false} HonestResponses(arrivals: nat -> ByteSeq, l: LineState, got: seq<ByteSeq>, k: LineState,
                                           r: Message)
    requires r.Valid() && l.waiting == []
    requires Carried(arrivals, l, got, k) && HonestAttempts(arrivals, l, |got|, Encode(r))
    ensures k.waiting == [] && forall a | a in got :: ReadReply(a) ==> a == Encode(r)
    decreases |got|
  {
    hide ReadReply, Encode, Message.Valid, HonestAttempt;
    if got != [] {
      HonestResponse(arrivals, l, r);
      hide AttemptOn;
      HonestResponses(arrivals, AttemptOn(arrivals, l).1, got[1..], k, r);
      assert got == [got[0]] + got[1..];
    }
  }

  lemma {:induction false} InJoined(got: seq<seq<ByteSeq>>, k: nat, i: nat)
    requires k < |got| && i < |got[k]|
    ensures got[k][i] in Joined(got)
  {
    var n := |got| - 1;
    if k < n {
      InJoined(got[..n], k, i);
    }
  }

  /** An exchange with an honest Micon: nothing is waiting when the read is sent, and
      each attempt meets its answer. */
  predicate Honest(arrivals: nat -> ByteSeq, m: Registers, x: Exchange) {
    && Known(x.addr) && x.start.waiting == []
    && HonestAttempts(arrivals, x.start, |Joined(x.read)|, Encode(Reply(m, x.addr)))
  }

  /** On an honest line every reply that passes carries the register that was asked
      for, and nothing is left waiting. */
  lemma HonestIsTruthful(arrivals: nat -> ByteSeq, m: Registers, x: Exchange, end: LineState)
    requires OnLine(arrivals, x, end) && Honest(arrivals, m, x)
    ensures Known(x.addr) && Truthful(m, x) && x.middle.waiting == []
  {
    var r := Reply(m, x.addr);
    assert r.Valid();
    FrameContents(r);
    hide ReadReply, Carried, HonestAttempts, Joined, Encode, Load;
    HonestResponses(arrivals, x.start, Joined(x.read), x.middle, r);
    forall k, i | 0 <= k < |x.read| && 0 <= i < |x.read[k]| && ReadReply(x.read[k][i])
      ensures Payload(x.read[k][i]) == BytesOf(Load(m, x.addr))
    {
      InJoined(x.read, k, i);
    }
  }

  // ---------------------------------------------------------------- one call

  /** The registers after what was heard of each exchange. */
  function AfterCall(m: Registers, heards: seq<seq<ByteSeq>>): Registers {
    if heards == [] then m else Heard(AfterCall(m, heards[..|heards| - 1]), heards[|heards| - 1])
  }

  /** That is, what was heard of the whole call. */
  lemma {:induction false} HeardTogether(m: Registers, xs: seq<Exchange>, heards: seq<seq<ByteSeq>>)
    requires |heards| == |xs| && forall i | 0 <= i < |xs| :: Through(SentIn(xs[i]), heards[i])
    ensures AfterCall(m, heards) == Heard(m, Joined(heards)) && Through(Transmitted(xs), Joined(heards))
  {
    hide SentIn, Heard, Through;
    if xs != [] {
      var n := |xs| - 1;
      HeardTogether(m, xs[..n], heards[..n]);
      HeardConcat(m, Joined(heards[..n]), heards[n]);
      BothThrough(Transmitted(xs[..n]), Joined(heards[..n]), SentIn(xs[n]), heards[n]);
    } else {
      NothingThrough(m);
    }
  }

  lemma BothThrough(s: seq<ByteSeq>, h: seq<ByteSeq>, t: seq<ByteSeq>, k: seq<ByteSeq>)
    requires Through(s, h) && Through(t, k)
    ensures Through(s + t, h + k)
  {
    hide WriteFrame;
  }

  lemma NothingThrough(m: Registers)
    ensures Through([], []) && Heard(m, []) == m
  {
  }

  /** What the exchanges of a call amount to: the changes of those that landed. */
  function Applied(m: Registers, plan: seq<Change>, mask: Status, xs: seq<Exchange>,
                   heards: seq<seq<ByteSeq>>): Registers
    requires |xs| == |heards| <= |plan| && forall i | 0 <= i < |plan| :: Known(plan[i].addr)
  {
    if xs == [] then m
    else
      var n := |xs| - 1;
      var before := Applied(m, plan, mask, xs[..n], heards[..n]);
      if Landed(xs[n], heards[n]) then Modified(before, plan[n], mask) else before
  }

  /** What may become of a call: it goes as planned as far as it goes, and what is
      heard of each exchange is of what was sent, with truthful replies. */
  ghost predicate Possible(m: Registers, call: Call, xs: seq<Exchange>, heards: seq<seq<ByteSeq>>, ok: bool) {
    && Follows(xs, call, ok) && |heards| == |xs|
    && (forall i | 0 <= i < |xs| :: Through(SentIn(xs[i]), heards[i]))
    && (forall i | 0 <= i < |xs| :: Known(xs[i].addr) && Truthful(AfterCall(m, heards[..i]), xs[i]))
  }

  /** A call on an honest line: it goes as planned as far as it goes, its responses
      are what comes on the line from an honest Micon, and what is heard of each
      exchange is of what was sent. */
  ghost predicate HonestCall(arrivals: nat -> ByteSeq, t: Traffic, u: Traffic, m: Registers, call: Call,
                             xs: seq<Exchange>, heards: seq<seq<ByteSeq>>, ok: bool) {
    && CallDone(arrivals, t, xs, u) && Follows(xs, call, ok) && |heards| == |xs|
    && (forall i | 0 <= i < |xs| :: Through(SentIn(xs[i]), heards[i]))
    && (forall i | 0 <= i < |xs| :: Honest(arrivals, AfterCall(m, heards[..i]), xs[i]))
  }

  lemma HonestIsPossible(arrivals: nat -> ByteSeq, t: Traffic, u: Traffic, m: Registers, call: Call, xs: seq<Exchange>,
                         heards: seq<seq<ByteSeq>>, ok: bool)
    requires HonestCall(arrivals, t, u, m, call, xs, heards, ok)
    ensures Possible(m, call, xs, heards, ok)
  {
    hide Follows, Through, Truthful, OnLine, Honest, AfterCall, SentIn, Transmitted;
    forall i | 0 <= i < |xs|
      ensures Known(xs[i].addr) && Truthful(AfterCall(m, heards[..i]), xs[i])
    {
      HonestIsTruthful(arrivals, AfterCall(m, heards[..i]), xs[i], EndOf(xs, i, u.line));
    }
  }

  lemma PossibleSizes(m: Registers, call: Call, xs: seq<Exchange>, heards: seq<seq<ByteSeq>>, ok: bool)
    requires Possible(m, call, xs, heards, ok)
    ensures |heards| == |xs| <= |Plan(call)|
    ensures ok ==> |xs| == |Plan(call)|
  {
    hide Attempted, Succeeded, Through, Truthful, Plan, AfterCall;
  }

  lemma PossibleStep(m: Registers, call: Call, xs: seq<Exchange>, heards: seq<seq<ByteSeq>>, ok: bool, k: nat)
    requires Possible(m, call, xs, heards, ok) && k < |xs|
    ensures |heards| == |xs| <= |Plan(call)| && Attempted(xs[k], Plan(call)[k], call.mask)
    ensures Known(xs[k].addr) && Through(SentIn(xs[k]), heards[k]) && Truthful(AfterCall(m, heards[..k]), xs[k])
  {
    hide Attempted, Succeeded, Through, Truthful, Plan, AfterCall;
  }

  lemma {:induction false} CallHeard(m: Registers, call: Call, xs: seq<Exchange>, heards: seq<seq<ByteSeq>>, ok: bool,
                                     n: nat)
    requires Possible(m, call, xs, heards, ok) && n <= |xs|
    ensures |heards| == |xs| <= |Plan(call)|
    ensures AfterCall(m, heards[..n]) == Applied(m, Plan(call), call.mask, xs[..n], heards[..n])
  {
    hide Possible, Attempted, Through, Truthful, Heard, Modified, Landed, Plan;
    PossibleSizes(m, call, xs, heards, ok);
    if n > 0 {
      var k := n - 1;
      CallHeard(m, call, xs, heards, ok, k);
      assert xs[..n][..k] == xs[..k] && heards[..n][..k] == heards[..k];
      PossibleStep(m, call, xs, heards, ok, k);
      ExchangeHeard(AfterCall(m, heards[..k]), xs[k], Plan(call)[k], call.mask, heards[k]);
    }
  }

  /** Every one of its writes landed. */
  predicate Took(xs: seq<Exchange>, heards: seq<seq<ByteSeq>>)
    requires |heards| == |xs|
  {
    forall i | 0 <= i < |xs| :: Landed(xs[i], heards[i])
  }

  lemma {:induction false} AllApplied(m: Registers, plan: seq<Change>, mask: Status, xs: seq<Exchange>,
                                      heards: seq<seq<ByteSeq>>)
    requires |xs| == |heards| <= |plan| && forall i | 0 <= i < |plan| :: Known(plan[i].addr)
    requires Took(xs, heards)
    ensures Applied(m, plan, mask, xs, heards) == SetAll(m, plan[..|xs|], mask)
  {
    hide Modified, Landed;
    if xs != [] {
      var n := |xs| - 1;
      AllApplied(m, plan, mask, xs[..n], heards[..n]);
      assert plan[..n + 1][..n] == plan[..n];
    }
  }

  lemma ModifiedKeeps(m: Registers, call: Call, i: nat, sata: bool, led: Led)
    requires i < |Plan(call)| && !Asks(call, sata, led)
    ensures ModeOf(Modified(m, Plan(call)[i], call.mask), sata, led) == ModeOf(m, sata, led)
  {
    var c := Plan(call)[i];
    HasMasked(Load(m, c.addr), c.on, call.mask, led);
    hide Has, Masked;
  }

  lemma {:induction false} AppliedKeeps(m: Registers, call: Call, xs: seq<Exchange>, heards: seq<seq<ByteSeq>>,
                                        sata: bool, led: Led)
    requires |xs| == |heards| <= |Plan(call)| && !Asks(call, sata, led)
    ensures ModeOf(Applied(m, Plan(call), call.mask, xs, heards), sata, led) == ModeOf(m, sata, led)
  {
    hide Modified, Landed, ModeOf, Plan, Asks;
    if xs != [] {
      var n := |xs| - 1;
      AppliedKeeps(m, call, xs[..n], heards[..n], sata, led);
      ModifiedKeeps(Applied(m, Plan(call), call.mask, xs[..n], heards[..n]), call, n, sata, led);
    }
  }

  lemma TakenModes(m: Registers, call: Call, xs: seq<Exchange>, heards: seq<seq<ByteSeq>>, sata: bool, led: Led)
    requires |xs| == |heards| == |Plan(call)| && Took(xs, heards)
    ensures var n := Applied(m, Plan(call), call.mask, xs, heards);
      && n == SetAll(m, Plan(call), call.mask)
      && (Asks(call, sata, led) ==> ModeOf(n, sata, led) == Asked(call.mode))
  {
    hide Landed, Plan, ModeOf, Asks, SetAll, Applied;
    AllApplied(m, Plan(call), call.mask, xs, heards);
    assert Plan(call)[..|xs|] == Plan(call);
    SetLedModes(m, call, sata, led);
  }

  /** A call that succeeds, with at least one delivery of each of its writes, sets
      exactly the LEDs it means; any other leaves the LEDs that it does not mean as
      they are, wherever it was cut short and whatever was lost. */
  lemma CallModes(m: Registers, call: Call, xs: seq<Exchange>, heards: seq<seq<ByteSeq>>, ok: bool, sata: bool,
                  led: Led)
    requires Possible(m, call, xs, heards, ok)
    ensures |heards| == |xs|
    ensures ok && Took(xs, heards) ==> AfterCall(m, heards) == SetAll(m, Plan(call), call.mask)
    ensures ok && Took(xs, heards) && Asks(call, sata, led) ==>
      ModeOf(AfterCall(m, heards), sata, led) == Asked(call.mode)
    ensures !Asks(call, sata, led) ==> ModeOf(AfterCall(m, heards), sata, led) == ModeOf(m, sata, led)
  {
    hide Possible, Took, Plan, ModeOf, Asks, SetAll, AfterCall, Applied;
    PossibleSizes(m, call, xs, heards, ok);
    CallHeard(m, call, xs, heards, ok, |xs|);
    assert xs[..|xs|] == xs && heards[..|heards|] == heards;
    if ok && Took(xs, heards) {
      TakenModes(m, call, xs, heards, sata, led);
    }
    if !Asks(call, sata, led) {
      AppliedKeeps(m, call, xs, heards, sata, led);
    }
  }

  /** A change of anything but the on/off registers. */
  predicate KeepsOnOff(m: Registers, n: Registers) { n.onOff == m.onOff && n.sataOnOff == m.sataOnOff }

  lemma EarlierKeepsOnOff(m: Registers, call: Call, i: nat)
    requires i + 1 < |Plan(call)|
    ensures KeepsOnOff(m, Modified(m, Plan(call)[i], call.mask))
  {
    hide Masked;
  }

  lemma {:induction false} PrefixKeepsOnOff(m: Registers, call: Call, xs: seq<Exchange>, heards: seq<seq<ByteSeq>>)
    requires |xs| == |heards| < |Plan(call)|
    ensures KeepsOnOff(m, Applied(m, Plan(call), call.mask, xs, heards))
  {
    hide Modified, Landed, Plan;
    if xs != [] {
      var n := |xs| - 1;
      PrefixKeepsOnOff(m, call, xs[..n], heards[..n]);
      EarlierKeepsOnOff(Applied(m, Plan(call), call.mask, xs[..n], heards[..n]), call, n);
    }
  }

  /** LEDs are switched last: a call that is cut short before its last exchange, or
      whose last write is never heard, has switched none on or off. */
  lemma SwitchedLast(m: Registers, call: Call, xs: seq<Exchange>, heards: seq<seq<ByteSeq>>, ok: bool)
    requires Possible(m, call, xs, heards, ok) && |heards| == |xs| > 0
    requires |xs| < |Plan(call)| || !Landed(xs[|xs| - 1], heards[|xs| - 1])
    ensures KeepsOnOff(m, AfterCall(m, heards))
  {
    hide Possible, Landed, Plan, AfterCall, Modified;
    PossibleSizes(m, call, xs, heards, ok);
    CallHeard(m, call, xs, heards, ok, |xs|);
    assert xs[..|xs|] == xs && heards[..|heards|] == heards;
    var n := |xs| - 1;
    PrefixKeepsOnOff(m, call, xs[..n], heards[..n]);
    if |xs| < |Plan(call)| {
      PrefixKeepsOnOff(m, call, xs, heards);
    }
  }

  // -------------------------------------------------------------------- runs

  /** A call, what became of it, and the traffic before and after. */
  datatype Happening = Happening(
    call: Call, xs: seq<Exchange>, heards: seq<seq<ByteSeq>>, ok: bool, before: Traffic, after: Traffic)

  function AfterRun(m: Registers, hs: seq<Happening>): Registers {
    if hs == [] then m else AfterCall(AfterRun(m, hs[..|hs| - 1]), hs[|hs| - 1].heards)
  }

  ghost predicate PossibleRun(m: Registers, hs: seq<Happening>) {
    forall i | 0 <= i < |hs| :: PossibleAt(AfterRun(m, hs[..i]), hs[i])
  }

  ghost predicate PossibleAt(m: Registers, h: Happening) { Possible(m, h.call, h.xs, h.heards, h.ok) }

  /** Either the call does not mean the LED, or it succeeded and was heard. */
  predicate Reliable(h: Happening, sata: bool, led: Led) {
    Asks(h.call, sata, led) ==> h.ok && |h.heards| == |h.xs| && Took(h.xs, h.heards)
  }

  /** What was last asked of an LED. */
  function LastAsked(v: Mode, hs: seq<Happening>, sata: bool, led: Led): Mode {
    if hs == [] then v
    else
      var n := |hs| - 1;
      if Asks(hs[n].call, sata, led) then Asked(hs[n].call.mode) else LastAsked(v, hs[..n], sata, led)
  }

  /** The registers refine a map from LEDs to modes: after any run of calls for the
      SATA LEDs and the others, each LED is in the mode last asked of it, if the
      calls that meant it succeeded and were heard, once or more often; calls that
      did not mean it may have failed anywhere. */
  lemma {:induction false} LedsRefineMap(m: Registers, hs: seq<Happening>, sata: bool, led: Led)
    requires PossibleRun(m, hs) && forall i | 0 <= i < |hs| :: Reliable(hs[i], sata, led)
    ensures ModeOf(AfterRun(m, hs), sata, led) == LastAsked(ModeOf(m, sata, led), hs, sata, led)
  {
    hide Possible, ModeOf, Asks, Took, AfterCall;
    if hs != [] {
      var n := |hs| - 1;
      var h := hs[n];
      assert PossibleRun(m, hs[..n]) by {
        forall i | 0 <= i < n
          ensures PossibleAt(AfterRun(m, hs[..n][..i]), hs[..n][i])
        {
          assert hs[..n][..i] == hs[..i] && PossibleAt(AfterRun(m, hs[..i]), hs[i]);
        }
      }
      LedsRefineMap(m, hs[..n], sata, led);
      assert PossibleAt(AfterRun(m, hs[..n]), h) && Reliable(h, sata, led);
      CallModes(AfterRun(m, hs[..n]), h.call, h.xs, h.heards, h.ok, sata, led);
    }
  }

  ghost predicate HonestAt(arrivals: nat -> ByteSeq, m: Registers, h: Happening) {
    HonestCall(arrivals, h.before, h.after, m, h.call, h.xs, h.heards, h.ok)
  }

  /** The same on an honest line, with nothing assumed of the replies that pass: the
      line may lose or alter any transmission and any answer, each time anew. */
  lemma LedsOnHonestLine(arrivals: nat -> ByteSeq, m: Registers, hs: seq<Happening>, sata: bool, led: Led)
    requires forall i | 0 <= i < |hs| :: HonestAt(arrivals, AfterRun(m, hs[..i]), hs[i])
    requires forall i | 0 <= i < |hs| :: Reliable(hs[i], sata, led)
    ensures ModeOf(AfterRun(m, hs), sata, led) == LastAsked(ModeOf(m, sata, led), hs, sata, led)
  {
    hide HonestCall, Possible, ModeOf, Asks, Took, AfterCall, AfterRun, LastAsked, Reliable;
    forall i | 0 <= i < |hs|
      ensures PossibleAt(AfterRun(m, hs[..i]), hs[i])
    {
      var h := hs[i];
      assert HonestAt(arrivals, AfterRun(m, hs[..i]), h);
      HonestIsPossible(arrivals, h.before, h.after, AfterRun(m, hs[..i]), h.call, h.xs, h.heards, h.ok);
    }
    LedsRefineMap(m, hs, sata, led);
  }
}
