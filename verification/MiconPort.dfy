/** Sending commands to the Micon over a line that may lose, corrupt or delay
    anything: the nested retries and what they let through. */
module MiconPort {
  import opened MiconFrame
  import opened MiconLine

  const RETRY_COUNT: nat := 3

  /** n bytes of all ones; the preamble is 32 of them. */
  function Ones(n: nat): ByteSeq {
    if n == 0 then [] else Ones(n - 1) + [0xff]
  }

  function Preamble(): ByteSeq { Ones(32) }

  /** A bytearray that its owner shares with the functions it is passed to. */
  class Buffer {
    var bytes: ByteSeq

    constructor (bytes: ByteSeq)
      ensures this.bytes == bytes
    {
      this.bytes := bytes;
    }

    method Append(b: bv8)
      modifies this
      ensures bytes == old(bytes) + [b]
    {
      bytes := bytes + [b];
    }
  }

  // ------------------------------------------------------------ one command

  /** A response that send_cmd tries again after. */
  predicate Rejected(a: ByteSeq) { a == [] || Checksum(a) != 0 }

  /** A write response too short to hold a response code. */
  predicate TooShort(a: ByteSeq)
    requires a != []
  {
    a[0] & 0x80 == 0 && |a| < 3
  }

  /** The responses to one command: the last one ends the attempts, which go on
      while responses are rejected, three times at most. */
  predicate Tried(got: seq<ByteSeq>) {
    && 0 < |got| <= RETRY_COUNT
    && (forall i | 0 <= i < |got| - 1 :: Rejected(got[i]))
    && (Rejected(got[|got| - 1]) ==> |got| == RETRY_COUNT)
  }

  /** What became of a command: no acceptable response, an accepted one, or the
      index error that reading the code of a too short one raises. */
  datatype Outcome = NoAnswer | Answer(response: ByteSeq) | Raised

  function Conclusion(got: seq<ByteSeq>): Outcome
    requires got != []
  {
    var last := got[|got| - 1];
    if Rejected(last) then NoAnswer else if TooShort(last) then Raised else Answer(last)
  }

  /** Rejected responses, and none more than there may be. */
  predicate AllRejected(got: seq<ByteSeq>) { |got| <= RETRY_COUNT && forall i | 0 <= i < |got| :: Rejected(got[i]) }

  lemma NoneRejected()
    ensures AllRejected([])
  {
  }

  lemma OneMore(got: seq<ByteSeq>, response: ByteSeq)
    requires AllRejected(got) && |got| < RETRY_COUNT
    ensures Rejected(response) ==> AllRejected(got + [response])
    ensures !Rejected(response) ==>
      && Tried(got + [response])
      && Conclusion(got + [response]) == if TooShort(response) then Raised else Answer(response)
  {
    hide Checksum, TooShort;
  }

  lemma AllTried(got: seq<ByteSeq>)
    requires AllRejected(got) && |got| == RETRY_COUNT
    ensures Tried(got) && Conclusion(got) == NoAnswer
  {
    hide Checksum, TooShort;
  }

  /** What one attempt transmits. */
  function Step(frame: ByteSeq, response: ByteSeq): seq<ByteSeq> {
    if response != [] && Checksum(response) != 0 then [frame, Preamble()] else [frame]
  }

  /** What a command transmits, given the responses to its attempts. */
  function Steps(frame: ByteSeq, got: seq<ByteSeq>): seq<ByteSeq> {
    if got == [] then [] else Steps(frame, got[..|got| - 1]) + Step(frame, got[|got| - 1])
  }

  lemma StepsAppend(frame: ByteSeq, got: seq<ByteSeq>, response: ByteSeq)
    ensures Steps(frame, got + [response]) == Steps(frame, got) + Step(frame, response)
  {
    assert (got + [response])[..|got|] == got;
    hide Step;
  }

  lemma {:induction false} StepsEntries(frame: ByteSeq, got: seq<ByteSeq>)
    ensures forall e | e in Steps(frame, got) :: e == frame || e == Preamble()
  {
    hide Checksum, Preamble;
    if got != [] {
      StepsEntries(frame, got[..|got| - 1]);
    }
  }

  /** One attempt on the line: the response, which is what Receive makes of the
      bytes that have arrived by its reads, and the line after it. */
  function AttemptOn(arrivals: nat -> ByteSeq, l: LineState): (r: (ByteSeq, LineState)) {
    var k := l.clock;
    var (response, w) := Receive(l.waiting + arrivals(k) + arrivals(k + 1), arrivals(k + 2));
    (response,
     if response != [] && Checksum(response) != 0 then LineState(w + arrivals(k + 3), k + 4) else LineState(w, k + 3))
  }

  /** Consecutive attempts bring these responses and take the line from l to k. */
  predicate Carried(arrivals: nat -> ByteSeq, l: LineState, got: seq<ByteSeq>, k: LineState)
    decreases |got|
  {
    if got == [] then k == l
    else
      var (response, next) := AttemptOn(arrivals, l);
      got[0] == response && Carried(arrivals, next, got[1..], k)
  }

  lemma {:induction false} CarriedBoth(arrivals: nat -> ByteSeq, j: LineState, s: seq<ByteSeq>, k: LineState,
                                       t: seq<ByteSeq>, l: LineState)
    requires Carried(arrivals, j, s, k) && Carried(arrivals, k, t, l)
    ensures Carried(arrivals, j, s + t, l)
    decreases |s|
  {
    hide AttemptOn;
    if s == [] {
      assert s + t == t;
    } else {
      CarriedBoth(arrivals, AttemptOn(arrivals, j).1, s[1..], k, t, l);
      assert (s + t)[1..] == s[1..] + t;
    }
  }

  lemma CarriedNext(arrivals: nat -> ByteSeq, j: LineState, got: seq<ByteSeq>, k: LineState)
    requires Carried(arrivals, j, got, k)
    ensures var (response, l) := AttemptOn(arrivals, k); Carried(arrivals, j, got + [response], l)
  {
    var (response, l) := AttemptOn(arrivals, k);
    assert [response][1..] == [];
    assert Carried(arrivals, k, [response], l);
    hide Carried, AttemptOn;
    CarriedBoth(arrivals, j, got, k, [response], l);
  }

  /** One attempt: what it transmits, and the response. */
  predicate AttemptDone(arrivals: nat -> ByteSeq, t: Traffic, frame: ByteSeq, response: ByteSeq, u: Traffic) {
    && u.sent == t.sent + Step(frame, response) && u.answers == t.answers + [response]
    && (response, u.line) == AttemptOn(arrivals, t.line)
  }

  /** One command, with the responses to its attempts. */
  predicate CommandDone(arrivals: nat -> ByteSeq, t: Traffic, frame: ByteSeq, got: seq<ByteSeq>, u: Traffic) {
    && u.sent == t.sent + Steps(frame, got) && u.answers == t.answers + got
    && Carried(arrivals, t.line, got, u.line)
  }

  lemma NothingDone(arrivals: nat -> ByteSeq, t: Traffic, frame: ByteSeq)
    ensures CommandDone(arrivals, t, frame, [], t)
  {
    assert t.sent + [] == t.sent && t.answers + [] == t.answers;
  }

  lemma AttemptAdded(arrivals: nat -> ByteSeq, s: Traffic, frame: ByteSeq, got: seq<ByteSeq>, t: Traffic,
                     response: ByteSeq, u: Traffic)
    requires CommandDone(arrivals, s, frame, got, t) && AttemptDone(arrivals, t, frame, response, u)
    ensures CommandDone(arrivals, s, frame, got + [response], u)
  {
    hide Step, Steps, Carried, AttemptOn;
    StepsAppend(frame, got, response);
    CarriedNext(arrivals, s.line, got, t.line);
    assert s.sent + Steps(frame, got) + Step(frame, response) == s.sent + (Steps(frame, got) + Step(frame, response));
    assert s.answers + got + [response] == s.answers + (got + [response]);
  }

  class MiconApi {
    const port: Line

    /** A new connection starts with a preamble. */
    constructor (port: Line)
      requires port.Valid()
      modifies port
      ensures this.port == port && port.Valid()
      ensures port.sent == old(port.sent) + [Preamble()] && port.answers == old(port.answers)
    {
      this.port := port;
      new;
      port.Write(Preamble());
    }

    /** One attempt of send_cmd: a transmission, a response, and the preamble
        again if the response does not check. */
    method Attempt(bytes: ByteSeq) returns (response: ByteSeq)
      requires port.Valid()
      modifies port
      ensures port.Valid() && AttemptDone(port.arrivals, old(port.T()), bytes, response, port.T())
    {
      hide Checksum, Receive, Line.Valid;
      port.Write(bytes);
      response := port.GetResponse();
      if response != [] {
        var checksum := CalcChecksum(response);
        if checksum != 0 {
          port.Write(Preamble());
        }
      }
      assert old(port.sent) + [bytes] + [Preamble()] == old(port.sent) + [bytes, Preamble()];
    }

    /** send_cmd: the check byte is appended to the caller's own buffer. */
    method SendCmd(cmd: Buffer) returns (r: Outcome, ghost got: seq<ByteSeq>)
      requires port.Valid()
      modifies cmd, port
      ensures port.Valid() && cmd.bytes == old(cmd.bytes) + [CheckByte(old(cmd.bytes))]
      ensures CommandDone(port.arrivals, old(port.T()), cmd.bytes, got, port.T())
      ensures Tried(got) && r == Conclusion(got)
    {
      var check := CalcCheckByte(cmd.bytes);
      cmd.Append(check);
      var bytes := cmd.bytes;
      hide Checksum, CheckByte, Line.Valid, Line.T, TooShort, CommandDone, AttemptDone, AllRejected, Tried, Conclusion;
      NothingDone(port.arrivals, port.T(), bytes);
      got := [];
      r := NoAnswer;
      NoneRejected();
      for x := 0 to RETRY_COUNT
        invariant port.Valid() && cmd.bytes == bytes
        invariant CommandDone(port.arrivals, old(port.T()), bytes, got, port.T())
        invariant |got| == x && AllRejected(got)
      {
        ghost var before := port.T();
        var response := Attempt(bytes);
        AttemptAdded(port.arrivals, old(port.T()), bytes, got, before, response, port.T());
        OneMore(got, response);
        got := got + [response];
        if response != [] && Checksum(response) == 0 {
          r := if TooShort(response) then Raised else Answer(response);
          return;
        }
      }
      AllTried(got);
    }

    /** The payload of an acceptable answer, byte by byte. */
    method CopyPayload(response: ByteSeq, length: nat) returns (output: ByteSeq)
      requires |response| == length + 3
      ensures output == Payload(response)
    {
      output := [];
      for y := 0 to length
        invariant output == response[2..2 + y]
      {
        output := output + [response[y + 2]];
      }
    }

    /** The checks of send_read_cmd on one response, and the data if it passes. */
    method AcceptRead(response: ByteSeq) returns (ok: bool, output: ByteSeq)
      requires response != [] && !Rejected(response)
      ensures ok == ReadReply(response)
      ensures ok ==> output == Payload(response)
    {
      output := [];
      if response[0] & 0x80 == 0 {
        return false, output;
      }
      WithoutReadBit(response[0]);
      var length := (response[0] ^ 0x80) as nat;
      hide Stated, Rejected;
      if length + 3 != |response| {
        return false, output;
      }
      ok := true;
      output := CopyPayload(response, length);
    }

    /** One outer attempt of send_read_cmd. */
    method ReadOnce(cmd: Buffer) returns (r: ReadResult, ghost got: seq<ByteSeq>)
      requires port.Valid()
      modifies cmd, port
      ensures port.Valid() && cmd.bytes == old(cmd.bytes) + [CheckByte(old(cmd.bytes))]
      ensures CommandDone(port.arrivals, old(port.T()), cmd.bytes, got, port.T())
      ensures Tried(got) && r == Verdict(got)
    {
      hide CheckByte, Line.Valid, Line.T, CommandDone;
      var outcome;
      outcome, got := SendCmd(cmd);
      hide ReadReply, TooShort, Rejected;
      match outcome {
        case NoAnswer => r := Nothing;
        case Raised => r := Crashed;
        case Answer(response) =>
          AnswerAccepted(got);
          var ok, output := AcceptRead(response);
          r := if ok then Value(output) else Nothing;
      }
    }

    /** send_read_cmd: outer attempts until one brings a value or an error, three
        at most; each sends the buffer that the one before left, with one more
        byte. */
    method SendReadCmd(addr: bv8) returns (r: ReadResult, ghost got: seq<seq<ByteSeq>>)
      requires port.Valid()
      modifies port
      ensures port.Valid() && ReadDone(port.arrivals, old(port.T()), ReadFrame(addr), got, port.T())
      ensures ReadTried(got) && r == Verdict(got[|got| - 1])
    {
      var cmd := new Buffer([0x80, addr]);
      ghost var frame := ReadFrame(addr);
      ReadFrameSumsToZero(addr);
      hide Checksum, CheckByte, Line.Valid, Line.T, ReadFrame, Padded, Tried, Verdict, CommandDone, ReadDone;
      NothingRead(port.arrivals, port.T(), frame);
      r, got := Nothing, [];
      for x := 0 to RETRY_COUNT
        invariant port.Valid() && fresh(cmd)
        invariant ReadDone(port.arrivals, old(port.T()), frame, got, port.T())
        invariant cmd.bytes == if x == 0 then [0x80, addr] else Padded(frame, x - 1)
        invariant |got| == x && forall k | 0 <= k < x :: Fruitless(got[k])
        invariant r == Nothing
      {
        if x > 0 {
          NextPadding(frame, x - 1);
        }
        ghost var answers, before := [], port.T();
        r, answers := ReadOnce(cmd);
        OuterAdded(port.arrivals, old(port.T()), frame, got, before, answers, port.T());
        got := got + [answers];
        if r != Nothing {
          return;
        }
      }
    }

    /** send_write_cmd. */
    method SendWriteCmd(length: bv8, addr: bv8, data: ByteSeq) returns (r: Outcome, ghost got: seq<ByteSeq>)
      requires port.Valid()
      modifies port
      ensures port.Valid() && CommandDone(port.arrivals, old(port.T()), Frame(length, addr, data), got, port.T())
      ensures Tried(got) && r == Conclusion(got)
    {
      var cmd := new Buffer([length, addr]);
      hide CheckByte, Line.Valid, Line.T, Tried, Conclusion, CommandDone;
      for i := 0 to |data|
        invariant port.Valid() && fresh(cmd)
        invariant port.T() == old(port.T())
        invariant cmd.bytes == [length, addr] + data[..i]
      {
        cmd.Append(data[i]);
        assert data[..i + 1] == data[..i] + [data[i]];
      }
      assert data[..|data|] == data;
      r, got := SendCmd(cmd);
    }

    /** set_lcd_buffer. */
    method SetLcdBuffer(buffer: bv8, row1: ByteSeq, row2: ByteSeq) returns (ghost got: seq<ByteSeq>)
      requires port.Valid()
      modifies port
      ensures port.Valid() && Tried(got)
      ensures var m := Message(32, buffer, Row(row1) + Row(row2));
        CommandDone(port.arrivals, old(port.T()), Encode(m), got, port.T())
    {
      hide Tried, Conclusion, Line.Valid, Line.T, Frame, CommandDone;
      var outcome;
      outcome, got := SendWriteCmd(32, buffer, Row(row1) + Row(row2));
    }
  }

  // ----------------------------------------------------------------- the display

  /** A row of the display: padded with blanks to 16 characters, and cut there. */
  function Row(text: ByteSeq): (row: ByteSeq)
    ensures |row| == 16
    decreases 16 - |text|
  {
    if |text| >= 16 then text[..16] else Row(text + [0x20])
  }

  /** A row shows its text, as much as fits, and blanks after it. */
  predicate Shows(row: ByteSeq, text: ByteSeq) {
    |row| == 16 && forall i | 0 <= i < 16 :: row[i] == if i < |text| then text[i] else 0x20
  }

  lemma {:induction false} RowShows(text: ByteSeq)
    ensures Shows(Row(text), text)
    decreases 16 - |text|
  {
    if |text| < 16 {
      RowShows(text + [0x20]);
    }
  }

  /** Whatever the texts, the message to the display has the length it states, and
      its two halves show them. */
  lemma LcdMessageValid(buffer: bv8, row1: ByteSeq, row2: ByteSeq)
    ensures var m := Message(32, buffer, Row(row1) + Row(row2));
      m.Valid() && Shows(m.payload[..16], row1) && Shows(m.payload[16..], row2)
  {
    RowShows(row1);
    RowShows(row2);
    hide Row, Shows;
    assert (Row(row1) + Row(row2))[..16] == Row(row1) && (Row(row1) + Row(row2))[16..] == Row(row2);
  }

  // ----------------------------------------------------------- read commands

  function Zeros(k: nat): ByteSeq {
    if k == 0 then [] else Zeros(k - 1) + [0]
  }

  /** The buffer on a repeated send_cmd: its check byte was appended to a frame
      that already summed to zero. */
  function Padded(frame: ByteSeq, k: nat): ByteSeq { frame + Zeros(k) }

  lemma {:induction false} PaddedSumsToZero(frame: ByteSeq, k: nat)
    requires Checksum(frame) == 0
    ensures Checksum(Padded(frame, k)) == 0
  {
    hide Sum;
    if k == 0 {
      assert frame + [] == frame;
    } else {
      PaddedSumsToZero(frame, k - 1);
      assert Padded(frame, k) == Padded(frame, k - 1) + [0];
      SumAppend(Padded(frame, k - 1), 0);
    }
  }

  lemma NextPadding(frame: ByteSeq, k: nat)
    requires Checksum(frame) == 0
    ensures Padded(frame, k) + [CheckByte(Padded(frame, k))] == Padded(frame, k + 1)
  {
    PaddedSumsToZero(frame, k);
    CheckByteOfFrame(Padded(frame, k));
  }

  function ReadFrame(addr: bv8): ByteSeq { Frame(0x80, addr, []) }

  lemma ReadFrameSumsToZero(addr: bv8)
    ensures Checksum(ReadFrame(addr)) == 0
    ensures Padded(ReadFrame(addr), 0) == [0x80, addr] + [CheckByte([0x80, addr])]
  {
    FrameSumsToZero([0x80, addr]);
    assert [0x80, addr] + [] == [0x80, addr];
    hide CheckByte, Checksum;
  }

  /** An acceptable answer to a read: it checks, has the read bit, and its length
      is the one it states. */
  predicate ReadReply(a: ByteSeq) {
    !Rejected(a) && a[0] & 0x80 != 0 && |a| == Stated(a[0]) + 3
  }

  lemma WithoutReadBit(b: bv8)
    requires b & 0x80 != 0
    ensures (b ^ 0x80) as nat == Stated(b)
  {
    SameBits(b);
  }

  lemma SameBits(b: bv8)
    requires b & 0x80 != 0
    ensures b ^ 0x80 == b & 0x7f
  {
  }

  function Payload(a: ByteSeq): ByteSeq
    requires |a| >= 3
  {
    a[2..|a| - 1]
  }

  datatype ReadResult = Value(data: ByteSeq) | Nothing | Crashed

  /** What send_read_cmd makes of the responses of one outer attempt. */
  function Verdict(got: seq<ByteSeq>): ReadResult
    requires got != []
  {
    match Conclusion(got)
    case NoAnswer => Nothing
    case Raised => Crashed
    case Answer(a) => if ReadReply(a) then Value(Payload(a)) else Nothing
  }

  lemma AnswerAccepted(got: seq<ByteSeq>)
    requires got != [] && Conclusion(got).Answer?
    ensures var a := Conclusion(got).response; a != [] && !Rejected(a)
  {
    hide Checksum, TooShort;
  }

  /** The responses to a read, one sequence for each outer attempt: one that does
      not bring a value or an error is followed by another, three times at most. */
  predicate ReadTried(got: seq<seq<ByteSeq>>) {
    && 0 < |got| <= RETRY_COUNT
    && (forall k | 0 <= k < |got| :: Tried(got[k]))
    && (forall k | 0 <= k < |got| - 1 :: Fruitless(got[k]))
    && (Fruitless(got[|got| - 1]) ==> |got| == RETRY_COUNT)
  }

  predicate Fruitless(got: seq<ByteSeq>) { Tried(got) && Verdict(got) == Nothing }

  /** What a read transmits: outer attempt k sends the frame followed by k zeros. */
  function ReadSteps(frame: ByteSeq, got: seq<seq<ByteSeq>>): seq<ByteSeq> {
    if got == [] then []
    else
      var k := |got| - 1;
      ReadSteps(frame, got[..k]) + Steps(Padded(frame, k), got[k])
  }

  function Joined(got: seq<seq<ByteSeq>>): seq<ByteSeq> {
    if got == [] then [] else Joined(got[..|got| - 1]) + got[|got| - 1]
  }

  lemma ReadStepsAppend(frame: ByteSeq, got: seq<seq<ByteSeq>>, answers: seq<ByteSeq>)
    ensures ReadSteps(frame, got + [answers]) == ReadSteps(frame, got) + Steps(Padded(frame, |got|), answers)
    ensures Joined(got + [answers]) == Joined(got) + answers
  {
    assert (got + [answers])[..|got|] == got;
    hide Steps, Padded;
  }

  /** One read, with the responses to its outer attempts. */
  predicate ReadDone(arrivals: nat -> ByteSeq, t: Traffic, frame: ByteSeq, got: seq<seq<ByteSeq>>, u: Traffic) {
    && u.sent == t.sent + ReadSteps(frame, got) && u.answers == t.answers + Joined(got)
    && Carried(arrivals, t.line, Joined(got), u.line)
  }

  lemma NothingRead(arrivals: nat -> ByteSeq, t: Traffic, frame: ByteSeq)
    ensures ReadDone(arrivals, t, frame, [], t)
  {
    assert t.sent + [] == t.sent && t.answers + [] == t.answers;
  }

  lemma OuterAdded(arrivals: nat -> ByteSeq, s: Traffic, frame: ByteSeq, got: seq<seq<ByteSeq>>, t: Traffic,
                   answers: seq<ByteSeq>, u: Traffic)
    requires ReadDone(arrivals, s, frame, got, t)
    requires CommandDone(arrivals, t, Padded(frame, |got|), answers, u)
    ensures ReadDone(arrivals, s, frame, got + [answers], u)
  {
    hide Steps, ReadSteps, Joined, Carried, Padded;
    ReadStepsAppend(frame, got, answers);
    CarriedBoth(arrivals, s.line, Joined(got), t.line, answers, u.line);
    var more := Steps(Padded(frame, |got|), answers);
    assert s.sent + ReadSteps(frame, got) + more == s.sent + (ReadSteps(frame, got) + more);
    assert s.answers + Joined(got) + answers == s.answers + (Joined(got) + answers);
  }

  // ------------------------------------------------ how much is transmitted

  /** The responses that came but did not sum to zero. */
  function Garbled(got: seq<ByteSeq>): nat {
    if got == [] then 0
    else
      var last := got[|got| - 1];
      Garbled(got[..|got| - 1]) + if |last| > 0 && Sum(last) % 256 > 0 then 1 else 0
  }

  lemma PreambleBytes()
    ensures |Preamble()| == 32 && forall i | 0 <= i < 32 :: Preamble()[i] == 0xff
  {
    hide Ones;
    OnesAre(32, 0);
    forall i | 0 <= i < 32
      ensures Preamble()[i] == 0xff
    {
      OnesAre(32, i);
    }
  }

  lemma {:induction false} OnesAre(n: nat, i: nat)
    requires i < n
    ensures |Ones(n)| == n && Ones(n)[i] == 0xff
  {
    if n > 1 {
      OnesAre(n - 1, if i < n - 1 then i else 0);
    }
  }

  /** A command transmits its frame once for each response, and 32 bytes of ones
      after each that came but did not sum to zero, and nothing else: not after a
      good one, nor after none. */
  lemma {:induction false} TransmissionsCounted(frame: ByteSeq, got: seq<ByteSeq>)
    ensures |Steps(frame, got)| == |got| + Garbled(got)
    ensures got != [] ==>
      var last, n := got[|got| - 1], |Steps(frame, got)|;
      var again := |last| > 0 && Sum(last) % 256 > 0;
      Steps(frame, got)[n - if again then 2 else 1] == frame && (again ==> Steps(frame, got)[n - 1] == Preamble())
  {
    hide Preamble, Sum;
    if got != [] {
      TransmissionsCounted(frame, got[..|got| - 1]);
    }
  }

  /** What becomes of a command: it has no answer if the last of three responses is
      empty or does not sum to zero; the last response raises an error if it has no
      read bit and no third byte, and is the answer otherwise; every response
      before it was empty or did not sum to zero. */
  lemma CommandOutcome(got: seq<ByteSeq>)
    requires Tried(got)
    ensures forall i | 0 <= i < |got| - 1 :: got[i] == [] || Sum(got[i]) % 256 != 0
    ensures var last := got[|got| - 1];
      Conclusion(got) ==
        if last == [] || Sum(last) % 256 != 0 then NoAnswer
        else if last[0] < 0x80 && |last| <= 2 then Raised
        else Answer(last)
    ensures Conclusion(got) == NoAnswer ==> |got| == 3
  {
    hide Sum;
    var last := got[|got| - 1];
    if last != [] {
      ReadBit(last[0]);
    }
  }

  lemma ReadBit(b: bv8)
    ensures b & 0x80 == 0 <==> b < 0x80
  {
  }

  /** Transmissions other than the preamble. */
  function Commands(sent: seq<ByteSeq>): nat {
    if sent == [] then 0
    else Commands(sent[..|sent| - 1]) + if sent[|sent| - 1] == Preamble() then 0 else 1
  }

  lemma {:induction false} CommandsAppend(s: seq<ByteSeq>, e: ByteSeq)
    ensures Commands(s + [e]) == Commands(s) + if e == Preamble() then 0 else 1
  {
    assert (s + [e])[..|s|] == s;
  }

  lemma {:induction false} CommandsConcat(s: seq<ByteSeq>, t: seq<ByteSeq>)
    ensures Commands(s + t) == Commands(s) + Commands(t)
    decreases |t|
  {
    if t == [] {
      assert s + t == s;
    } else {
      var n := |t| - 1;
      assert s + t == (s + t[..n]) + [t[n]] && t == t[..n] + [t[n]];
      CommandsConcat(s, t[..n]);
      CommandsAppend(s + t[..n], t[n]);
      CommandsAppend(t[..n], t[n]);
    }
  }

  /** A frame that sums to zero is not the preamble. */
  lemma NotPreamble(s: ByteSeq)
    requires Checksum(s) == 0
    ensures s != Preamble()
  {
    OnesSum(32);
  }

  lemma {:induction false} OnesSum(n: nat)
    ensures Sum(Ones(n)) == 255 * n
  {
    if n > 0 {
      OnesSum(n - 1);
      SumAppend(Ones(n - 1), 0xff);
    }
  }

  lemma OneAttempt(sent: seq<ByteSeq>, frame: ByteSeq, response: ByteSeq)
    requires frame != Preamble()
    ensures Commands(sent + Step(frame, response)) == Commands(sent) + 1
  {
    CommandsAppend(sent, frame);
    CommandsAppend(sent + [frame], Preamble());
    assert sent + [frame] + [Preamble()] == sent + [frame, Preamble()];
  }

  /** A command is transmitted once for each response. */
  lemma {:induction false} CommandsOfSteps(frame: ByteSeq, got: seq<ByteSeq>)
    requires frame != Preamble()
    ensures Commands(Steps(frame, got)) == |got|
  {
    hide Step, Preamble;
    if got != [] {
      var n := |got| - 1;
      CommandsOfSteps(frame, got[..n]);
      OneAttempt(Steps(frame, got[..n]), frame, got[n]);
    }
  }

  lemma {:induction false} CommandsOfRead(frame: ByteSeq, got: seq<seq<ByteSeq>>)
    requires Checksum(frame) == 0 && forall k | 0 <= k < |got| :: Tried(got[k])
    ensures Commands(ReadSteps(frame, got)) == |Joined(got)| <= RETRY_COUNT * |got|
  {
    if got != [] {
      hide Steps, Commands, Checksum, Preamble, Padded, Rejected;
      var n := |got| - 1;
      CommandsOfRead(frame, got[..n]);
      PaddedSumsToZero(frame, n);
      NotPreamble(Padded(frame, n));
      CommandsOfSteps(Padded(frame, n), got[n]);
      CommandsConcat(ReadSteps(frame, got[..n]), Steps(Padded(frame, n), got[n]));
    }
  }

  /** A transmission of one of the first n outer attempts. */
  ghost predicate OfAttempt(e: ByteSeq, frame: ByteSeq, n: nat) {
    e == Preamble() || exists k | 0 <= k < n :: e == Padded(frame, k)
  }

  lemma {:induction false} ReadEntries(frame: ByteSeq, got: seq<seq<ByteSeq>>)
    ensures forall e | e in ReadSteps(frame, got) :: OfAttempt(e, frame, |got|)
  {
    if got != [] {
      hide Steps, Preamble, Padded;
      var n := |got| - 1;
      ReadEntries(frame, got[..n]);
      StepsEntries(Padded(frame, n), got[n]);
      forall e | e in ReadSteps(frame, got)
        ensures OfAttempt(e, frame, n + 1)
      {
        if e in ReadSteps(frame, got[..n]) {
          assert OfAttempt(e, frame, n);
        }
      }
    }
  }

  /** A read sends at most nine command frames, one for each response; each is the
      frame with the zeros of its outer attempt, at most two, and sums to zero. */
  lemma NineFrames(addr: bv8, got: seq<seq<ByteSeq>>)
    requires ReadTried(got)
    ensures var sent := ReadSteps(ReadFrame(addr), got);
      && Commands(sent) == |Joined(got)| <= 9
      && forall e | e in sent :: OfAttempt(e, ReadFrame(addr), |got|) && (e == Preamble() || Checksum(e) == 0)
  {
    ReadFrameSumsToZero(addr);
    CommandsOfRead(ReadFrame(addr), got);
    ReadEntries(ReadFrame(addr), got);
    hide Commands, Checksum, Preamble, Padded, ReadFrame, ReadSteps, Tried, Fruitless;
    forall e | e in ReadSteps(ReadFrame(addr), got) && e != Preamble()
      ensures Checksum(e) == 0
    {
      assert OfAttempt(e, ReadFrame(addr), |got|);
      var k :| 0 <= k < |got| && e == Padded(ReadFrame(addr), k);
      PaddedSumsToZero(ReadFrame(addr), k);
    }
  }

  lemma TriedReply(got: seq<ByteSeq>, i: nat)
    requires Tried(got) && i < |got| && ReadReply(got[i])
    ensures i == |got| - 1 && Verdict(got) == Value(Payload(got[i]))
  {
    hide Checksum, Stated;
  }

  /** The data that a read returns are the payload of an acceptable reply, which is
      the only one among all its responses, and the last; without such a reply it
      returns no data. */
  lemma ReadData(got: seq<seq<ByteSeq>>, k: nat, i: nat)
    requires ReadTried(got) && k < |got| && i < |got[k]|
    ensures ReadReply(got[k][i]) ==>
      k == |got| - 1 && i == |got[k]| - 1 && Verdict(got[k]) == Value(Payload(got[k][i]))
    ensures var last := got[|got| - 1];
      Verdict(last).Value? ==> ReadReply(last[|last| - 1])
  {
    hide ReadReply, Rejected;
    if ReadReply(got[k][i]) {
      TriedReply(got[k], i);
    }
  }

  /** And it raises an error exactly when its very last response checks but has
      neither a read bit nor a third byte, and gives up only after three attempts
      that brought neither data nor an error. */
  lemma ReadOutcome(got: seq<seq<ByteSeq>>)
    requires ReadTried(got)
    ensures got[|got| - 1] != []
    ensures var last := got[|got| - 1];
      var a := last[|last| - 1];
      && (Verdict(last) == Crashed <==> a != [] && Sum(a) % 256 == 0 && a[0] < 0x80 && |a| <= 2)
      && (Verdict(last) == Nothing ==> |got| == 3)
  {
    hide Sum, ReadReply, Rejected, TooShort;
    assert Tried(got[|got| - 1]);
    CommandOutcome(got[|got| - 1]);
  }
}
