/** The serial line of the Micon: what get_response makes of bytes that arrive in
    any batches, some of them between its two reads. */
module MiconLine {
  import opened MiconFrame

  /** The first n batches from a given one on. */
  function Arrived(arrivals: nat -> ByteSeq, from: nat, n: nat): ByteSeq {
    if n == 0 then [] else Arrived(arrivals, from, n - 1) + arrivals(from + n - 1)
  }

  lemma {:induction false} ArrivedFirst(arrivals: nat -> ByteSeq, from: nat, n: nat)
    ensures Arrived(arrivals, from, n + 2) == arrivals(from) + arrivals(from + 1) + Arrived(arrivals, from + 2, n)
  {
    if n == 0 {
      assert Arrived(arrivals, from, 1) == [] + arrivals(from);
      assert Arrived(arrivals, from, 2) == Arrived(arrivals, from, 1) + arrivals(from + 1);
    } else {
      ArrivedFirst(arrivals, from, n - 1);
      var last := arrivals(from + n + 1);
      assert Arrived(arrivals, from, n + 2) == Arrived(arrivals, from, n + 1) + last;
      assert Arrived(arrivals, from + 2, n) == Arrived(arrivals, from + 2, n - 1) + last;
    }
  }

  /** What a read of the given size takes from the bytes that are there. */
  function Take(size: nat, there: ByteSeq): (r: (ByteSeq, ByteSeq))
    ensures r.0 + r.1 == there
  {
    if size <= |there| then (there[..size], there[size..]) else (there, [])
  }

  /** What get_response takes when some bytes are there at its first read and more
      come before its second: one byte, then as many as it announces, or up to 32
      if there was none. */
  function Receive(there: ByteSeq, later: ByteSeq): (r: (ByteSeq, ByteSeq)) {
    var (a, w) := Take(1, there);
    var (b, x) := Take(if |a| == 1 then Stated(a[0]) + 2 else 32, w + later);
    (a + b, x)
  }

  /** Nothing is lost: what it took and what it left are all there was. */
  lemma ReceivedAll(there: ByteSeq, later: ByteSeq)
    ensures var r := Receive(there, later); r.0 + r.1 == there + later
  {
    hide Stated, Take;
    var (a, w) := Take(1, there);
    var (b, x) := Take(if |a| == 1 then Stated(a[0]) + 2 else 32, w + later);
    assert (a + b) + x == a + (b + x);
    assert a + (w + later) == (a + w) + later;
  }

  /** When all is there at the first read, it cuts the bytes as Cut says. */
  lemma ReceiveIsCut(there: ByteSeq)
    ensures Receive(there, []) == Cut(there)
  {
    hide Stated;
    if there == [] {
      assert there + [] == there;
    } else {
      var n := Stated(there[0]) + 2;
      assert there[1..] + [] == there[1..];
      if n <= |there| - 1 {
        assert there[..1] + there[1..][..n] == there[..1 + n];
        assert there[1..][n..] == there[1 + n..];
      } else {
        assert there[..1] + there[1..] == there;
      }
    }
  }

  // -------------------------------------------------- frames out of batches

  /** The bytes of a frame of f bytes come in time for get_response: the first one
      before its first read and all of them before its second; or all of them in
      between, when it reads up to 32 bytes. */
  predicate InTime(f: nat, there: nat, later: nat) {
    if there > 0 then there + later >= f else (if later < 32 then later else 32) == f
  }

  /** A frame is received exactly when its bytes come in time. */
  lemma FrameReceived(m: Message, there: ByteSeq, later: ByteSeq, rest: ByteSeq)
    requires m.Valid() && there + later <= Encode(m) + rest
    ensures Receive(there, later).0 == Encode(m) <==> InTime(|Encode(m)|, |there|, |later|)
  {
    var f := Encode(m);
    var n := Stated(m.header);
    assert |f| == n + 3 && f[0] == m.header;
    hide Encode, Stated;
    var got := Receive(there, later).0;
    ReceivedAll(there, later);
    assert got <= f + rest by {
      assert got <= there + later;
    }
    if there != [] {
      assert there[0] == (there + later)[0] == m.header;
      var w := there[1..];
      assert |w + later| == |there| + |later| - 1;
      assert |got| == if |w + later| >= n + 2 then n + 3 else |there| + |later|;
    } else {
      assert |[] + later| == |later|;
    }
    if |got| == |f| {
      assert got == (f + rest)[..|f|] == f;
    }
  }

  /** The responses of n calls of get_response, the first one at the given tick,
      and what is left. */
  function Receptions(waiting: ByteSeq, arrivals: nat -> ByteSeq, clock: nat, n: nat): (r: (seq<ByteSeq>, ByteSeq))
    decreases n
  {
    if n == 0 then ([], waiting)
    else
      var (first, rest) := Receive(waiting + arrivals(clock), arrivals(clock + 1));
      var (others, left) := Receptions(rest, arrivals, clock + 2, n - 1);
      ([first] + others, left)
  }

  /** The frames come in time, one after the other. */
  predicate Timely(ms: seq<Message>, waiting: nat, arrivals: nat -> ByteSeq, clock: nat)
    decreases |ms|
  {
    ms == [] ||
    var f, there, later := |Encode(ms[0])|, waiting + |arrivals(clock)|, |arrivals(clock + 1)|;
    InTime(f, there, later) && f <= there + later && Timely(ms[1..], there + later - f, arrivals, clock + 2)
  }

  lemma FirstFrame(m: Message, waiting: ByteSeq, now: ByteSeq, later: ByteSeq, more: ByteSeq, rest: ByteSeq)
    requires m.Valid() && waiting + (now + later + more) == Encode(m) + rest
    ensures var r := Receive(waiting + now, later);
      && (r.0 == Encode(m) <==> InTime(|Encode(m)|, |waiting| + |now|, |later|))
      && (r.0 == Encode(m) ==>
            |Encode(m)| + |r.1| == |waiting| + |now| + |later| && r.1 + more == rest)
  {
    hide Receive, Encode, InTime;
    var all := waiting + now + later;
    assert all + more == Encode(m) + rest;
    FrameReceived(m, waiting + now, later, rest);
    ReceivedAll(waiting + now, later);
    var r := Receive(waiting + now, later);
    if r.0 == Encode(m) {
      assert r.0 + (r.1 + more) == all + more;
      assert (r.0 + (r.1 + more))[|r.0|..] == r.1 + more;
      assert (Encode(m) + rest)[|r.0|..] == rest;
    }
  }

  /** Framing undoes encoding on the line too: when the bytes of some frames and
      what follows them arrive in any batches, as many calls of get_response return
      exactly those frames if and only if each comes in time, and then they leave
      what follows. */
  lemma {:induction false} FramesReceived(ms: seq<Message>, waiting: ByteSeq, arrivals: nat -> ByteSeq, clock: nat,
                                          rest: ByteSeq)
    requires forall i | 0 <= i < |ms| :: ms[i].Valid()
    requires waiting + Arrived(arrivals, clock, 2 * |ms|) == Stream(ms) + rest
    ensures var r := Receptions(waiting, arrivals, clock, |ms|);
      && (r.0 == Encoded(ms) <==> Timely(ms, |waiting|, arrivals, clock))
      && (Timely(ms, |waiting|, arrivals, clock) ==> r.1 == rest)
    decreases |ms|
  {
    if ms == [] {
      assert waiting + [] == waiting && [] + rest == rest;
    } else {
      var tail := ms[1..];
      var now, later := arrivals(clock), arrivals(clock + 1);
      var more := Arrived(arrivals, clock + 2, 2 * |tail|);
      ArrivedFirst(arrivals, clock, 2 * |tail|);
      assert Stream(ms) + rest == Encode(ms[0]) + (Stream(tail) + rest);
      FirstFrame(ms[0], waiting, now, later, more, Stream(tail) + rest);
      var (first, left) := Receive(waiting + now, later);
      hide Receive, Encode, InTime, Stream, Arrived, Message.Valid;
      if first == Encode(ms[0]) {
        FramesReceived(tail, left, arrivals, clock + 2, rest);
        LaterFrames(ms, waiting, arrivals, clock, left);
      } else {
        assert Receptions(waiting, arrivals, clock, |ms|).0[0] == first && Encoded(ms)[0] == Encode(ms[0]);
      }
    }
  }

  lemma LaterFrames(ms: seq<Message>, waiting: ByteSeq, arrivals: nat -> ByteSeq, clock: nat, left: ByteSeq)
    requires ms != [] && Receive(waiting + arrivals(clock), arrivals(clock + 1)) == (Encode(ms[0]), left)
    ensures var r := Receptions(waiting, arrivals, clock, |ms|);
      var s := Receptions(left, arrivals, clock + 2, |ms| - 1);
      (r.0 == Encoded(ms) <==> s.0 == Encoded(ms[1..])) && r.1 == s.1
  {
    hide Receive, Encode;
    var s := Receptions(left, arrivals, clock + 2, |ms| - 1).0;
    var f := [Encode(ms[0])];
    assert (f + s)[1..] == s && (f + Encoded(ms[1..]))[1..] == Encoded(ms[1..]);
  }

  /** What matters of the line for what comes: the bytes not read yet, and the batch
      that arrives next. */
  datatype LineState = LineState(waiting: ByteSeq, clock: nat)

  /** The line, and every transmission and response so far, in order. */
  datatype Traffic = Traffic(line: LineState, sent: seq<ByteSeq>, answers: seq<ByteSeq>)

  /** The serial line. Any bytes whatever may have arrived by the time of each
      operation; a read returns what is there, up to the size asked for. */
  class Line {
    const arrivals: nat -> ByteSeq
    var clock: nat
    var waiting: ByteSeq

    /** Everything read, every transmission, every response, in order. */
    ghost var taken: ByteSeq
    ghost var sent: seq<ByteSeq>
    ghost var answers: seq<ByteSeq>

    /** No byte is lost or duplicated on the driver's side. */
    ghost predicate Valid()
      reads `taken, `waiting, `clock
    {
      taken + waiting == Arrived(arrivals, 0, clock)
    }

    ghost function T(): Traffic
      reads `waiting, `clock, `sent, `answers
    {
      Traffic(LineState(waiting, clock), sent, answers)
    }

    constructor (arrivals: nat -> ByteSeq)
      ensures this.arrivals == arrivals && Valid() && clock == 0 && sent == [] && answers == []
    {
      this.arrivals := arrivals;
      clock, waiting, taken, sent, answers := 0, [], [], [], [];
    }

    method Write(output: ByteSeq)
      requires Valid()
      modifies this
      ensures Valid() && taken == old(taken)
      ensures var line := LineState(old(waiting) + arrivals(old(clock)), old(clock) + 1);
        T() == Traffic(line, old(sent) + [output], old(answers))
    {
      waiting := waiting + arrivals(clock);
      clock := clock + 1;
      sent := sent + [output];
      assert taken + waiting == old(taken + waiting) + arrivals(clock - 1);
    }

    method Read(size: nat) returns (input: ByteSeq)
      requires Valid()
      modifies this
      ensures Valid() && sent == old(sent) && answers == old(answers) && taken == old(taken) + input
      ensures clock == old(clock) + 1
      ensures (input, waiting) == Take(size, old(waiting) + arrivals(old(clock)))
    {
      waiting := waiting + arrivals(clock);
      clock := clock + 1;
      assert taken + waiting == old(taken + waiting) + arrivals(clock - 1);
      var cut := Take(size, waiting);
      input, waiting := cut.0, cut.1;
      taken := taken + input;
      assert taken + waiting == old(taken) + (input + waiting);
    }

    /** get_response. */
    method GetResponse() returns (response: ByteSeq)
      requires Valid()
      modifies this
      ensures Valid() && sent == old(sent) && answers == old(answers) + [response] && taken == old(taken) + response
      ensures clock == old(clock) + 2
      ensures (response, waiting) == Receive(old(waiting) + arrivals(old(clock)), arrivals(old(clock) + 1))
    {
      hide Stated, Take, Valid;
      response := Read(1);
      var length := 32;
      if |response| == 1 {
        length := Stated(response[0]) + 2;
      }
      var rest := Read(length);
      ghost var first := response;
      response := response + rest;
      assert old(taken) + first + rest == old(taken) + response;
      answers := answers + [response];
    }
  }
}
