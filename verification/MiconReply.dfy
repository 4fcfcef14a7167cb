/** Replies of the Micon that reach send_read_cmd as they were sent, or with one
    byte changed on the way. */
module MiconReply {
  import opened Bytes
  import opened MiconFrame
  import opened MiconLine
  import opened MiconPort

  /** An answer that arrives as it was sent is acceptable, and its payload is what
      is returned. */
  lemma HonestReply(m: Message)
    requires m.Valid() && m.header & 0x80 != 0
    ensures ReadReply(Encode(m)) && Payload(Encode(m)) == m.payload
  {
    FrameContents(m);
    hide Stated, Checksum, Encode;
  }

  /** One in which any single byte but the header was changed on the way is taken
      off the line as it is, and is rejected. */
  lemma CorruptedReply(m: Message, i: nat, b: bv8, rest: ByteSeq)
    requires m.Valid() && 0 < i < |Encode(m)| && b != Encode(m)[i]
    ensures var f := Encode(m)[i := b];
      Cut(f + rest) == (f, rest) && Rejected(f)
  {
    FrameContents(m);
    SingleByteChange(Encode(m), i, b);
    var f := Encode(m)[i := b];
    assert (f + rest)[0] == m.header;
    assert (f + rest)[..|f|] == f && (f + rest)[|f|..] == rest;
    hide Stated, Checksum, Encode;
  }

  /** The address of a reply is never compared with the one asked for: a reply to
      any earlier read that is still waiting when a command is sent is the response
      to it, and a read, whatever its address, returns what that reply carries. */
  lemma StaleReplyTaken(arrivals: nat -> ByteSeq, l: LineState, m: Message)
    requires m.Valid() && m.header & 0x80 != 0 && l.waiting == Encode(m)
    ensures var (response, next) := AttemptOn(arrivals, l);
      && response == Encode(m)
      && next.waiting == arrivals(l.clock) + arrivals(l.clock + 1) + arrivals(l.clock + 2)
      && Tried([response]) && Verdict([response]) == Value(m.payload)
  {
    hide Encode, Checksum, Stated, Receive, Message.Valid;
    HonestReply(m);
    FrameContents(m);
    var k, f := l.clock, Encode(m);
    var there, later := f + arrivals(k) + arrivals(k + 1), arrivals(k + 2);
    var rest := arrivals(k) + arrivals(k + 1) + later;
    assert there + later == f + rest;
    FrameReceived(m, there, later, rest);
    ReceivedAll(there, later);
    var (a, w) := Receive(there, later);
    assert (a + w)[|a|..] == w && (f + rest)[|f|..] == rest;
  }

  // -------------------------------------------------------- a changed header

  /** The number that a byte stands for. */
  function Val(b: bv8): nat { b as nat }

  /** What taking n bytes instead of the frame f adds to the sum. */
  function Gain(f: ByteSeq, rest: ByteSeq, n: nat): int
    requires n <= |f| + |rest|
  {
    if n <= |f| then 0 - Sum(f[n..]) else Sum(rest[..n - |f|])
  }

  /** With a changed header another number of bytes is taken. It passes for a reply
      when it has the read bit, as many bytes are there as it states, and the bytes
      now left out, or now taken in, make up for the change. */
  predicate Misread(m: Message, b: bv8, rest: ByteSeq) {
    var f, n := Encode(m), Stated(b) + 3;
    && b & 0x80 != 0 && n <= |f| + |rest|
    && (Val(b) - Val(m.header) + Gain(f, rest, n)) % 256 == 0
  }

  lemma HeaderUpdate(f: ByteSeq, b: bv8)
    requires f != []
    ensures Sum(f[0 := b]) == Sum(f) - Val(f[0]) + Val(b)
  {
    SumUpdate(f, 0, b);
    hide Sum;
  }

  /** The bytes taken off the line for a changed header, and their sum. */
  lemma ChangedCut(f: ByteSeq, b: bv8, rest: ByteSeq)
    requires f != []
    ensures var a, n := Cut(f[0 := b] + rest).0, Stated(b) + 3;
      && a != [] && a[0] == b
      && (|a| == n <==> n <= |f| + |rest|)
      && (n <= |f| ==> a == f[..n][0 := b])
      && (|f| < n <= |f| + |rest| ==> a == f[0 := b] + rest[..n - |f|])
  {
    var s := f[0 := b] + rest;
    assert s[0] == b;
    hide Stated;
  }

  lemma ChangedSum(f: ByteSeq, b: bv8, rest: ByteSeq)
    requires f != [] && Stated(b) + 3 <= |f| + |rest|
    ensures Sum(Cut(f[0 := b] + rest).0) == Sum(f) + (Val(b) - Val(f[0]) + Gain(f, rest, Stated(b) + 3))
  {
    ChangedCut(f, b, rest);
    hide Sum, Val, Cut;
    var n := Stated(b) + 3;
    hide Stated;
    if n <= |f| {
      HeaderUpdate(f[..n], b);
      SumConcat(f[..n], f[n..]);
      assert f[..n] + f[n..] == f;
    } else {
      HeaderUpdate(f, b);
      SumConcat(f[0 := b], rest[..n - |f|]);
    }
  }

  lemma Congruent(s: int, t: int)
    requires s % 256 == 0
    ensures (s + t) % 256 == 0 <==> t % 256 == 0
  {
    assert s == 256 * (s / 256);
  }

  /** A reply with a changed header is accepted exactly in that case. */
  lemma HeaderChanged(m: Message, b: bv8, rest: ByteSeq)
    requires m.Valid()
    ensures ReadReply(Cut(Encode(m)[0 := b] + rest).0) <==> Misread(m, b, rest)
  {
    FrameContents(m);
    var f, n := Encode(m), Stated(b) + 3;
    ChangedCut(f, b, rest);
    hide Cut, Encode, Sum, Message.Valid, Stated, Val, Gain;
    if n <= |f| + |rest| {
      ChangedSum(f, b, rest);
      Congruent(Sum(f), Val(b) - Val(f[0]) + Gain(f, rest, n));
    }
  }

  lemma ValuesDiffer(b: bv8, c: bv8)
    requires b != c
    ensures Val(b) != Val(c) && Val(b) < 256 && Val(c) < 256
  {
    BytesDiffer(b, c);
  }

  lemma NotMadeUpFor(f: ByteSeq, rest: ByteSeq, x: nat, y: nat)
    requires x != y && x < 256 && y < 256
    ensures (x - y + Gain(f, rest, |f|)) % 256 != 0
  {
    assert f[|f|..] == [] && Sum([]) == 0;
  }

  /** So a changed header that states the same length, or a greater one when no
      other bytes follow, is not accepted. */
  lemma HeaderChangeRejected(m: Message, b: bv8, rest: ByteSeq)
    requires m.Valid() && b != m.header
    requires Stated(b) == Stated(m.header) || (Stated(b) > Stated(m.header) && rest == [])
    ensures !ReadReply(Cut(Encode(m)[0 := b] + rest).0)
  {
    hide ReadReply, Cut, Encode, Stated, Val, Gain;
    FrameContents(m);
    HeaderChanged(m, b, rest);
    ValuesDiffer(b, m.header);
    NotMadeUpFor(Encode(m), rest, Val(b), Val(m.header));
  }

  /** A smaller one can be: for this reply with header 0x82 changed to 0x81, one
      byte less is taken, which happens to check, and data 0x2e are returned. */
  lemma HeaderChangeCanPass()
    ensures var m := Message(0x82, 0x51, [0x2e, 0x00]);
      && m.Valid() && Encode(m) == [0x82, 0x51, 0x2e, 0x00, 0xff]
      && var a := Cut(Encode(m)[0 := 0x81]).0;
         ReadReply(a) && Payload(a) == [0x2e]
  {
    var m := Message(0x82, 0x51, [0x2e, 0x00]);
    SmallSum(0x82);
    SmallSum(0x81);
    var f: ByteSeq := [0x82, 0x51, 0x2e, 0x00, 0xff];
    CheckByteIs([0x82, 0x51, 0x2e, 0x00], 0xff);
    assert [0x82, 0x51] + m.payload == [0x82, 0x51, 0x2e, 0x00];
    assert Encode(m) == [0x82, 0x51, 0x2e, 0x00] + [0xff] == f;
    assert f[0 := 0x81] == [0x81, 0x51, 0x2e, 0x00, 0xff];
    assert Cut(f[0 := 0x81]).0 == [0x81, 0x51, 0x2e, 0x00];
    hide Sum, CheckByte, Encode;
  }

  lemma SmallSum(b: bv8)
    ensures Sum([b, 0x51, 0x2e, 0x00]) == b as nat + 0x7f
  {
    assert Sum([]) == 0;
    SumAppend([], b);
    SumAppend([b], 0x51);
    SumAppend([b, 0x51], 0x2e);
    SumAppend([b, 0x51, 0x2e], 0x00);
    assert [] + [b] == [b] && [b] + [0x51] == [b, 0x51];
    assert [b, 0x51] + [0x2e] == [b, 0x51, 0x2e] && [b, 0x51, 0x2e] + [0x00] == [b, 0x51, 0x2e, 0x00];
    hide Sum;
  }

  lemma CheckByteIs(s: ByteSeq, b: bv8)
    requires b as nat == (256 - Checksum(s)) % 256
    ensures CheckByte(s) == b
  {
    CheckByteValue(s);
    ByteInjective(CheckByte(s), b);
    hide CheckByte, Checksum;
  }
}
