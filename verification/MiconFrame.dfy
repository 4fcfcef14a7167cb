/** Frames of the Micon serial protocol: the check byte, the checksum, and the
    length-prefixed cutting of a byte stream into responses. */
module MiconFrame {
  import opened Bytes

  type ByteSeq = seq<bv8>

  // ------------------------------------------------------------ check bytes

  /** The accumulator of calc_check_byte, reduced at every byte. */
  function RunningSum(s: ByteSeq): (r: nat)
    ensures r < 256
  {
    if s == [] then 0 else (RunningSum(s[..|s| - 1]) + s[|s| - 1] as nat) % 256
  }

  /** The two's complement of the sum. */
  function CheckByte(s: ByteSeq): bv8 { ByteOf(((ByteOf(RunningSum(s)) ^ 0xff) as nat + 1) % 256) }

  /** The accumulator of calc_checksum, reduced once at the end. */
  function Sum(s: ByteSeq): nat {
    if s == [] then 0 else Sum(s[..|s| - 1]) + s[|s| - 1] as nat
  }

  function Checksum(s: ByteSeq): (c: nat)
    ensures c < 256
  {
    Sum(s) % 256
  }

  method CalcCheckByte(input: ByteSeq) returns (checkbyte: bv8)
    ensures checkbyte == CheckByte(input)
  {
    var acc: nat := 0;
    for i := 0 to |input|
      invariant acc == RunningSum(input[..i])
    {
      assert input[..i + 1][..i] == input[..i];
      acc := acc + input[i] as nat;
      acc := acc % 256;
    }
    assert input[..|input|] == input;
    acc := (ByteOf(acc) ^ 0xff) as nat;
    acc := acc + 1;
    acc := acc % 256;
    checkbyte := ByteOf(acc);
  }

  method CalcChecksum(input: ByteSeq) returns (checksum: nat)
    ensures checksum == Checksum(input)
  {
    checksum := 0;
    for i := 0 to |input|
      invariant checksum == Sum(input[..i])
    {
      assert input[..i + 1][..i] == input[..i];
      checksum := checksum + input[i] as nat;
    }
    assert input[..|input|] == input;
    checksum := checksum % 256;
  }

  lemma Complement(a: bv8)
    ensures (a ^ 0xff) as nat == 255 - a as nat
  {
  }

  lemma ReducedFirst(a: nat, b: nat)
    ensures (a % 256 + b) % 256 == (a + b) % 256
  {
    assert a == 256 * (a / 256) + a % 256;
  }

  /** Reducing at every step and reducing at the end agree. */
  lemma {:induction false} RunningSumIsSum(s: ByteSeq)
    ensures RunningSum(s) == Checksum(s)
  {
    if s != [] {
      var t, b := s[..|s| - 1], s[|s| - 1];
      RunningSumIsSum(t);
      ReducedFirst(Sum(t), b as nat);
    }
  }

  lemma {:induction false} SumAppend(s: ByteSeq, b: bv8)
    ensures Sum(s + [b]) == Sum(s) + b as nat
  {
    assert (s + [b])[..|s|] == s;
  }

  lemma {:induction false} SumConcat(s: ByteSeq, t: ByteSeq)
    ensures Sum(s + t) == Sum(s) + Sum(t)
    decreases |t|
  {
    if t == [] {
      assert s + t == s;
    } else {
      var n := |t| - 1;
      SumConcat(s, t[..n]);
      assert (s + t)[..|s + t| - 1] == s + t[..n];
    }
  }

  lemma CheckByteValue(s: ByteSeq)
    ensures CheckByte(s) as nat == (256 - Checksum(s)) % 256
  {
    RunningSumIsSum(s);
    Complement(ByteOf(RunningSum(s)));
    hide ByteOf, RunningSum, Checksum;
  }

  lemma Opposite(n: nat, c: nat)
    requires c == (256 - n % 256) % 256
    ensures (n + c) % 256 == 0
  {
    assert n == 256 * (n / 256) + n % 256;
    if n % 256 == 0 {
    } else {
      assert n + c == 256 * (n / 256 + 1);
    }
  }

  /** The check byte makes every frame sum to zero, whatever its payload. */
  lemma FrameSumsToZero(s: ByteSeq)
    ensures Checksum(s + [CheckByte(s)]) == 0
  {
    hide CheckByte, Sum;
    CheckByteValue(s);
    SumAppend(s, CheckByte(s));
    Opposite(Sum(s), CheckByte(s) as nat);
  }

  /** Appending the check byte again appends a zero. */
  lemma CheckByteOfFrame(s: ByteSeq)
    requires Checksum(s) == 0
    ensures CheckByte(s) == 0
  {
    CheckByteValue(s);
    ZeroByte(CheckByte(s));
    hide CheckByte;
  }

  lemma ZeroByte(b: bv8)
    ensures b as nat == 0 ==> b == 0
  {
  }

  lemma {:induction false} SumUpdate(s: ByteSeq, i: nat, b: bv8)
    requires i < |s|
    ensures Sum(s[i := b]) == Sum(s) - s[i] as nat + b as nat
  {
    var n := |s| - 1;
    var t := s[i := b];
    if i < n {
      assert t[..n] == s[..n][i := b];
      SumUpdate(s[..n], i, b);
    } else {
      assert t[..n] == s[..n];
    }
  }

  lemma BytesDiffer(a: bv8, b: bv8)
    requires a != b
    ensures a as nat != b as nat
  {
    if a as nat == b as nat {
      ByteInjective(a, b);
    }
  }

  lemma SmallShift(n: nat, x: nat, y: nat)
    requires x <= n && x < 256 && y < 256 && n % 256 == 0 && x != y
    ensures (n - x + y) % 256 != 0
  {
    assert n == 256 * (n / 256);
  }

  lemma {:induction false} EntryInSum(s: ByteSeq, i: nat)
    requires i < |s|
    ensures s[i] as nat <= Sum(s)
  {
    if i < |s| - 1 {
      EntryInSum(s[..|s| - 1], i);
    }
  }

  /** Any change of a single byte is detected. */
  lemma SingleByteChange(s: ByteSeq, i: nat, b: bv8)
    requires i < |s| && Checksum(s) == 0 && b != s[i]
    ensures Checksum(s[i := b]) != 0
  {
    hide Sum;
    SumUpdate(s, i, b);
    EntryInSum(s, i);
    BytesDiffer(s[i], b);
    SmallShift(Sum(s), s[i] as nat, b as nat);
  }

  // ----------------------------------------------------------------- frames

  /** The length that a header byte states. */
  function Stated(header: bv8): (n: nat)
    ensures n < 128
  {
    SevenBits(header);
    (header & 0x7f) as nat
  }

  lemma SevenBits(header: bv8)
    ensures (header & 0x7f) as nat < 128
  {
  }

  /** Header, address, payload and check byte. */
  function Frame(header: bv8, addr: bv8, payload: ByteSeq): ByteSeq {
    var body := [header, addr] + payload;
    body + [CheckByte(body)]
  }

  /** A message whose stated length is its length. */
  datatype Message = Message(header: bv8, addr: bv8, payload: ByteSeq)
  {
    predicate Valid() { |payload| == Stated(header) }
  }

  function Encode(m: Message): ByteSeq { Frame(m.header, m.addr, m.payload) }

  /** What get_response takes from the bytes that are there: one byte, then as
      many as it announces, or up to 32 if there is none. */
  function Cut(stream: ByteSeq): (r: (ByteSeq, ByteSeq))
    ensures r.0 + r.1 == stream
  {
    var n := if stream == [] then 32 else 1 + Stated(stream[0]) + 2;
    if n <= |stream| then (stream[..n], stream[n..]) else (stream, [])
  }

  /** One frame in front of other bytes is cut off exactly. */
  lemma CutFrame(m: Message, rest: ByteSeq)
    requires m.Valid()
    ensures Cut(Encode(m) + rest) == (Encode(m), rest)
  {
    var f := Encode(m);
    assert (f + rest)[0] == m.header && |f| == 3 + Stated(m.header);
    assert (f + rest)[..|f|] == f && (f + rest)[|f|..] == rest;
    hide Stated, CheckByte;
  }

  function Stream(ms: seq<Message>): ByteSeq {
    if ms == [] then [] else Encode(ms[0]) + Stream(ms[1..])
  }

  /** Reading a stream by the rule of get_response, n times. */
  function Responses(stream: ByteSeq, n: nat): (r: (seq<ByteSeq>, ByteSeq))
    decreases n
  {
    if n == 0 then ([], stream)
    else
      var (first, rest) := Cut(stream);
      var (others, left) := Responses(rest, n - 1);
      ([first] + others, left)
  }

  function Encoded(ms: seq<Message>): seq<ByteSeq> {
    if ms == [] then [] else [Encode(ms[0])] + Encoded(ms[1..])
  }

  /** Framing undoes encoding: concatenated frames are read back as exactly those
      frames, and nothing of what follows them is consumed. */
  lemma {:induction false} FramingUndoesEncoding(ms: seq<Message>, rest: ByteSeq)
    requires forall i | 0 <= i < |ms| :: ms[i].Valid()
    ensures Responses(Stream(ms) + rest, |ms|) == (Encoded(ms), rest)
    decreases |ms|
  {
    if ms == [] {
      assert Stream(ms) + rest == rest;
    } else {
      var tail := ms[1..];
      assert Stream(ms) + rest == Encode(ms[0]) + (Stream(tail) + rest);
      CutFrame(ms[0], Stream(tail) + rest);
      FramingUndoesEncoding(tail, rest);
      hide Cut, Encode, Message.Valid;
    }
  }

  /** Every frame read back from such a stream has checksum zero, and the message
      is in it. */
  lemma FrameContents(m: Message)
    requires m.Valid()
    ensures var f := Encode(m);
      && Checksum(f) == 0 && |f| == Stated(f[0]) + 3
      && f[0] == m.header && f[1] == m.addr && f[2..|f| - 1] == m.payload
  {
    FrameSumsToZero([m.header, m.addr] + m.payload);
    hide Stated, CheckByte, Checksum;
  }
}
