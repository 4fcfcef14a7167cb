/** Interrupt bookkeeping of the pinctrl-dnv driver: trigger types, enable bits
    and recorded types over whole runs, and what one handler pass dispatches. */
module DnvIrq {
  import opened Words32
  import opened DnvRegs
  import opened DnvSuspend

  const IRQ_TYPE_NONE: bv32 := 0
  const IRQ_TYPE_EDGE_RISING: bv32 := 1
  const IRQ_TYPE_EDGE_FALLING: bv32 := 2
  const IRQ_TYPE_EDGE_BOTH: bv32 := 3
  const IRQ_TYPE_LEVEL_HIGH: bv32 := 4
  const IRQ_TYPE_LEVEL_LOW: bv32 := 8
  const IRQ_TYPE_SENSE_MASK: bv32 := 0xf
  const DNV_RXEVCFG_TRIG_EDGE: bv32 := 0x0200_0000

  /** The recorded types, one per pad. */
  type Types = s: seq<bv32> | |s| == 13 witness seq(13, _ => 0)

  datatype State = State(m: Mmio, types: Types)

  /** The bits of a pad in one of its words. */
  function Field(m: Mmio, t: RegType, p: Pad): bv32 { And(At32(m, t, p), Mask(t, p)) }

  predicate Enabled(m: Mmio, p: Pad) { Field(m, GpeEn, p) != 0 }

  predicate Pending(m: Mmio, p: Pad) { Field(m, GpeSts, p) != 0 }

  // ---------------------------------------------------------- masked writes

  /** A read-modify-write of the bits of a pad. */
  function PutField(m: Mmio, t: RegType, p: Pad, val: bool): Mmio {
    Set32(m, t, p, Put(At32(m, t, p), Mask(t, p), val))
  }

  lemma OtherFieldKept(w: bv32, mask: bv32, k: bv32, val: bool)
    requires And(mask, k) == 0
    ensures And(Put(w, mask, val), k) == And(w, k)
  {
    hide And, Merge, Clear;
    OtherMerged(w, mask, k);
    OtherCleared(w, mask, k);
  }

  /** It changes no bit of another pad and no word of another type. */
  lemma PutFieldKeeps(m: Mmio, t: RegType, p: Pad, val: bool, u: RegType, q: Pad)
    requires (u, q) != (t, p)
    ensures Field(PutField(m, t, p, val), u, q) == Field(m, u, q)
    ensures u != t ==> At32(PutField(m, t, p, val), u, q) == At32(m, u, q)
  {
    hide At32, Set32, Mask, Put, And, Word;
    SetAt(m, t, p, Put(At32(m, t, p), Mask(t, p), val), u, q);
    if u != t {
      WordsApart(t, p, u, q);
    } else if Word(u, q) == Word(t, p) {
      SameWord(m, t, p, q);
      MasksApart(t, p, q);
      OtherFieldKept(At32(m, t, p), Mask(t, p), Mask(t, q), val);
    }
  }

  lemma SameWord(m: Mmio, t: RegType, p: Pad, q: Pad)
    requires Word(t, p) == Word(t, q)
    ensures At32(m, t, p) == At32(m, t, q)
  {
    hide Word;
  }

  lemma WordsApart(t: RegType, p: Pad, u: RegType, q: Pad)
    requires t != u
    ensures Word(t, p) != Word(u, q)
  {
    TypesApart(t, p, u, q);
    hide PadOffset, WordOffset, InC5;
  }

  lemma OneFieldBit(p: Pad)
    ensures Mask(GpeEn, p) != 0 && Mask(GpeSts, p) != 0
  {
    ShiftsFit(p);
    OneShifted(GPE_BIT[p]);
  }

  lemma OneShifted(a: bv8)
    requires a < 32
    ensures (1 as bv32) << a != 0
  {
  }

  lemma PutFieldOwn(m: Mmio, p: Pad, val: bool)
    ensures Enabled(PutField(m, GpeEn, p, val), p) == val
  {
    OneFieldBit(p);
    hide At32, Set32, Mask, Put, And, Word;
    SetAt(m, GpeEn, p, Put(At32(m, GpeEn, p), Mask(GpeEn, p), val), GpeEn, p);
    OwnMask(At32(m, GpeEn, p), Mask(GpeEn, p), val);
  }

  /** A change of one configuration word changes no pad's bits and no other word. */
  lemma ConfigKeeps(m: Mmio, p: Pad, v: bv32, u: RegType, q: Pad)
    requires (u, q) != (Dw0, p)
    ensures At32(Set32(m, Dw0, p, v), u, q) == At32(m, u, q)
  {
    SetAt(m, Dw0, p, v, u, q);
    ConfigApart(Dw0, p, u, q);
    hide At32, Set32, Word;
  }

  // ---------------------------------------------------------- the operations

  /** Bits of a status word are cleared by writing ones. */
  function WriteSts(m: Mmio, p: Pad, v: bv32): Mmio { Set32(m, GpeSts, p, Clear(At32(m, GpeSts, p), v)) }

  /** dnv_gpio_clear_triggering, on a pad. */
  function ClearTriggering(m: Mmio, p: Pad): Mmio {
    var a := Set32(m, Dw0, p, Clear(At32(m, Dw0, p), DNV_GPIROUTSCI));
    var b := PutField(a, GpeEn, p, false);
    WriteSts(b, p, Merge(At32(b, GpeSts, p), Mask(GpeSts, p)))
  }

  predicate Senses(type_: bv32) { And(type_, IRQ_TYPE_SENSE_MASK) != 0 }

  predicate Known(type_: bv32) {
    type_ in {IRQ_TYPE_EDGE_RISING, IRQ_TYPE_EDGE_FALLING, IRQ_TYPE_EDGE_BOTH, IRQ_TYPE_LEVEL_HIGH, IRQ_TYPE_LEVEL_LOW}
  }

  /** The configuration word for a trigger type; edges trigger on bit 25, and the
      receiver is inverted for the falling edge and the low level. */
  function NewConfig(dw0: bv32, type_: bv32): bv32 {
    var c := Clear(dw0, DNV_GPIROUT_MASK | DNV_RXEVCFG_MASK);
    var r := Merge(c, DNV_GPIROUTSCI);
    if !Senses(type_) then c
    else if type_ == IRQ_TYPE_EDGE_RISING then Clear(Merge(r, DNV_RXEVCFG_TRIG_EDGE), DNV_RXINV)
    else if type_ == IRQ_TYPE_EDGE_FALLING then Merge(Merge(r, DNV_RXEVCFG_TRIG_EDGE), DNV_RXINV)
    else if type_ == IRQ_TYPE_EDGE_BOTH then Flip(Merge(r, DNV_RXEVCFG_TRIG_EDGE), DNV_RXINV)
    else if type_ == IRQ_TYPE_LEVEL_HIGH then Clear(r, DNV_RXINV)
    else Merge(r, DNV_RXINV)
  }

  /** The two ownership writes that every set_type makes. */
  function TakeOwnership(m: Mmio, p: Pad): Mmio { PutField(PutField(m, PadOwn, p, false), HostOwn, p, false) }

  /** dnv_irq_set_type: an unknown sense is refused, after the ownership writes. */
  predicate Accepts(type_: bv32) { Senses(type_) ==> Known(type_) }

  function SetType(s: State, p: Pad, type_: bv32): State {
    var a := TakeOwnership(s.m, p);
    if !Accepts(type_) then State(a, s.types)
    else
      var b := Set32(a, Dw0, p, NewConfig(At32(a, Dw0, p), type_));
      State(PutField(b, GpeEn, p, Senses(type_)), s.types[p := type_])
  }

  function Inverted(dw0: bv32): bv32 { Flip(dw0, DNV_RXINV) }

  /** dnv_irq_ack: only the pad's own status bit is cleared. */
  function Ack(s: State, p: Pad): State {
    if !Pending(s.m, p) then s
    else
      var a := if s.types[p] == IRQ_TYPE_EDGE_BOTH then Set32(s.m, Dw0, p, Inverted(At32(s.m, Dw0, p))) else s.m;
      State(WriteSts(a, p, Mask(GpeSts, p)), s.types)
  }

  // ------------------------------------------------------- what each one keeps

  lemma StsKeeps(m: Mmio, p: Pad, v: bv32, u: RegType, q: Pad)
    requires u != GpeSts
    ensures At32(WriteSts(m, p, v), u, q) == At32(m, u, q)
  {
    SetAt(m, GpeSts, p, Clear(At32(m, GpeSts, p), v), u, q);
    WordsApart(GpeSts, p, u, q);
    hide At32, Set32, Word;
  }

  lemma ClearedEnable(m: Mmio, p: Pad, q: Pad)
    ensures Enabled(ClearTriggering(m, p), q) == (q != p && Enabled(m, q))
  {
    hide At32, Set32, Mask, And, Merge, Clear, PutField, WriteSts;
    var a := Set32(m, Dw0, p, Clear(At32(m, Dw0, p), DNV_GPIROUTSCI));
    var b := PutField(a, GpeEn, p, false);
    StsKeeps(b, p, Merge(At32(b, GpeSts, p), Mask(GpeSts, p)), GpeEn, q);
    ConfigKeeps(m, p, Clear(At32(m, Dw0, p), DNV_GPIROUTSCI), GpeEn, q);
    if q == p {
      PutFieldOwn(a, p, false);
    } else {
      PutFieldKeeps(a, GpeEn, p, false, GpeEn, q);
    }
  }

  lemma OwnershipKeeps(m: Mmio, p: Pad, u: RegType, q: Pad)
    requires q != p || (u != PadOwn && u != HostOwn)
    ensures Field(TakeOwnership(m, p), u, q) == Field(m, u, q)
    ensures u != PadOwn && u != HostOwn ==> At32(TakeOwnership(m, p), u, q) == At32(m, u, q)
  {
    hide PutField, Field, At32;
    PutFieldKeeps(m, PadOwn, p, false, u, q);
    PutFieldKeeps(PutField(m, PadOwn, p, false), HostOwn, p, false, u, q);
  }

  /** set_type on one pad changes no other pad's ownership, enable, status, lock
      or configuration bits. */
  lemma SetTypeKeepsOthers(s: State, p: Pad, type_: bv32, u: RegType, q: Pad)
    requires q != p
    ensures var r := SetType(s, p, type_);
      && Field(r.m, u, q) == Field(s.m, u, q)
      && (u == Dw0 || u == Dw1 ==> At32(r.m, u, q) == At32(s.m, u, q))
      && r.types[q] == s.types[q]
  {
    hide PutField, At32, Set32, TakeOwnership, NewConfig, Accepts, Senses, And, Mask;
    OwnershipKeeps(s.m, p, u, q);
    if Accepts(type_) {
      var a := TakeOwnership(s.m, p);
      var v := NewConfig(At32(a, Dw0, p), type_);
      ConfigKeeps(a, p, v, u, q);
      PutFieldKeeps(Set32(a, Dw0, p, v), GpeEn, p, Senses(type_), u, q);
    }
  }

  lemma SetTypeEnable(s: State, p: Pad, type_: bv32)
    ensures Enabled(SetType(s, p, type_).m, p) == if Accepts(type_) then Senses(type_) else Enabled(s.m, p)
  {
    hide PutField, Set32, TakeOwnership, NewConfig, Accepts, Senses, And, Mask;
    if Accepts(type_) {
      var a := TakeOwnership(s.m, p);
      PutFieldOwn(Set32(a, Dw0, p, NewConfig(At32(a, Dw0, p), type_)), p, Senses(type_));
    } else {
      OwnershipKeeps(s.m, p, GpeEn, p);
    }
    hide At32;
  }

  lemma AckKeepsEnable(s: State, p: Pad, q: Pad)
    ensures Enabled(Ack(s, p).m, q) == Enabled(s.m, q)
  {
    hide At32, Set32, Mask, And, WriteSts, Pending, Inverted;
    var v := Inverted(At32(s.m, Dw0, p));
    ConfigKeeps(s.m, p, v, GpeEn, q);
    StsKeeps(s.m, p, Mask(GpeSts, p), GpeEn, q);
    StsKeeps(Set32(s.m, Dw0, p, v), p, Mask(GpeSts, p), GpeEn, q);
  }

  // ---------------------------------------------------------------- pending

  lemma ClearedAll(w: bv32, mask: bv32)
    ensures Clear(w, Merge(w, mask)) == 0
  {
  }

  lemma NothingMasked(mask: bv32)
    ensures And(0, mask) == 0
  {
  }

  /** What freeing a pin costs: the status word is written back with every bit it
      had, so that any other pad of the same word loses its pending interrupt; a
      pad keeps it exactly when its status is in another word. */
  lemma ClearTriggeringPending(m: Mmio, p: Pad, q: Pad)
    ensures Pending(ClearTriggering(m, p), q) == (Pending(m, q) && Word(GpeSts, q) != Word(GpeSts, p))
  {
    hide At32, Set32, Mask, And, Merge, Clear, PutField, Word;
    var v := Clear(At32(m, Dw0, p), DNV_GPIROUTSCI);
    var a := Set32(m, Dw0, p, v);
    var b := PutField(a, GpeEn, p, false);
    ConfigKeeps(m, p, v, GpeSts, q);
    PutFieldKeeps(a, GpeEn, p, false, GpeSts, q);
    var w := At32(b, GpeSts, p);
    SetAt(b, GpeSts, p, Clear(w, Merge(w, Mask(GpeSts, p))), GpeSts, q);
    ClearedAll(w, Mask(GpeSts, p));
    NothingMasked(Mask(GpeSts, q));
  }

  /** For instance, pads 4 and 5 share a status word: in every state, an interrupt
      that becomes pending on pad 5 is lost when pad 4 is freed. */
  lemma FreeingDropsPending(m: Mmio)
    ensures var n := Set32(m, GpeSts, 5, Merge(At32(m, GpeSts, 5), Mask(GpeSts, 5)));
      Pending(n, 5) && !Pending(ClearTriggering(n, 4), 5)
  {
    var w := Merge(At32(m, GpeSts, 5), Mask(GpeSts, 5));
    var n := Set32(m, GpeSts, 5, w);
    assert Word(GpeSts, 4) == Word(GpeSts, 5);
    OneFieldBit(5);
    hide At32, Set32, Mask, And, Merge, Word, ClearTriggering;
    SetAt(m, GpeSts, 5, w, GpeSts, 5);
    OwnMerged(At32(m, GpeSts, 5), Mask(GpeSts, 5));
    ClearTriggeringPending(n, 4, 5);
  }

  lemma OwnSts(w: bv32, mask: bv32)
    ensures And(Clear(w, mask), mask) == 0
  {
  }

  /** Acknowledging a pin clears its own pending interrupt and no other. */
  lemma AckPending(s: State, p: Pad, q: Pad)
    ensures Pending(Ack(s, p).m, q) == (q != p && Pending(s.m, q))
  {
    hide At32, Set32, Mask, And, Clear, Word, Inverted;
    var v := Inverted(At32(s.m, Dw0, p));
    ConfigKeeps(s.m, p, v, GpeSts, q);
    ConfigKeeps(s.m, p, v, GpeSts, p);
    StsPending(s.m, p, q);
    StsPending(Set32(s.m, Dw0, p, v), p, q);
  }

  lemma StsPending(m: Mmio, p: Pad, q: Pad)
    ensures Pending(WriteSts(m, p, Mask(GpeSts, p)), q) == (q != p && Pending(m, q))
  {
    hide At32, Set32, Mask, And, Clear, Word;
    var w := At32(m, GpeSts, p);
    SetAt(m, GpeSts, p, Clear(w, Mask(GpeSts, p)), GpeSts, q);
    OwnSts(w, Mask(GpeSts, p));
    if q != p && Word(GpeSts, q) == Word(GpeSts, p) {
      SameWord(m, GpeSts, p, q);
      MasksApart(GpeSts, p, q);
      OtherCleared(w, Mask(GpeSts, p), Mask(GpeSts, q));
    }
  }

  // ------------------------------------------------------------------- runs

  /** One call, or any change of the registers that leaves the enable bits alone:
      directions and levels of any pin, new pending interrupts, a resume. */
  datatype Event = TypeSet(pad: Pad, type_: bv32) | Free(pad: Pad) | Acknowledge(pad: Pad) | Other(regs: Mmio)

  predicate SameEnables(m: Mmio, n: Mmio) { forall p: Pad | 0 <= p < NPADS :: Enabled(n, p) == Enabled(m, p) }

  /** A resume is such a change. */
  lemma ResumeKeepsEnables(m: Mmio, saved: Saved, skipped: set<nat>)
    ensures SameEnables(m, Resume(m, saved, skipped, NGPIO))
  {
    hide At32, Resume, Mask, And;
    forall p: Pad | 0 <= p < NPADS
      ensures Enabled(Resume(m, saved, skipped, NGPIO), p) == Enabled(m, p)
    {
      ResumedAt(m, saved, skipped, NGPIO, GpeEn, p);
    }
  }

  predicate Possible(s: State, e: Event) { e.Other? ==> SameEnables(s.m, e.regs) }

  function After(s: State, e: Event): State {
    match e
    case TypeSet(p, type_) => SetType(s, p, type_)
    case Free(p) => s.(m := ClearTriggering(s.m, p))
    case Acknowledge(p) => Ack(s, p)
    case Other(n) => s.(m := n)
  }

  predicate Run(s: State, events: seq<Event>)
    decreases |events|
  {
    events == [] || (Possible(s, events[0]) && Run(After(s, events[0]), events[1..]))
  }

  function Final(s: State, events: seq<Event>): State
    requires Run(s, events)
    decreases |events|
  {
    if events == [] then s else Final(After(s, events[0]), events[1..])
  }

  /** The loop of dnv_gpio_irq_init_hw over the first n pads. */
  function InitHw(m: Mmio, n: nat): Mmio
    requires n <= NPADS
  {
    if n == 0 then m else ClearTriggering(InitHw(m, n - 1), n - 1)
  }

  lemma {:induction false} InitDisables(m: Mmio, n: nat, q: Pad)
    requires n <= NPADS
    ensures Enabled(InitHw(m, n), q) == (q >= n && Enabled(m, q))
  {
    hide Enabled, ClearTriggering;
    if n > 0 {
      InitDisables(m, n - 1, q);
      ClearedEnable(InitHw(m, n - 1), n - 1, q);
    }
  }

  /** A pad that is enabled has a recorded type. */
  predicate Recorded(s: State, p: Pad) { Enabled(s.m, p) ==> s.types[p] != IRQ_TYPE_NONE }

  lemma SensesSomething(type_: bv32)
    requires Senses(type_)
    ensures type_ != IRQ_TYPE_NONE
  {
  }

  lemma RecordedAfter(s: State, e: Event, p: Pad)
    requires Possible(s, e) && Recorded(s, p)
    ensures Recorded(After(s, e), p)
  {
    hide Enabled, SetType, ClearTriggering, Senses, Accepts;
    match e
    case TypeSet(q, type_) =>
      if p == q {
        SetTypeEnable(s, q, type_);
        SetTypeTypes(s, q, type_);
        if Senses(type_) {
          SensesSomething(type_);
        }
      } else {
        SetTypeKeepsOthers(s, q, type_, GpeEn, p);
        SameEnable(s.m, SetType(s, q, type_).m, p);
      }
    case Free(q) => ClearedEnable(s.m, q, p);
    case Acknowledge(q) => AckKeepsEnable(s, q, p);
    case Other(_) =>
  }

  lemma SameEnable(m: Mmio, n: Mmio, p: Pad)
    requires Field(n, GpeEn, p) == Field(m, GpeEn, p)
    ensures Enabled(n, p) == Enabled(m, p)
  {
  }

  lemma SetTypeTypes(s: State, p: Pad, type_: bv32)
    ensures SetType(s, p, type_).types == if Accepts(type_) then s.types[p := type_] else s.types
  {
    hide PutField, Set32, TakeOwnership, NewConfig, Accepts, Senses;
  }

  lemma {:induction false} RecordedThroughRun(s: State, events: seq<Event>, p: Pad)
    requires Run(s, events) && Recorded(s, p)
    ensures Recorded(Final(s, events), p)
    decreases |events|
  {
    hide Recorded, After;
    if events != [] {
      RecordedAfter(s, events[0], p);
      RecordedThroughRun(After(s, events[0]), events[1..], p);
    }
  }

  // ---------------------------------------------------------------- handling

  /** A pad that the handler loop dispatches when its turn comes. */
  predicate Ready(s: State, p: Pad) { s.types[p] != IRQ_TYPE_NONE && Pending(s.m, p) }

  /** What the pads' own handlers do when they are run. */
  type Handlers = h: seq<seq<Event>> | |h| == 13 witness seq(13, _ => [])

  function Perform(s: State, events: seq<Event>): State {
    if events == [] then s else After(Perform(s, events[..|events| - 1]), events[|events| - 1])
  }

  /** The state when the loop of dnv_gpio_irq_handler has come to pad n. */
  function Pass(s: State, h: Handlers, n: nat): State
    requires n <= NPADS
  {
    if n == 0 then s
    else
      var t := Pass(s, h, n - 1);
      if Ready(t, n - 1) then Perform(t, h[n - 1]) else t
  }

  /** The pads that it has dispatched by then, in order. */
  function Dispatched(s: State, h: Handlers, n: nat): seq<nat>
    requires n <= NPADS
  {
    if n == 0 then []
    else Dispatched(s, h, n - 1) + if Ready(Pass(s, h, n - 1), n - 1) then [n - 1] else []
  }

  predicate Ascending(d: seq<nat>, n: nat) {
    && (forall i | 0 <= i < |d| :: d[i] < n)
    && (forall i, j | 0 <= i < j < |d| :: d[i] < d[j])
  }

  lemma AppendAscending(d: seq<nat>, n: nat, tail: seq<nat>)
    requires Ascending(d, n) && (tail == [] || tail == [n])
    ensures Ascending(d + tail, n + 1)
  {
    var e := d + tail;
    assert forall i | 0 <= i < |e| :: e[i] == if i < |d| then d[i] else n;
  }

  lemma {:induction false} DispatchedAscends(s: State, h: Handlers, n: nat)
    requires n <= NPADS
    ensures Ascending(Dispatched(s, h, n), n)
  {
    hide Ready, Pass;
    if n > 0 {
      DispatchedAscends(s, h, n - 1);
      hide Ascending;
      AppendAscending(Dispatched(s, h, n - 1), n - 1, if Ready(Pass(s, h, n - 1), n - 1) then [n - 1] else []);
    }
  }

  lemma {:induction false} DispatchedWhich(s: State, h: Handlers, n: nat, p: Pad)
    requires n <= NPADS
    ensures p in Dispatched(s, h, n) <==> p < n && Ready(Pass(s, h, p), p)
  {
    hide Ready, Pass;
    if n > 0 {
      DispatchedWhich(s, h, n - 1, p);
    }
  }

  /** What a handler may do without taking away the interrupt of pad p: anything
      about other pads but freeing one with the same status word. */
  predicate Spares(e: Event, p: Pad) {
    match e
    case TypeSet(q, _) => q != p
    case Free(q) => Word(GpeSts, q) != Word(GpeSts, p)
    case Acknowledge(q) => q != p
    case Other(n) => Pending(n, p)
  }

  lemma SparedReady(s: State, e: Event, p: Pad)
    requires Ready(s, p) && Spares(e, p)
    ensures Ready(After(s, e), p)
  {
    hide Word, SetType, ClearTriggering, Accepts;
    match e
    case TypeSet(q, type_) =>
      SetTypeKeepsOthers(s, q, type_, GpeSts, p);
      SamePending(s.m, SetType(s, q, type_).m, p);
      hide Pending;
    case Free(q) =>
      ClearTriggeringPending(s.m, q, p);
      hide Pending;
    case Acknowledge(q) =>
      AckPending(s, q, p);
      AckTypes(s, q);
      hide Pending, Ack;
    case Other(_) => hide Pending;
  }

  lemma SamePending(m: Mmio, n: Mmio, p: Pad)
    requires Field(n, GpeSts, p) == Field(m, GpeSts, p)
    ensures Pending(n, p) == Pending(m, p)
  {
  }

  lemma AckTypes(s: State, p: Pad)
    ensures Ack(s, p).types == s.types
  {
    hide Pending, Set32, WriteSts;
  }

  lemma {:induction false} PerformedReady(s: State, events: seq<Event>, p: Pad)
    requires Ready(s, p) && forall e | e in events :: Spares(e, p)
    ensures Ready(Perform(s, events), p)
  {
    hide Ready, After, Spares;
    if events != [] {
      var n := |events| - 1;
      PerformedReady(s, events[..n], p);
      assert events[n] in events;
      SparedReady(Perform(s, events[..n]), events[n], p);
    }
  }

  /** The handlers of the pads before p spare it. */
  predicate AllSpare(h: Handlers, n: nat, p: Pad)
    requires n <= NPADS
  {
    forall q, e | 0 <= q < n && e in h[q] :: Spares(e, p)
  }

  lemma {:induction false} PassedReady(s: State, h: Handlers, n: nat, p: Pad)
    requires n <= NPADS && Ready(s, p) && AllSpare(h, n, p)
    ensures Ready(Pass(s, h, n), p)
  {
    hide Ready, Perform, Spares;
    if n > 0 {
      PassedReady(s, h, n - 1, p);
      PerformedReady(Pass(s, h, n - 1), h[n - 1], p);
    }
  }

  /** Interrupt bookkeeping: after the initialisation of a new driver and any run,
      one handler pass dispatches every enabled pending pad exactly once, if the
      handlers run before its turn spare it, and in ascending order; it dispatches
      only pads that are pending and have a recorded type when their turn comes. */
  lemma EveryInterruptHandledOnce(m: Mmio, types: Types, events: seq<Event>, h: Handlers, p: Pad)
    requires Run(State(InitHw(m, NPADS), types), events)
    ensures var f := Final(State(InitHw(m, NPADS), types), events);
      var d := Dispatched(f, h, NPADS);
      && (Enabled(f.m, p) ==> f.types[p] != IRQ_TYPE_NONE)
      && (Enabled(f.m, p) && Pending(f.m, p) && AllSpare(h, p, p) ==> exists i :: 0 <= i < |d| && d[i] == p)
      && (p in d <==> Ready(Pass(f, h, p), p))
      && (forall i, j | 0 <= i < j < |d| :: d[i] < d[j])
  {
    var s := State(InitHw(m, NPADS), types);
    InitDisables(m, NPADS, p);
    assert Recorded(s, p);
    hide Enabled, Pending, Final, Run, InitHw, Pass, Spares;
    RecordedThroughRun(s, events, p);
    var f := Final(s, events);
    DispatchedWhich(f, h, NPADS, p);
    DispatchedAscends(f, h, NPADS);
    if Enabled(f.m, p) && Pending(f.m, p) && AllSpare(h, p, p) {
      PassedReady(f, h, p, p);
    }
  }
}
