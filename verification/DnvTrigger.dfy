/** What a pad of the pinctrl-dnv driver interrupts on, by the bits of its
    configuration word, and what set_type, acknowledging and freeing make of it. */
module DnvTrigger {
  import opened Words32
  import opened DnvRegs
  import opened DnvSuspend
  import opened DnvIrq

  /** What reaches the interrupt line. */
  datatype Trigger = Nothing | Edge(rising: bool) | Level(high: bool)

  /** Bit 19 routes a pad to the interrupt, bits 17, 18 and 20 elsewhere; bits 25 and
      26 are the trigger, where 1 is an edge and 0 a level; bit 23 inverts what the
      receiver sees. */
  function TriggerOf(w: bv32): Trigger {
    if !BitAt(w, 19) || BitAt(w, 17) || BitAt(w, 18) || BitAt(w, 20) || BitAt(w, 26) then Nothing
    else if BitAt(w, 25) then Edge(!BitAt(w, 23))
    else Level(!BitAt(w, 23))
  }

  predicate Unrouted(w: bv32) { !BitAt(w, 17) && !BitAt(w, 18) && !BitAt(w, 19) && !BitAt(w, 20) }

  lemma ConfigMasks(i: BitNo)
    ensures BitAt(DNV_GPIROUT_MASK | DNV_RXEVCFG_MASK, i) <==> 17 <= i <= 20 || i == 25 || i == 26
    ensures BitAt(DNV_GPIROUTSCI, i) <==> i == 19
    ensures BitAt(DNV_RXEVCFG_TRIG_EDGE, i) <==> i == 25
    ensures BitAt(DNV_RXINV, i) <==> i == 23
  {
  }

  /** Bit i of the configuration word for a trigger type. */
  lemma ConfigBit(w: bv32, type_: bv32, i: BitNo)
    requires Accepts(type_)
    ensures BitAt(NewConfig(w, type_), i) <==>
      if 17 <= i <= 20 then i == 19 && Senses(type_)
      else if i == 25 then Senses(type_) && type_ <= 3
      else if i == 26 then false
      else if i == 23 && Senses(type_) then type_ == 2 || type_ == 8 || (type_ == 3 && !BitAt(w, 23))
      else BitAt(w, i)
  {
    ConfigMasks(i);
    hide BitAt, And, Merge, Clear, Flip;
    var c := Clear(w, DNV_GPIROUT_MASK | DNV_RXEVCFG_MASK);
    var r := Merge(c, DNV_GPIROUTSCI);
    var e := Merge(r, DNV_RXEVCFG_TRIG_EDGE);
    BitOps(w, DNV_GPIROUT_MASK | DNV_RXEVCFG_MASK, i);
    BitOps(c, DNV_GPIROUTSCI, i);
    BitOps(r, DNV_RXEVCFG_TRIG_EDGE, i);
    BitOps(r, DNV_RXINV, i);
    BitOps(e, DNV_RXINV, i);
  }

  lemma TypesAccepted(type_: bv32)
    ensures Senses(type_) <==> type_ & 0xf != 0
    ensures Accepts(type_) <==> type_ & 0xf == 0 || type_ == 1 || type_ == 2 || type_ == 3 || type_ == 4 || type_ == 8
  {
  }

  /** The configuration word of a pad. */
  function Config(s: State, p: Pad): bv32 { At32(s.m, Dw0, p) }

  lemma TypedConfig(s: State, p: Pad, type_: bv32)
    ensures Config(SetType(s, p, type_), p) == if Accepts(type_) then NewConfig(Config(s, p), type_) else Config(s, p)
  {
    hide PutField, At32, Set32, TakeOwnership, NewConfig, Accepts, Senses, Field, Mask;
    var a := TakeOwnership(s.m, p);
    OwnershipKeeps(s.m, p, Dw0, p);
    if Accepts(type_) {
      var b := Set32(a, Dw0, p, NewConfig(At32(a, Dw0, p), type_));
      SetAt(a, Dw0, p, NewConfig(At32(a, Dw0, p), type_), Dw0, p);
      PutFieldKeeps(b, GpeEn, p, Senses(type_), Dw0, p);
    }
  }

  /** set_type accepts no sense at all and the five it knows. Then the pad
      interrupts on exactly what the type names: 1 the rising and 2 the falling edge,
      4 the high and 8 the low level; for 3, both edges, the receiver is inverted
      against what it was; without a sense the pad is routed nowhere. The other bits
      of its configuration are kept, and if refused all of them. */
  lemma TypeTriggers(s: State, p: Pad, type_: bv32, i: BitNo)
    ensures var w, old_ := Config(SetType(s, p, type_), p), Config(s, p);
      if type_ & 0xf == 0 then
        Unrouted(w) && (i !in {17, 18, 19, 20, 25, 26} ==> (BitAt(w, i) <==> BitAt(old_, i)))
      else if type_ in {1, 2, 3, 4, 8} then
        && TriggerOf(w) == (if type_ == 1 then Edge(true) else if type_ == 2 then Edge(false)
             else if type_ == 4 then Level(true) else if type_ == 8 then Level(false)
             else Edge(BitAt(old_, 23)))
        && (i !in {17, 18, 19, 20, 23, 25, 26} ==> (BitAt(w, i) <==> BitAt(old_, i)))
      else w == old_
  {
    hide SetType, Config, NewConfig, Accepts, Senses, BitAt;
    TypesAccepted(type_);
    TypedConfig(s, p, type_);
    if Accepts(type_) {
      ConfigBit(Config(s, p), type_, i);
      ConfigBit(Config(s, p), type_, 17);
      ConfigBit(Config(s, p), type_, 18);
      ConfigBit(Config(s, p), type_, 19);
      ConfigBit(Config(s, p), type_, 20);
      ConfigBit(Config(s, p), type_, 23);
      ConfigBit(Config(s, p), type_, 25);
      ConfigBit(Config(s, p), type_, 26);
    }
  }

  lemma ClearedField(m: Mmio, t: RegType, p: Pad)
    ensures Field(PutField(m, t, p, false), t, p) == 0
  {
    hide At32, Set32, Mask, And, Clear, Word;
    SetAt(m, t, p, Put(At32(m, t, p), Mask(t, p), false), t, p);
    OwnCleared(At32(m, t, p), Mask(t, p));
  }

  /** set_type gives the pad to the host as a GPIO, even when it refuses the type:
      both ownership fields are cleared. */
  lemma OwnershipTaken(s: State, p: Pad, type_: bv32)
    ensures var r := SetType(s, p, type_); Field(r.m, PadOwn, p) == 0 && Field(r.m, HostOwn, p) == 0
  {
    hide PutField, At32, Set32, NewConfig, Accepts, Senses, Field, Mask, And;
    var b := PutField(s.m, PadOwn, p, false);
    ClearedField(s.m, PadOwn, p);
    ClearedField(b, HostOwn, p);
    PutFieldKeeps(b, HostOwn, p, false, PadOwn, p);
    if Accepts(type_) {
      var a := TakeOwnership(s.m, p);
      var v := NewConfig(At32(a, Dw0, p), type_);
      ConfigKeepsField(a, p, v, PadOwn);
      ConfigKeepsField(a, p, v, HostOwn);
      PutFieldKeeps(Set32(a, Dw0, p, v), GpeEn, p, Senses(type_), PadOwn, p);
      PutFieldKeeps(Set32(a, Dw0, p, v), GpeEn, p, Senses(type_), HostOwn, p);
    }
  }

  lemma ConfigKeepsField(m: Mmio, p: Pad, v: bv32, u: RegType)
    requires u != Dw0
    ensures Field(Set32(m, Dw0, p, v), u, p) == Field(m, u, p)
  {
    hide At32, Set32, Mask, And;
    ConfigKeeps(m, p, v, u, p);
  }

  /** Freeing a pad takes it off the interrupt (bit 19) and changes no other bit of
      its configuration. */
  lemma FreedConfig(s: State, p: Pad, i: BitNo)
    ensures var w := At32(ClearTriggering(s.m, p), Dw0, p);
      && TriggerOf(w) == Nothing
      && (BitAt(w, i) <==> i != 19 && BitAt(Config(s, p), i))
  {
    hide At32, Set32, Mask, And, Merge, Clear, PutField, WriteSts, BitAt;
    var v := Clear(At32(s.m, Dw0, p), DNV_GPIROUTSCI);
    var a := Set32(s.m, Dw0, p, v);
    var b := PutField(a, GpeEn, p, false);
    SetAt(s.m, Dw0, p, v, Dw0, p);
    PutFieldKeeps(a, GpeEn, p, false, Dw0, p);
    StsKeeps(b, p, Merge(At32(b, GpeSts, p), Mask(GpeSts, p)), Dw0, p);
    ClearBit(At32(s.m, Dw0, p), DNV_GPIROUTSCI, i);
    ClearBit(At32(s.m, Dw0, p), DNV_GPIROUTSCI, 19);
    ConfigMasks(i);
    ConfigMasks(19);
  }

  // ---------------------------------------------------------- both edges

  /** Acknowledging turns the inversion of a pending pad that is to interrupt on both
      edges, and changes no other bit; of any other pad it changes none. */
  lemma AckConfig(s: State, p: Pad, i: BitNo)
    ensures var w, old_ := Config(Ack(s, p), p), Config(s, p);
      if Pending(s.m, p) && s.types[p] == 3 then BitAt(w, i) <==> BitAt(old_, i) != (i == 23) else w == old_
  {
    hide At32, Set32, Mask, And, Pending, WriteSts, BitAt, Inverted;
    var v := Inverted(At32(s.m, Dw0, p));
    SetAt(s.m, Dw0, p, v, Dw0, p);
    StsKeeps(s.m, p, Mask(GpeSts, p), Dw0, p);
    StsKeeps(Set32(s.m, Dw0, p, v), p, Mask(GpeSts, p), Dw0, p);
    InvertedBit(At32(s.m, Dw0, p), i);
  }

  lemma InvertedBit(w: bv32, i: BitNo)
    ensures BitAt(Inverted(w), i) <==> BitAt(w, i) != (i == 23)
  {
    hide BitAt, Flip;
    FlipBit(w, DNV_RXINV, i);
    ConfigMasks(i);
  }

  /** One acknowledge of a pending pad has it wait for the other edge. */
  lemma AckTurnsEdge(s: State, p: Pad, rising: bool)
    requires s.types[p] == 3 && TriggerOf(Config(s, p)) == Edge(rising)
    ensures TriggerOf(Config(Ack(s, p), p)) == Edge(if Pending(s.m, p) then !rising else rising)
  {
    hide BitAt, Pending, Config, Ack;
    AckConfig(s, p, 17);
    AckConfig(s, p, 18);
    AckConfig(s, p, 19);
    AckConfig(s, p, 20);
    AckConfig(s, p, 23);
    AckConfig(s, p, 25);
    AckConfig(s, p, 26);
  }

  /** The event is not about pad p, except to acknowledge it. */
  predicate Leaves(s: State, e: Event, p: Pad) {
    match e
    case TypeSet(q, _) => q != p
    case Free(q) => q != p
    case Acknowledge(_) => true
    case Other(n) => At32(n, Dw0, p) == At32(s.m, Dw0, p)
  }

  predicate Undisturbed(s: State, events: seq<Event>, p: Pad)
    decreases |events|
  {
    events == [] || (Leaves(s, events[0], p) && Undisturbed(After(s, events[0]), events[1..], p))
  }

  /** The acknowledges that find the pad pending. */
  function Served(s: State, events: seq<Event>, p: Pad): nat
    decreases |events|
  {
    if events == [] then 0
    else
      (if events[0] == Acknowledge(p) && Pending(s.m, p) then 1 else 0) + Served(After(s, events[0]), events[1..], p)
  }

  lemma OtherAckKeeps(s: State, p: Pad, q: Pad)
    requires q != p
    ensures Config(Ack(s, q), p) == Config(s, p)
  {
    hide At32, Set32, Mask, And, Pending, WriteSts, Inverted;
    var v := Inverted(At32(s.m, Dw0, q));
    ConfigKeeps(s.m, q, v, Dw0, p);
    StsKeeps(s.m, q, Mask(GpeSts, q), Dw0, p);
    StsKeeps(Set32(s.m, Dw0, q, v), q, Mask(GpeSts, q), Dw0, p);
  }

  lemma OtherFreeKeeps(m: Mmio, p: Pad, q: Pad)
    requires q != p
    ensures At32(ClearTriggering(m, q), Dw0, p) == At32(m, Dw0, p)
  {
    hide At32, Set32, Mask, And, Merge, Clear, PutField, WriteSts;
    var v := Clear(At32(m, Dw0, q), DNV_GPIROUTSCI);
    var a := Set32(m, Dw0, q, v);
    var b := PutField(a, GpeEn, q, false);
    ConfigKeeps(m, q, v, Dw0, p);
    PutFieldKeeps(a, GpeEn, q, false, Dw0, p);
    StsKeeps(b, q, Merge(At32(b, GpeSts, q), Mask(GpeSts, q)), Dw0, p);
  }

  lemma EventKeepsConfig(s: State, e: Event, p: Pad)
    requires Leaves(s, e, p) && e != Acknowledge(p)
    ensures Config(After(s, e), p) == Config(s, p) && After(s, e).types[p] == s.types[p]
  {
    hide At32, SetType, ClearTriggering, Ack;
    match e
    case TypeSet(q, type_) => SetTypeKeepsOthers(s, q, type_, Dw0, p);
    case Free(q) => OtherFreeKeeps(s.m, p, q);
    case Acknowledge(q) =>
      OtherAckKeeps(s, p, q);
      AckTypes(s, q);
    case Other(_) =>
  }

  /** Over any run that leaves a both-edges pad alone but for acknowledging it, the
      edges that it waits for alternate: it waits for the first one again after an
      even number of served interrupts, and for the opposite one after an odd number. */
  lemma {:induction false} EdgesAlternate(s: State, events: seq<Event>, p: Pad, rising: bool)
    requires Run(s, events) && Undisturbed(s, events, p)
    requires s.types[p] == 3 && TriggerOf(Config(s, p)) == Edge(rising)
    ensures var f := Final(s, events);
      && f.types[p] == 3
      && TriggerOf(Config(f, p)) == Edge(if Served(s, events, p) % 2 == 0 then rising else !rising)
    decreases |events|
  {
    hide Config, After, Pending, TriggerOf, Leaves, Possible;
    if events != [] {
      var e, t := events[0], After(s, events[0]);
      if e == Acknowledge(p) {
        AcknowledgedEdge(s, p, rising);
        EdgesAlternate(t, events[1..], p, if Pending(s.m, p) then !rising else rising);
      } else {
        EventKeepsConfig(s, e, p);
        EdgesAlternate(t, events[1..], p, rising);
      }
    }
  }

  lemma AcknowledgedEdge(s: State, p: Pad, rising: bool)
    requires s.types[p] == 3 && TriggerOf(Config(s, p)) == Edge(rising)
    ensures var t := After(s, Acknowledge(p));
      && t.types[p] == 3
      && TriggerOf(Config(t, p)) == Edge(if Pending(s.m, p) then !rising else rising)
  {
    hide Config, Pending, TriggerOf, Ack;
    AckTurnsEdge(s, p, rising);
    AckTypes(s, p);
  }
}
