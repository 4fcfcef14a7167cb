/** What the gpio-ich driver reads, by the bits of the words: levels on the chips
    that show them, and directions on every chip, over whole runs. */
module GpioIchReads {
  import opened Words32
  import opened GpioIch
  import opened GpioIchRuns

  // ---------------------------------------------------------------- one read

  /** The place of a pin in the word of its group. */
  function Place(nr: Pin): BitNo { nr & 0x1f }

  /** Pin nr is bit nr % 32 of word nr / 32. */
  lemma PinPlace(w: bv32, nr: Pin)
    ensures IsSet(w, nr) <==> BitAt(w, Place(nr))
    ensures nr as nat == 32 * GroupOf(nr) + Place(nr) as nat
  {
    OneBit(w, Place(nr));
    GroupAndPlace(nr);
    hide BitAt, And;
  }

  lemma OneBit(w: bv32, i: BitNo)
    ensures And(w, 1 << i) != 0 <==> BitAt(w, i)
  {
  }

  lemma GroupAndPlace(nr: Pin)
    ensures nr as nat == 32 * GroupOf(nr) + Place(nr) as nat
  {
    if nr < 32 {
      assert nr & 0x1f == nr;
    } else if nr < 64 {
      assert nr & 0x1f == nr - 32;
    } else {
      assert nr & 0x1f == nr - 64;
    }
  }

  /** On a chip without the output cache, whatever its state, a pin reads as its
      level. */
  lemma UncachedRead(b: Board, s: State, levels: Words, nr: Pin)
    requires !b.desc.cached
    ensures BitRead(b, s, levels, Lvl, nr) == BitAt(levels[GroupOf(nr)], Place(nr))
  {
    PinPlace(levels[GroupOf(nr)], nr);
    hide IsSet, BitAt, Place, GroupOf;
  }

  /** The direction bit of a pin is hardwired. */
  predicate Wired(b: Board, nr: Pin) { BitAt(b.fixed(Offset(b.desc.avoton, IoSel, GroupOf(nr))), Place(nr)) }

  /** The direction that a hardwired pin has. */
  predicate WiredInput(b: Board, nr: Pin) { BitAt(b.wired(Offset(b.desc.avoton, IoSel, GroupOf(nr))), Place(nr)) }

  /** The direction bit of a pin in the word last written. */
  predicate WrittenInput(b: Board, s: State, nr: Pin) {
    BitAt(s.written[Offset(b.desc.avoton, IoSel, GroupOf(nr))], Place(nr))
  }

  lemma MixParts(fixed: bv32, wired: bv32, w: bv32)
    ensures Mix(fixed, wired, w) == Merge(And(wired, fixed), Clear(w, fixed))
  {
  }

  lemma MixBit(fixed: bv32, wired: bv32, w: bv32, i: BitNo)
    ensures BitAt(Mix(fixed, wired, w), i) <==> BitAt(if BitAt(fixed, i) then wired else w, i)
  {
    hide BitAt, And, Merge, Clear, Mix;
    MixParts(fixed, wired, w);
    BitOps(wired, fixed, i);
    BitOps(w, fixed, i);
    BitOps(And(wired, fixed), Clear(w, fixed), i);
  }

  /** get_direction: the direction that the pin has, which is the one last written
      unless it is hardwired. */
  lemma DirectionRead(b: Board, s: State, levels: Words, nr: Pin)
    ensures BitRead(b, s, levels, IoSel, nr) == IsInput(b, s, nr)
    ensures IsInput(b, s, nr) == if Wired(b, nr) then WiredInput(b, nr) else WrittenInput(b, s, nr)
  {
    hide IsSet, BitAt, Place, GroupOf, Offset, Mix;
    var a := Offset(b.desc.avoton, IoSel, GroupOf(nr));
    MixBit(b.fixed(a), b.wired(a), s.written[a], Place(nr));
    PinPlace(Mix(b.fixed(a), b.wired(a), s.written[a]), nr);
  }

  // -------------------------------------------------------------- whole runs

  /** The levels that the pins were last given from outside. */
  function LastLevels(levels: Words, events: seq<Event>): Words {
    if events == [] then levels
    else
      var n := |events| - 1;
      if events[n].Drive? then events[n].levels else LastLevels(levels, events[..n])
  }

  lemma {:induction false} LevelsDriven(b: Board, r: Run, events: seq<Event>)
    ensures Final(b, r, events).levels == LastLevels(r.levels, events)
  {
    hide Steps;
    if events != [] {
      LevelsDriven(b, r, events[..|events| - 1]);
    }
  }

  /** On a chip without the output cache, after any run, a pin reads as its actual
      level, whatever was asked for it. */
  lemma PinsReadAsDriven(b: Board, s: State, levels: Words, events: seq<Event>, nr: Pin)
    requires !b.desc.cached
    ensures var f := Final(b, Run(s, levels), events);
      BitRead(b, f.s, f.levels, Lvl, nr) == BitAt(LastLevels(levels, events)[GroupOf(nr)], Place(nr))
  {
    hide Final, LastLevels, BitRead, BitAt, Place, GroupOf;
    var f := Final(b, Run(s, levels), events);
    LevelsDriven(b, Run(s, levels), events);
    UncachedRead(b, f.s, f.levels, nr);
  }

  predicate Directs(e: Event, nr: Pin) { (e.Input? || e.Output?) && e.nr == nr }

  /** The direction last asked for a pin, or v if there was none. */
  function LastInput(v: bool, events: seq<Event>, nr: Pin): bool {
    if events == [] then v
    else
      var n := |events| - 1;
      if Directs(events[n], nr) then events[n].Input? else LastInput(v, events[..n], nr)
  }

  lemma DirectionWritten(b: Board, s: State, levels: Words, nr: Pin, input: bool)
    requires !Wired(b, nr)
    ensures IsInput(b, AfterWriteBit(b, s, levels, IoSel, nr, input), nr) == input
  {
    hide NewWord, IsInput, BitAt, Place, GroupOf, Offset, Wired;
    var t := AfterWriteBit(b, s, levels, IoSel, nr, input);
    var w := NewWord(b, s, levels, IoSel, nr, input);
    DirectionRead(b, t, levels, nr);
    PinPlace(w, nr);
    NewWordSet(b, s, levels, nr, input);
    hide AfterWriteBit, IsSet;
    assert t.written[Offset(b.desc.avoton, IoSel, GroupOf(nr))] == w by {
      WrittenWord(b, s, levels, nr, input);
    }
  }

  lemma WrittenWord(b: Board, s: State, levels: Words, nr: Pin, input: bool)
    ensures AfterWriteBit(b, s, levels, IoSel, nr, input).written[Offset(b.desc.avoton, IoSel, GroupOf(nr))] ==
      NewWord(b, s, levels, IoSel, nr, input)
  {
    hide NewWord, Offset, GroupOf;
  }

  lemma NewWordSet(b: Board, s: State, levels: Words, nr: Pin, input: bool)
    ensures IsSet(NewWord(b, s, levels, IoSel, nr, input), nr) == input
  {
    hide ReadWord, IsSet, SetBit, GroupOf;
    OwnBit(ReadWord(b, s, levels, IoSel, GroupOf(nr)), nr, input);
  }

  lemma OtherDirectionKept(b: Board, s: State, levels: Words, nr: Pin, input: bool, j: Pin)
    requires b.desc.Valid() && Present(b, nr) && Present(b, j) && j != nr
    ensures IsInput(b, AfterWriteBit(b, s, levels, IoSel, nr, input), j) == IsInput(b, s, j)
  {
    hide IsInput, AfterWriteBit;
    InputWritten(b, s, levels, nr, input, j);
  }

  lemma EventDirection(b: Board, r: Run, e: Event, j: Pin)
    requires b.desc.Valid() && Present(b, j) && WellFormed(b, e) && !Wired(b, j)
    ensures IsInput(b, After(b, r, e).s, j) == if Directs(e, j) then e.Input? else IsInput(b, r.s, j)
  {
    hide AfterWriteBit, IsInput, LevelOut, Blinks, Wired, IsSet, GroupOf;
    match e
    case Set(nr, val) => LevelKeepsDirections(b, r.s, r.levels, nr, val, j);
    case Input(nr) =>
      if nr == j {
        DirectionWritten(b, r.s, r.levels, nr, true);
      } else {
        OtherDirectionKept(b, r.s, r.levels, nr, true, j);
      }
    case Output(nr, val) =>
      OutputStepByStep(b, r.s, r.levels, nr, val, j);
      if nr == j {
        DirectionWritten(b, OutputSteps(b, r.s, r.levels, nr, val)[1], r.levels, nr, false);
      }
    case Drive(_) =>
  }

  /** Directions refine a map too: on every chip, after any run, a pin whose
      direction is not hardwired has the one last asked for it, and reads so. */
  lemma {:induction false} DirectionsRefineMap(b: Board, r: Run, events: seq<Event>, nr: Pin)
    requires b.desc.Valid() && Present(b, nr) && !Wired(b, nr)
    requires forall i | 0 <= i < |events| :: WellFormed(b, events[i])
    ensures var f := Final(b, r, events);
      && IsInput(b, f.s, nr) == LastInput(IsInput(b, r.s, nr), events, nr)
      && BitRead(b, f.s, f.levels, IoSel, nr) == LastInput(IsInput(b, r.s, nr), events, nr)
  {
    hide After, IsInput, WellFormed, Wired, BitRead;
    var f := Final(b, r, events);
    DirectionRead(b, f.s, f.levels, nr);
    if events != [] {
      var n := |events| - 1;
      DirectionsRefineMap(b, r, events[..n], nr);
      EventDirection(b, Final(b, r, events[..n]), events[n], nr);
    }
  }
}
