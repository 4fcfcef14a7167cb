/** Runs of the gpio-ich driver: on a chip with an output-level cache, the level
    words and the cache behave like one map from pins to levels; on every chip, a
    pin's level is written before its direction. */
module GpioIchRuns {
  import opened Words32
  import opened GpioIch

  datatype Event = Set(nr: Pin, val: bool) | Input(nr: Pin) | Output(nr: Pin, val: bool) | Drive(levels: Words)

  /** The driver's state and the levels that the pins have. */
  datatype Run = Run(s: State, levels: Words)

  /** The states after each write of one event. */
  function Steps(b: Board, r: Run, e: Event): seq<State> {
    match e
    case Set(nr, val) => [AfterWriteBit(b, r.s, r.levels, Lvl, nr, val)]
    case Input(nr) => [AfterWriteBit(b, r.s, r.levels, IoSel, nr, true)]
    case Output(nr, val) => OutputSteps(b, r.s, r.levels, nr, val)
    case Drive(_) => []
  }

  function After(b: Board, r: Run, e: Event): Run {
    var steps := Steps(b, r, e);
    Run(if steps == [] then r.s else steps[|steps| - 1], if e.Drive? then e.levels else r.levels)
  }

  function Final(b: Board, r: Run, events: seq<Event>): Run {
    if events == [] then r
    else
      var n := |events| - 1;
      After(b, Final(b, r, events[..n]), events[n])
  }

  predicate Cached(b: Board) { b.desc.Valid() && b.desc.cached }

  /** The pins that the chip has registers for. */
  predicate Present(b: Board, nr: Pin) { b.desc.avoton ==> nr < 64 }

  predicate Asks(e: Event, nr: Pin) { (e.Set? || e.Output?) && e.nr == nr }

  predicate WellFormed(b: Board, e: Event) { e.Drive? || Present(b, e.nr) }

  // ---------------------------------------------------------------- one write

  lemma LevelWritten(b: Board, s: State, levels: Words, nr: Pin, val: bool, j: Pin)
    requires Cached(b)
    ensures var t := AfterWriteBit(b, s, levels, Lvl, nr, val);
      IsSet(t.cache[GroupOf(j)], j) == if j == nr then val else IsSet(s.cache[GroupOf(j)], j)
  {
    OwnBit(s.cache[GroupOf(nr)], nr, val);
    if j != nr && GroupOf(j) == GroupOf(nr) {
      OtherBit(s.cache[GroupOf(nr)], nr, j, val);
    }
    hide IsSet, SetBit, Offset, ReadWord, GroupOf;
  }

  lemma CacheKept(b: Board, s: State, levels: Words, k: Kind, nr: Pin, val: bool)
    requires k != Lvl
    ensures AfterWriteBit(b, s, levels, k, nr, val).cache == s.cache
  {
    hide NewWord, Offset;
  }

  /** The level word last written to a group is the cached one. */
  predicate Synced(b: Board, s: State, g: Group) { s.written[Offset(b.desc.avoton, Lvl, g)] == s.cache[g] }

  lemma LevelSynced(b: Board, s: State, levels: Words, nr: Pin, val: bool, g: Group)
    requires Cached(b) && Present(b, nr) && b.desc.Has(Lvl, g) && (g == GroupOf(nr) || Synced(b, s, g))
    ensures Synced(b, AfterWriteBit(b, s, levels, Lvl, nr, val), g)
  {
    if g != GroupOf(nr) {
      OffsetsDistinct(b.desc, Lvl, g, Lvl, GroupOf(nr));
    }
    hide Offset, NewWord;
  }

  /** A write of one word changes no other. */
  lemma OtherWordKept(b: Board, s: State, levels: Words, k: Kind, nr: Pin, val: bool, k': Kind, g: Group)
    requires b.desc.Has(k, GroupOf(nr)) && b.desc.Has(k', g) && (k', g) != (k, GroupOf(nr))
    ensures var a := Offset(b.desc.avoton, k', g);
      AfterWriteBit(b, s, levels, k, nr, val).written[a] == s.written[a]
  {
    OffsetsDistinct(b.desc, k', g, k, GroupOf(nr));
    hide Offset, NewWord, GroupOf;
  }

  lemma DirectionKeepsLevels(b: Board, s: State, levels: Words, nr: Pin, val: bool, g: Group)
    requires Cached(b) && Present(b, nr) && b.desc.Has(Lvl, g) && Synced(b, s, g)
    ensures Synced(b, AfterWriteBit(b, s, levels, IoSel, nr, val), g)
  {
    OtherWordKept(b, s, levels, IoSel, nr, val, Lvl, g);
    CacheKept(b, s, levels, IoSel, nr, val);
    hide AfterWriteBit, Offset;
  }

  /** The direction bit of a pin: set for an input. */
  predicate IsInput(b: Board, s: State, nr: Pin) {
    IsSet(ReadWord(b, s, [0, 0, 0], IoSel, GroupOf(nr)), nr)
  }

  lemma LevelKeepsDirections(b: Board, s: State, levels: Words, nr: Pin, val: bool, j: Pin)
    requires b.desc.Valid() && Present(b, nr) && Present(b, j)
    ensures IsInput(b, AfterWriteBit(b, s, levels, Lvl, nr, val), j) == IsInput(b, s, j)
  {
    OtherWordKept(b, s, levels, Lvl, nr, val, IoSel, GroupOf(j));
    hide AfterWriteBit, Offset, IsSet, Mix;
  }

  lemma BlinkKeepsDirections(b: Board, s: State, levels: Words, nr: Pin, val: bool, j: Pin)
    requires b.desc.Valid() && b.desc.haveBlink && nr < 32
    ensures IsInput(b, AfterWriteBit(b, s, levels, Blink, nr, val), j) == IsInput(b, s, j)
  {
    OtherWordKept(b, s, levels, Blink, nr, val, IoSel, GroupOf(j));
    hide AfterWriteBit, Offset, IsSet, Mix;
  }

  // ----------------------------------------------------------------- the map

  /** The value last asked for a pin, or v if there was none. */
  function LastValue(v: bool, events: seq<Event>, nr: Pin): bool {
    if events == [] then v
    else
      var n := |events| - 1;
      if Asks(events[n], nr) then events[n].val else LastValue(v, events[..n], nr)
  }

  predicate AsksGroup(e: Event, g: Group) { (e.Set? || e.Output?) && GroupOf(e.nr) == g }

  lemma EventCache(b: Board, r: Run, e: Event, j: Pin)
    requires Cached(b)
    ensures var t := After(b, r, e);
      IsSet(t.s.cache[GroupOf(j)], j) == if Asks(e, j) then e.val else IsSet(r.s.cache[GroupOf(j)], j)
  {
    hide AfterWriteBit, IsSet, GroupOf;
    match e
    case Set(nr, val) => LevelWritten(b, r.s, r.levels, nr, val, j);
    case Input(nr) => CacheKept(b, r.s, r.levels, IoSel, nr, true);
    case Output(nr, val) =>
      var steps := OutputSteps(b, r.s, r.levels, nr, val);
      LevelWritten(b, steps[0], r.levels, nr, val, j);
      CacheKept(b, steps[1], r.levels, IoSel, nr, false);
    case Drive(_) =>
  }

  /** After any run, the cache holds for every pin the value last asked for it. */
  lemma {:induction false} CacheIsMap(b: Board, r: Run, events: seq<Event>, nr: Pin)
    requires Cached(b)
    ensures IsSet(Final(b, r, events).s.cache[GroupOf(nr)], nr) ==
      LastValue(IsSet(r.s.cache[GroupOf(nr)], nr), events, nr)
  {
    hide After, IsSet, GroupOf;
    if events != [] {
      var n := |events| - 1;
      CacheIsMap(b, r, events[..n], nr);
      EventCache(b, Final(b, r, events[..n]), events[n], nr);
    }
  }

  lemma EventSynced(b: Board, r: Run, e: Event, g: Group)
    requires Cached(b) && WellFormed(b, e) && b.desc.Has(Lvl, g) && (Synced(b, r.s, g) || AsksGroup(e, g))
    ensures Synced(b, After(b, r, e).s, g)
  {
    hide AfterWriteBit, Synced;
    match e
    case Set(nr, val) => LevelSynced(b, r.s, r.levels, nr, val, g);
    case Input(nr) => DirectionKeepsLevels(b, r.s, r.levels, nr, true, g);
    case Output(nr, val) =>
      var steps := OutputSteps(b, r.s, r.levels, nr, val);
      LevelSynced(b, steps[0], r.levels, nr, val, g);
      DirectionKeepsLevels(b, steps[1], r.levels, nr, false, g);
    case Drive(_) =>
  }

  /** Once any pin of a group was asked for a value, the level word last written
      to the group is the cached word. */
  lemma {:induction false} WrittenIsMap(b: Board, r: Run, events: seq<Event>, g: Group)
    requires Cached(b) && b.desc.Has(Lvl, g)
    requires forall i | 0 <= i < |events| :: WellFormed(b, events[i])
    requires Synced(b, r.s, g) || exists i | 0 <= i < |events| :: AsksGroup(events[i], g)
    ensures Synced(b, Final(b, r, events).s, g)
  {
    hide After, Synced, AsksGroup, WellFormed;
    if events != [] {
      var n := |events| - 1;
      if !AsksGroup(events[n], g) {
        WrittenIsMap(b, r, events[..n], g);
      }
      EventSynced(b, Final(b, r, events[..n]), events[n], g);
    }
  }

  lemma GetBit(b: Board, r: Run, nr: Pin)
    requires Cached(b)
    ensures BitRead(b, r.s, r.levels, Lvl, nr) ==
      (IsSet(r.s.cache[GroupOf(nr)], nr) || IsSet(r.levels[GroupOf(nr)], nr))
  {
    MergedBit(r.s.cache[GroupOf(nr)], r.levels[GroupOf(nr)], nr);
    hide IsSet, Merge, GroupOf;
  }

  lemma EmptyCache(s: State, nr: Pin)
    requires s.cache == [0, 0, 0]
    ensures !IsSet(s.cache[GroupOf(nr)], nr)
  {
  }

  lemma PresentGroup(b: Board, nr: Pin)
    requires Cached(b) && Present(b, nr)
    ensures b.desc.Has(Lvl, GroupOf(nr))
  {
  }

  /** The output cache refines a map from pins to levels: from the driver's start,
      the word last written to a group that was written holds exactly the values
      last asked, 0 if never, and a pin reads as that value or its actual level. */
  lemma OutputCacheRefinesMap(b: Board, s: State, levels: Words, events: seq<Event>, nr: Pin)
    requires Cached(b) && Present(b, nr) && s.cache == [0, 0, 0]
    requires forall i | 0 <= i < |events| :: WellFormed(b, events[i])
    ensures var f := Final(b, Run(s, levels), events);
      var v := LastValue(false, events, nr);
      && BitRead(b, f.s, f.levels, Lvl, nr) == (v || IsSet(f.levels[GroupOf(nr)], nr))
      && ((exists i | 0 <= i < |events| :: AsksGroup(events[i], GroupOf(nr))) ==>
            IsSet(f.s.written[Offset(b.desc.avoton, Lvl, GroupOf(nr))], nr) == v)
  {
    EmptyCache(s, nr);
    PresentGroup(b, nr);
    hide IsSet, BitRead, Final, LastValue, Offset, GroupOf, Desc.Has, AsksGroup, WellFormed;
    var r := Run(s, levels);
    CacheIsMap(b, r, events, nr);
    GetBit(b, Final(b, r, events), nr);
    if exists i | 0 <= i < |events| :: AsksGroup(events[i], GroupOf(nr)) {
      WrittenIsMap(b, r, events, GroupOf(nr));
    }
  }

  // ------------------------------------------------- directions, step by step

  lemma InputWritten(b: Board, s: State, levels: Words, nr: Pin, val: bool, j: Pin)
    requires b.desc.Valid() && Present(b, nr) && Present(b, j) && j != nr
    ensures IsInput(b, AfterWriteBit(b, s, levels, IoSel, nr, val), j) == IsInput(b, s, j)
  {
    if GroupOf(j) != GroupOf(nr) {
      OtherWordKept(b, s, levels, IoSel, nr, val, IoSel, GroupOf(j));
      hide AfterWriteBit, Offset, IsSet, Mix;
    } else {
      var a := Offset(b.desc.avoton, IoSel, GroupOf(nr));
      MixedBit(b.fixed(a), b.wired(a), s.written[a], nr, j, val);
      hide Offset, IsSet, Mix, SetBit, GroupOf;
    }
  }

  /** Writing back what was read, with one bit changed, changes no other bit as
      read: a wired bit stays as it is, the others are written as they were. */
  lemma MixedBit(fixed: bv32, wired: bv32, w: bv32, nr: Pin, j: Pin, val: bool)
    requires nr != j && GroupOf(nr) == GroupOf(j)
    ensures IsSet(Mix(fixed, wired, SetBit(Mix(fixed, wired, w), nr, val)), j) == IsSet(Mix(fixed, wired, w), j)
  {
    MasksApart(nr, j);
    MixedMask(fixed, wired, w, Mask(nr), Mask(j), val);
    hide Mask, Mix, Put, Touches;
  }

  lemma MixedMask(fixed: bv32, wired: bv32, w: bv32, m: bv32, k: bv32, val: bool)
    requires And(m, k) == 0
    ensures And(Mix(fixed, wired, Put(Mix(fixed, wired, w), m, val)), k) == And(Mix(fixed, wired, w), k)
  {
    MixedMerge(fixed, wired, w, m, k);
    MixedClear(fixed, wired, w, m, k);
    hide And, Mix, Merge, Clear;
  }

  lemma MixedMerge(fixed: bv32, wired: bv32, w: bv32, m: bv32, k: bv32)
    requires And(m, k) == 0
    ensures And(Mix(fixed, wired, Merge(Mix(fixed, wired, w), m)), k) == And(Mix(fixed, wired, w), k)
  {
  }

  lemma MixedClear(fixed: bv32, wired: bv32, w: bv32, m: bv32, k: bv32)
    requires And(m, k) == 0
    ensures And(Mix(fixed, wired, Clear(Mix(fixed, wired, w), m)), k) == And(Mix(fixed, wired, w), k)
  {
  }

  /** The level that a write to the group of pin j writes for j, if j is not the
      pin that it is about. */
  predicate Rewritten(b: Board, s: State, levels: Words, j: Pin) {
    IsSet(if b.desc.cached then s.cache[GroupOf(j)] else levels[GroupOf(j)], j)
  }

  /** The level last written for pin j. */
  predicate LevelOut(b: Board, s: State, j: Pin) {
    IsSet(s.written[Offset(b.desc.avoton, Lvl, GroupOf(j))], j)
  }

  /** What direction_output leaves as the level of pin j. */
  predicate LevelAfter(b: Board, s: State, levels: Words, nr: Pin, val: bool, j: Pin) {
    if j == nr then val else if GroupOf(j) == GroupOf(nr) then Rewritten(b, s, levels, j) else LevelOut(b, s, j)
  }

  lemma LevelWordWritten(b: Board, s: State, levels: Words, nr: Pin, val: bool, j: Pin)
    requires b.desc.Valid() && Present(b, nr) && Present(b, j)
    ensures LevelOut(b, AfterWriteBit(b, s, levels, Lvl, nr, val), j) == LevelAfter(b, s, levels, nr, val, j)
  {
    hide Offset, IsSet, SetBit;
    if GroupOf(j) != GroupOf(nr) {
      OtherWordKept(b, s, levels, Lvl, nr, val, Lvl, GroupOf(j));
    } else {
      var w := if b.desc.cached then s.cache[GroupOf(nr)] else levels[GroupOf(nr)];
      OwnBit(w, nr, val);
      if j != nr {
        OtherBit(w, nr, j, val);
      }
    }
    hide GroupOf;
  }

  lemma OtherKindKeepsLevel(b: Board, s: State, levels: Words, k: Kind, nr: Pin, val: bool, j: Pin)
    requires b.desc.Valid() && b.desc.Has(k, GroupOf(nr)) && Present(b, j) && k != Lvl
    ensures var t := AfterWriteBit(b, s, levels, k, nr, val);
      LevelOut(b, t, j) == LevelOut(b, s, j) && t.cache == s.cache
  {
    OtherWordKept(b, s, levels, k, nr, val, Lvl, GroupOf(j));
    CacheKept(b, s, levels, k, nr, val);
    hide AfterWriteBit, Offset, IsSet;
  }

  /** The pin is told to blink, on a chip that can. */
  predicate Blinks(b: Board, s: State, nr: Pin) {
    nr < 32 && b.desc.haveBlink && IsSet(s.written[Offset(b.desc.avoton, Blink, 0)], nr)
  }

  lemma BlinkCleared(b: Board, s: State, levels: Words, nr: Pin)
    requires nr < 32
    ensures !Blinks(b, AfterWriteBit(b, s, levels, Blink, nr, false), nr)
  {
    OwnBit(ReadWord(b, s, levels, Blink, 0), nr, false);
    hide Offset, IsSet, SetBit, ReadWord;
  }

  lemma OtherKindKeepsBlink(b: Board, s: State, levels: Words, k: Kind, nr: Pin, val: bool)
    requires b.desc.Valid() && Present(b, nr) && (k == Lvl || k == IoSel)
    ensures Blinks(b, AfterWriteBit(b, s, levels, k, nr, val), nr) == Blinks(b, s, nr)
  {
    if nr < 32 && b.desc.haveBlink {
      OtherWordKept(b, s, levels, k, nr, val, Blink, 0);
    }
    hide AfterWriteBit, Offset, IsSet;
  }

  lemma OutputStopsBlinking(b: Board, s: State, levels: Words, nr: Pin, val: bool)
    requires b.desc.Valid() && Present(b, nr)
    ensures forall i | 0 <= i < 3 :: !Blinks(b, OutputSteps(b, s, levels, nr, val)[i], nr)
  {
    var steps := OutputSteps(b, s, levels, nr, val);
    if nr < 32 && b.desc.haveBlink {
      BlinkCleared(b, s, levels, nr);
    }
    assert !Blinks(b, steps[0], nr);
    OtherKindKeepsBlink(b, steps[0], levels, Lvl, nr, val);
    OtherKindKeepsBlink(b, steps[1], levels, IoSel, nr, false);
    hide AfterWriteBit, Blinks;
  }

  /** The first step, which is the blink write on the chips that blink. */
  lemma BlinkStep(b: Board, s: State, levels: Words, nr: Pin, val: bool, j: Pin)
    requires b.desc.Valid() && Present(b, nr) && Present(b, j)
    ensures var t := OutputSteps(b, s, levels, nr, val)[0];
      IsInput(b, t, j) == IsInput(b, s, j) && LevelOut(b, t, j) == LevelOut(b, s, j) && t.cache == s.cache
  {
    if nr < 32 && b.desc.haveBlink {
      BlinkKeepsDirections(b, s, levels, nr, false, j);
      OtherKindKeepsLevel(b, s, levels, Blink, nr, false, j);
    }
    hide AfterWriteBit, IsInput, LevelOut;
  }

  /** What direction_output does on every chip, write by write: blinking is off
      first, then the level asked for is written, then the direction; no write
      changes another pin's direction, and every other pin's level is written as
      the driver has it, from its cache or from the pins. */
  lemma OutputStepByStep(b: Board, s: State, levels: Words, nr: Pin, val: bool, j: Pin)
    requires b.desc.Valid() && Present(b, nr) && Present(b, j)
    ensures var steps := OutputSteps(b, s, levels, nr, val);
      && IsInput(b, steps[0], j) == IsInput(b, s, j) && IsInput(b, steps[1], j) == IsInput(b, s, j)
      && (j != nr ==> IsInput(b, steps[2], j) == IsInput(b, s, j))
      && LevelOut(b, steps[0], j) == LevelOut(b, s, j)
      && LevelOut(b, steps[1], j) == LevelAfter(b, s, levels, nr, val, j)
      && LevelOut(b, steps[2], j) == LevelAfter(b, s, levels, nr, val, j)
      && steps[0].cache == s.cache && steps[2].cache == steps[1].cache
      && !Blinks(b, steps[0], nr) && !Blinks(b, steps[1], nr) && !Blinks(b, steps[2], nr)
  {
    OutputStopsBlinking(b, s, levels, nr, val);
    var steps := OutputSteps(b, s, levels, nr, val);
    BlinkStep(b, s, levels, nr, val, j);
    LevelKeepsDirections(b, steps[0], levels, nr, val, j);
    LevelWordWritten(b, steps[0], levels, nr, val, j);
    OtherKindKeepsLevel(b, steps[1], levels, IoSel, nr, false, j);
    if j != nr {
      InputWritten(b, steps[1], levels, nr, false, j);
    }
    hide AfterWriteBit, IsInput, LevelOut, Blinks, IsSet, GroupOf;
  }

  /** On every chip, from any state, at every write: where a pin turns from input
      to output, it is the pin of a direction_output, and the level already
      written for it is the one asked for. */
  lemma LevelBeforeDirection(b: Board, r: Run, e: Event, i: nat, j: Pin)
    requires b.desc.Valid() && Present(b, j) && WellFormed(b, e)
    requires var path := [r.s] + Steps(b, r, e);
      i + 1 < |path| && IsInput(b, path[i], j) && !IsInput(b, path[i + 1], j)
    ensures var path := [r.s] + Steps(b, r, e);
      e.Output? && e.nr == j && LevelOut(b, path[i], j) == e.val
  {
    hide AfterWriteBit, IsInput, LevelOut, Blinks, IsSet, GroupOf;
    match e {
      case Set(nr, val) => LevelKeepsDirections(b, r.s, r.levels, nr, val, j);
      case Input(nr) =>
        if nr != j {
          InputWritten(b, r.s, r.levels, nr, true, j);
        } else {
          InputStays(b, r.s, r.levels, nr);
        }
      case Output(nr, val) => OutputStepByStep(b, r.s, r.levels, nr, val, j);
      case Drive(_) =>
    }
  }

  /** direction_input makes no output of an input. */
  lemma InputStays(b: Board, s: State, levels: Words, nr: Pin)
    requires b.desc.Valid() && IsInput(b, s, nr)
    ensures IsInput(b, AfterWriteBit(b, s, levels, IoSel, nr, true), nr)
  {
    var a := Offset(b.desc.avoton, IoSel, GroupOf(nr));
    MixedOwn(b.fixed(a), b.wired(a), s.written[a], Mask(nr));
    hide Offset, Mix, Mask, GroupOf, Touches, Merge;
  }

  lemma MixedOwn(fixed: bv32, wired: bv32, w: bv32, m: bv32)
    requires Touches(Mix(fixed, wired, w), m)
    ensures Touches(Mix(fixed, wired, Merge(Mix(fixed, wired, w), m)), m)
  {
  }

  /** The verification of a direction change succeeds exactly when the pin then
      has that direction. */
  lemma DirectionVerified(b: Board, s: State, levels: Words, nr: Pin, input: bool)
    requires b.desc.Valid()
    ensures var t := AfterWriteBit(b, s, levels, IoSel, nr, input);
      (ReadWord(b, t, levels, IoSel, GroupOf(nr)) == NewWord(b, s, levels, IoSel, nr, input))
        == (IsInput(b, t, nr) == input)
  {
    var a := Offset(b.desc.avoton, IoSel, GroupOf(nr));
    Verified(b.fixed(a), b.wired(a), s.written[a], nr, input);
    hide Offset, Mix, Mask, GroupOf, Touches, Put;
  }

  lemma BitOrNone(w: bv32, nr: Pin)
    ensures And(w, Mask(nr)) == 0 || And(w, Mask(nr)) == Mask(nr)
  {
  }

  lemma Verified(fixed: bv32, wired: bv32, w: bv32, nr: Pin, val: bool)
    ensures var x := Put(Mix(fixed, wired, w), Mask(nr), val);
      (Mix(fixed, wired, x) == x) == (Touches(Mix(fixed, wired, x), Mask(nr)) == val)
  {
    MaskNonzero(nr);
    hide Mix, Merge, Clear, And, Mask;
    var m := Mask(nr);
    OwnMerged(Mix(fixed, wired, w), m);
    OwnCleared(Mix(fixed, wired, w), m);
    var y := Mix(fixed, wired, Put(Mix(fixed, wired, w), m, val));
    BitOrNone(y, nr);
    if val && And(y, m) == m {
      MergeTook(fixed, wired, w, m);
    } else if !val && And(y, m) == 0 {
      ClearTook(fixed, wired, w, m);
    }
  }

  lemma MergeTook(fixed: bv32, wired: bv32, w: bv32, m: bv32)
    requires And(Mix(fixed, wired, Merge(Mix(fixed, wired, w), m)), m) == m
    ensures Mix(fixed, wired, Merge(Mix(fixed, wired, w), m)) == Merge(Mix(fixed, wired, w), m)
  {
  }

  lemma ClearTook(fixed: bv32, wired: bv32, w: bv32, m: bv32)
    requires And(Mix(fixed, wired, Clear(Mix(fixed, wired, w), m)), m) == 0
    ensures Mix(fixed, wired, Clear(Mix(fixed, wired, w), m)) == Clear(Mix(fixed, wired, w), m)
  {
  }
}
