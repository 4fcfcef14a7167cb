/** The gpio-ich driver: pins packed into shared register words, with a cache
    of the output levels on chips that cannot read them back. */
module GpioIch {
  import opened Words32

  /** An absolute pin number; there are three groups of 32. */
  type Pin = n: bv8 | n < 96

  type Group = g: nat | g < 3

  type Words = s: seq<bv32> | |s| == 3 witness [0, 0, 0]

  type Space = s: seq<bv32> | |s| == 0x100 witness seq(0x100, _ => 0)

  function GroupOf(nr: Pin): Group { if nr < 32 then 0 else if nr < 64 then 1 else 2 }

  function Mask(nr: Pin): bv32 { (1 as bv32) << (nr & 0x1f) }

  lemma MasksApart(nr: Pin, j: Pin)
    requires nr != j && GroupOf(nr) == GroupOf(j)
    ensures !Touches(Mask(nr), Mask(j))
  {
  }

  lemma MaskNonzero(nr: Pin)
    ensures Mask(nr) != 0
  {
  }

  function SetBit(w: bv32, nr: Pin, val: bool): bv32 { Put(w, Mask(nr), val) }

  predicate IsSet(w: bv32, nr: Pin) { Touches(w, Mask(nr)) }

  lemma OwnBit(w: bv32, nr: Pin, val: bool)
    ensures IsSet(SetBit(w, nr, val), nr) == val
  {
    MaskNonzero(nr);
    hide Mask, Put, Touches;
    OwnMask(w, Mask(nr), val);
  }

  lemma OtherBit(w: bv32, nr: Pin, j: Pin, val: bool)
    requires nr != j && GroupOf(nr) == GroupOf(j)
    ensures IsSet(SetBit(w, nr, val), j) == IsSet(w, j)
  {
    hide Mask, Put, Touches, GroupOf;
    MasksApart(nr, j);
    OtherMask(w, Mask(nr), Mask(j), val);
  }

  lemma MergedBit(a: bv32, b: bv32, nr: Pin)
    ensures IsSet(Merge(a, b), nr) <==> IsSet(a, nr) || IsSet(b, nr)
  {
    hide Mask, Merge, Touches;
    MergedMask(a, b, Mask(nr));
  }

  // -------------------------------------------------------- register tables

  datatype Kind = UseSel | IoSel | Lvl | Blink

  const ICHX_REGS: seq<seq<nat>> :=
    [[0x00, 0x30, 0x40], [0x04, 0x34, 0x44], [0x0c, 0x38, 0x48], [0x18, 0x18, 0x18]]
  const AVOTON_REGS: seq<seq<nat>> :=
    [[0x00, 0x80, 0x00], [0x04, 0x84, 0x00], [0x08, 0x88, 0x00], [0x00, 0x00, 0x00]]

  /** A chip description. */
  datatype Desc = Desc(avoton: bool, ngpio: nat, haveBlink: bool, cached: bool) {
    /** Register words that the chip really has. */
    predicate Has(k: Kind, g: Group) {
      if avoton then k != Blink && g < 2 else k != Blink || g == 0
    }

    /** The pins of a chip lie in groups it has, and only the cached chip uses the
        other table, without blink registers. */
    predicate Valid() {
      avoton == cached && (avoton ==> !haveBlink && ngpio <= 64) && ngpio <= 96
    }
  }

  function Offset(avoton: bool, k: Kind, g: Group): (a: nat)
    ensures a < 0x100
  {
    var row := match k case UseSel => 0 case IoSel => 1 case Lvl => 2 case Blink => 3;
    if avoton then AVOTON_REGS[row][g] else ICHX_REGS[row][g]
  }

  /** Different words of a chip are at different offsets. */
  lemma OffsetsDistinct(d: Desc, k: Kind, g: Group, k': Kind, g': Group)
    requires d.Has(k, g) && d.Has(k', g') && (k, g) != (k', g')
    ensures Offset(d.avoton, k, g) != Offset(d.avoton, k', g')
  {
    if d.avoton {
      if g == 0 { } else { }
    } else {
      if g == 0 { } else if g == 1 { } else { }
    }
  }

  const SHIPPED: seq<Desc> := [
    Desc(false, 50, true, false), Desc(false, 50, false, false), Desc(false, 61, true, false),
    Desc(false, 72, true, false), Desc(false, 76, false, false), Desc(true, 60, false, true)]

  lemma ShippedValid(i: nat)
    requires i < |SHIPPED|
    ensures SHIPPED[i].Valid()
  {
  }

  // ------------------------------------------------------------- the device

  /** The device: some bits of some words are wired to a value, whatever is
      written there, as for pins with one possible direction. */
  datatype Board = Board(desc: Desc, fixed: nat -> bv32, wired: nat -> bv32)

  /** The words last written, and the driver's cache of the level words. */
  datatype State = State(written: Space, cache: Words)

  function Mix(fixed: bv32, wired: bv32, w: bv32): bv32 { (wired & fixed) | (w & !fixed) }

  /** Reading a level word shows the pins, not what was written; the other words
      read as written, but for the wired bits. */
  function ReadWord(b: Board, s: State, levels: Words, k: Kind, g: Group): bv32 {
    var a := Offset(b.desc.avoton, k, g);
    if k == Lvl then levels[g] else Mix(b.fixed(a), b.wired(a), s.written[a])
  }

  /** ichx_write_bit: what it writes... */
  function NewWord(b: Board, s: State, levels: Words, k: Kind, nr: Pin, val: bool): bv32 {
    var g := GroupOf(nr);
    SetBit(if k == Lvl && b.desc.cached then s.cache[g] else ReadWord(b, s, levels, k, g), nr, val)
  }

  /** ...and what it leaves. */
  function AfterWriteBit(b: Board, s: State, levels: Words, k: Kind, nr: Pin, val: bool): State {
    var g, w := GroupOf(nr), NewWord(b, s, levels, k, nr, val);
    State(s.written[Offset(b.desc.avoton, k, g) := w],
          if k == Lvl && b.desc.cached then s.cache[g := w] else s.cache)
  }

  /** ichx_read_bit. */
  predicate BitRead(b: Board, s: State, levels: Words, k: Kind, nr: Pin) {
    var g := GroupOf(nr);
    var w := ReadWord(b, s, levels, k, g);
    IsSet(if k == Lvl && b.desc.cached then Merge(s.cache[g], w) else w, nr)
  }

  // ------------------------------------------------------------ the driver

  /** The I/O space, and the levels that the pins have at the moment. */
  class IoSpace {
    const fixed: nat -> bv32
    const wired: nat -> bv32
    var written: Space
    var levels: Words

    constructor (fixed: nat -> bv32, wired: nat -> bv32, written: Space, levels: Words)
      ensures this.fixed == fixed && this.wired == wired && this.written == written && this.levels == levels
    {
      this.fixed, this.wired, this.written, this.levels := fixed, wired, written, levels;
    }
  }

  class Ichx {
    const desc: Desc
    const io: IoSpace
    var outlvlCache: Words

    constructor (desc: Desc, io: IoSpace)
      ensures this.desc == desc && this.io == io && outlvlCache == [0, 0, 0]
    {
      this.desc, this.io, outlvlCache := desc, io, [0, 0, 0];
    }

    function B(): Board { Board(desc, io.fixed, io.wired) }

    function S(): State
      reads this, io
    {
      State(io.written, outlvlCache)
    }

    method Read(k: Kind, g: Group) returns (w: bv32)
      ensures w == ReadWord(B(), S(), io.levels, k, g)
    {
      var a := Offset(desc.avoton, k, g);
      if k == Lvl {
        w := io.levels[g];
      } else {
        w := Mix(io.fixed(a), io.wired(a), io.written[a]);
      }
    }

    method Write(w: bv32, k: Kind, g: Group)
      modifies io
      ensures io.written == old(io.written)[Offset(desc.avoton, k, g) := w] && io.levels == old(io.levels)
    {
      io.written := io.written[Offset(desc.avoton, k, g) := w];
    }

    /** ichx_write_bit; with verify, it fails unless the word reads as written. */
    method WriteBit(k: Kind, nr: Pin, val: bool, verify: bool) returns (ok: bool)
      modifies this, io
      ensures S() == AfterWriteBit(B(), old(S()), old(io.levels), k, nr, val) && io.levels == old(io.levels)
      ensures ok == (verify ==>
        ReadWord(B(), S(), io.levels, k, GroupOf(nr)) == NewWord(B(), old(S()), old(io.levels), k, nr, val))
    {
      hide Offset, SetBit, Mix, GroupOf;
      var g := GroupOf(nr);
      var data;
      if k == Lvl && desc.cached {
        data := outlvlCache[g];
      } else {
        data := Read(k, g);
      }
      data := SetBit(data, nr, val);
      Write(data, k, g);
      if k == Lvl && desc.cached {
        outlvlCache := outlvlCache[g := data];
      }
      var tmp := Read(k, g);
      ok := !(verify && data != tmp);
    }

    method ReadBit(k: Kind, nr: Pin) returns (set_: bool)
      ensures set_ == BitRead(B(), S(), io.levels, k, nr)
    {
      hide Offset, IsSet, GroupOf, Mix, Merge;
      var g := GroupOf(nr);
      var data := Read(k, g);
      if k == Lvl && desc.cached {
        data := Merge(outlvlCache[g], data);
      }
      set_ := IsSet(data, nr);
    }

    /** ichx_gpio_direction_input. */
    method DirectionInput(nr: Pin) returns (ok: bool)
      modifies this, io
      ensures S() == AfterWriteBit(B(), old(S()), old(io.levels), IoSel, nr, true) && io.levels == old(io.levels)
      ensures ok == (ReadWord(B(), S(), io.levels, IoSel, GroupOf(nr)) ==
        NewWord(B(), old(S()), old(io.levels), IoSel, nr, true))
    {
      ok := WriteBit(IoSel, nr, true, true);
    }

    /** ichx_gpio_direction_output, in the order of its writes. */
    method DirectionOutput(nr: Pin, val: bool) returns (ok: bool)
      modifies this, io
      ensures S() == OutputSteps(B(), old(S()), old(io.levels), nr, val)[2] && io.levels == old(io.levels)
      ensures ok == (ReadWord(B(), S(), io.levels, IoSel, GroupOf(nr)) ==
        NewWord(B(), OutputSteps(B(), old(S()), old(io.levels), nr, val)[1], old(io.levels), IoSel, nr, false))
    {
      hide AfterWriteBit, NewWord, ReadWord;
      if nr < 32 && desc.haveBlink {
        var _ := WriteBit(Blink, nr, false, false);
      }
      var _ := WriteBit(Lvl, nr, val, false);
      ok := WriteBit(IoSel, nr, false, true);
    }

    /** ichx_gpio_set. */
    method Set(nr: Pin, val: bool)
      modifies this, io
      ensures S() == AfterWriteBit(B(), old(S()), old(io.levels), Lvl, nr, val) && io.levels == old(io.levels)
    {
      var _ := WriteBit(Lvl, nr, val, false);
    }

    /** ichx_gpio_get. */
    method Get(nr: Pin) returns (val: bool)
      ensures val == BitRead(B(), S(), io.levels, Lvl, nr)
    {
      val := ReadBit(Lvl, nr);
    }
  }

  /** The states after each write of direction_output. */
  function OutputSteps(b: Board, s: State, levels: Words, nr: Pin, val: bool): (r: seq<State>)
    ensures |r| == 3
  {
    var s0 := if nr < 32 && b.desc.haveBlink then AfterWriteBit(b, s, levels, Blink, nr, false) else s;
    var s1 := AfterWriteBit(b, s0, levels, Lvl, nr, val);
    [s0, s1, AfterWriteBit(b, s1, levels, IoSel, nr, false)]
  }
}
