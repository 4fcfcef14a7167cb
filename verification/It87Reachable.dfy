/** The main results about the it87ts cache, at every state that the driver can
    reach: what a setter followed by a refresh makes of a refreshed cache. */
module It87Reachable {
  import opened Bytes
  import opened It87Chip
  import opened It87Spec
  import opened It87Ops
  import opened It87Coherence
  import opened It87WriteThrough
  import opened It87Exactly
  import opened It87Attributes
  import opened It87Runs
  import opened It87Modes
  import opened It87Snapshot

  lemma NumberClear(n: Chan)
    ensures ByteOf(n) & 0x80 == 0
  {
    if n == 0 { } else if n == 1 { } else if n == 2 { } else if n == 3 { } else if n == 4 { } else { }
  }

  /** The defaults of a new driver keep clear of the mode bit. */
  lemma InitialClear(chip: Chip, c: Cache)
    requires forall i: Chan | 0 <= i < 6 :: c.pwms[i].duty == 0x7f && c.pwms[i].tempMap == ByteOf(i)
    ensures ModesClear(chip, c)
  {
    forall i: Chan | 0 <= i < 6
      ensures ModeBitClear(chip, c.pwms[i])
    {
      NumberClear(i);
    }
  }

  lemma ClearIsSmall(b: bv8)
    requires b & 0x80 == 0
    ensures b < 0x80
  {
  }

  lemma ClearShadows(chip: Chip, c: Cache)
    requires ModesClear(chip, c)
    ensures DutyShadow(chip, c)
  {
    forall i: Chan | 0 <= i < 6
      ensures !chip.Newer() ==> c.pwms[i].duty < 0x80
    {
      assert ModeBitClear(chip, c.pwms[i]);
      if !chip.Newer() {
        ClearIsSmall(c.pwms[i].duty);
      }
    }
  }

  /** After any run and a refresh, the cache is fresh. */
  lemma ReachableFresh(chip: Chip, s: State, events: seq<Event>)
    requires Run(chip, s, events) && ModesClear(chip, s.c)
    ensures var f := After(chip, Final(chip, s, events), Poll);
      Fresh(chip, f.m, f.c) && DutyShadow(chip, f.c)
  {
    hide Refresh, ModesClear, Final, DutyShadow;
    var r := Final(chip, s, events);
    RunClear(chip, s, events);
    EventClear(chip, r, Poll);
    ClearShadows(chip, After(chip, r, Poll).c);
    LastRefreshWins(chip, r.m, r.m, r.c);
  }

  /** From any reachable state: refresh, use any setter, refresh again. The cache
      then is what Settled says, which is as the setter left it exactly if the call
      was coherent, and every attribute that the setter is not about
      reads as before. */
  lemma SetterSeenThrough(chip: Chip, s: State, events: seq<Event>, op: Op, a: Attr)
    requires Run(chip, s, events) && ModesClear(chip, s.c) && Legal(chip, op)
    ensures var f := After(chip, Final(chip, s, events), Poll);
      var g := After(chip, After(chip, f, Set(op)), Poll);
      && g.c == Settled(chip, f.c, f.m, op, Step(chip, f.c, f.m, op))
      && (g.c == Step(chip, f.c, f.m, op).cache <==> Coherent(chip, f.c, f.m, op))
      && (!Interferes(chip, op, a) ==> Shown(chip, g.c, a) == Shown(chip, f.c, a))
  {
    hide Refresh, Step, Settled, Coherent, Interferes, Shown, Final, Legal, DutyShadow, Apply;
    ReachableFresh(chip, s, events);
    var f := After(chip, Final(chip, s, events), Poll);
    WriteThrough(chip, f.c, f.m, op);
    WriteThroughExactly(chip, f.c, f.m, op);
    if !Interferes(chip, op, a) {
      NonInterference(chip, f.c, f.m, op, a);
    }
  }
}
