/** The age of the cache, measured with a jiffies counter that wraps around. */
module It87Age {

  const WIDE_RANGE: nat := 0x1_0000_0000_0000_0000
  const NARROW_RANGE: nat := 0x1_0000_0000

  /** The counter of one machine: the width of a long, and ticks per second. */
  datatype Clock = Clock(wide: bool, hz: nat)
  {
    function Range(): (n: nat)
      ensures n > 0
    {
      if wide then WIDE_RANGE else NARROW_RANGE
    }

    /** A second and a half. */
    function MaxAge(): nat { hz + hz / 2 }

    /** A second and a half fits in half the counter's range. */
    predicate Valid() { 2 * MaxAge() < Range() }

    /** What the counter shows after t ticks. */
    function Jiffies(t: nat): nat { t % Range() }

    /** time_after: the difference, read as a signed long, says that a is later. */
    predicate TimeAfter(a: nat, b: nat) { (b - a) % Range() >= Range() / 2 }

    /** The test of it87_update_device for an old cache. */
    predicate Old(jiffies: nat, lastUpdated: nat) {
      TimeAfter(jiffies, (lastUpdated + MaxAge()) % Range())
    }
  }

  /** One addition modulo n wraps at most once. */
  function Wrapped(y: nat, d: nat, n: nat): int { if y + d < n then y + d else y + d - n }

  lemma WrappedAge(y: nat, a: nat, e: nat, n: nat)
    requires y < n && 2 * a < n && e < n && n % 2 == 0
    ensures var d := Wrapped(y, a, n) - Wrapped(y, e, n);
      0 - n < d < n && ((if d >= 0 then d else d + n) >= n / 2 <==> a < e <= a + n / 2)
  {
  }

  lemma WrappedWide(t: nat, d: nat)
    requires d < WIDE_RANGE
    ensures (t + d) % WIDE_RANGE == Wrapped(t % WIDE_RANGE, d, WIDE_RANGE) == (t % WIDE_RANGE + d) % WIDE_RANGE
  {
    assert t == WIDE_RANGE * (t / WIDE_RANGE) + t % WIDE_RANGE;
  }

  lemma WrappedNarrow(t: nat, d: nat)
    requires d < NARROW_RANGE
    ensures (t + d) % NARROW_RANGE == Wrapped(t % NARROW_RANGE, d, NARROW_RANGE)
      == (t % NARROW_RANGE + d) % NARROW_RANGE
  {
    assert t == NARROW_RANGE * (t / NARROW_RANGE) + t % NARROW_RANGE;
  }

  lemma NearZeroWide(d: int)
    requires 0 - WIDE_RANGE < d < WIDE_RANGE
    ensures d % WIDE_RANGE == if d >= 0 then d else d + WIDE_RANGE
  {
  }

  lemma NearZeroNarrow(d: int)
    requires 0 - NARROW_RANGE < d < NARROW_RANGE
    ensures d % NARROW_RANGE == if d >= 0 then d else d + NARROW_RANGE
  {
  }

  lemma OldWide(k: Clock, last: nat, e: nat)
    requires k.Valid() && k.wide && e < WIDE_RANGE
    ensures k.Old(k.Jiffies(last + e), k.Jiffies(last)) <==> k.MaxAge() < e <= k.MaxAge() + WIDE_RANGE / 2
  {
    var a, y := k.MaxAge(), last % WIDE_RANGE;
    hide Wrapped;
    WrappedWide(last, a);
    WrappedWide(last, e);
    WrappedAge(y, a, e, WIDE_RANGE);
    NearZeroWide(Wrapped(y, a, WIDE_RANGE) - Wrapped(y, e, WIDE_RANGE));
    assert (y + a) % WIDE_RANGE == Wrapped(y, a, WIDE_RANGE);
    assert (last + e) % WIDE_RANGE == Wrapped(y, e, WIDE_RANGE);
  }

  lemma OldNarrow(k: Clock, last: nat, e: nat)
    requires k.Valid() && !k.wide && e < NARROW_RANGE
    ensures k.Old(k.Jiffies(last + e), k.Jiffies(last)) <==> k.MaxAge() < e <= k.MaxAge() + NARROW_RANGE / 2
  {
    var a, y := k.MaxAge(), last % NARROW_RANGE;
    hide Wrapped;
    WrappedNarrow(last, a);
    WrappedNarrow(last, e);
    WrappedAge(y, a, e, NARROW_RANGE);
    NearZeroNarrow(Wrapped(y, a, NARROW_RANGE) - Wrapped(y, e, NARROW_RANGE));
    assert (y + a) % NARROW_RANGE == Wrapped(y, a, NARROW_RANGE);
    assert (last + e) % NARROW_RANGE == Wrapped(y, e, NARROW_RANGE);
  }

  /** Across a wrap of the counter too: a cache filled at tick last and looked at
      within one range of the counter counts as old exactly when it is more than
      a second and a half old and not more than half the range beyond that. */
  lemma OldExactly(k: Clock, last: nat, now: nat)
    requires k.Valid() && last <= now < last + k.Range()
    ensures k.Old(k.Jiffies(now), k.Jiffies(last)) <==>
      k.hz + k.hz / 2 < now - last <= k.hz + k.hz / 2 + if k.wide then 0x8000_0000_0000_0000 else 0x8000_0000
  {
    if k.wide {
      OldWide(k, last, now - last);
    } else {
      OldNarrow(k, last, now - last);
    }
  }
}
