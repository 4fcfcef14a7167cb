/** Changing a tachometer divider: what set_fan_div does to the speed limit. */
module It87Divider {
  import opened Bytes
  import opened It87Chip
  import opened It87Convert
  import opened It87Spec
  import opened It87Coherence

  /** The limit code of a channel is v, read with divider code d. */
  predicate Limit(c: Cache, nr: Third, v: nat, d: bv8) {
    v <= 255 && c.fans[nr].min == Join(ByteOf(v), 0) && c.fanDiv[nr] == d
  }

  lemma JoinedByte(v: nat)
    requires v <= 255
    ensures Join(ByteOf(v), 0) as nat == v
  {
    JoinValue(ByteOf(v), 0);
  }

  lemma DivStored(c: Cache, m: Regs, nr: Third, val: nat, b: nat)
    requires b <= 255 && RescaledLimit(c, nr, NewDivCode(nr, val)) == ByteOf(b)
    ensures Limit(SetFanDiv(c, m, nr, val).cache, nr, b, NewDivCode(nr, val))
  {
    hide RescaledLimit, NewDivCode, ByteOf, Join, PackDiv;
  }

  lemma Rescaled(c: Cache, nr: Third, v: nat, d: bv8, code: bv8)
    requires Limit(c, nr, v, d)
    ensures RescaledLimit(c, nr, code) == ByteOf(FanToReg(FanFromReg(v, Divider(d)), Divider(code)))
  {
    JoinedByte(v);
    hide FanToReg, FanFromReg, Divider, ByteOf, Join;
  }

  lemma LimitUnique(c: Cache, nr: Third, v: nat, w: nat, d: bv8)
    requires Limit(c, nr, v, d) && Limit(c, nr, w, d)
    ensures v == w
  {
    JoinedByte(v);
    JoinedByte(w);
    hide ByteOf, Join;
  }

  lemma NewDividerBound(nr: Third, val: nat)
    ensures Divider(NewDivCode(nr, val)) <= 128
  {
    DivToRegBound(val);
    if nr < 2 {
      PowerMono(DivToReg(val), 7);
    } else {
      PowersOfTwo(NewDivCode(nr, val));
    }
    assert DivFromReg(7) == 128;
    hide DivToReg;
  }

  /** set_fan_div keeps the limit exactly: when the clock counts of the old code
      are a whole code k at the new divider, the new code is k if and only if k is
      stable there, which it is for dividers of at most 8; k reads as before. */
  lemma FanDivKeepsLimit(c: Cache, m: Regs, nr: Third, val: nat, v: nat, d: bv8, k: nat)
    requires Limit(c, nr, v, d) && 1 <= v <= 254 && 1 <= k <= 254
    requires v * Divider(d) == k * Divider(NewDivCode(nr, val))
    ensures var code := NewDivCode(nr, val);
      && (Limit(SetFanDiv(c, m, nr, val).cache, nr, k, code) <==> Stable(k, Divider(code)))
      && (Divider(code) <= 8 ==> Stable(k, Divider(code)))
      && FanFromReg(k, Divider(code)) == FanFromReg(v, Divider(d))
  {
    var code := NewDivCode(nr, val);
    var b := FanToReg(FanFromReg(v, Divider(d)), Divider(code));
    Rescaled(c, nr, v, d, code);
    NewDividerBound(nr, val);
    MulMono(k, 254, Divider(code));
    DividerChange(v, Divider(d), k, Divider(code));
    DivStored(c, m, nr, val, b);
    if Divider(code) <= 8 {
      DividerKeepsLimit(v, Divider(d), k, Divider(code));
    }
    hide SetFanDiv, FanToReg, Divider, NewDivCode, Stable;
    if Limit(SetFanDiv(c, m, nr, val).cache, nr, k, code) {
      LimitUnique(SetFanDiv(c, m, nr, val).cache, nr, k, b, code);
    }
    hide Limit;
  }

  /** A disabled limit stays disabled under every divider. */
  lemma FanDivKeepsDisabled(c: Cache, m: Regs, nr: Third, val: nat, d: bv8)
    requires Limit(c, nr, 255, d)
    ensures Limit(SetFanDiv(c, m, nr, val).cache, nr, 255, NewDivCode(nr, val))
  {
    var code := NewDivCode(nr, val);
    Rescaled(c, nr, 255, d, code);
    DividerKeepsDisabled(Divider(d), Divider(code));
    DivStored(c, m, nr, val, 255);
  }

  /** A limit of code 0, which shows as -1, becomes 254 under every divider. */
  lemma FanDivEndsZeroLimit(c: Cache, m: Regs, nr: Third, val: nat, d: bv8)
    requires Limit(c, nr, 0, d)
    ensures Limit(SetFanDiv(c, m, nr, val).cache, nr, 254, NewDivCode(nr, val))
  {
    var code := NewDivCode(nr, val);
    Rescaled(c, nr, 0, d, code);
    NewDividerBound(nr, val);
    ZeroCode(Divider(code));
    DivStored(c, m, nr, val, 254);
    hide Limit, SetFanDiv, NewDivCode;
  }

  lemma PowersOfTwo(d: bv8)
    requires d < 8
    ensures Divider(d) == if d == 0 then 1 else if d == 1 then 2 else if d == 2 then 4 else if d == 3 then 8
      else if d == 4 then 16 else if d == 5 then 32 else if d == 6 then 64 else 128
  {
    assert DivFromReg(0) == 1 && DivFromReg(1) == 2 && DivFromReg(2) == 4 && DivFromReg(3) == 8;
    assert DivFromReg(4) == 16 && DivFromReg(5) == 32 && DivFromReg(6) == 64 && DivFromReg(7) == 128;
  }

  lemma LogOfPower(n: nat)
    requires n <= 7
    ensures DivToReg(DivFromReg(n)) == n
  {
    DivToRegIsLog(DivFromReg(n));
    var r := DivToReg(DivFromReg(n));
    if r < n {
      PowerMono(r + 1, n);
    } else if r > n {
      PowerMono(n + 1, r);
    }
  }

  lemma {:induction false} PowerMono(i: nat, j: nat)
    requires i <= j
    ensures DivFromReg(i) <= DivFromReg(j)
  {
    if i < j {
      PowerMono(i, j - 1);
    }
  }

  /** Asking for a divider that the channel can have chooses exactly it. */
  lemma DividerAskedFor(nr: Third, d: bv8)
    requires DivCode(nr, d)
    ensures NewDivCode(nr, Divider(d)) == d
  {
    if nr < 2 {
      SmallCode(d);
      LogOfPower(d as nat);
      DivToRegBound(Divider(d));
      ByteOfByte(d);
    } else {
      PowersOfTwo(d);
    }
  }

  lemma SmallCode(d: bv8)
    requires d < 8
    ensures d as nat <= 7
  {
  }

  /** Changing the divider and changing it back: if the code was kept on the way, it
      is restored if and only if it is stable at the old divider; with a new
      divider of at most 8 both are so. */
  lemma FanDivAndBack(c: Cache, m: Regs, n: Regs, nr: Third, val: nat, v: nat, d: bv8, k: nat)
    requires DivCode(nr, d) && Limit(c, nr, v, d) && 1 <= v <= 254 && 1 <= k <= 254
    requires v * Divider(d) == k * Divider(NewDivCode(nr, val))
    ensures var e := SetFanDiv(c, m, nr, val);
      var back := SetFanDiv(e.cache, n, nr, Divider(d));
      && (Stable(k, Divider(NewDivCode(nr, val))) ==> (Limit(back.cache, nr, v, d) <==> Stable(v, Divider(d))))
      && (Divider(NewDivCode(nr, val)) <= 8 ==> Limit(back.cache, nr, v, d))
  {
    var code := NewDivCode(nr, val);
    var e := SetFanDiv(c, m, nr, val);
    FanDivKeepsLimit(c, m, nr, val, v, d, k);
    DividerAskedFor(nr, d);
    hide Limit, SetFanDiv, FanToReg, FanFromReg, Divider, NewDivCode, Stable;
    if Stable(k, Divider(code)) {
      FanDivKeepsLimit(e.cache, n, nr, Divider(d), k, code, v);
      if Divider(code) <= 8 {
        SmallClocksStable(v, Divider(d), k, Divider(code));
      }
    }
  }

  lemma SmallClocksStable(v: nat, d1: nat, k: nat, d2: nat)
    requires 1 <= v <= 254 && 1 <= k <= 254 && d1 > 0 && 1 <= d2 <= 8 && v * d1 == k * d2
    ensures Stable(v, d1)
  {
    MulMono(k, 254, d2);
    ProductBound(v, d1);
    SmallCodesStable(v, d1);
  }
}
