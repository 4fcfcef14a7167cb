/** Unit conversions of the it87ts driver: volts, fan speeds, dividers,
    temperatures and PWM frequencies, in C's integer arithmetic. */
module It87Convert {

  function Abs(x: int): nat { if x < 0 then -x else x }

  function Clamp(x: int, lo: int, hi: int): (r: int)
    requires lo <= hi
    ensures lo <= r <= hi
  {
    if x < lo then lo else if x > hi then hi else x
  }

  /** C division by a positive number truncates toward zero. */
  function DivTrunc(x: int, d: int): int
    requires d > 0
  {
    if x >= 0 then x / d else -((-x) / d)
  }

  /** The kernel's DIV_ROUND_CLOSEST for signed operands and a positive divisor. */
  function DivRoundClosest(x: int, d: int): int
    requires d > 0
  {
    if x > 0 then DivTrunc(x + d / 2, d) else DivTrunc(x - d / 2, d)
  }

  lemma MulMono(a: int, b: int, d: int)
    requires a <= b && d >= 0
    ensures a * d <= b * d
  {
  }

  lemma MulStep(a: int, b: int, d: int)
    requires a < b && d >= 0
    ensures a * d + d <= b * d
  {
    MulMono(a + 1, b, d);
  }

  lemma DivBounds(x: nat, d: int)
    requires d > 0
    ensures (x / d) * d <= x < (x / d) * d + d
  {
  }

  /** Quotients are unique. */
  lemma SameQuotient(x: int, d: int, k: int, q: int)
    requires d > 0 && k * d <= x < k * d + d && q * d <= x < q * d + d
    ensures k == q
  {
    if k < q {
      MulStep(k, q, d);
    } else if q < k {
      MulStep(q, k, d);
    }
  }

  lemma DivUnique(x: nat, d: int, q: int)
    requires d > 0 && q * d <= x < q * d + d
    ensures x / d == q
  {
    DivBounds(x, d);
    SameQuotient(x, d, x / d, q);
  }

  // ---------------------------------------------------------------- volts

  /** The ADC steps of the chip families, in tenths of a millivolt. */
  predicate AdcStep(lsb: int) { lsb in {109, 110, 120, 160, 218, 220, 240, 320} }

  function InToReg(lsb: int, val: int): (r: nat)
    requires lsb > 0
    ensures r < 256
  {
    Clamp(DivRoundClosest(val * 10, lsb), 0, 255)
  }

  function InFromReg(lsb: int, v: int): int
    requires lsb > 0
  {
    DivRoundClosest(v * lsb, 10)
  }

  lemma InFromRegBounds(lsb: int, v: nat)
    requires lsb > 0
    ensures v * lsb - 5 <= InFromReg(lsb, v) * 10 <= v * lsb + 5
  {
    assert v * lsb >= 0;
  }

  /** Rounding to the nearest multiple of lsb finds it from 5 units away. */
  lemma NearestCode(lsb: int, v: nat, m: nat)
    requires lsb >= 12 && v > 0 && v * lsb - 5 <= m * 10 <= v * lsb + 5
    ensures DivRoundClosest(m * 10, lsb) == v
  {
    MulMono(1, v, lsb);
    DivUnique(m * 10 + lsb / 2, lsb, v);
  }

  /** A stored voltage limit reads back as itself at every ADC step. */
  lemma InRoundTrip(lsb: int, v: nat)
    requires AdcStep(lsb) && v < 256
    ensures InToReg(lsb, InFromReg(lsb, v)) == v
  {
    if v > 0 {
      InFromRegBounds(lsb, v);
      NearestCode(lsb, v, InFromReg(lsb, v));
    }
  }

  lemma InToRegIs(lsb: int, val: nat)
    requires lsb > 0
    ensures InToReg(lsb, val) == Clamp((val * 10 + lsb / 2) / lsb, 0, 255)
  {
    if val == 0 {
      DivUnique(lsb / 2, lsb, 0);
    }
  }

  /** The code of a voltage in range is within half a step of it. */
  lemma InCodeBounds(lsb: int, val: nat, code: nat)
    requires lsb > 0 && 10 * val <= 255 * lsb + lsb / 2 && code == InToReg(lsb, val)
    ensures 2 * Abs(code * lsb - 10 * val) <= lsb
  {
    var x := val * 10 + lsb / 2;
    InToRegIs(lsb, val);
    DivBounds(x, lsb);
    if x / lsb > 255 {
      MulStep(255, x / lsb, lsb);
    }
  }

  /** In range, storing a voltage moves it by at most half a step plus half a
      millivolt. */
  lemma InError(lsb: int, val: nat)
    requires AdcStep(lsb) && 10 * val <= 255 * lsb + lsb / 2
    ensures 20 * Abs(InFromReg(lsb, InToReg(lsb, val)) - val) <= lsb + 10
  {
    InCodeBounds(lsb, val, InToReg(lsb, val));
    InFromRegBounds(lsb, InToReg(lsb, val));
  }

  // ------------------------------------------------------------------ fans

  const CLOCK: nat := 1350000

  function FanToReg(rpm: int, div: int): (r: nat)
    requires div > 0
    ensures 1 <= r <= 255
    ensures r == 255 <==> rpm == 0
  {
    if rpm == 0 then 255
    else
      var s := Clamp(rpm, 1, 1000000);
      MulMono(1, s, div);
      Clamp((CLOCK + s * div / 2) / (s * div), 1, 254)
  }

  function Fan16ToReg(rpm: int): (r: nat)
    ensures 1 <= r <= 0xffff
    ensures r == 0xffff <==> rpm == 0
  {
    if rpm == 0 then 0xffff
    else
      var s := Clamp(rpm, 1, 1000000);
      Clamp((CLOCK + s) / (s * 2), 1, 0xfffe)
  }

  function FanFromReg(v: nat, div: int): int
    requires div > 0
  {
    if v == 0 then -1 else if v == 255 then 0
    else
      MulMono(1, v, div);
      CLOCK / (v * div)
  }

  function Fan16FromReg(v: nat): int {
    if v == 0 then -1 else if v == 0xffff then 0 else CLOCK / (v * 2)
  }

  /** The unclamped code: clock ticks per revolution, rounded half up. */
  function Ticks(rpm: nat, div: nat): nat
    requires rpm > 0 && div > 0
  {
    MulMono(1, rpm, div);
    (CLOCK + rpm * div / 2) / (rpm * div)
  }

  /** An unclamped code is within half a tick of the speed it encodes. */
  lemma TicksError(rpm: nat, div: nat)
    requires rpm > 0 && div > 0
    ensures 2 * Abs(CLOCK - Ticks(rpm, div) * (rpm * div)) <= rpm * div
  {
    MulMono(1, rpm, div);
    DivBounds(CLOCK + rpm * div / 2, rpm * div);
  }

  lemma HalvesApart(p: nat, q: nat, t: nat)
    requires p <= q && t > 0
    ensures t * p - p / 2 <= t * q - q / 2
  {
    MulMono(p, q, t - 1);
    assert (t - 1) * p == t * p - p && (t - 1) * q == t * q - q;
  }

  lemma RoundedQuotientAntitone(p: nat, q: nat, t: nat)
    requires 0 < p <= q && t == (CLOCK + q / 2) / q
    ensures (CLOCK + p / 2) / p >= t
  {
    var u := (CLOCK + p / 2) / p;
    DivBounds(CLOCK + q / 2, q);
    DivBounds(CLOCK + p / 2, p);
    if u < t {
      HalvesApart(p, q, t);
      MulStep(u, t, p);
    }
  }

  lemma TicksAntitone(slow: nat, fast: nat, div: nat)
    requires 0 < slow <= fast && div > 0
    ensures Ticks(slow, div) >= Ticks(fast, div)
  {
    MulMono(1, slow, div);
    MulMono(slow, fast, div);
    RoundedQuotientAntitone(slow * div, fast * div, Ticks(fast, div));
  }

  /** Asking for a faster minimum never stores a larger code; 0 rpm, which
      disables the limit, has the largest code of all. */
  lemma FanCodeAntitone(slow: nat, fast: nat, div: nat)
    requires slow <= fast && div > 0
    ensures FanToReg(slow, div) >= FanToReg(fast, div)
    ensures Fan16ToReg(slow) >= Fan16ToReg(fast)
  {
    if slow > 0 {
      TicksAntitone(Clamp(slow, 1, 1000000), Clamp(fast, 1, 1000000), div);
      TicksAntitone(Clamp(slow, 1, 1000000), Clamp(fast, 1, 1000000), 2);
    }
  }

  /** Rounding a truncated quotient back: with r = CLOCK / n and n = v * d, the
      code of r rpm is v exactly when the remainder is under half of r * d. */
  lemma TicksOfQuotient(v: nat, d: nat, r: nat)
    requires v > 0 && d > 0 && v * d > 0 && r == CLOCK / (v * d) > 0
    ensures Ticks(r, d) >= v
    ensures Ticks(r, d) == v <==> 2 * (CLOCK % (v * d)) < r * d
  {
    var n, p := v * d, r * d;
    MulMono(1, r, d);
    var x := CLOCK + p / 2;
    assert v * p == n * r;
    assert CLOCK == n * r + CLOCK % n;
    DivBounds(x, p);
    if Ticks(r, d) < v {
      MulStep(Ticks(r, d), v, p);
    }
    if x < v * p + p {
      DivUnique(x, p, v);
    }
  }

  /** A stored 8-bit limit survives being read and stored again exactly when
      this holds. */
  predicate Stable(v: nat, d: nat)
    requires v > 0 && d > 0
  {
    MulMono(1, v, d);
    v == 254 || 2 * (CLOCK % (v * d)) < CLOCK / (v * d) * d
  }

  /** The limit code v with divider d reads as CLOCK / (v * d) rpm; stored again
      with that divider it is v if and only if Stable(v, d). */
  lemma SpeedRoundTrip(v: nat, d: nat, speed: int)
    requires 1 <= v <= 254 && d > 0 && v * d <= 0x1_0000
    requires speed == CLOCK / (v * d)
    ensures FanToReg(speed, d) == v <==> Stable(v, d)
  {
    MulMono(1, v, d);
    var n := v * d;
    DivBounds(CLOCK, n);
    if n == 1 {
      assert v == 1 && d == 1;
    } else {
      TwoTicks(n, speed);
      TicksOfQuotient(v, d, speed);
    }
  }

  /** The code 0 is shown as -1 rpm, which is stored as the lowest speed. */
  lemma ZeroCode(d: nat)
    requires 1 <= d <= 128
    ensures FanToReg(FanFromReg(0, d), d) == 254
  {
    DivBounds(CLOCK + d / 2, d);
    var q := (CLOCK + d / 2) / d;
    if q < 254 {
      MulMono(q + 1, 254, d);
    }
  }

  /** An 8-bit limit code, shown and stored again with its divider, is the same code
      if and only if it is the disabled one or stable. */
  lemma FanRoundTrip(v: nat, d: nat)
    requires v <= 255 && 1 <= d <= 128
    ensures FanToReg(FanFromReg(v, d), d) == v <==> v == 255 || (v > 0 && Stable(v, d))
  {
    if v == 0 {
      ZeroCode(d);
    } else if v < 255 {
      MulMono(v, 254, d);
      SpeedRoundTrip(v, d, FanFromReg(v, d));
    }
  }

  lemma TwoTicks(n: nat, speed: nat)
    requires 2 <= n <= 0x2_0000 && speed == CLOCK / n
    ensures 1 <= speed <= 1000000
  {
    DivBounds(CLOCK, n);
    if speed > 675000 {
      MulMono(675001, speed, n);
    }
  }

  /** Codes small against the clock are stable. */
  lemma SmallCodesStable(v: nat, d: nat)
    requires v > 0 && d > 0 && 2 * v * v * d <= CLOCK
    ensures Stable(v, d)
  {
    MulMono(1, v, d);
    var n := v * d;
    assert 2 * v * v * d == (2 * v) * n;
    DivBounds(CLOCK, n);
    if CLOCK / n < 2 * v {
      MulStep(CLOCK / n, 2 * v, n);
    }
    MulMono(2 * v, CLOCK / n, d);
    assert (2 * v) * d == 2 * n;
  }

  /** Every 8-bit code is stable for the dividers 1, 2, 4 and 8. */
  lemma FanRoundTripSmallDivider(v: nat, d: nat)
    requires 1 <= v <= 254 && 1 <= d <= 8
    ensures FanToReg(FanFromReg(v, d), d) == v
  {
    MulMono(v, 254, v);
    MulMono(v, 254, 254);
    MulMono(1, v, d);
    assert v * d <= 254 * 8 by { MulMono(v, 254, d); }
    assert 2 * v * v * d <= CLOCK by {
      MulMono(2 * v * v, 2 * 254 * 254, d);
    }
    SmallCodesStable(v, d);
    SpeedRoundTrip(v, d, FanFromReg(v, d));
  }

  /** What survives in 16-bit mode. */
  predicate Stable16(v: nat)
    requires v > 0
  {
    v == 0xfffe || CLOCK % (v * 2) < CLOCK / (v * 2)
  }

  /** In 16-bit mode a limit code, shown and stored again, is the same code if and
      only if it is the disabled one or this holds. */
  lemma Fan16RoundTrip(v: nat)
    requires v <= 0xffff
    ensures Fan16ToReg(Fan16FromReg(v)) == v <==> v == 0xffff || (v > 0 && Stable16(v))
  {
    if 0 < v < 0xffff {
      var r := CLOCK / (v * 2);
      TwoTicks(v * 2, r);
      TicksOfQuotient(v, 2, r);
      assert Fan16ToReg(r) == Clamp(Ticks(r, 2), 1, 0xfffe);
    }
  }

  /** The codes up to 580 do. */
  lemma SmallCodesStable16(v: nat)
    requires 1 <= v <= 580
    ensures Stable16(v)
  {
    var n, r := v * 2, CLOCK / (v * 2);
    MulMono(v, 580, v);
    assert 2 * v * v * 2 == (2 * v) * n;
    DivBounds(CLOCK, n);
    if r < 2 * v {
      MulStep(r, 2 * v, n);
    }
  }

  /** Changing the divider from d1 to d2 re-encodes the limit v as exactly k
      when k clock counts at d2 are v at d1, if and only if k is stable at d2. */
  lemma DividerChange(v: nat, d1: nat, k: nat, d2: nat)
    requires 1 <= v <= 254 && 1 <= k <= 254 && d1 > 0 && d2 > 0
    requires v * d1 == k * d2 <= 0x1_0000
    ensures FanToReg(FanFromReg(v, d1), d2) == k <==> Stable(k, d2)
  {
    SpeedRoundTrip(k, d2, FanFromReg(v, d1));
  }

  /** With a new divider of at most 8 the limit is kept exactly, whatever the old
      one was, and a change back to the old divider restores the old code. */
  lemma DividerKeepsLimit(v: nat, d1: nat, k: nat, d2: nat)
    requires 1 <= v <= 254 && 1 <= k <= 254 && d1 > 0 && 1 <= d2 <= 8
    requires v * d1 == k * d2
    ensures FanToReg(FanFromReg(v, d1), d2) == k
    ensures FanFromReg(k, d2) == FanFromReg(v, d1)
    ensures FanToReg(FanFromReg(k, d2), d1) == v
  {
    FanRoundTripSmallDivider(k, d2);
    MulMono(k, 254, d2);
    assert v * d1 <= 254 * 8;
    ProductBound(v, d1);
    SmallCodesStable(v, d1);
    DividerChange(k, d2, v, d1);
  }

  lemma ProductBound(v: nat, d: nat)
    requires v <= 254 && v * d <= 254 * 8
    ensures 2 * v * v * d <= CLOCK
  {
    assert 2 * v * v * d == (2 * v) * (v * d);
    MulMono(2 * v, 508, v * d);
  }

  /** The disabled limit stays disabled under every divider. */
  lemma DividerKeepsDisabled(d1: nat, d2: nat)
    requires d1 > 0 && d2 > 0
    ensures FanToReg(FanFromReg(255, d1), d2) == 255
  {
  }

  /** The largest divider is too coarse for some codes: 200 becomes 203. */
  lemma DividerCanLoseLimit()
    ensures FanToReg(FanFromReg(200, 128), 128) != 200
    ensures !Stable(200, 128)
  {
  }

  // -------------------------------------------------------------- dividers

  /** The loop of DIV_TO_REG, from a given answer. The shift is arithmetic. */
  function DivSteps(val: int, answer: nat): (r: nat)
    requires answer <= 7
    decreases 7 - answer
  {
    if answer < 7 && val / 2 != 0 then DivSteps(val / 2, answer + 1) else answer
  }

  function DivToReg(val: int): nat { DivSteps(val, 0) }

  function DivFromReg(code: nat): (d: nat)
    ensures d > 0
  {
    if code == 0 then 1 else 2 * DivFromReg(code - 1)
  }

  method ComputeDivToReg(val: int) returns (answer: nat)
    ensures answer == DivToReg(val)
  {
    answer := 0;
    var v := val;
    while answer < 7 && v / 2 != 0
      invariant answer <= 7
      invariant DivSteps(v, answer) == DivToReg(val)
      decreases 7 - answer
    {
      v := v / 2;
      answer := answer + 1;
    }
  }

  lemma {:induction false} DivStepsIsLog(val: nat, answer: nat)
    requires val > 0 && answer <= 7
    ensures var r := DivSteps(val, answer);
      && answer <= r <= 7
      && DivFromReg(r - answer) <= val
      && (r < 7 ==> val < 2 * DivFromReg(r - answer))
    decreases 7 - answer
  {
    if answer < 7 && val / 2 != 0 {
      DivStepsIsLog(val / 2, answer + 1);
    }
  }

  /** The divider code is the binary logarithm, rounded down and capped at 7. */
  lemma DivToRegIsLog(val: nat)
    requires val > 0
    ensures DivToReg(val) <= 7 && DivFromReg(DivToReg(val)) <= val
    ensures DivToReg(val) < 7 ==> val < 2 * DivFromReg(DivToReg(val))
  {
    DivStepsIsLog(val, 0);
  }

  // ---------------------------------------------------------- temperatures

  function TempToReg(val: int): (r: int)
    ensures -128 <= r <= 127
  {
    Clamp(if val < 0 then DivTrunc(val - 500, 1000) else DivTrunc(val + 500, 1000), -128, 127)
  }

  function TempFromReg(t: int): int { t * 1000 }

  lemma TempRoundTrip(t: int)
    requires -128 <= t <= 127
    ensures TempToReg(TempFromReg(t)) == t
  {
  }

  /** Rounding is monotone straight through zero, and off by at most half a
      degree where it is not clamped. */
  lemma TempMonotone(a: int, b: int)
    requires a <= b
    ensures TempToReg(a) <= TempToReg(b)
    ensures -128000 <= a <= 127000 ==> Abs(TempFromReg(TempToReg(a)) - a) <= 500
  {
  }

  // ----------------------------------------------------------- frequencies

  const PWM_FREQ: seq<nat> := [48000000, 24000000, 12000000, 8000000, 6000000, 3000000, 1500000, 750000]

  /** The search loop of set_pwm_freq, from a given index. */
  function FreqSearch(val: nat, i: nat): (r: nat)
    requires i <= 7
    ensures i <= r <= 7
    decreases 7 - i
  {
    if i < 7 && val <= (PWM_FREQ[i] + PWM_FREQ[i + 1]) / 2 then FreqSearch(val, i + 1) else i
  }

  function FreqScale(newer: bool): nat { if newer then 256 else 128 }

  function FreqToReg(newer: bool, val: nat): (r: nat)
    ensures r <= 7
  {
    FreqSearch(Clamp(val, 0, 1000000) * FreqScale(newer), 0)
  }

  function FreqFromReg(newer: bool, i: nat): nat
    requires i <= 7
  {
    PWM_FREQ[i] / FreqScale(newer)
  }

  method ComputeFreqToReg(newer: bool, val: nat) returns (i: nat)
    ensures i == FreqToReg(newer, val)
  {
    var scaled := Clamp(val, 0, 1000000) * FreqScale(newer);
    i := 0;
    while i < 7 && scaled <= (PWM_FREQ[i] + PWM_FREQ[i + 1]) / 2
      invariant i <= 7
      invariant FreqSearch(scaled, i) == FreqToReg(newer, val)
    {
      i := i + 1;
    }
  }

  lemma {:induction false} FreqSearchPlace(val: nat, i: nat)
    requires i <= 7
    requires i > 0 ==> val <= (PWM_FREQ[i - 1] + PWM_FREQ[i]) / 2
    ensures var r := FreqSearch(val, i);
      && (r > 0 ==> val <= (PWM_FREQ[r - 1] + PWM_FREQ[r]) / 2)
      && (r < 7 ==> val > (PWM_FREQ[r] + PWM_FREQ[r + 1]) / 2)
    decreases 7 - i
  {
    if i < 7 && val <= (PWM_FREQ[i] + PWM_FREQ[i + 1]) / 2 {
      FreqSearchPlace(val, i + 1);
    }
  }

  lemma FreqDescending(i: nat, j: nat)
    requires i <= j <= 7
    ensures PWM_FREQ[i] >= PWM_FREQ[j]
  {
  }

  lemma FreqEven(i: nat)
    requires i <= 7
    ensures PWM_FREQ[i] % 2 == 0
  {
  }

  /** The entry found is at minimal distance; at a tie it is the slower one. */
  lemma FreqNearest(val: nat, j: nat)
    requires j <= 7
    ensures var r := FreqSearch(val, 0);
      && Abs(val - PWM_FREQ[r]) <= Abs(val - PWM_FREQ[j])
      && (j > r ==> Abs(val - PWM_FREQ[r]) < Abs(val - PWM_FREQ[j]))
  {
    var r := FreqSearch(val, 0);
    FreqSearchPlace(val, 0);
    FreqEven(r);
    if j < r {
      FreqDescending(j, r - 1);
      FreqEven(r - 1);
      FreqDescending(r - 1, r);
    } else if j > r {
      FreqDescending(r + 1, j);
      FreqEven(r + 1);
      FreqDescending(r, r + 1);
    }
  }

  /** A frequency as shown sets the register code it was shown for. */
  lemma FreqRoundTrip(newer: bool, i: nat)
    requires i <= 7
    ensures FreqToReg(newer, FreqFromReg(newer, i)) == i
  {
    var scaled := Clamp(FreqFromReg(newer, i), 0, 1000000) * FreqScale(newer);
    FreqSearchPlace(scaled, 0);
    FreqShownInPlace(newer, i);
    var r := FreqSearch(scaled, 0);
    if r < i {
      FreqDescending(r, i - 1);
      FreqDescending(r + 1, i);
    } else if i < r {
      FreqDescending(i, r - 1);
      FreqDescending(i + 1, r);
    }
  }

  lemma FreqShownInPlace(newer: bool, i: nat)
    requires i <= 7
    ensures var scaled := Clamp(FreqFromReg(newer, i), 0, 1000000) * FreqScale(newer);
      && (i > 0 ==> scaled <= (PWM_FREQ[i - 1] + PWM_FREQ[i]) / 2)
      && (i < 7 ==> scaled > (PWM_FREQ[i] + PWM_FREQ[i + 1]) / 2)
  {
  }
}
