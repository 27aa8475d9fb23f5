/** Tuning arithmetic: the acceleration multiplier of the frequency knob and
    the frequency delta a tuning request asks the radio for. */
module Tuning {

  /** freq_accel_t (params.h lines 53-57). */
  const FREQ_ACCEL_NONE: nat := 0
  const FREQ_ACCEL_LITE: nat := 1
  const FREQ_ACCEL_STRONG: nat := 2

  /** freq_accel only returns a value for the three enumerated settings. */
  predicate ValidAccel(setting: nat) {
    setting <= FREQ_ACCEL_STRONG
  }

  function Abs(x: int): (r: nat)
    ensures r == x || r == -x
  {
    if x < 0 then -x else x
  }

  /** freq_accel: the multiplier for a knob step of magnitude diff. Small steps
      are never accelerated; LITE gives 5 or 10 and STRONG 10 or 30 for faster
      steps. */
  function FreqAccel(setting: nat, diff: nat): (r: nat)
    requires ValidAccel(setting)
    ensures diff < 3 ==> r == 1
    ensures setting == FREQ_ACCEL_NONE ==> r == 1
    ensures setting == FREQ_ACCEL_LITE && 3 <= diff < 6 ==> r == 5
    ensures setting == FREQ_ACCEL_LITE && 6 <= diff ==> r == 10
    ensures setting == FREQ_ACCEL_STRONG && 3 <= diff < 6 ==> r == 10
    ensures setting == FREQ_ACCEL_STRONG && 6 <= diff ==> r == 30
    ensures 1 <= r <= 30
  {
    if diff < 3 then 1
    else if setting == FREQ_ACCEL_NONE then 1
    else if setting == FREQ_ACCEL_LITE then (if diff < 6 then 5 else 10)
    else (if diff < 6 then 10 else 30)
  }

  /** A faster knob never gets a smaller multiplier. */
  lemma FreqAccelMonotone(setting: nat, d1: nat, d2: nat)
    requires ValidAccel(setting)
    requires d1 <= d2
    ensures FreqAccel(setting, d1) <= FreqAccel(setting, d2)
  {
  }

  /** STRONG accelerates at least as much as LITE, and LITE at least as much as NONE. */
  lemma FreqAccelOrderedBySetting(d: nat)
    ensures FreqAccel(FREQ_ACCEL_NONE, d) <= FreqAccel(FREQ_ACCEL_LITE, d) <= FreqAccel(FREQ_ACCEL_STRONG, d)
  {
  }

  /** The conversion of the rotary callback's 32-bit count to freq_shift's
      int16_t parameter (two's-complement wrap-around). */
  function ToInt16(x: int): (r: int)
    ensures -0x8000 <= r < 0x8000
    ensures (x - r) % 0x1_0000 == 0
    ensures -0x8000 <= x < 0x8000 ==> r == x
  {
    var m := x % 0x1_0000;
    if m >= 0x8000 then m - 0x1_0000 else m
  }

  lemma MulMonotone(a: nat, b: nat, c: nat)
    requires b <= c
    ensures a * b <= a * c
  {
  }

  /** The delta freq_shift requests from the radio: diff knob steps of the
      current mode's step size, times the acceleration for |diff|. The delta has
      the direction of the knob, and its size lies between the unaccelerated
      and the 30-times accelerated delta. */
  function ShiftDelta(diff: int, step: nat, setting: nat): (r: int)
    requires ValidAccel(setting)
    ensures step > 0 ==> (r > 0 <==> diff > 0) && (r < 0 <==> diff < 0)
    ensures r == 0 <==> diff == 0 || step == 0
    ensures Abs(diff) * step <= Abs(r) <= 30 * (Abs(diff) * step)
    ensures Abs(diff) < 3 || setting == FREQ_ACCEL_NONE ==> r == diff * step
  {
    var a := FreqAccel(setting, Abs(diff));
    var r := diff * step * a;
    var n := Abs(diff) * step;
    assert Abs(r) == n * a by {
      if diff < 0 { assert r == -(n * a); }
    }
    MulMonotone(n, 1, a);
    MulMonotone(n, a, 30);
    r
  }
}
