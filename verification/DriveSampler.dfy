/** Sampling the delay to the next drift attempt by inverting the accumulated idle drive
    (packages/gate/src/drive.ts), over real numbers. */
module DriveSampler {

  /** Stands for x |-> exp(-x) on non-negative arguments: positive, at most 1, decreasing more slowly than x grows. */
  ghost predicate IsDecay(decay: real -> real) {
    && decay(0.0) == 1.0
    && (forall x: real :: x >= 0.0 ==> 0.0 < decay(x) <= 1.0)
    && (forall x: real, y: real :: 0.0 <= x < y ==> decay(y) <= decay(x) && decay(x) - decay(y) < y - x)
  }

  /** Stands for u |-> -log1p(-u) on [0, 1). */
  ghost predicate IsHazard(hazard: real -> real) {
    hazard(0.0) == 0.0 && forall u: real :: 0.0 < u < 1.0 ==> hazard(u) > 0.0
  }

  const MAX_DRAW := 1.0 - 0.000000000001

  function Max(a: real, b: real): real {
    if a >= b then a else b
  }

  function Min(a: real, b: real): real {
    if a <= b then a else b
  }

  function Bounded(value: real): real {
    Min(1.0, Max(0.0, value))
  }

  /** The part of the rate that a suppression leaves: at least a tenth. */
  function Remaining(suppression: real): (part: real)
    ensures 0.1 <= part <= 1.0
    ensures suppression <= 0.0 ==> part == 1.0
    ensures suppression >= 1.0 ==> part == 0.1
    ensures 0.0 <= suppression <= 1.0 ==> part == 1.0 - 0.9 * suppression
  {
    1.0 - 0.9 * Bounded(suppression)
  }

  /** A rate with one suppression applied: its sign stays, and at most nine tenths of it go. */
  function Calmed(rate: real, suppression: real): (r: real)
    ensures r > 0.0 <==> rate > 0.0
    ensures r == 0.0 <==> rate == 0.0
    ensures rate >= 0.0 ==> 0.1 * rate <= r <= rate
    ensures suppression <= 0.0 ==> r == rate
    ensures suppression >= 1.0 ==> r == rate * 0.1
  {
    var part := Remaining(suppression);
    var r := rate * part;
    SignOfProduct(rate, part);
    ShrunkProduct(rate, part, r);
    r
  }

  function Scale(maxRate: real, recent: real, repetition: real): (scale: real)
    ensures scale > 0.0 <==> maxRate > 0.0
    ensures scale == 0.0 <==> maxRate == 0.0
    ensures maxRate >= 0.0 ==> 0.01 * maxRate <= scale <= maxRate
    ensures recent <= 0.0 && repetition <= 0.0 ==> scale == maxRate
    ensures recent >= 1.0 && repetition <= 0.0 ==> scale == maxRate * 0.1
    ensures recent <= 0.0 && repetition >= 1.0 ==> scale == maxRate * 0.1
  {
    var once := Calmed(maxRate, recent);
    assert maxRate >= 0.0 ==> once >= 0.0 && 0.1 * once >= 0.01 * maxRate;
    Calmed(once, repetition)
  }

  lemma {:induction false} ShrunkProduct(x: real, part: real, product: real)
    requires 0.1 <= part <= 1.0 && product == x * part
    ensures x >= 0.0 ==> 0.1 * x <= product <= x
    ensures part == 1.0 ==> product == x
  {
    if x >= 0.0 {
      NonNegativeProduct(x, part - 0.1);
      NonNegativeProduct(x, 1.0 - part);
    }
  }

  lemma {:induction false} NonNegativeProduct(x: real, y: real)
    requires x >= 0.0 && y >= 0.0
    ensures x * y >= 0.0
  {
  }

  lemma {:induction false} SignOfProduct(x: real, positive: real)
    requires positive > 0.0
    ensures x * positive > 0.0 <==> x > 0.0
    ensures x * positive == 0.0 <==> x == 0.0
  {
    if x > 0.0 {
      assert x * positive > 0.0;
    } else if x < 0.0 {
      assert (-x) * positive > 0.0;
      assert x * positive == -((-x) * positive);
    }
  }

  function Target(draw: real, hazard: real -> real): real {
    hazard(Min(MAX_DRAW, Max(0.0, draw)))
  }

  /** Idle time minus what the decay withholds: the integral of the idle drive at unit scale. */
  function Drive(decay: real -> real, hours: real): real {
    hours - 4.0 * (1.0 - decay(hours / 4.0))
  }

  /** As of exp(-x): it falls no faster than its value at the start of a stretch and no slower than that at its end. */
  ghost predicate FallsByItself(decay: real -> real) {
    forall x: real, y: real :: 0.0 <= x < y ==>
      decay(y) * (y - x) <= decay(x) - decay(y) <= decay(x) * (y - x)
  }

  /** Drive accumulates the idle drive 1 - exp(-h/4): over any stretch it grows by the stretch times a value between the
      idle drive at its start and that at its end. */
  lemma {:induction false} DriveAccumulates(decay: real -> real, a: real, b: real)
    requires FallsByItself(decay) && decay(0.0) == 1.0 && 0.0 <= a < b
    ensures Drive(decay, 0.0) == 0.0
    ensures (b - a) * (1.0 - decay(a / 4.0)) <= Drive(decay, b) - Drive(decay, a) <= (b - a) * (1.0 - decay(b / 4.0))
  {
    var x, y := a / 4.0, b / 4.0;
    assert decay(y) * (y - x) <= decay(x) - decay(y) <= decay(x) * (y - x);
    Quadrupled(decay(x), y - x);
    Quadrupled(decay(y), y - x);
  }

  lemma {:induction false} Quadrupled(value: real, length: real)
    ensures 4.0 * (value * length) == value * (4.0 * length)
    ensures (4.0 * length) * (1.0 - value) == 4.0 * length - value * (4.0 * length)
  {
  }

  function IntegratedIdleDrive(decay: real -> real, hours: real, scale: real): real {
    scale * Drive(decay, hours)
  }

  lemma {:induction false} DriveGrows(decay: real -> real, a: real, b: real)
    requires IsDecay(decay) && 0.0 <= a < b
    ensures Drive(decay, a) < Drive(decay, b)
  {
    assert decay(a / 4.0) - decay(b / 4.0) < b / 4.0 - a / 4.0;
  }

  lemma {:induction false} DriveUnbounded(decay: real -> real, hours: real)
    requires IsDecay(decay) && hours >= 0.0
    ensures Drive(decay, hours) > hours - 4.0
  {
    assert decay(hours / 4.0) > 0.0;
  }

  /** The mass gained between two times. */
  function Gain(decay: real -> real, start: real, hours: real, scale: real): real {
    IntegratedIdleDrive(decay, hours, scale) - IntegratedIdleDrive(decay, start, scale)
  }

  lemma {:induction false} GainFactors(decay: real -> real, start: real, hours: real, scale: real)
    ensures Gain(decay, start, hours, scale) == scale * (Drive(decay, hours) - Drive(decay, start))
  {
  }

  lemma {:induction false} GainGrows(decay: real -> real, start: real, a: real, b: real, scale: real)
    requires IsDecay(decay) && 0.0 <= a <= b && scale >= 0.0
    ensures Gain(decay, start, a, scale) <= Gain(decay, start, b, scale)
  {
    if a < b {
      DriveGrows(decay, a, b);
      var more := Drive(decay, b) - Drive(decay, a);
      assert scale * more >= 0.0;
      assert scale * Drive(decay, b) == scale * Drive(decay, a) + scale * more;
    }
  }

  /** The doubling loop ends exactly under this condition, which a caller can check. */
  predicate Solvable(scale: real, target: real) {
    scale > 0.0 || (scale == 0.0 && target == 0.0)
  }

  /** Otherwise the loop guard holds at every upper end, so the loop never ends. */
  lemma {:induction false} UnsolvableNeverReached(decay: real -> real, start: real, high: real, scale: real,
                                                  target: real)
    requires IsDecay(decay) && 0.0 <= start < high && target >= 0.0 && !Solvable(scale, target)
    ensures Gain(decay, start, high, scale) < target
  {
    DriveGrows(decay, start, high);
    GainFactors(decay, start, high, scale);
    var more := Drive(decay, high) - Drive(decay, start);
    if scale < 0.0 {
      assert (-scale) * more > 0.0;
      assert scale * more == -((-scale) * more);
    }
  }

  /** Beyond this time the gain is certain to have reached the target. */
  function Horizon(decay: real -> real, start: real, scale: real, target: real): real
    requires scale != 0.0
  {
    Drive(decay, start) + target / scale + 4.0
  }

  lemma {:induction false} ReachedBeyondHorizon(decay: real -> real, start: real, high: real, scale: real, target: real)
    requires IsDecay(decay) && high >= 0.0 && scale > 0.0 && high >= Horizon(decay, start, scale, target)
    ensures Gain(decay, start, high, scale) >= target
  {
    DriveUnbounded(decay, high);
    GainFactors(decay, start, high, scale);
    var more := Drive(decay, high) - Drive(decay, start);
    var need := target / scale;
    assert more >= need;
    assert scale * (more - need) >= 0.0;
    assert scale * need == target;
    assert scale * more == scale * (more - need) + scale * need;
  }

  function Pow2(n: nat): (p: real)
    ensures p >= 1.0
  {
    if n == 0 then 1.0 else 2.0 * Pow2(n - 1)
  }

  function Halved(width: real, n: nat): (w: real)
    ensures width > 0.0 ==> w > 0.0
  {
    if n == 0 then width else Halved(width, n - 1) / 2.0
  }

  /** n halvings divide by 2^n. */
  lemma {:induction false} HalvedIsQuotient(width: real, n: nat)
    ensures Halved(width, n) * Pow2(n) == width
  {
    if n > 0 {
      HalvedIsQuotient(width, n - 1);
      DoubleHalf(Halved(width, n - 1), Pow2(n - 1));
    }
  }

  lemma {:induction false} HalvedDivides(width: real, n: nat)
    ensures Halved(width, n) == width / Pow2(n)
  {
    HalvedIsQuotient(width, n);
    QuotientOf(Halved(width, n), Pow2(n), width);
  }

  lemma {:induction false} QuotientOf(w: real, p: real, width: real)
    requires p >= 1.0 && w * p == width
    ensures w == width / p
  {
    assert w * p / p == w;
  }

  lemma {:induction false} DoubleHalf(w: real, p: real)
    ensures (w / 2.0) * (2.0 * p) == w * p
  {
  }

  lemma {:induction false} HalvedGrows(a: real, b: real, n: nat)
    requires a <= b
    ensures Halved(a, n) <= Halved(b, n)
  {
    if n > 0 {
      HalvedGrows(a, b, n - 1);
    }
  }

  /** Nothing before this point reaches the target. */
  ghost predicate NotBefore(decay: real -> real, start: real, scale: real, target: real, point: real) {
    forall x: real :: start <= x < point ==> Gain(decay, start, x, scale) < target
  }

  lemma {:induction false} BelowMeansNotBefore(decay: real -> real, start: real, scale: real, target: real, point: real)
    requires IsDecay(decay) && scale >= 0.0 && 0.0 <= start <= point && Gain(decay, start, point, scale) < target
    ensures NotBefore(decay, start, scale, target, point)
  {
    forall x: real | start <= x < point ensures Gain(decay, start, x, scale) < target {
      GainGrows(decay, start, x, point, scale);
    }
  }

  /** Doubles the bracket until its upper end reaches the target. */
  method FindBracket(decay: real -> real, start: real, scale: real, target: real) returns (high: real)
    requires IsDecay(decay) && start >= 0.0 && target >= 0.0 && Solvable(scale, target)
    ensures high >= start + 1.0 && Gain(decay, start, high, scale) >= target
    ensures high == start + 1.0 || NotBefore(decay, start, scale, target, start + (high - start) / 2.0)
  {
    var low := start;
    high := low + 1.0;
    while Gain(decay, start, high, scale) < target
      invariant high >= low + 1.0
      invariant high == start + 1.0 || NotBefore(decay, start, scale, target, start + (high - start) / 2.0)
      decreases if scale > 0.0 then (Horizon(decay, start, scale, target) - high).Floor else 0
    {
      BelowMeansNotBefore(decay, start, scale, target, high);
      if scale > 0.0 {
        if high >= Horizon(decay, start, scale, target) {
          ReachedBeyondHorizon(decay, start, high, scale, target);
          assert false;
        }
        FloorDrops(Horizon(decay, start, scale, target) - high, high - low);
      } else {
        GainFactors(decay, start, high, scale);
        assert false;
      }
      high := low + 2.0 * (high - low);
    }
  }

  lemma {:induction false} FloorDrops(x: real, drop: real)
    requires x > 0.0 && drop >= 1.0
    ensures (x - drop).Floor < x.Floor && x.Floor >= 0
  {
  }

  /** Halves the bracket, keeping the target between its ends. */
  method Bisect(decay: real -> real, start: real, scale: real, target: real, upper: real) returns (high: real)
    requires IsDecay(decay) && scale >= 0.0 && 0.0 <= start < upper && Gain(decay, start, upper, scale) >= target
    ensures high > start && Gain(decay, start, high, scale) >= target
    ensures NotBefore(decay, start, scale, target, high - Halved(upper - start, BISECTIONS))
  {
    var low := start;
    high := upper;
    for i := 0 to BISECTIONS
      invariant start <= low < high && high - low == Halved(upper - start, i)
      invariant Gain(decay, start, high, scale) >= target
      invariant NotBefore(decay, start, scale, target, low)
    {
      var middle := (low + high) / 2.0;
      if Gain(decay, start, middle, scale) < target {
        BelowMeansNotBefore(decay, start, scale, target, middle);
        low := middle;
      } else {
        high := middle;
      }
    }
  }

  const BISECTIONS := 64

  /** The sampled delay: never negative; by then the accumulated mass has reached the target; and no earlier time
      reaches it except within the final bracket, whose width is the initial one halved 64 times. */
  method SampleDriftDelayHours(draw: real, idleHours: real, recent: real, repetition: real, maxRate: real,
                               decay: real -> real, hazard: real -> real) returns (delay: real, ghost width: real)
    requires IsDecay(decay) && IsHazard(hazard)
    requires Solvable(Scale(maxRate, recent, repetition), Target(draw, hazard))
    ensures delay > 0.0
    ensures var start := Max(0.0, idleHours);
            Gain(decay, start, start + delay, Scale(maxRate, recent, repetition)) >= Target(draw, hazard)
    ensures var start, scale, target := Max(0.0, idleHours), Scale(maxRate, recent, repetition), Target(draw, hazard);
            && width > 0.0
            && NotBefore(decay, start, scale, target, start + delay - Halved(width, BISECTIONS))
            && (width == 1.0 || NotBefore(decay, start, scale, target, start + width / 2.0))
  {
    var scale := Scale(maxRate, recent, repetition);
    var target := Target(draw, hazard);
    SolvableExactly(draw, recent, repetition, maxRate, hazard);
    var start := Max(0.0, idleHours);
    var high := FindBracket(decay, start, scale, target);
    width := high - start;
    high := Bisect(decay, start, scale, target, high);
    delay := high - start;
  }

  /** The bracket is fine enough: the delay exceeds the exact inverse by at most 2^-63 of it, or by 2^-64 hours. */
  lemma {:induction false} DelayIsTight(decay: real -> real, start: real, scale: real, target: real, delay: real,
                                        width: real, exact: real)
    requires exact >= 0.0 && Gain(decay, start, start + exact, scale) >= target
    requires NotBefore(decay, start, scale, target, start + delay - Halved(width, BISECTIONS))
    requires width == 1.0 || NotBefore(decay, start, scale, target, start + width / 2.0)
    ensures delay <= exact + Max(1.0, 2.0 * exact) / Pow2(BISECTIONS)
  {
    assert !(start + exact < start + delay - Halved(width, BISECTIONS));
    assert width == 1.0 || !(start + exact < start + width / 2.0);
    HalvedGrows(width, Max(1.0, 2.0 * exact), BISECTIONS);
    HalvedDivides(Max(1.0, 2.0 * exact), BISECTIONS);
  }

  /** With a positive rate every draw is solvable; without one only a draw that asks for no mass, at rate zero. */
  lemma {:induction false} SolvableExactly(draw: real, recent: real, repetition: real, maxRate: real,
                                           hazard: real -> real)
    requires IsHazard(hazard)
    ensures Solvable(Scale(maxRate, recent, repetition), Target(draw, hazard))
            <==> maxRate > 0.0 || (maxRate == 0.0 && draw <= 0.0)
    ensures Target(draw, hazard) >= 0.0
  {
    var u := Min(MAX_DRAW, Max(0.0, draw));
    assert u == 0.0 || 0.0 < u < 1.0;
  }
}
