/**
 Backoff delays (reconnect.hpp, compute_backoff_): an overflow-safe 64-bit doubling with a cap,
 then a symmetric random jitter. Milliseconds are int64 in the source; jitter is taken over the reals.
 */
module Backoff {

  const TWO_64 := 0x1_0000_0000_0000_0000

  type UInt64 = n: nat | n < TWO_64
  type Int64 = n: int | -0x8000_0000_0000_0000 <= n < 0x8000_0000_0000_0000

  datatype Policy = Policy(initialBackoff: Int64, maxBackoff: Int64, jitterRatio: real, resumeDelay: Int64)

  function Pow2(n: nat): (p: nat)
    ensures p >= 1
  {
    if n == 0 then 1 else 2 * Pow2(n - 1)
  }

  // static_cast<uint64_t>
  function CastToUInt64(n: Int64): UInt64 {
    if n >= 0 then n else n + TWO_64
  }

  // x >> k, for a shift below the width
  function ShiftRight(x: UInt64, k: nat): UInt64
    requires k < 64
  {
    var q := x / Pow2(k);
    DivisionShrinks(x, Pow2(k));
    q
  }

  // x << k, which drops the bits beyond the width
  function ShiftLeft(x: UInt64, k: nat): UInt64
    requires k < 64
  {
    (x * Pow2(k)) % TWO_64
  }

  lemma DivisionShrinks(x: nat, p: nat)
    requires p >= 1
    ensures 0 <= x / p <= x
  {
    var q := x / p;
    assert q * p <= x;
    assert q <= q * p by {
      ProductMonotone(q, 1, p);
    }
  }

  function ShiftFor(attempt: nat): nat {
    if attempt > 0 then attempt - 1 else 0
  }

  // The delay before jitter, as the code computes it
  function BaseDelay(initial: UInt64, cap: UInt64, attempt: nat): UInt64 {
    var shift := ShiftFor(attempt);
    if shift > 63 then cap
    else if initial > ShiftRight(cap, shift) then cap
    else ShiftLeft(initial, shift)
  }

  // The delay before jitter, over unbounded integers
  function CappedDoubling(initial: nat, cap: nat, attempt: nat): nat {
    var doubled := initial * Pow2(if attempt > 0 then attempt - 1 else 0);
    if doubled <= cap then doubled else cap
  }

  lemma {:induction false} Pow2Monotone(m: nat, n: nat)
    requires m <= n
    ensures Pow2(m) <= Pow2(n)
    decreases n
  {
    if m < n {
      Pow2Monotone(m, n - 1);
    }
  }

  lemma {:induction false} Pow2Adds(m: nat, n: nat)
    ensures Pow2(m + n) == Pow2(m) * Pow2(n)
  {
    if m > 0 {
      Pow2Adds(m - 1, n);
    }
  }

  lemma Pow2Squares(m: nat, p: nat)
    requires Pow2(m) == p
    ensures Pow2(2 * m) == p * p
  {
    Pow2Adds(m, m);
  }

  lemma Pow2Of64(n: nat)
    requires n == 64
    ensures Pow2(n) == TWO_64
  {
    assert Pow2(8) == 0x100;
    Pow2Squares(n - 56, 0x100);
    Pow2Squares(n - 48, 0x1_0000);
    Pow2Squares(n - 32, 0x1_0000_0000);
  }

  lemma ProductMonotone(a: nat, b: nat, c: nat)
    requires b <= c
    ensures a * b <= a * c && b * a <= c * a
  {}

  // initial > cap / p says exactly that initial * p exceeds cap
  lemma ShiftTest(initial: nat, cap: nat, p: nat)
    requires p >= 1
    ensures initial > cap / p <==> initial * p > cap
  {
    var q := cap / p;
    assert q * p <= cap < (q + 1) * p by {
      assert cap == q * p + cap % p;
    }
    if initial > q {
      ProductMonotone(p, q + 1, initial);
    } else {
      ProductMonotone(p, initial, q);
    }
  }

  /**
   The shift-and-compare code computes min(cap, initial * 2^max(0, attempt - 1)) with no wrap-around.
   The one exception is a zero initial delay: past a shift of 63 it jumps from 0 to the cap.
   */
  lemma BaseDelayIsCappedDoubling(initial: UInt64, cap: UInt64, attempt: nat)
    ensures BaseDelay(initial, cap, attempt) == CappedDoubling(initial, cap, attempt)
       <==> initial >= 1 || attempt <= 64 || cap == 0
  {
    var shift := ShiftFor(attempt);
    if shift > 63 {
      Pow2Monotone(64, shift);
      Pow2Of64(64);
      ProductMonotone(Pow2(shift), 1, if initial >= 1 then initial else 1);
    } else {
      ShiftTest(initial, cap, Pow2(shift));
    }
  }

  /**
   The comment's formula, initial * 2^(n-2) from the second retry on, falls one doubling short: it agrees with the code
   exactly when its value has reached the cap, or when there is no initial delay and the shift is below the width.
   */
  lemma CommentAgreesExactlyWhen(initial: UInt64, cap: UInt64, n: nat)
    requires n >= 2
    ensures BaseDelay(initial, cap, n) == (if initial * Pow2(n - 2) <= cap then initial * Pow2(n - 2) else cap)
       <==> initial * Pow2(n - 2) >= cap || (initial == 0 && n <= 64)
  {
    BaseDelayIsCappedDoubling(initial, cap, n);
    DoublesOnce(initial, n - 2);
  }

  lemma DoublesOnce(a: nat, k: nat)
    ensures a * Pow2(k + 1) == 2 * (a * Pow2(k))
    ensures a * Pow2(k) == 0 <==> a == 0
  {
    var p := Pow2(k);
    assert Pow2(k + 1) == 2 * p;
    assert a * (2 * p) == 2 * (a * p);
    if a >= 1 {
      ProductMonotone(p, 1, a);
    }
  }

  /** The delays one after the other: the first two are the initial delay, each later one is twice the one before. */
  lemma BaseDelayDoubles(initial: UInt64, cap: UInt64, n: nat)
    requires initial >= 1
    ensures BaseDelay(initial, cap, 0) == BaseDelay(initial, cap, 1) == (if initial <= cap then initial else cap)
    ensures n >= 1 ==>
              var twice := 2 * BaseDelay(initial, cap, n);
              BaseDelay(initial, cap, n + 1) == if twice <= cap then twice else cap
  {
    BaseDelayIsCappedDoubling(initial, cap, 0);
    BaseDelayIsCappedDoubling(initial, cap, 1);
    assert Pow2(0) == 1;
    if n >= 1 {
      BaseDelayIsCappedDoubling(initial, cap, n);
      BaseDelayIsCappedDoubling(initial, cap, n + 1);
      DoublesOnce(initial, n - 1);
    }
  }

  /** Delays grow with the attempt number, up to the cap. */
  lemma DoublingMonotone(initial: nat, cap: nat, m: nat, n: nat)
    requires m <= n
    ensures CappedDoubling(initial, cap, m) <= CappedDoubling(initial, cap, n) <= cap
  {
    var k, l := if m > 0 then m - 1 else 0, if n > 0 then n - 1 else 0;
    Pow2Monotone(k, l);
    ProductMonotone(initial, Pow2(k), Pow2(l));
  }

  /** Once a delay has reached the cap, every later one is the cap. */
  lemma CapIsAbsorbing(initial: UInt64, cap: UInt64, m: nat, n: nat)
    requires m <= n && BaseDelay(initial, cap, m) == cap
    ensures BaseDelay(initial, cap, n) == cap
  {
    BaseDelayIsCappedDoubling(initial, cap, m);
    BaseDelayIsCappedDoubling(initial, cap, n);
    if initial >= 1 {
      DoublingMonotone(initial, cap, m, n);
    } else if n <= 64 {
      NothingDoubled(cap, m);
      NothingDoubled(cap, n);
    }
  }

  lemma NothingDoubled(cap: UInt64, attempt: nat)
    ensures CappedDoubling(0, cap, attempt) == 0
  {}

  /** No delay before jitter exceeds the cap, whatever the initial delay. */
  lemma BaseDelayBelowCap(initial: UInt64, cap: UInt64, attempt: nat)
    ensures BaseDelay(initial, cap, attempt) <= cap
  {
    BaseDelayIsCappedDoubling(initial, cap, attempt);
  }

  // A cast to an integer drops the fraction.
  function Truncate(x: real): int {
    if x >= 0.0 then x.Floor else -((-x).Floor)
  }

  // static_cast<Ms::rep>(delay * (1 + signed_frac)), draw being the uniform random number
  function Jittered(delay: nat, ratio: real, draw: real): int {
    var signedFrac := (draw * 2.0 - 1.0) * ratio;
    Truncate(delay as real * (1.0 + signedFrac))
  }

  // compute_backoff_(attempt)
  function ComputeBackoff(p: Policy, attempt: nat, draw: real): int {
    Jittered(BaseDelay(CastToUInt64(p.initialBackoff), CastToUInt64(p.maxBackoff), attempt), p.jitterRatio, draw)
  }

  lemma RealProductMonotone(a: real, b: real, c: real)
    requires a >= 0.0 && b <= c
    ensures a * b <= a * c
  {}

  lemma StrictlyLarger(a: real, b: real, c: real)
    requires a > 0.0 && b < c
    ensures a * b < a * c
  {
    assert a * (c - b) > 0.0;
  }

  lemma StretchBounds(x: real, r: real)
    requires -1.0 <= x <= 1.0 && 0.0 <= r
    ensures -r <= x * r <= r
  {
    assert (1.0 - x) * r >= 0.0;
    assert (1.0 + x) * r >= 0.0;
  }

  lemma ProductBounds(a: real, low: real, x: real, high: real)
    requires a >= 0.0 && 0.0 <= low <= x <= high
    ensures 0.0 <= low * a <= a * x <= high * a
  {
    assert low * a >= 0.0;
    assert (x - low) * a >= 0.0;
    assert (high - x) * a >= 0.0;
  }

  lemma TruncatedProduct(a: real, low: real, x: real, high: real)
    requires a >= 0.0 && 0.0 <= low <= x <= high
    ensures (low * a).Floor <= Truncate(a * x) && 0 <= Truncate(a * x) && Truncate(a * x) as real <= high * a
  {
    ProductBounds(a, low, x, high);
  }

  /** The jittered delay lies in [floor((1-r)d), (1+r)d]. */
  lemma JitterBounds(d: nat, r: real, draw: real)
    requires 0.0 <= r <= 1.0 && 0.0 <= draw <= 1.0
    ensures 0 <= Jittered(d, r, draw)
    ensures Jittered(d, r, draw) as real <= (1.0 + r) * d as real
    ensures ((1.0 - r) * d as real).Floor <= Jittered(d, r, draw)
  {
    StretchBounds(draw * 2.0 - 1.0, r);
    TruncatedProduct(d as real, 1.0 - r, 1.0 + (draw * 2.0 - 1.0) * r, 1.0 + r);
  }

  // x is what jitter of ratio r may make of d.
  predicate WithinJitter(x: int, d: nat, r: real) {
    ((1.0 - r) * d as real).Floor <= x && x as real <= (1.0 + r) * d as real
  }

  lemma JitteredWithin(x: int, d: nat, r: real, draw: real)
    requires 0.0 <= r <= 1.0 && 0.0 <= draw <= 1.0 && x == Jittered(d, r, draw)
    ensures WithinJitter(x, d, r)
  {
    JitterBounds(d, r, draw);
  }

  /** A jittered delay stays within a cap, whatever is drawn, exactly when its longest stretch does. */
  lemma StaysWithinExactlyWhen(d: nat, r: real, cap: nat)
    requires 0.0 <= r <= 1.0
    ensures (forall draw: real | 0.0 <= draw <= 1.0 :: Jittered(d, r, draw) <= cap)
       <==> ((1.0 + r) * d as real).Floor <= cap
  {
    assert Jittered(d, r, 1.0) == ((1.0 + r) * d as real).Floor by {
      RealProductMonotone(d as real, 0.0, 1.0 + r);
    }
    forall draw: real | 0.0 <= draw <= 1.0
      ensures Jittered(d, r, draw) <= ((1.0 + r) * d as real).Floor
    {
      JitterBounds(d, r, draw);
    }
  }

  // The draw that stretches d to the given length
  lemma DrawFor(d: nat, r: real, length: nat) returns (draw: real)
    requires d > 0 && 0.0 < r <= 1.0
    requires (1.0 - r) * d as real <= length as real < (1.0 + r) * d as real
    ensures 0.0 <= draw < 1.0 && Jittered(d, r, draw) == length
  {
    var x := length as real / d as real;
    assert x * d as real == length as real;
    QuotientBounds(length as real, d as real, 1.0 - r, 1.0 + r);
    var y := (x - 1.0) / r;
    assert y * r == x - 1.0;
    QuotientBounds(x - 1.0, r, -1.0, 1.0);
    draw := (y + 1.0) / 2.0;
    assert draw * 2.0 - 1.0 == y;
    assert d as real * (1.0 + y * r) == length as real;
  }

  lemma QuotientBounds(a: real, b: real, low: real, high: real)
    requires b > 0.0 && low * b <= a < high * b
    ensures low <= a / b < high
  {
    var q := a / b;
    assert q * b == a;
    if q < low {
      StrictlyLarger(b, q, low);
    }
    if q >= high {
      RealProductMonotone(b, high, q);
    }
  }

  /**
   For draws that never reach 1, the longest stretch itself is not reached: the delay may then come within one
   millisecond of it.
   */
  lemma StaysWithinBelowOneExactlyWhen(d: nat, r: real, cap: nat)
    requires 0.0 <= r <= 1.0
    ensures (forall draw: real | 0.0 <= draw < 1.0 :: Jittered(d, r, draw) <= cap)
       <==> if r == 0.0 || d == 0 then d <= cap else (1.0 + r) * d as real <= cap as real + 1.0
  {
    if r == 0.0 || d == 0 {
      assert Jittered(d, r, 0.0) == d;
      forall draw: real
        ensures Jittered(d, r, draw) == d
      {
        assert (draw * 2.0 - 1.0) * r == 0.0 || d == 0;
      }
    } else if (1.0 + r) * d as real <= cap as real + 1.0 {
      forall draw: real | 0.0 <= draw < 1.0
        ensures Jittered(d, r, draw) <= cap
      {
        ShorterThanLongest(d, r, draw);
      }
    } else if (1.0 - r) * d as real <= cap as real + 1.0 {
      var draw := DrawFor(d, r, cap + 1);
      assert Jittered(d, r, draw) > cap;
    } else {
      JitterBounds(d, r, 0.0);
      assert ((1.0 - r) * d as real).Floor >= cap + 1;
      assert Jittered(d, r, 0.0) > cap;
    }
  }

  lemma ShorterThanLongest(d: nat, r: real, draw: real)
    requires d > 0 && 0.0 < r <= 1.0 && 0.0 <= draw < 1.0
    ensures Jittered(d, r, draw) as real < (1.0 + r) * d as real
  {
    var frac := (draw * 2.0 - 1.0) * r;
    StretchBounds(draw * 2.0 - 1.0, r);
    StrictlyLarger(r, draw * 2.0 - 1.0, 1.0);
    StrictlyLarger(d as real, 1.0 + frac, 1.0 + r);
    assert 1.0 + frac >= 1.0 - r >= 0.0;
    RealProductMonotone(d as real, 0.0, 1.0 + frac);
  }

  // Past a shift of 63 the delay is the cap.
  lemma CapIsStretched(p: Policy)
    requires p.maxBackoff >= 0 && 0.0 <= p.jitterRatio <= 1.0
    ensures ComputeBackoff(p, 65, 1.0) == ((1.0 + p.jitterRatio) * p.maxBackoff as real).Floor
  {
    assert BaseDelay(CastToUInt64(p.initialBackoff), p.maxBackoff, 65) == p.maxBackoff;
    RealProductMonotone(p.maxBackoff as real, 0.0, 1.0 + p.jitterRatio);
  }

  // What the jitter adds to the cap
  lemma JitterOfCap(cap: nat, r: real)
    ensures (1.0 + r) * cap as real == cap as real + r * cap as real
    ensures ((1.0 + r) * cap as real).Floor <= cap <==> r * cap as real < 1.0
  {}

  /**
   The documented promise that no delay exceeds the cap, decided for a whole policy: it is kept for every attempt and
   every draw exactly when the jitter of the cap itself is less than one millisecond.
   */
  lemma CapIsKeptExactlyWhen(p: Policy)
    requires p.maxBackoff >= 0 && 0.0 <= p.jitterRatio <= 1.0
    ensures (forall i: nat, draw: real | 0.0 <= draw <= 1.0 :: ComputeBackoff(p, i, draw) <= p.maxBackoff)
       <==> p.jitterRatio * p.maxBackoff as real < 1.0
  {
    JitterOfCap(p.maxBackoff, p.jitterRatio);
    CapIsStretched(p);
    if p.jitterRatio * p.maxBackoff as real < 1.0 {
      forall i: nat, draw: real | 0.0 <= draw <= 1.0
        ensures ComputeBackoff(p, i, draw) <= p.maxBackoff
      {
        SmallJitterKeepsCap(p, i, draw);
      }
    }
  }

  lemma SmallJitterKeepsCap(p: Policy, i: nat, draw: real)
    requires p.maxBackoff >= 0 && 0.0 <= p.jitterRatio <= 1.0 && 0.0 <= draw <= 1.0
    requires p.jitterRatio * p.maxBackoff as real < 1.0
    ensures ComputeBackoff(p, i, draw) <= p.maxBackoff
  {
    JitterOfCap(p.maxBackoff, p.jitterRatio);
    DelayBelowCap(p, i, draw);
  }

  lemma DelayBelowCap(p: Policy, i: nat, draw: real)
    requires p.maxBackoff >= 0 && 0.0 <= p.jitterRatio <= 1.0 && 0.0 <= draw <= 1.0
    ensures ComputeBackoff(p, i, draw) as real <= (1.0 + p.jitterRatio) * p.maxBackoff as real
  {
    var initial := CastToUInt64(p.initialBackoff);
    BaseDelayBelowCap(initial, p.maxBackoff, i);
    ShorterJittered(BaseDelay(initial, p.maxBackoff, i), p.maxBackoff, p.jitterRatio, draw);
  }

  lemma ShorterJittered(d: nat, cap: nat, r: real, draw: real)
    requires d <= cap && 0.0 <= r <= 1.0 && 0.0 <= draw <= 1.0
    ensures Jittered(d, r, draw) as real <= (1.0 + r) * cap as real
  {
    JitterBounds(d, r, draw);
    RealProductMonotone(1.0 + r, d as real, cap as real);
  }

  /** With draws below 1, as the generator is specified to give, the jitter of the cap may be exactly one. */
  lemma CapIsKeptBelowOneExactlyWhen(p: Policy)
    requires p.maxBackoff >= 0 && 0.0 <= p.jitterRatio <= 1.0
    ensures (forall i: nat, draw: real | 0.0 <= draw < 1.0 :: ComputeBackoff(p, i, draw) <= p.maxBackoff)
       <==> p.jitterRatio * p.maxBackoff as real <= 1.0
  {
    var r, cap := p.jitterRatio, p.maxBackoff as nat;
    assert (1.0 + r) * cap as real == cap as real + r * cap as real;
    StaysWithinBelowOneExactlyWhen(cap, r, cap);
    forall draw: real
      ensures ComputeBackoff(p, 65, draw) == Jittered(cap, r, draw)
    {}
    if r * cap as real <= 1.0 {
      forall i: nat, draw: real | 0.0 <= draw < 1.0
        ensures ComputeBackoff(p, i, draw) <= cap
      {
        DelayBelowOneKeepsCap(p, i, draw);
      }
    }
  }

  lemma DelayBelowOneKeepsCap(p: Policy, i: nat, draw: real)
    requires p.maxBackoff >= 0 && 0.0 <= p.jitterRatio <= 1.0 && 0.0 <= draw < 1.0
    requires p.jitterRatio * p.maxBackoff as real <= 1.0
    ensures ComputeBackoff(p, i, draw) <= p.maxBackoff
  {
    var r, cap := p.jitterRatio, p.maxBackoff as nat;
    var d := BaseDelay(CastToUInt64(p.initialBackoff), p.maxBackoff, i);
    BaseDelayBelowCap(CastToUInt64(p.initialBackoff), p.maxBackoff, i);
    RealProductMonotone(1.0 + r, d as real, cap as real);
    assert (1.0 + r) * cap as real == cap as real + r * cap as real;
    StaysWithinBelowOneExactlyWhen(d, r, cap);
  }

  // With the default ratio of one fifth: whatever is drawn, a delay from base d is never followed by
  // one below 0.6 times its length, if the next base is no smaller than d.
  ghost predicate KeepsRatio(d: nat) {
    forall e: nat, draw: real, draw': real {:trigger Jittered(d, 0.2, draw), Jittered(e, 0.2, draw')} |
      d <= e && 0.0 <= draw < 1.0 && 0.0 <= draw' < 1.0 ::
      Jittered(e, 0.2, draw') as real >= 0.6 * Jittered(d, 0.2, draw) as real
  }

  lemma JitterRatio(d: nat, e: nat, draw: real, draw': real)
    requires d == 0 || 3 <= d <= 5 || 7 <= d
    requires d <= e && 0.0 <= draw <= 1.0 && 0.0 <= draw' <= 1.0
    ensures Jittered(e, 0.2, draw') as real >= 0.6 * Jittered(d, 0.2, draw) as real
  {
    JitterBounds(d, 0.2, draw);
    JitterBounds(e, 0.2, draw');
    assert 0.8 * e as real >= 0.8 * d as real;
    var low, high := (0.8 * d as real).Floor, (1.2 * d as real).Floor;
    assert Jittered(d, 0.2, draw) <= high;
    assert low <= Jittered(e, 0.2, draw');
    if d >= 13 {
      assert low as real >= 0.8 * d as real - 1.0;
      assert high as real <= 1.2 * d as real;
    } else {
      assert d in {0, 3, 4, 5, 7, 8, 9, 10, 11, 12};
    }
  }

  /** The ratio holds for every base of at least 7 ms; below that rounding breaks it at 1, 2 and 6 ms only. */
  lemma RatioHoldsFrom7(d: nat)
    ensures KeepsRatio(d) <==> d != 1 && d != 2 && d != 6
  {
    if d == 1 || d == 2 || d == 6 {
      assert Jittered(d, 0.2, 0.0) == (0.8 * d as real).Floor;
      assert Jittered(d, 0.2, 0.99) == (1.196 * d as real).Floor;
    } else {
      forall e: nat, draw: real, draw': real | d <= e && 0.0 <= draw < 1.0 && 0.0 <= draw' < 1.0
        ensures Jittered(e, 0.2, draw') as real >= 0.6 * Jittered(d, 0.2, draw) as real
      {
        JitterRatio(d, e, draw, draw');
      }
    }
  }

  /** The delay of attempt i lies within the jitter of min(cap, initial * 2^max(0, i-1)). */
  lemma DelayBounds(p: Policy, i: nat, draw: real)
    requires p.initialBackoff >= 1 && p.maxBackoff >= 0 && 0.0 <= p.jitterRatio <= 1.0 && 0.0 <= draw <= 1.0
    ensures CappedDoubling(p.initialBackoff, p.maxBackoff, i) <= p.maxBackoff
    ensures WithinJitter(ComputeBackoff(p, i, draw), CappedDoubling(p.initialBackoff, p.maxBackoff, i), p.jitterRatio)
  {
    var d := CappedDoubling(p.initialBackoff, p.maxBackoff, i);
    BaseDelayIsCappedDoubling(p.initialBackoff, p.maxBackoff, i);
    JitteredWithin(ComputeBackoff(p, i, draw), d, p.jitterRatio, draw);
  }

  lemma DelaysKeepRatio(p: Policy, i: nat, j: nat, draw: real, draw': real)
    requires p.jitterRatio == 0.2 && p.initialBackoff >= 7 && p.maxBackoff >= 7 && i <= j
    requires 0.0 <= draw <= 1.0 && 0.0 <= draw' <= 1.0
    ensures ComputeBackoff(p, j, draw') as real >= 0.6 * ComputeBackoff(p, i, draw) as real
  {
    var initial, cap := p.initialBackoff, p.maxBackoff;
    BaseDelayIsCappedDoubling(initial, cap, i);
    BaseDelayIsCappedDoubling(initial, cap, j);
    DoublingMonotone(initial, cap, 0, i);
    DoublingMonotone(initial, cap, i, j);
    JitterRatio(CappedDoubling(initial, cap, i), CappedDoubling(initial, cap, j), draw, draw');
  }
}
