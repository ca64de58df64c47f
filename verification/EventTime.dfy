/** Event times: 32-bit numbers that wrap around, and the unbounded times they stand for. */
module EventTime {

  const U32: nat := 0x1_0000_0000
  const U64: nat := 0x1_0000_0000_0000_0000

  /** How far the boundary is behind the current time: an event may be overdue by this much. */
  const BOUNDARY_MARGIN: nat := 200_000_000
  const TMAX_RELTIM: nat := 4_000_000_000
  const TMAX_ADJTIM: int := 1_000_000
  const TMIN_ADJTIM: int := -1_000_000

  /** How far the current time can be behind the furthest it has been. */
  const MAX_LAG: nat := 1_999_999

  /** A coarse timer may tick in steps this large. */
  const MAX_TSTEP: nat := 4_000

  type Word = x: int | 0 <= x < 0x1_0000_0000

  /** What is left of a number in 32 bits. */
  function Wrap(x: int): Word { x % U32 }

  /** Addition and subtraction of 32-bit words without sign. */
  function Add32(a: Word, b: Word): Word { if a + b < U32 then a + b else a + b - U32 }

  function Sub32(a: Word, b: Word): Word { if a >= b then a - b else a - b + U32 }

  lemma Split(x: int)
    ensures x == U32 * (x / U32) + Wrap(x)
  {}

  /** The remainder is the only representative in range. */
  lemma WrapUnique(x: int, k: int, r: int)
    requires x == U32 * k + r && 0 <= r < U32
    ensures Wrap(x) == r
  {
    Split(x);
    assert U32 * (k - x / U32) == Wrap(x) - r;
  }

  lemma SmallWrap(x: int)
    requires 0 <= x < U32
    ensures Wrap(x) == x
  {}

  lemma WrapAdd(x: int, y: int)
    ensures Add32(Wrap(x), Wrap(y)) == Wrap(x + y)
  {
    Split(x);
    Split(y);
    var r := Wrap(x) + Wrap(y);
    if r < U32 {
      WrapUnique(x + y, x / U32 + y / U32, r);
    } else {
      WrapUnique(x + y, x / U32 + y / U32 + 1, r - U32);
    }
  }

  lemma WrapSub(x: int, y: int)
    ensures Sub32(Wrap(x), Wrap(y)) == Wrap(x - y)
  {
    Split(x);
    Split(y);
    var r := Wrap(x) - Wrap(y);
    if r >= 0 {
      WrapUnique(x - y, x / U32 - y / U32, r);
    } else {
      WrapUnique(x - y, x / U32 - y / U32 - 1, r + U32);
    }
  }

  /** Less than one turn of the word forward, and back. */
  lemma StepForward(x: int, n: int)
    requires 0 <= n < U32
    ensures Add32(Wrap(x), n) == Wrap(x + n)
  {
    SmallWrap(n);
    WrapAdd(x, n);
  }

  lemma StepBack(x: int, n: int)
    requires 0 <= n < U32
    ensures Sub32(Wrap(x), n) == Wrap(x - n)
  {
    SmallWrap(n);
    WrapSub(x, n);
  }

  /** A subtraction of words gives the true difference of the numbers they stand for when that is in range. */
  lemma TrueDifference(x: int, y: int)
    requires 0 <= x - y < U32
    ensures Sub32(Wrap(x), Wrap(y)) == x - y
  {
    WrapSub(x, y);
    SmallWrap(x - y);
  }

  // ---------- the order of event times ----------

  /** `EVTTIM_ADVANCE`, `EVTTIM_LT` and `EVTTIM_LE`: times are compared by how far they are beyond the
      boundary. */
  function Advance(t: Word, boundary: Word): Word { Sub32(t, boundary) }

  predicate EvttimLt(t1: Word, t2: Word, boundary: Word) { Advance(t1, boundary) < Advance(t2, boundary) }

  predicate EvttimLe(t1: Word, t2: Word, boundary: Word) { Advance(t1, boundary) <= Advance(t2, boundary) }

  /** A true time the boundary can tell from all others in range. */
  predicate InWindow(t: int, b: int) { 0 <= t - b < U32 }

  /** Within the window, the order of the words is the order of the true times. */
  lemma OrderIsTrue(t1: int, t2: int, b: int)
    requires InWindow(t1, b) && InWindow(t2, b)
    ensures EvttimLt(Wrap(t1), Wrap(t2), Wrap(b)) <==> t1 < t2
    ensures EvttimLe(Wrap(t1), Wrap(t2), Wrap(b)) <==> t1 <= t2
  {
    TrueDifference(t1, b);
    TrueDifference(t2, b);
  }

  /** The bounds that keep every event in the window: the margin, the lag after backward adjustments, one
      step of the timer and the longest relative time together are less than a turn of the 32-bit clock. */
  lemma WindowIsWideEnough(t: int, c: int, m: int, step: nat)
    requires c <= m <= c + MAX_LAG && step <= MAX_TSTEP
    requires c - BOUNDARY_MARGIN <= t <= m + step + TMAX_RELTIM
    ensures InWindow(t, c - BOUNDARY_MARGIN) && InWindow(t + TMAX_ADJTIM, c - BOUNDARY_MARGIN)
  {
    assert BOUNDARY_MARGIN + MAX_LAG + MAX_TSTEP + TMAX_RELTIM + TMAX_ADJTIM == 4_202_000_000 + 1_003_999;
  }

  // ---------- the counter ----------

  /** Two readings of a counter of period `period`, less than a period apart, give the true time between
      them; a period of 2^32 is that of the word itself. */
  function HrtAdvance(old_: Word, new_: Word, period: nat): Word
    requires 0 < period <= U32
  {
    if period < U32 && new_ < old_ then Add32(Sub32(new_, old_), period) else Sub32(new_, old_)
  }

  lemma ModStep(h: nat, n: nat, period: nat)
    requires 0 < period && n < period
    ensures (h + n) % period == if h % period + n < period then h % period + n else h % period + n - period
  {
    var q, r := h / period, h % period;
    assert h == period * q + r;
    if r + n < period {
      ModUnique(h + n, period, q, r + n);
    } else {
      assert h + n == period * (q + 1) + (r + n - period);
      ModUnique(h + n, period, q + 1, r + n - period);
    }
  }

  lemma Multiples(d: nat, e: int)
    ensures e > 0 ==> d * e >= d
    ensures e < 0 ==> d * e + d <= 0
  {}

  lemma ModUnique(x: nat, d: nat, k: nat, r: nat)
    requires d > 0 && x == d * k + r && r < d
    ensures x % d == r
  {
    assert x == d * (x / d) + x % d;
    var e := k - x / d;
    assert d * e == x % d - r;
    Multiples(d, e);
  }

  lemma AdvanceIsElapsed(h: nat, n: nat, period: nat)
    requires 0 < period <= U32 && n < period
    ensures HrtAdvance(h % period, (h + n) % period, period) == n
  {
    ModStep(h, n, period);
  }

  // ---------- the 64-bit system time ----------

  function Wrap64(x: int): int { x % U64 }

  lemma Wrap64Add(x: int, y: int)
    ensures Wrap64(Wrap64(x) + y) == Wrap64(x + y)
  {
    var a, b := x / U64, Wrap64(x);
    assert x == U64 * a + b;
    var c, d := (b + y) / U64, Wrap64(b + y);
    assert b + y == U64 * c + d;
    assert x + y == U64 * (a + c) + d;
    Unique64(x + y, a + c, d);
  }

  lemma Unique64(x: int, k: int, r: int)
    requires x == U64 * k + r && 0 <= r < U64
    ensures Wrap64(x) == r
  {
    assert x == U64 * (x / U64) + Wrap64(x);
    assert U64 * (k - x / U64) == Wrap64(x) - r;
  }

  /** The word of a time that has moved on wraps exactly when it gets smaller; what has to be added to the
      upper half then is 2^32. */
  lemma UpperHalf(m: int, m': int)
    requires m < m' < m + U32
    ensures m' - Wrap(m') == m - Wrap(m) + (if Wrap(m') < Wrap(m) then U32 else 0)
  {
    Split(m);
    var r := Wrap(m) + (m' - m);
    if r < U32 {
      WrapUnique(m', m / U32, r);
    } else {
      WrapUnique(m', m / U32 + 1, r - U32);
    }
  }
}
