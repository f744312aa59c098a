/** The animation queue: timed tasks that move views to their targets, a few pixels a tick. */
module Animation {
  import opened Prelude

  /** Clock readings are in nanoseconds. */
  type Time = int

  const NS_PER_MS := 1_000_000

  /** The code animates for 100 ms; what is proved holds for any duration up to here. */
  const MAX_DURATION := 1000

  /** What is done when an animation has finished: the focus follows the workspace that came in onto an
      output, or the workspace that went out leaves its output. */
  datatype Callback = Silent | ArrivalOf(workspace: nat, output: OutputId) | DepartureOf(workspace: nat)

  datatype Task = Task(view: ViewId, startX: int, startY: int, targetX: int, targetY: int, begin: Time, cancelled: bool,
                       callback: Callback := Silent)

  // ---------------------------------------------------------------------------------------
  // Interpolation
  // ---------------------------------------------------------------------------------------

  function Blend(t: real): real
  {
    var t := if t < 1.0 then t else 1.0;
    t * t * (3.0 - 2.0 * t)
  }

  lemma BlendBounds(t: real)
    requires t >= 0.0
    ensures 0.0 <= Blend(t) <= 1.0
    ensures t >= 1.0 ==> Blend(t) == 1.0
  {
    if t < 1.0 {
      BlendMonotone(0.0, t);
      BlendMonotone(t, 1.0);
    }
  }

  lemma BlendMonotone(a: real, b: real)
    requires 0.0 <= a <= b
    ensures Blend(a) <= Blend(b)
  {
    CubicMonotone(if a < 1.0 then a else 1.0, if b < 1.0 then b else 1.0);
  }

  lemma CubicMonotone(p: real, q: real)
    requires 0.0 <= p <= q <= 1.0
    ensures p * p * (3.0 - 2.0 * p) <= q * q * (3.0 - 2.0 * q)
  {
    Squares(p);
    Squares(q);
    Products(p, q);
    CubicDifference(p, q, p * p, p * q, q * q);
    CubicSlope(p, q, p * p, p * q, q * q);
    ProductNonNegative(q - p, 3.0 * (p + q) - 2.0 * (p * p + p * q + q * q));
  }

  /** An animation starts and ends slowly: it is behind a steady one in the first half and ahead of it in the second,
      which mirrors the first, and near both ends it hardly moves. */
  lemma BlendEasesInAndOut(t: real)
    requires 0.0 <= t <= 0.5
    ensures 0.0 <= Blend(t) <= 3.0 * (t * t) && Blend(t) <= t
    ensures 0.0 < t < 0.5 ==> Blend(t) < t
    ensures Blend(1.0 - t) == 1.0 - Blend(t)
  {
    assert Blend(t) == t * t * (3.0 - 2.0 * t);
    CubicIsFlat(t, t * t);
    BlendBelowTheLine(t);
    CubicMirrors(t);
  }

  lemma CubicIsFlat(t: real, square: real)
    requires 0.0 <= t <= 0.5 && square == t * t
    ensures 0.0 <= square * (3.0 - 2.0 * t) <= 3.0 * square
  {
    assert square >= 0.0;
    ProductNonNegative(square, t);
  }

  lemma BlendBelowTheLine(t: real)
    requires 0.0 <= t <= 0.5
    ensures Blend(t) <= t
    ensures 0.0 < t < 0.5 ==> Blend(t) < t
  {
    var slack := (1.0 - t) * (1.0 - 2.0 * t);
    assert t - Blend(t) == t * slack;
    ProductNonNegative(1.0 - t, 1.0 - 2.0 * t);
    ProductNonNegative(t, slack);
    if 0.0 < t < 0.5 {
      assert slack > 0.0;
      assert t * slack > 0.0;
    }
  }

  lemma CubicMirrors(t: real)
    ensures var u := 1.0 - t;
            u * u * (3.0 - 2.0 * u) == 1.0 - t * t * (3.0 - 2.0 * t)
  {
  }

  lemma CubicSlope(p: real, q: real, pp: real, pq: real, qq: real)
    requires pp <= p && qq <= q && 2.0 * pq <= pp + qq
    ensures 3.0 * (p + q) - 2.0 * (pp + pq + qq) >= 0.0
  {
  }

  lemma ProductNonNegative(a: real, b: real)
    requires a >= 0.0 && b >= 0.0
    ensures a * b >= 0.0
  {
  }

  lemma Squares(p: real)
    requires 0.0 <= p <= 1.0
    ensures p * p <= p
  {
  }

  lemma Products(p: real, q: real)
    requires 0.0 <= p <= q <= 1.0
    ensures 2.0 * (p * q) <= p * p + q * q
  {
    assert (q - p) * (q - p) >= 0.0;
  }

  lemma CubicDifference(p: real, q: real, pp: real, pq: real, qq: real)
    requires pp == p * p && pq == p * q && qq == q * q
    ensures q * q * (3.0 - 2.0 * q) - p * p * (3.0 - 2.0 * p) == (q - p) * (3.0 * (p + q) - 2.0 * (pp + pq + qq))
  {
  }

  /** `duration_cast` to milliseconds. */
  function Elapsed(begin: Time, now: Time): int
  {
    Quotient(now - begin, NS_PER_MS)
  }

  function Completeness(elapsed: int, duration: int): real
    requires duration > 0
  {
    elapsed as real / duration as real
  }

  /** A point of the way from start to target. */
  function Between(start: int, target: int, multiplier: real): int
  {
    Trunc(start as real - Times(multiplier, start as real - target as real))
  }

  function Times(a: real, b: real): real
  {
    a * b
  }

  lemma BetweenStaysInside(start: int, target: int, m: real)
    requires 0.0 <= m <= 1.0
    ensures start <= Between(start, target, m) <= target || target <= Between(start, target, m) <= start
  {
    BetweenIsMonotone(start, target, 0.0, m);
    BetweenIsMonotone(start, target, m, 1.0);
    BetweenEnds(start, target);
  }

  lemma BetweenEnds(start: int, target: int)
    ensures Between(start, target, 0.0) == start && Between(start, target, 1.0) == target
  {
    TruncOfInt(start);
    TruncOfInt(target);
  }

  lemma BetweenIsMonotone(start: int, target: int, m: real, n: real)
    requires m <= n
    ensures if start <= target then Between(start, target, m) <= Between(start, target, n)
            else Between(start, target, n) <= Between(start, target, m)
  {
    hide Trunc, Times;
    var d := start as real - target as real;
    ScaledMonotone(m, n, d);
    Shifted(start as real, Times(m, d), Times(n, d));
  }

  lemma Shifted(s: real, a: real, b: real)
    ensures if a <= b then Trunc(s - b) <= Trunc(s - a) else Trunc(s - a) <= Trunc(s - b)
  {
    if a <= b {
      TruncMonotone(s - b, s - a);
    } else {
      TruncMonotone(s - a, s - b);
    }
  }

  lemma ScaledMonotone(m: real, n: real, d: real)
    requires m <= n
    ensures if d <= 0.0 then Times(n, d) <= Times(m, d) else Times(m, d) <= Times(n, d)
  {
    if d <= 0.0 {
      assert (n - m) * (-d) >= 0.0;
    } else {
      assert (n - m) * d >= 0.0;
    }
  }

  /** One coordinate of a view some milliseconds into its animation. */
  function Interpolated(start: int, target: int, elapsed: int, duration: int): int
    requires duration > 0
  {
    Between(start, target, Blend(Completeness(elapsed, duration)))
  }

  predicate Finished(elapsed: int, duration: int)
    requires duration > 0
  {
    Completeness(elapsed, duration) >= 0.999
  }

  lemma InterpolationStartsThere(start: int, target: int, duration: int)
    requires duration > 0
    ensures Interpolated(start, target, 0, duration) == start && !Finished(0, duration)
  {
    BetweenEnds(start, target);
  }

  /** The coordinate never leaves the interval between start and target, rounding included. */
  lemma InterpolationStaysBetween(start: int, target: int, elapsed: nat, duration: int)
    requires duration > 0
    ensures var p := Interpolated(start, target, elapsed, duration);
            start <= p <= target || target <= p <= start
  {
    BlendBounds(Completeness(elapsed, duration));
    BetweenStaysInside(start, target, Blend(Completeness(elapsed, duration)));
  }

  /** It only ever moves towards the target. */
  lemma InterpolationIsMonotone(start: int, target: int, earlier: nat, later: nat, duration: int)
    requires duration > 0 && earlier <= later
    ensures var p, q := Interpolated(start, target, earlier, duration), Interpolated(start, target, later, duration);
            if start <= target then p <= q else q <= p
  {
    CompletenessGrows(earlier, later, duration);
    BlendMonotone(Completeness(earlier, duration), Completeness(later, duration));
    BetweenIsMonotone(start, target, Blend(Completeness(earlier, duration)), Blend(Completeness(later, duration)));
  }

  lemma CompletenessGrows(earlier: nat, later: nat, duration: int)
    requires duration > 0 && earlier <= later
    ensures 0.0 <= Completeness(earlier, duration) <= Completeness(later, duration)
  {
    QuotientGrows(earlier as real, later as real, duration as real);
  }

  lemma QuotientGrows(a: real, b: real, d: real)
    requires d > 0.0 && 0.0 <= a <= b
    ensures 0.0 <= a / d <= b / d
  {
  }

  /** The second half of the way mirrors the first, up to a pixel. */
  lemma InterpolationMirrors(start: int, target: int, elapsed: nat, duration: int)
    requires 0 < duration && 2 * elapsed <= duration
    ensures var p, q := Interpolated(start, target, elapsed, duration),
                        Interpolated(start, target, duration - elapsed, duration);
            -1 <= p + q - (start + target) <= 1
  {
    hide Blend, Times, Completeness;
    var t := Completeness(elapsed, duration);
    FirstHalf(elapsed, duration);
    BlendEasesInAndOut(t);
    TimesComplement(Blend(t), start as real - target as real);
  }

  lemma FirstHalf(elapsed: nat, duration: int)
    requires 0 < duration && 2 * elapsed <= duration
    ensures 0.0 <= Completeness(elapsed, duration) <= 0.5
    ensures Completeness(duration - elapsed, duration) == 1.0 - Completeness(elapsed, duration)
  {
    QuotientAgainst(elapsed as real, 0.0, duration as real);
    var q := elapsed as real / duration as real;
    assert q * duration as real == elapsed as real;
    if q > 0.5 {
      assert (q - 0.5) * duration as real > 0.0;
    }
    Complement(elapsed as real, duration as real);
  }

  lemma Complement(a: real, d: real)
    requires d > 0.0
    ensures (d - a) / d == 1.0 - a / d
  {
    assert (d - a) / d == d / d - a / d;
  }

  lemma TimesComplement(m: real, d: real)
    ensures Times(1.0 - m, d) == d - Times(m, d)
  {
  }

  /** In the first half a view is never ahead of one that moves steadily. */
  lemma InterpolationStartsSlowly(start: int, target: int, elapsed: nat, duration: int)
    requires 0 < duration && 2 * elapsed <= duration && start <= target
    ensures Interpolated(start, target, elapsed, duration) as real <=
            start as real + Times(Completeness(elapsed, duration), target as real - start as real) + 1.0
  {
    hide Blend, Times, Completeness;
    var t := Completeness(elapsed, duration);
    FirstHalf(elapsed, duration);
    BlendEasesInAndOut(t);
    ScaledMonotone(Blend(t), t, start as real - target as real);
    TimesNegated(t, start as real - target as real);
  }

  lemma TimesNegated(m: real, d: real)
    ensures Times(m, -d) == -Times(m, d)
  {
  }

  /** Below one second an animation retires exactly when its whole duration has passed... */
  lemma FinishedMeansElapsed(elapsed: nat, duration: int)
    requires 0 < duration < MAX_DURATION
    ensures Finished(elapsed, duration) <==> elapsed >= duration
  {
    if elapsed >= duration {
      QuotientAgainst(elapsed as real, 1.0, duration as real);
    } else {
      QuotientAgainst(elapsed as real, 0.999, duration as real);
    }
  }

  lemma QuotientAgainst(a: real, bound: real, d: real)
    requires d > 0.0
    ensures a / d >= bound <==> a >= bound * d
  {
    var q := a / d;
    assert q * d == a;
    ScaledMonotone(if q <= bound then q else bound, if q <= bound then bound else q, d);
    if q < bound {
      assert (bound - q) * d > 0.0;
    }
  }

  /** ...and what it writes then is its target. */
  lemma RetiringWritesTheTarget(start: int, target: int, elapsed: nat, duration: int)
    requires 0 < duration < MAX_DURATION && Finished(elapsed, duration)
    ensures Interpolated(start, target, elapsed, duration) == target
  {
    FinishedMeansElapsed(elapsed, duration);
    QuotientAgainst(elapsed as real, 1.0, duration as real);
    BlendBounds(Completeness(elapsed, duration));
    BetweenEnds(start, target);
  }
}
