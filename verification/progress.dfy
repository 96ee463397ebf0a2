/**
 * Overall course progress: the share of completed lessons among all
 * lessons of a roadmap, as a whole percentage rounded like `Math.round`.
 * The roadmap display and the roadmap context compute it the same way.
 */
module Progress {
  import opened RoadmapModel

  /** Number of lessons over all modules (the first `reduce`). */
  function TotalLessons(ms: seq<Module>): nat
  {
    if |ms| == 0 then 0 else TotalLessons(ms[..|ms| - 1]) + |ms[|ms| - 1].lessons|
  }

  /** The lessons whose `completed` flag is set, in order (`filter`). */
  function CompletedOf(ls: seq<Lesson>): (done: seq<Lesson>)
    ensures |done| <= |ls|
    ensures forall l :: l in done ==> l in ls && l.completed
  {
    if |ls| == 0 then []
    else if ls[0].completed then [ls[0]] + CompletedOf(ls[1..])
    else CompletedOf(ls[1..])
  }

  /** Number of completed lessons over all modules (the second `reduce`). */
  function CompletedLessons(ms: seq<Module>): nat
  {
    if |ms| == 0 then 0
    else CompletedLessons(ms[..|ms| - 1]) + |CompletedOf(ms[|ms| - 1].lessons)|
  }

  /** Completed lessons are drawn from all lessons, so never outnumber them. */
  lemma {:induction false} CompletedAtMostTotal(ms: seq<Module>)
    ensures CompletedLessons(ms) <= TotalLessons(ms)
  {
    if |ms| > 0 {
      CompletedAtMostTotal(ms[..|ms| - 1]);
    }
  }

  /** `Math.round` on a real: the nearest integer, halves rounded up. */
  function MathRound(x: real): int
  {
    (x + 0.5).Floor
  }

  /**
   * `Math.round((c / t) * 100)` in integer arithmetic, or 0 when there
   * are no lessons.
   */
  function RoundedPercent(c: nat, t: nat): (r: nat)
    requires c <= t
    ensures r <= 100
    ensures t == 0 ==> r == 0
    ensures t > 0 ==> r == MathRound((c as real / t as real) * 100.0)
    ensures c == 0 ==> r == 0
    ensures c == t > 0 ==> r == 100
  {
    if t > 0 then
      RoundedPercentIsMathRound(c, t);
      if c == 0 then
        DivOfSmall(200 * c + t, 2 * t, 0);
        (200 * c + t) / (2 * t)
      else if c == t then
        DivOfSmall(200 * c + t, 2 * t, 100);
        (200 * c + t) / (2 * t)
      else (200 * c + t) / (2 * t)
    else 0
  }

  /** Integer division of naturals is the floor of real division. */
  lemma FloorOfQuotient(a: nat, b: nat)
    requires b > 0
    ensures (a as real / b as real).Floor == a / b
  {
    var q, m := a / b, a % b;
    assert a == q * b + m;
    assert a as real / b as real == q as real + m as real / b as real;
    assert 0.0 <= m as real / b as real < 1.0;
  }

  /** `Math.round`'s argument, shifted by a half, as one quotient of integers. */
  lemma HalfShiftedPercent(c: nat, t: nat)
    requires 0 < t
    ensures (c as real / t as real) * 100.0 + 0.5 == (200 * c + t) as real / (2 * t) as real
  {
    var cr, tr := c as real, t as real;
    var y := (cr / tr) * 100.0 + 0.5;
    assert (cr / tr) * tr == cr;
    assert y * (2.0 * tr) == 200.0 * cr + tr;
    QuotientUnique(200.0 * cr + tr, 2.0 * tr, y);
  }

  /** A real quotient is the one number that multiplies back. */
  lemma QuotientUnique(a: real, b: real, y: real)
    requires b != 0.0 && y * b == a
    ensures y == a / b
  {
  }

  /** Integer division is determined by the bracket its quotient falls in. */
  lemma DivOfSmall(a: int, b: int, q: int)
    requires b > 0 && q * b <= a < q * b + b
    ensures a / b == q
  {
    var q' := a / b;
    assert q' * b <= a < q' * b + b;
    assert (q' + 1) * b == q' * b + b && (q + 1) * b == q * b + b;
    MulMonotone(q' + 1, q, b);
    MulMonotone(q + 1, q', b);
  }

  lemma MulMonotone(x: int, y: int, b: int)
    requires b > 0
    ensures x <= y ==> x * b <= y * b
  {
    assert y * b - x * b == (y - x) * b;
  }

  lemma RoundedPercentIsMathRound(c: nat, t: nat)
    requires 0 < t && c <= t
    ensures (200 * c + t) / (2 * t) == MathRound((c as real / t as real) * 100.0)
    ensures (200 * c + t) / (2 * t) <= 100
  {
    HalfShiftedPercent(c, t);
    FloorOfQuotient(200 * c + t, 2 * t);
    QuotientBelow(200 * c + t, 2 * t, 100);
  }

  /** A quotient whose dividend lies below `(k + 1) * b` is at most `k`. */
  lemma QuotientBelow(a: int, b: int, k: int)
    requires b > 0 && 0 <= a < (k + 1) * b
    ensures a / b <= k
  {
    var q := a / b;
    assert q * b <= a;
    MulMonotone(k + 1, q, b);
  }

  /** The progress percentage of a list of modules. */
  function ProgressPercentage(ms: seq<Module>): (r: nat)
    ensures r <= 100
    ensures TotalLessons(ms) == 0 ==> r == 0
    ensures TotalLessons(ms) > 0 ==>
      r == MathRound((CompletedLessons(ms) as real / TotalLessons(ms) as real) * 100.0)
    ensures CompletedLessons(ms) == 0 ==> r == 0
    ensures CompletedLessons(ms) == TotalLessons(ms) > 0 ==> r == 100
  {
    CompletedAtMostTotal(ms);
    RoundedPercent(CompletedLessons(ms), TotalLessons(ms))
  }
}
