/**
 * The levelling curve shared by WorkoutRunner.tsx and Dashboard.tsx:
 * reaching level L takes ceil(100 * L^1.5) experience points.
 *
 * For L >= 0, 100 * L^1.5 is the square root of 10000 * L^3, so the threshold
 * is the least natural number t with t * t >= 10000 * L^3. The model computes
 * that number exactly instead of going through floating-point `Math.pow`.
 */
module Leveling {

  /** t is the ceiling of the square root of n. */
  ghost predicate IsCeilSqrt(n: nat, t: nat)
  {
    t * t >= n && (t == 0 || (t - 1) * (t - 1) < n)
  }

  /** Counts up from t to the first number whose square reaches n. */
  function CeilSqrtFrom(n: nat, t: nat): nat
    requires t <= n
    decreases n - t
  {
    if t * t >= n then t
    else
      assert t < n by { if t >= 1 { SquareAtLeast(t); } }
      CeilSqrtFrom(n, t + 1)
  }

  /** Started below the root, the search stops exactly at the ceiling square root. */
  lemma {:induction false} CeilSqrtFromCorrect(n: nat, t: nat)
    requires t <= n
    requires t == 0 || (t - 1) * (t - 1) < n
    ensures IsCeilSqrt(n, CeilSqrtFrom(n, t))
    decreases n - t
  {
    if t * t < n {
      assert t < n by { if t >= 1 { SquareAtLeast(t); } }
      CeilSqrtFromCorrect(n, t + 1);
    }
  }

  /** The least natural number whose square is at least n. */
  function CeilSqrt(n: nat): nat
  {
    CeilSqrtFrom(n, 0)
  }

  lemma CeilSqrtCorrect(n: nat)
    ensures IsCeilSqrt(n, CeilSqrt(n))
  {
    CeilSqrtFromCorrect(n, 0);
  }

  lemma SquareAtLeast(n: nat)
    requires n >= 1
    ensures n <= n * n
  {
    assert n * n == n * (n - 1) + n;
  }

  /** a <= b implies a * a <= b * b for naturals. */
  lemma SquareMonotone(a: nat, b: nat)
    requires a <= b
    ensures a * a <= b * b
  {
    assert a * a <= a * b by { MulLeft(a, a, b); }
    assert a * b <= b * b by { MulLeft(b, a, b); }
  }

  lemma MulLeft(k: nat, a: nat, b: nat)
    requires a <= b
    ensures k * a <= k * b
  {
    assert k * b == k * a + k * (b - a);
  }

  /** The ceiling square root is the only number with its defining property. */
  lemma CeilSqrtUnique(n: nat, t: nat)
    requires IsCeilSqrt(n, t)
    ensures CeilSqrt(n) == t
  {
    var c := CeilSqrt(n);
    CeilSqrtCorrect(n);
    if c < t {
      SquareMonotone(c, t - 1);
    } else if t < c {
      SquareMonotone(t, c - 1);
    }
  }

  function Cube(l: nat): nat { l * l * l }

  /** ceil(100 * L^1.5), the xp at which level L starts. */
  function Threshold(level: nat): nat
  {
    CeilSqrt(10000 * Cube(level))
  }

  /** The threshold of level L is the ceiling square root of 10000 L^3. */
  lemma ThresholdIsCeilSqrt(level: nat)
    ensures IsCeilSqrt(10000 * Cube(level), Threshold(level))
  {
    CeilSqrtCorrect(10000 * Cube(level));
  }

  /** The values the app shows for the first levels: 100, 283, 520. */
  lemma FirstThresholds()
    ensures Threshold(1) == 100 && Threshold(2) == 283 && Threshold(3) == 520
  {
    CeilSqrtUnique(10000 * Cube(1), 100);
    CeilSqrtUnique(10000 * Cube(2), 283);
    CeilSqrtUnique(10000 * Cube(3), 520);
  }

  /** A ceiling square root is at most any number whose square reaches n. */
  lemma CeilSqrtAtMost(n: nat, r: nat, q: nat)
    requires IsCeilSqrt(n, r) && n <= q * q
    ensures r <= q
  {
    if q < r {
      SquareMonotone(q, r - 1);
    }
  }

  lemma CubeBounds(level: nat)
    requires level >= 1
    ensures 10000 * Cube(level) <= (100 * (level * level)) * (100 * (level * level))
    ensures Cube(level + 1) == Cube(level) + 3 * (level * level) + 3 * level + 1
  {
    var l2 := level * level;
    assert Cube(level) == l2 * level;
    MulLeft(l2, level, l2) by { SquareAtLeast(level); }
    MulLeft(10000, Cube(level), l2 * l2);
    assert (100 * l2) * (100 * l2) == 10000 * (l2 * l2);
  }

  lemma SquareSuccessor(r: nat)
    requires r >= 1
    ensures r * r == (r - 1) * (r - 1) + 2 * r - 1
  {
  }

  /** The linear core of ThresholdStep: r * r stays below the next target. */
  lemma StepArithmetic(n: int, m: int, r: int, rr: int, pr: int, l: int, l2: int)
    requires l >= 1 && l2 >= 1 && r >= 1
    requires rr == pr + 2 * r - 1 && pr < n && r <= 100 * l2
    requires m == n + 30000 * l2 + 30000 * l + 10000
    ensures rr < m
  {
  }

  /** A square that falls short of n leaves every smaller square short of it too. */
  lemma BelowSquare(n: nat, s: nat, r: nat)
    requires s <= r && r * r < n
    ensures s * s < n
  {
    SquareMonotone(s, r);
  }

  /** The ceiling square roots of consecutive targets, for a level of at least 1. */
  lemma RootsSeparate(level: nat, r: nat, s: nat)
    requires level >= 1 && r >= 1
    requires IsCeilSqrt(10000 * Cube(level), r) && IsCeilSqrt(10000 * Cube(level + 1), s)
    ensures r < s
  {
    var l2 := level * level;
    var n := 10000 * Cube(level);
    var m := 10000 * Cube(level + 1);
    CubeBounds(level);
    CeilSqrtAtMost(n, r, 100 * l2);
    SquareSuccessor(r);
    StepArithmetic(n, m, r, r * r, (r - 1) * (r - 1), level, l2);
    if s <= r {
      BelowSquare(m, s, r);
    }
  }

  /** Each step of the curve is strictly higher than the previous one. */
  lemma ThresholdStep(level: nat)
    ensures Threshold(level) < Threshold(level + 1)
  {
    var r := Threshold(level);
    var s := Threshold(level + 1);
    ThresholdIsCeilSqrt(level);
    ThresholdIsCeilSqrt(level + 1);
    if r == 0 {
      assert 10000 * Cube(level + 1) > 0;
    } else {
      RootsSeparate(level, r, s);
    }
  }

  /** The curve is strictly increasing. */
  lemma {:induction false} ThresholdStrictlyIncreasing(a: nat, b: nat)
    requires a < b
    ensures Threshold(a) < Threshold(b)
    decreases b - a
  {
    ThresholdStep(a);
    if a + 1 < b {
      ThresholdStrictlyIncreasing(a + 1, b);
    }
  }

  /** Squaring undoes the curve from below: Threshold(L) * Threshold(L) >= 10000 L^3. */
  lemma ThresholdIsLeast(level: nat, t: nat)
    requires t * t >= 10000 * Cube(level)
    ensures Threshold(level) <= t
  {
    var r := Threshold(level);
    ThresholdIsCeilSqrt(level);
    if t < r {
      SquareMonotone(t, r - 1);
    }
  }
}
