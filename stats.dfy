/** The descriptive statistics pandas computes over a column of amounts: the mean and the sample
    standard deviation (`std()`, which divides by n - 1). The standard deviation is never taken:
    the variance is carried instead, and `x > mean + t * std` is decided on squares. */
module Stats {
  import opened Common

  function Mean(s: seq<real>): real
    requires |s| > 0
  {
    Sum(s) / |s| as real
  }

  function Square(x: real): real {
    x * x
  }

  lemma SquareNonNegative(x: real)
    ensures Square(x) >= 0.0
  {
  }

  /** The sum of the squared distances of the values of `s` from `c`. */
  function SqDev(s: seq<real>, c: real): real
    decreases |s|
  {
    if s == [] then 0.0 else SqDev(s[..|s| - 1], c) + Square(s[|s| - 1] - c)
  }

  function SumSq(s: seq<real>): real
    decreases |s|
  {
    if s == [] then 0.0 else SumSq(s[..|s| - 1]) + Square(s[|s| - 1])
  }

  lemma {:induction false} SqDevNonNegative(s: seq<real>, c: real)
    ensures SqDev(s, c) >= 0.0
    decreases |s|
  {
    if s != [] {
      SqDevNonNegative(s[..|s| - 1], c);
      SquareNonNegative(s[|s| - 1] - c);
    }
  }

  /** The square of pandas' `std()`: the sample variance. */
  function SampleVar(s: seq<real>): real
    requires |s| >= 2
  {
    SqDev(s, Mean(s)) / (|s| - 1) as real
  }

  lemma SampleVarNonNegative(s: seq<real>)
    requires |s| >= 2
    ensures SampleVar(s) >= 0.0
  {
    SqDevNonNegative(s, Mean(s));
  }

  /** `d > t * sqrt(v)` for a variance `v`, decided without the square root. */
  predicate ExceedsBand(d: real, t: real, v: real) {
    if t >= 0.0 then d > 0.0 && Square(d) > Square(t) * v
    else d > 0.0 || Square(d) < Square(t) * v
  }

  /** The square-free test agrees with the one that uses the square root `s` of `v`. */
  lemma ExceedsBandSqrt(d: real, t: real, v: real, s: real)
    requires v >= 0.0 && s >= 0.0 && s * s == v
    ensures ExceedsBand(d, t, v) <==> d > t * s
  {
    var ts := t * s;
    assert Square(t) * v == ts * ts;
    if t >= 0.0 {
      assert ts >= 0.0 by { MulNonNegative(t, s); }
      if d > 0.0 {
        SquareMonotone(ts, d);
      }
    } else {
      assert ts <= 0.0 by { MulNonNegative(-t, s); }
      if d <= 0.0 {
        SquareMonotone(-d, -ts);
        assert (-d) * (-d) == d * d && (-ts) * (-ts) == ts * ts;
      }
    }
  }

  lemma MulNonNegative(a: real, b: real)
    requires a >= 0.0 && b >= 0.0
    ensures a * b >= 0.0
  {
  }

  /** On non-negative numbers, squaring keeps the order. */
  lemma SquareMonotone(a: real, b: real)
    requires a >= 0.0 && b >= 0.0
    ensures a < b <==> a * a < b * b
  {
    if a < b {
      MulPositive(b - a, b + a);
      assert b * b - a * a == (b - a) * (b + a);
    } else {
      MulNonNegative(a - b, a + b);
      assert a * a - b * b == (a - b) * (a + b);
    }
  }

  lemma MulPositive(a: real, b: real)
    requires a > 0.0 && b > 0.0
    ensures a * b > 0.0
  {
  }

  lemma MulLeft(k: real, a: real, b: real)
    requires k >= 0.0 && a <= b
    ensures k * a <= k * b
  {
    MulNonNegative(k, b - a);
  }

  lemma MulStrict(k: real, a: real, b: real)
    requires k > 0.0 && a < b
    ensures k * a < k * b
  {
    assert k * (b - a) > 0.0;
  }

  lemma MeanTimesCount(s: seq<real>)
    requires |s| > 0
    ensures Mean(s) * |s| as real == Sum(s)
  {
    MulDiv(Sum(s), |s| as real);
  }

  lemma MulDiv(a: real, n: real)
    requires n > 0.0
    ensures (a / n) * n == a
  {
  }

  /** The number of values, as a real: `|s| as real`, by `CountIsLength`. Products in the proofs
      below are taken of it rather than of the conversion, which keeps the arithmetic real. */
  function Count(s: seq<real>): real
    decreases |s|
  {
    if s == [] then 0.0 else Count(s[..|s| - 1]) + 1.0
  }

  lemma {:induction false} CountIsLength(s: seq<real>)
    ensures Count(s) == |s| as real
    decreases |s|
  {
    if s != [] {
      CountIsLength(s[..|s| - 1]);
    }
  }

  /** The deviations of the values of `s` from `c`. */
  function Dev(s: seq<real>, c: real): (r: seq<real>)
    ensures |r| == |s| && forall k :: 0 <= k < |s| ==> r[k] == s[k] - c
  {
    seq(|s|, k requires 0 <= k < |s| => s[k] - c)
  }

  lemma {:induction false} SqDevIsSumSq(s: seq<real>, c: real)
    ensures SqDev(s, c) == SumSq(Dev(s, c))
    decreases |s|
  {
    if s != [] {
      var init := s[..|s| - 1];
      SqDevIsSumSq(init, c);
      assert Dev(s, c)[..|s| - 1] == Dev(init, c);
    }
  }

  lemma {:induction false} SumDev(s: seq<real>, c: real)
    ensures Sum(Dev(s, c)) == Sum(s) - Count(s) * c
    decreases |s|
  {
    if s == [] {
      assert Sum(Dev(s, c)) == 0.0 && Sum(s) == 0.0;
    } else {
      var init := s[..|s| - 1];
      SumDev(init, c);
      assert Dev(s, c)[..|s| - 1] == Dev(init, c);
      assert Count(s) * c == Count(init) * c + c;
    }
  }

  /** The deviations from the mean sum to zero. */
  lemma SumDevMean(s: seq<real>)
    requires |s| > 0
    ensures Sum(Dev(s, Mean(s))) == 0.0
  {
    SumDev(s, Mean(s));
    MeanTimesCount(s);
    CountIsLength(s);
  }

  lemma {:induction false} SumSqAppend(a: seq<real>, b: seq<real>)
    ensures SumSq(a + b) == SumSq(a) + SumSq(b)
    decreases |b|
  {
    if b == [] {
      assert a + b == a;
    } else {
      assert (a + b)[..|a + b| - 1] == a + b[..|b| - 1];
      SumSqAppend(a, b[..|b| - 1]);
    }
  }

  lemma {:induction false} SumSqNonNegative(s: seq<real>)
    ensures SumSq(s) >= 0.0
    decreases |s|
  {
    if s != [] {
      SumSqNonNegative(s[..|s| - 1]);
      SquareNonNegative(s[|s| - 1]);
    }
  }

  /** `n * S - (sum)^2` is never negative, for `S` the sum of the squares of `n` values. */
  lemma {:induction false} SpreadNonNegative(w: seq<real>)
    ensures Count(w) * SumSq(w) >= Sum(w) * Sum(w)
    decreases |w|
  {
    if w == [] {
      assert Sum(w) == 0.0 && SumSq(w) == 0.0;
    } else {
      var init := w[..|w| - 1];
      SpreadNonNegative(init);
      SumSqNonNegative(init);
      CountIsLength(init);
      ArithSpreadStep(Count(init), SumSq(init), Sum(init), w[|w| - 1], Count(w), SumSq(w), Sum(w));
    }
  }

  lemma ArithSpreadStep(k: real, q: real, sm: real, a: real, k': real, q': real, sm': real)
    requires k >= 0.0 && q >= 0.0 && k * q >= sm * sm
    requires k' == k + 1.0 && q' == q + Square(a) && sm' == sm + a
    ensures k' * q' >= sm' * sm'
  {
    var e := q + k * Square(a) - 2.0 * sm * a;
    assert k' * q' - sm' * sm' == (k * q - sm * sm) + e;
    if k == 0.0 {
      if sm != 0.0 {
        if sm > 0.0 { MulPositive(sm, sm); } else { MulPositive(-sm, -sm); }
      }
      SquareNonNegative(a);
    } else {
      // k * e >= sm^2 - 2 k sm a + k^2 a^2 = (sm - k a)^2 >= 0
      assert k * e == k * q + k * k * Square(a) - 2.0 * k * sm * a;
      assert Square(sm - k * a) == sm * sm - 2.0 * k * sm * a + k * k * Square(a);
      SquareNonNegative(sm - k * a);
      if e < 0.0 {
        MulStrict(k, e, 0.0);
      }
    }
  }

  /** The sample with its `i`-th value taken out. */
  function Without(s: seq<real>, i: nat): (r: seq<real>)
    requires i < |s|
    ensures |r| == |s| - 1
  {
    s[..i] + s[i + 1..]
  }

  /** Taking one value out of a sample takes it out of the count, the sum and the sum of squares. */
  lemma SplitAt(s: seq<real>, i: nat)
    requires i < |s|
    ensures Count(Without(s, i)) == Count(s) - 1.0
    ensures Sum(Without(s, i)) == Sum(s) - s[i]
    ensures SumSq(Without(s, i)) == SumSq(s) - Square(s[i])
  {
    var x := s[i];
    assert s == s[..i] + [x] + s[i + 1..];
    SumAppend(s[..i] + [x], s[i + 1..]);
    SumAppend(s[..i], [x]);
    SumAppend(s[..i], s[i + 1..]);
    SumSqAppend(s[..i] + [x], s[i + 1..]);
    SumSqAppend(s[..i], [x]);
    SumSqAppend(s[..i], s[i + 1..]);
    SumSingle(x);
    assert SumSq([x]) == Square(x) by { assert [x][..0] == []; }
    CountIsLength(s);
    CountIsLength(Without(s, i));
  }

  /** `n * sq <= (n - 1) * q`: with `sq` the squared deviation of one value and `q` the summed squared
      deviations of a sample of `n` values, the value lies no further from the mean than
      `sqrt((n - 1) / n)` times the root of `q`. */
  predicate SamuelsonBound(n: real, sq: real, q: real) {
    n * sq <= n * q - q
  }

  /** Samuelson's inequality for deviations that sum to zero. */
  lemma DevSamuelson(y: seq<real>, i: nat)
    requires |y| >= 2 && i < |y| && Sum(y) == 0.0
    ensures SamuelsonBound(Count(y), Square(y[i]), SumSq(y))
  {
    SplitAt(y, i);
    DevSamuelsonRest(y, i, Without(y, i));
  }

  /** The same, given the rest `w` of the sample only through its count and sums. */
  lemma DevSamuelsonRest(y: seq<real>, i: nat, w: seq<real>)
    requires |y| >= 2 && i < |y| && Sum(y) == 0.0
    requires Count(w) == Count(y) - 1.0 && Sum(w) == Sum(y) - y[i] && SumSq(w) == SumSq(y) - Square(y[i])
    ensures SamuelsonBound(Count(y), Square(y[i]), SumSq(y))
  {
    SamuelsonFacts(y, i, w);
    ArithSamuelson(Count(y), Count(w), y[i], Square(y[i]), Sum(y), Sum(w), SumSq(w), SumSq(y));
  }

  lemma SamuelsonFacts(y: seq<real>, i: nat, w: seq<real>)
    requires |y| >= 2 && i < |y| && Sum(y) == 0.0
    requires Count(w) == Count(y) - 1.0 && Sum(w) == Sum(y) - y[i] && SumSq(w) == SumSq(y) - Square(y[i])
    ensures SamuelsonPremises(Count(y), Count(w), y[i], Square(y[i]), Sum(y), Sum(w), SumSq(w), SumSq(y))
  {
    SpreadNonNegative(w);
    CountIsLength(y);
  }

  /** What Samuelson's inequality needs of the count `n`, the value `x`, the sum `sm` and the sum of
      squares `q` of a sample, and of the count, sum and sum of squares of the rest of it. */
  predicate SamuelsonPremises(n: real, kw: real, x: real, sq: real, sm: real, sw: real, qw: real, q: real) {
    n >= 2.0 && kw == n - 1.0 && sq == Square(x) &&
    sm == 0.0 && sw == sm - x && qw == q - sq && kw * qw >= sw * sw
  }

  lemma ArithSamuelson(n: real, kw: real, x: real, sq: real, sm: real, sw: real, qw: real, q: real)
    requires SamuelsonPremises(n, kw, x, sq, sm, sw, qw, q)
    ensures SamuelsonBound(n, sq, q)
  {
    assert sw * sw == sq;
    assert kw * qw == n * q - q - n * sq + sq;
  }

  /** Samuelson's inequality: no value lies further from the mean than `sqrt((n - 1) / n)` times
      the root of the summed squared deviations. */
  lemma Samuelson(s: seq<real>, i: nat)
    requires |s| >= 2 && i < |s|
    ensures SamuelsonBound(Count(s), Square(s[i] - Mean(s)), SqDev(s, Mean(s)))
  {
    var y := Dev(s, Mean(s));
    SumDevMean(s);
    SqDevIsSumSq(s, Mean(s));
    CountIsLength(s);
    CountIsLength(y);
    assert Count(y) == Count(s) && y[i] == s[i] - Mean(s);
    DevSamuelson(y, i);
  }

  /** With threshold `t`, a sample of `n` values can only hold an outlier when `(n - 1)^2 <= t^2 n`
      fails. */
  lemma NoOutlierInSmallSample(s: seq<real>, i: nat, t: real)
    requires |s| >= 2 && i < |s| && t >= 0.0
    requires Square((|s| - 1) as real) <= Square(t) * |s| as real
    ensures !ExceedsBand(s[i] - Mean(s), t, SampleVar(s))
  {
    SmallSampleFacts(s, i, t);
    ArithSmallSample(Count(s), (|s| - 1) as real, s[i] - Mean(s), SqDev(s, Mean(s)), t, SampleVar(s));
  }

  lemma SmallSampleFacts(s: seq<real>, i: nat, t: real)
    requires |s| >= 2 && i < |s| && t >= 0.0
    requires Square((|s| - 1) as real) <= Square(t) * |s| as real
    ensures SmallSamplePremises(Count(s), (|s| - 1) as real, s[i] - Mean(s), SqDev(s, Mean(s)), t, SampleVar(s))
  {
    Samuelson(s, i);
    SampleVarTimes(s);
    CountIsLength(s);
    SquareNonNegative(s[i] - Mean(s));
    SquareNonNegative(t);
    SqDevNonNegative(s, Mean(s));
  }

  lemma SampleVarTimes(s: seq<real>)
    requires |s| >= 2
    ensures SampleVar(s) * (|s| - 1) as real == SqDev(s, Mean(s))
  {
    MulDiv(SqDev(s, Mean(s)), (|s| - 1) as real);
  }

  /** What `NoOutlierInSmallSample` needs of the count `n`, the deviation `d` of one value, the
      summed squared deviations `ss`, the threshold `t` and the variance `v`. */
  predicate SmallSamplePremises(n: real, k1: real, d: real, ss: real, t: real, v: real) {
    n >= 2.0 && k1 == n - 1.0 && Square(d) >= 0.0 && ss >= 0.0 && t >= 0.0 && Square(t) >= 0.0 &&
    SamuelsonBound(n, Square(d), ss) && v * k1 == ss && Square(k1) <= Square(t) * n
  }

  lemma ArithSmallSample(n: real, k1: real, d: real, ss: real, t: real, v: real)
    requires SmallSamplePremises(n, k1, d, ss, t, v)
    ensures !ExceedsBand(d, t, v)
  {
    var dd, tt := Square(d), Square(t);
    var k := n * k1;
    assert k > 0.0 by { MulPositive(n, k1); }
    assert n * dd <= k1 * ss;
    MulLeft(k1, n * dd, k1 * ss);
    MulLeft(ss, Square(k1), tt * n);
    assert k * dd <= k * (tt * v);
    if dd > tt * v {
      MulStrict(k, tt * v, dd);
    }
  }

  /** The anomaly threshold of two standard deviations: a sample of fewer than six values never
      has a value above it. */
  lemma NoOutlierBelowSix(s: seq<real>, i: nat)
    requires 2 <= |s| < 6 && i < |s|
    ensures !ExceedsBand(s[i] - Mean(s), 2.0, SampleVar(s))
  {
    var n := |s| as real;
    assert (n - 1.0) * (n - 1.0) <= 4.0 * n by {
      assert 2.0 <= n <= 5.0;
      assert (n - 1.0) * (n - 1.0) - 4.0 * n == (n - 3.0) * (n - 3.0) - 8.0;
      assert (n - 3.0) * (n - 3.0) <= 4.0 by {
        var e := n - 3.0;
        assert -1.0 <= e <= 2.0;
        if e >= 0.0 { assert e * e <= 2.0 * e; } else { assert e * e <= -e; }
      }
    }
    NoOutlierInSmallSample(s, i, 2.0);
  }

  /** A sample whose values are all equal has no value above the band, whatever the threshold. */
  lemma ConstantNoOutlier(s: seq<real>, i: nat, t: real)
    requires |s| >= 2 && i < |s|
    requires forall k :: 0 <= k < |s| ==> s[k] == s[0]
    ensures !ExceedsBand(s[i] - Mean(s), t, SampleVar(s))
  {
    ConstantSum(s);
    MulDiv(s[0], |s| as real);
    assert Mean(s) == s[0];
    ConstantSqDev(s, s[0], s[0]);
  }

  lemma {:induction false} ConstantSum(s: seq<real>)
    requires |s| > 0 && forall k :: 0 <= k < |s| ==> s[k] == s[0]
    ensures Sum(s) == s[0] * |s| as real
    decreases |s|
  {
    if |s| > 1 {
      ConstantSum(s[..|s| - 1]);
    } else {
      SumSingle(s[0]);
      assert s == [s[0]];
    }
  }

  /** The squared deviations from `c` of a sample whose values all equal `v`. */
  lemma {:induction false} ConstantSqDev(s: seq<real>, v: real, c: real)
    requires forall k :: 0 <= k < |s| ==> s[k] == v
    ensures SqDev(s, c) == |s| as real * Square(v - c)
    decreases |s|
  {
    if s != [] {
      ConstantSqDev(s[..|s| - 1], v, c);
    }
  }

  /** Six values are enough: in `[0, 0, 0, 0, 0, 1]` the last value lies more than two standard
      deviations above the mean. */
  lemma SixValuesCanHoldOutlier()
    ensures ExceedsBand(1.0 - Mean([0.0, 0.0, 0.0, 0.0, 0.0, 1.0]), 2.0, SampleVar([0.0, 0.0, 0.0, 0.0, 0.0, 1.0]))
  {
    var z := [0.0, 0.0, 0.0, 0.0, 0.0];
    var s := z + [1.0];
    assert s == [0.0, 0.0, 0.0, 0.0, 0.0, 1.0];
    ConstantSum(z);
    SumAppend(z, [1.0]);
    SumSingle(1.0);
    assert Sum(s) == 1.0;
    var m := 1.0 / 6.0;
    assert Mean(s) == m;
    assert s[..5] == z;
    ConstantSqDev(z, 0.0, m);
    assert SqDev(s, m) == 5.0 * m * m + (1.0 - m) * (1.0 - m);
    assert SampleVar(s) == m;
  }

  /** The example `[10, 10, 100]`: the value 100 is not reported, since three values are too few. */
  lemma ThreeValuesNoOutlier()
    ensures !ExceedsBand(100.0 - Mean([10.0, 10.0, 100.0]), 2.0, SampleVar([10.0, 10.0, 100.0]))
  {
    var s := [10.0, 10.0, 100.0];
    NoOutlierBelowSix(s, 2);
  }
}
