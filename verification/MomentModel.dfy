/**
 Streaming moments (common/RunningStats.cpp) on values, in exact arithmetic. The reference
 is `Batch`: the mean of all values, and the sums of the second, third and fourth powers of
 their deviations from it. Pushing and merging are proved to agree with it.
 */
module MomentModel {

  /**
   The accumulator. `Undefined` is the state after two empty accumulators were merged:
   the count is zero and the moments, quotients of zero by zero, are not numbers.
   */
  datatype Moments = Moments(n: nat, m1: real, m2: real, m3: real, m4: real) | Undefined(n: nat)

  const CLEARED := Moments(0, 0.0, 0.0, 0.0, 0.0)

  function Pow(x: real, k: nat): real {
    if k == 0 then 1.0 else x * Pow(x, k - 1)
  }

  /** The sum of the `k`-th powers of the deviations from `m`. */
  function Deviations(xs: seq<real>, m: real, k: nat): real {
    if xs == [] then 0.0
    else Deviations(xs[..|xs| - 1], m, k) + Pow(xs[|xs| - 1] - m, k)
  }

  function Mean(xs: seq<real>): real {
    if xs == [] then 0.0 else Deviations(xs, 0.0, 1) / (|xs| as real)
  }

  function Batch(xs: seq<real>): Moments {
    var m := Mean(xs);
    Moments(|xs|, m, Deviations(xs, m, 2), Deviations(xs, m, 3), Deviations(xs, m, 4))
  }

  // ----- the operations -----

  // What a push adds to the third and the fourth moment.

  function Growth3(term1: real, deltaN: real, count: real, m2: real): real {
    term1 * deltaN * (count - 2.0) - 3.0 * deltaN * m2
  }

  function Growth4(term1: real, deltaN: real, count: real, m2: real, m3: real): real {
    var deltaN2 := deltaN * deltaN;
    term1 * deltaN2 * (count * count - 3.0 * count + 3.0) + 6.0 * deltaN2 * m2 - 4.0 * deltaN * m3
  }

  function Pushed(s: Moments, x: real): Moments {
    match s
    case Undefined(n) => Undefined(n + 1)
    case Moments(n, m1, m2, m3, m4) =>
      var previousCount, count := n as real, (n + 1) as real;
      var delta := x - m1;
      var deltaN := delta / count;
      var term1 := delta * deltaN * previousCount;
      Moments(n + 1,
              m1 + deltaN,
              m2 + term1,
              m3 + Growth3(term1, deltaN, count, m2),
              m4 + Growth4(term1, deltaN, count, m2, m3))
  }

  // The terms that a merge adds: `delta` is the difference of the means, `a` and `b` are the
  // numbers of values, and `n` is their sum.

  function Spread2(delta: real, a: real, b: real, n: real): real
    requires n > 0.0
  {
    delta * delta * a * b / n
  }

  function Spread3(delta: real, a: real, b: real, n: real): real
    requires n > 0.0
  {
    delta * (delta * delta) * a * b * (a - b) / (n * n)
  }

  function Spread4(delta: real, a: real, b: real, n: real): real
    requires n > 0.0
  {
    (delta * delta) * (delta * delta) * a * b * (a * a - a * b + b * b) / (n * n * n)
  }

  function Cross1(factor: real, delta: real, c: real, n: real): real
    requires n > 0.0
  {
    factor * delta * c / n
  }

  function Cross2(factor: real, delta: real, c: real, n: real): real
    requires n > 0.0
  {
    factor * (delta * delta) * c / (n * n)
  }

  function WeightedMean(a: real, x: real, b: real, y: real, n: real): real
    requires n > 0.0
  {
    (a * x + b * y) / n
  }

  function Crossed(a: real, x: real, b: real, y: real): real {
    a * x - b * y
  }

  function CrossedSquares(a: real, x: real, b: real, y: real): real {
    a * a * x + b * b * y
  }

  function Merged(s: Moments, t: Moments): Moments {
    if s.Undefined? || t.Undefined? || s.n + t.n == 0 then Undefined(s.n + t.n)
    else MergedMoments(s, t, s.n as real, t.n as real, (s.n + t.n) as real)
  }

  function MergedMoments(s: Moments, t: Moments, a: real, b: real, n: real): Moments
    requires s.Moments? && t.Moments? && n > 0.0
  {
    var delta := t.m1 - s.m1;
    Moments(s.n + t.n,
            WeightedMean(a, s.m1, b, t.m1, n),
            s.m2 + t.m2 + Spread2(delta, a, b, n),
            s.m3 + t.m3 + Spread3(delta, a, b, n) + Cross1(3.0, delta, Crossed(a, t.m2, b, s.m2), n),
            s.m4 + t.m4 + Spread4(delta, a, b, n)
              + (Cross2(6.0, delta, CrossedSquares(a, t.m2, b, s.m2), n)
                 + Cross1(4.0, delta, Crossed(a, t.m3, b, s.m3), n)))
  }

  // ----- moving the centre -----

  lemma Powers(x: real)
    ensures Pow(x, 1) == x
    ensures Pow(x, 2) == x * x
    ensures Pow(x, 3) == x * x * x
    ensures Pow(x, 4) == x * x * x * x
  {
    assert Pow(x, 0) == 1.0;
    assert Pow(x, 1) == x * Pow(x, 0);
    assert Pow(x, 2) == x * Pow(x, 1);
    assert Pow(x, 3) == x * Pow(x, 2);
    assert Pow(x, 4) == x * Pow(x, 3);
  }

  // What `n` deviations with the power sums `s1` to `s4` become when the centre moves by `d`.

  function Moved1(s1: real, n: real, d: real): real {
    s1 - n * d
  }

  function Moved2(s2: real, s1: real, n: real, d: real): real {
    s2 - 2.0 * d * s1 + n * (d * d)
  }

  function Moved3(s3: real, s2: real, s1: real, n: real, d: real): real {
    s3 - 3.0 * d * s2 + 3.0 * d * d * s1 - n * (d * d * d)
  }

  function Moved4(s4: real, s3: real, s2: real, s1: real, n: real, d: real): real {
    s4 - 4.0 * d * s3 + 6.0 * d * d * s2 - 4.0 * d * d * d * s1 + n * (d * d * d * d)
  }

  lemma MovedSum1(a1: real, b1: real, n: real, d: real)
    ensures Moved1(a1 + b1, n + 1.0, d) == Moved1(a1, n, d) + Moved1(b1, 1.0, d)
  {}

  lemma MovedSum2(a2: real, b2: real, a1: real, b1: real, n: real, d: real)
    ensures Moved2(a2 + b2, a1 + b1, n + 1.0, d) == Moved2(a2, a1, n, d) + Moved2(b2, b1, 1.0, d)
  {}

  lemma MovedSum3(a3: real, b3: real, a2: real, b2: real, a1: real, b1: real, n: real, d: real)
    ensures Moved3(a3 + b3, a2 + b2, a1 + b1, n + 1.0, d) == Moved3(a3, a2, a1, n, d) + Moved3(b3, b2, b1, 1.0, d)
  {}

  lemma MovedSum4(a4: real, b4: real, a3: real, b3: real, a2: real, b2: real, a1: real, b1: real, n: real, d: real)
    ensures Moved4(a4 + b4, a3 + b3, a2 + b2, a1 + b1, n + 1.0, d)
         == Moved4(a4, a3, a2, a1, n, d) + Moved4(b4, b3, b2, b1, 1.0, d)
  {}

  lemma MovedPower(y: real, d: real)
    ensures Pow(y - d, 1) == Moved1(Pow(y, 1), 1.0, d)
    ensures Pow(y - d, 2) == Moved2(Pow(y, 2), Pow(y, 1), 1.0, d)
    ensures Pow(y - d, 3) == Moved3(Pow(y, 3), Pow(y, 2), Pow(y, 1), 1.0, d)
  {
    Powers(y);
    Powers(y - d);
  }

  lemma MovedFourthPower(y: real, d: real)
    ensures Pow(y - d, 4) == Moved4(Pow(y, 4), Pow(y, 3), Pow(y, 2), Pow(y, 1), 1.0, d)
  {
    Powers(y);
    Powers(y - d);
  }

  /** Moving the centre from `m` to `m + d` changes the power sums by the binomial theorem. */
  lemma {:induction false} Shift(xs: seq<real>, m: real, d: real)
    ensures Deviations(xs, m + d, 1) == Moved1(Deviations(xs, m, 1), |xs| as real, d)
    ensures Deviations(xs, m + d, 2) == Moved2(Deviations(xs, m, 2), Deviations(xs, m, 1), |xs| as real, d)
    ensures Deviations(xs, m + d, 3)
         == Moved3(Deviations(xs, m, 3), Deviations(xs, m, 2), Deviations(xs, m, 1), |xs| as real, d)
    ensures Deviations(xs, m + d, 4)
         == Moved4(Deviations(xs, m, 4), Deviations(xs, m, 3), Deviations(xs, m, 2), Deviations(xs, m, 1),
                   |xs| as real, d)
  {
    if xs != [] {
      Unfold(xs, m + d);
      Unfold(xs, m);
      hide Pow, Deviations, Moved1, Moved2, Moved3, Moved4;
      var ys, y := xs[..|xs| - 1], xs[|xs| - 1] - m;
      Shift(ys, m, d);
      MovedPower(y, d);
      MovedFourthPower(y, d);
      assert xs[|xs| - 1] - (m + d) == y - d;
      assert |xs| as real == |ys| as real + 1.0;
      MovedSum1(Deviations(ys, m, 1), Pow(y, 1), |ys| as real, d);
      MovedSum2(Deviations(ys, m, 2), Pow(y, 2), Deviations(ys, m, 1), Pow(y, 1), |ys| as real, d);
      MovedSum3(Deviations(ys, m, 3), Pow(y, 3), Deviations(ys, m, 2), Pow(y, 2), Deviations(ys, m, 1), Pow(y, 1),
                |ys| as real, d);
      MovedSum4(Deviations(ys, m, 4), Pow(y, 4), Deviations(ys, m, 3), Pow(y, 3), Deviations(ys, m, 2), Pow(y, 2),
                Deviations(ys, m, 1), Pow(y, 1), |ys| as real, d);
    }
  }

  lemma Unfold(xs: seq<real>, m: real)
    requires xs != []
    ensures forall k: nat ::
      Deviations(xs, m, k) == Deviations(xs[..|xs| - 1], m, k) + Pow(xs[|xs| - 1] - m, k)
  {}

  /** Around the mean the deviations cancel, and nowhere else. */
  lemma CentredAtMean(xs: seq<real>, m: real)
    requires xs != []
    ensures Deviations(xs, m, 1) == 0.0 <==> m == Mean(xs)
  {
    Shift(xs, 0.0, m);
    hide Deviations, Moved2, Moved3, Moved4;
    var n, s := |xs| as real, Deviations(xs, 0.0, 1);
    WholeQuotient(s, n);
    if s == n * m {
      Quotient(s, m, n);
    }
  }

  lemma Quotient(x: real, y: real, n: real)
    requires n != 0.0 && x == n * y
    ensures x / n == y
  {}

  lemma WholeQuotient(x: real, n: real)
    requires n != 0.0
    ensures n * (x / n) == x
  {}

  lemma NoDeviations(m: real, k: nat)
    ensures Deviations([], m, k) == 0.0
  {}

  lemma CentreCancels(xs: seq<real>)
    ensures Deviations(xs, Mean(xs), 1) == 0.0
  {
    if xs == [] {
      NoDeviations(Mean(xs), 1);
    } else {
      CentredAtMean(xs, Mean(xs));
    }
  }

  // ----- pushing -----

  lemma PushMoves2(s2: real, n: real, q: real, delta: real)
    requires delta == (n + 1.0) * q
    ensures Moved2(s2, 0.0, n, q) + (n * q) * (n * q) == s2 + delta * q * n
  {}

  lemma PushMoves3(s3: real, s2: real, n: real, q: real, delta: real, term1: real)
    requires delta == (n + 1.0) * q && term1 == delta * q * n
    ensures Moved3(s3, s2, 0.0, n, q) + (n * q) * (n * q) * (n * q)
         == s3 + (term1 * q * ((n + 1.0) - 2.0) - 3.0 * q * s2)
  {
    assert term1 * q * ((n + 1.0) - 2.0) == ((n + 1.0) * q) * q * n * q * ((n + 1.0) - 2.0);
  }

  lemma PushMoves4(s4: real, s3: real, s2: real, n: real, q: real, delta: real, term1: real)
    requires delta == (n + 1.0) * q && term1 == delta * q * n
    ensures Moved4(s4, s3, s2, 0.0, n, q) + (n * q) * (n * q) * (n * q) * (n * q)
         == s4 + (term1 * (q * q) * ((n + 1.0) * (n + 1.0) - 3.0 * (n + 1.0) + 3.0)
                  + 6.0 * (q * q) * s2 - 4.0 * q * s3)
  {
    var c := (n + 1.0) * (n + 1.0) - 3.0 * (n + 1.0) + 3.0;
    assert term1 * (q * q) * c == ((n + 1.0) * q) * q * n * (q * q) * c;
  }

  /** The step to the next mean. */
  function MeanStep(xs: seq<real>, x: real): real {
    (x - Mean(xs)) / (|xs| + 1) as real
  }

  lemma PushMovesMean(xs: seq<real>, x: real)
    ensures Mean(xs + [x]) == Mean(xs) + MeanStep(xs, x)
    ensures x - Mean(xs) == (|xs| as real + 1.0) * MeanStep(xs, x)
  {
    hide Deviations, Pow, Moved1, Moved2, Moved3, Moved4, Mean, MeanStep;
    var n, m, q := |xs| as real, Mean(xs), MeanStep(xs, x);
    StepScaled(xs, x);
    assert (xs + [x])[..|xs|] == xs;
    CentreCancels(xs);
    Shift(xs, m, q);
    Unfold(xs + [x], m + q);
    Powers(x - (m + q));
    Balanced(n, m, q, x);
    CentredAtMean(xs + [x], m + q);
  }

  lemma Balanced(n: real, m: real, q: real, x: real)
    requires x - m == (n + 1.0) * q
    ensures Moved1(0.0, n, q) + (x - (m + q)) == 0.0
  {}

  lemma StepScaled(xs: seq<real>, x: real)
    ensures x - Mean(xs) == (|xs| as real + 1.0) * MeanStep(xs, x)
  {
    hide Mean;
    WholeQuotient(x - Mean(xs), |xs| as real + 1.0);
    assert (|xs| + 1) as real == |xs| as real + 1.0;
  }

  /** What pushing adds to a power sum around the new mean. */
  lemma PushMoves(xs: seq<real>, x: real, k: nat)
    ensures var q := MeanStep(xs, x);
      Deviations(xs + [x], Mean(xs + [x]), k)
      == Deviations(xs, Mean(xs) + q, k) + Pow(|xs| as real * q, k)
  {
    PushMovesMean(xs, x);
    assert (xs + [x])[..|xs|] == xs;
    Unfold(xs + [x], Mean(xs + [x]));
    hide Deviations, Pow, Mean, MeanStep;
    var q := MeanStep(xs, x);
    assert x - (Mean(xs) + q) == |xs| as real * q;
  }

  /** The source's formulas, in the size of the step. */
  lemma PushFormulas(s: Moments, x: real)
    requires s.Moments?
    ensures var n, q := s.n as real, (x - s.m1) / (s.n + 1) as real;
      var delta := x - s.m1;
      var term1, r := delta * q * n, Pushed(s, x);
      && r.Moments? && r.n == s.n + 1
      && r.m1 == s.m1 + q
      && r.m2 == s.m2 + term1
      && r.m3 == s.m3 + (term1 * q * ((n + 1.0) - 2.0) - 3.0 * q * s.m2)
      && r.m4 == s.m4 + (term1 * (q * q) * ((n + 1.0) * (n + 1.0) - 3.0 * (n + 1.0) + 3.0)
                         + 6.0 * (q * q) * s.m2 - 4.0 * q * s.m3)
  {
    assert (s.n + 1) as real == s.n as real + 1.0;
  }

  lemma PushedPowerSums(xs: seq<real>, x: real)
    ensures Pushed(Batch(xs), x).Moments?
    ensures Pushed(Batch(xs), x).m2 == Deviations(xs + [x], Mean(xs + [x]), 2)
    ensures Pushed(Batch(xs), x).m3 == Deviations(xs + [x], Mean(xs + [x]), 3)
    ensures Pushed(Batch(xs), x).m4 == Deviations(xs + [x], Mean(xs + [x]), 4)
  {
    hide Deviations, Pow, Mean, Moved1, Moved2, Moved3, Moved4, Pushed;
    var n, m, q := |xs| as real, Mean(xs), MeanStep(xs, x);
    PushMovesMean(xs, x);
    PushMoves(xs, x, 2);
    PushMoves(xs, x, 3);
    PushMoves(xs, x, 4);
    Powers(n * q);
    Shift(xs, m, q);
    CentreCancels(xs);
    var delta := x - m;
    var term1 := delta * q * n;
    PushMoves2(Deviations(xs, m, 2), n, q, delta);
    PushMoves3(Deviations(xs, m, 3), Deviations(xs, m, 2), n, q, delta, term1);
    PushMoves4(Deviations(xs, m, 4), Deviations(xs, m, 3), Deviations(xs, m, 2), n, q, delta, term1);
    PushFormulas(Batch(xs), x);
  }

  /** Pushing one value turns the moments of a sequence into those of the extended sequence. */
  lemma PushExtends(xs: seq<real>, x: real)
    ensures Pushed(Batch(xs), x) == Batch(xs + [x])
  {
    PushedPowerSums(xs, x);
    PushMovesMean(xs, x);
    PushFormulas(Batch(xs), x);
    hide Deviations, Mean, Pushed;
  }

  // ----- merging -----

  lemma {:induction false} Concatenates(xs: seq<real>, ys: seq<real>, m: real, k: nat)
    ensures Deviations(xs + ys, m, k) == Deviations(xs, m, k) + Deviations(ys, m, k)
  {
    if ys == [] {
      assert xs + ys == xs;
    } else {
      assert (xs + ys)[..|xs + ys| - 1] == xs + ys[..|ys| - 1];
      Concatenates(xs, ys[..|ys| - 1], m, k);
    }
  }

  lemma Positive(x: real, y: real)
    requires x > 0.0 && y > 0.0
    ensures x * y > 0.0
  {}

  lemma Spread2Quotient(delta: real, a: real, b: real, n: real, q: real)
    requires n > 0.0 && delta == n * q
    ensures Spread2(delta, a, b, n) == n * (q * q) * (a * b)
  {
    assert delta * delta == (n * q) * (n * q);
    Quotient(delta * delta * a * b, n * (q * q) * (a * b), n);
  }

  lemma Cross1Quotient(factor: real, delta: real, c: real, n: real, q: real)
    requires n > 0.0 && delta == n * q
    ensures Cross1(factor, delta, c, n) == q * (factor * c)
  {
    assert factor * delta * c == n * (q * (factor * c));
    Quotient(factor * delta * c, q * (factor * c), n);
  }

  // `m` and `k` are `n`: the solver treats a product of different names better than a power.

  lemma Cross2Quotient(factor: real, delta: real, c: real, n: real, m: real, q: real)
    requires n > 0.0 && n == m && delta == n * q
    ensures Cross2(factor, delta, c, n) == (q * q) * (factor * c)
  {
    Positive(n, m);
    assert delta * delta == (n * q) * (m * q);
    Quotient(factor * (delta * delta) * c, (q * q) * (factor * c), n * m);
  }

  lemma Spread3Quotient(delta: real, a: real, b: real, n: real, m: real, q: real)
    requires n > 0.0 && n == m && delta == n * q
    ensures Spread3(delta, a, b, n) == n * (q * (q * q)) * (a * b * (a - b))
  {
    Positive(n, m);
    assert delta * (delta * delta) == (n * q) * ((n * q) * (m * q));
    Quotient(delta * (delta * delta) * a * b * (a - b), n * (q * (q * q)) * (a * b * (a - b)), n * m);
  }

  lemma Spread4Quotient(delta: real, a: real, b: real, n: real, m: real, k: real, q: real)
    requires n > 0.0 && n == m == k && delta == n * q
    ensures Spread4(delta, a, b, n) == n * ((q * q) * (q * q)) * (a * b * (a * a - a * b + b * b))
  {
    Positive(n, m);
    Positive(n * m, k);
    var c := a * a - a * b + b * b;
    assert (delta * delta) * (delta * delta) == ((n * q) * (n * q)) * ((m * q) * (k * q));
    Quotient((delta * delta) * (delta * delta) * a * b * c, n * ((q * q) * (q * q)) * (a * b * c), n * m * k);
  }

  lemma MergeMoves2(s2: real, t2: real, a: real, b: real, n: real, q: real, delta: real)
    requires n > 0.0 && n == a + b && delta == n * q
    ensures Moved2(s2, 0.0, a, b * q) + Moved2(t2, 0.0, b, -(a * q)) == s2 + t2 + Spread2(delta, a, b, n)
  {
    Spread2Quotient(delta, a, b, n, q);
    assert n * (q * q) * (a * b) == (a + b) * (q * q) * (a * b);
  }

  lemma Cubes(s3: real, t3: real, s2: real, t2: real, a: real, b: real, q: real, c: real)
    requires c == a * t2 - b * s2
    ensures Moved3(s3, s2, 0.0, a, b * q) + Moved3(t3, t2, 0.0, b, -(a * q))
         == s3 + t3 + (a + b) * (q * (q * q)) * (a * b * (a - b)) + q * (3.0 * c)
  {
    assert q * (3.0 * c) == q * (3.0 * (a * t2 - b * s2));
  }

  lemma MergeMoves3(s3: real, t3: real, s2: real, t2: real, a: real, b: real, n: real, q: real, delta: real)
    requires n > 0.0 && n == a + b && delta == n * q
    ensures Moved3(s3, s2, 0.0, a, b * q) + Moved3(t3, t2, 0.0, b, -(a * q))
         == s3 + t3 + Spread3(delta, a, b, n) + Cross1(3.0, delta, Crossed(a, t2, b, s2), n)
  {
    hide Moved3, Spread3, Cross1;
    var c, e := Crossed(a, t2, b, s2), a * b * (a - b);
    Cubes(s3, t3, s2, t2, a, b, q, c);
    Spread3Quotient(delta, a, b, n, n, q);
    Cross1Quotient(3.0, delta, c, n, q);
    assert n * (q * (q * q)) * e == (a + b) * (q * (q * q)) * e;
  }

  lemma Fourths(s4: real, t4: real, s3: real, t3: real, s2: real, t2: real, a: real, b: real, q: real, c: real, d: real)
    requires c == a * a * t2 + b * b * s2 && d == a * t3 - b * s3
    ensures Moved4(s4, s3, s2, 0.0, a, b * q) + Moved4(t4, t3, t2, 0.0, b, -(a * q))
         == s4 + t4 + (a + b) * ((q * q) * (q * q)) * (a * b * (a * a - a * b + b * b))
            + ((q * q) * (6.0 * c) + q * (4.0 * d))
  {
    assert (q * q) * (6.0 * c) == (q * q) * (6.0 * (a * a * t2 + b * b * s2));
    assert q * (4.0 * d) == q * (4.0 * (a * t3 - b * s3));
  }

  lemma MergeMoves4(s4: real, t4: real, s3: real, t3: real, s2: real, t2: real, a: real, b: real, n: real, q: real,
                    delta: real)
    requires n > 0.0 && n == a + b && delta == n * q
    ensures Moved4(s4, s3, s2, 0.0, a, b * q) + Moved4(t4, t3, t2, 0.0, b, -(a * q))
         == s4 + t4 + Spread4(delta, a, b, n)
            + (Cross2(6.0, delta, CrossedSquares(a, t2, b, s2), n) + Cross1(4.0, delta, Crossed(a, t3, b, s3), n))
  {
    hide Moved4, Spread4, Cross1, Cross2;
    var c, d, e := CrossedSquares(a, t2, b, s2), Crossed(a, t3, b, s3), a * b * (a * a - a * b + b * b);
    Fourths(s4, t4, s3, t3, s2, t2, a, b, q, c, d);
    Spread4Quotient(delta, a, b, n, n, n, q);
    Cross2Quotient(6.0, delta, c, n, n, q);
    Cross1Quotient(4.0, delta, d, n, q);
    assert n * ((q * q) * (q * q)) * e == (a + b) * ((q * q) * (q * q)) * e;
  }

  lemma OneCentre(mx: real, my: real, a: real, b: real, n: real, q: real)
    requires n == a + b && my - mx == n * q
    ensures mx + b * q == my + -(a * q)
    ensures Moved1(0.0, a, b * q) + Moved1(0.0, b, -(a * q)) == 0.0
  {
    assert n * q == a * q + b * q;
  }

  /** `q` is the distance of the means, divided by the number of all values. */
  ghost predicate Apart(xs: seq<real>, ys: seq<real>, a: real, b: real, n: real, q: real) {
    && a == |xs| as real && b == |ys| as real
    && n == (|xs| + |ys|) as real == a + b > 0.0
    && Mean(ys) - Mean(xs) == n * q
  }

  /** The two means, seen from the mean of all values. */
  lemma MergeMovesMean(xs: seq<real>, ys: seq<real>, a: real, b: real, n: real, q: real)
    requires Apart(xs, ys, a, b, n, q)
    ensures Mean(xs + ys) == Mean(xs) + b * q
    ensures Mean(xs + ys) == Mean(ys) + -(a * q)
  {
    hide Deviations, Mean, Moved1, Moved2, Moved3, Moved4;
    OneCentre(Mean(xs), Mean(ys), a, b, n, q);
    var m := Mean(xs) + b * q;
    Shift(xs, Mean(xs), b * q);
    Shift(ys, Mean(ys), -(a * q));
    CentreCancels(xs);
    CentreCancels(ys);
    Concatenates(xs, ys, m, 1);
    CentredAtMean(xs + ys, m);
  }

  /** The sums of powers around the common mean are those around the two means, moved. */
  lemma MergedPowerSums(xs: seq<real>, ys: seq<real>, a: real, b: real, n: real, q: real)
    requires Apart(xs, ys, a, b, n, q)
    ensures var s, t, all := Batch(xs), Batch(ys), Batch(xs + ys);
      && all.m2 == Moved2(s.m2, 0.0, a, b * q) + Moved2(t.m2, 0.0, b, -(a * q))
      && all.m3 == Moved3(s.m3, s.m2, 0.0, a, b * q) + Moved3(t.m3, t.m2, 0.0, b, -(a * q))
      && all.m4 == Moved4(s.m4, s.m3, s.m2, 0.0, a, b * q) + Moved4(t.m4, t.m3, t.m2, 0.0, b, -(a * q))
  {
    hide Deviations, Mean, Moved1, Moved2, Moved3, Moved4;
    MergeMovesMean(xs, ys, a, b, n, q);
    Shift(xs, Mean(xs), b * q);
    Shift(ys, Mean(ys), -(a * q));
    CentreCancels(xs);
    CentreCancels(ys);
    Concatenates(xs, ys, Mean(xs + ys), 2);
    Concatenates(xs, ys, Mean(xs + ys), 3);
    Concatenates(xs, ys, Mean(xs + ys), 4);
  }

  lemma MergedMean(mx: real, my: real, a: real, b: real, n: real, q: real)
    requires n > 0.0 && n == a + b && my - mx == n * q
    ensures WeightedMean(a, mx, b, my, n) == mx + b * q
  {
    assert b * (my - mx) == b * (n * q);
    assert n * (mx + b * q) == a * mx + b * mx + b * (n * q);
    Quotient(a * mx + b * my, mx + b * q, n);
  }

  lemma MergeIsConcatenationApart(xs: seq<real>, ys: seq<real>, a: real, b: real, n: real, q: real)
    requires Apart(xs, ys, a, b, n, q)
    ensures MergedMoments(Batch(xs), Batch(ys), a, b, n) == Batch(xs + ys)
  {
    hide Deviations, Mean, Moved1, Moved2, Moved3, Moved4, Spread2, Spread3, Spread4, Cross1, Cross2,
      Crossed, CrossedSquares, WeightedMean;
    var s, t := Batch(xs), Batch(ys);
    var delta := t.m1 - s.m1;
    MergeMovesMean(xs, ys, a, b, n, q);
    MergedPowerSums(xs, ys, a, b, n, q);
    MergedMean(s.m1, t.m1, a, b, n, q);
    MergeMoves2(s.m2, t.m2, a, b, n, q, delta);
    MergeMoves3(s.m3, t.m3, s.m2, t.m2, a, b, n, q, delta);
    MergeMoves4(s.m4, t.m4, s.m3, t.m3, s.m2, t.m2, a, b, n, q, delta);
  }

  /**
   Merging the moments of two sequences gives those of their concatenation, in all four
   moments, if and only if there is a value in either of them.
   */
  lemma MergeIsConcatenation(xs: seq<real>, ys: seq<real>)
    ensures Merged(Batch(xs), Batch(ys)) == Batch(xs + ys) <==> |xs| + |ys| > 0
  {
    hide Deviations, Mean, Spread2, Spread3, Spread4, Cross1, Cross2,
      Crossed, CrossedSquares, WeightedMean;
    if |xs| + |ys| > 0 {
      var n := (|xs| + |ys|) as real;
      var d := Mean(ys) - Mean(xs);
      Quotient(n * (d / n), d / n, n);
      MergeIsConcatenationApart(xs, ys, |xs| as real, |ys| as real, n, d / n);
    }
  }

  // ----- whole streams -----

  function PushedAll(s: Moments, xs: seq<real>): Moments {
    if xs == [] then s else Pushed(PushedAll(s, xs[..|xs| - 1]), xs[|xs| - 1])
  }

  /** One pass over the values gives the moments of all of them. */
  lemma {:induction false} StreamIsBatch(xs: seq<real>)
    ensures PushedAll(CLEARED, xs) == Batch(xs)
  {
    hide Pushed;
    if xs != [] {
      var front := xs[..|xs| - 1];
      assert xs == front + [xs[|xs| - 1]];
      StreamIsBatch(front);
      PushExtends(front, xs[|xs| - 1]);
    }
  }

  /** Once two empty accumulators were merged, only the count can be relied on, whatever follows. */
  lemma {:induction false} UndefinedStaysSo(n: nat, xs: seq<real>, other: Moments)
    ensures PushedAll(Undefined(n), xs) == Undefined(n + |xs|)
    ensures Merged(PushedAll(Undefined(n), xs), other) == Merged(other, PushedAll(Undefined(n), xs))
         == Undefined(n + |xs| + other.n)
  {
    if xs != [] {
      UndefinedStaysSo(n, xs[..|xs| - 1], other);
    }
  }

  /** A merge that has something to merge may be cut in two anywhere. */
  lemma {:induction false} MergeContinuesStream(xs: seq<real>, ys: seq<real>)
    requires |xs| + |ys| > 0
    ensures Merged(PushedAll(CLEARED, xs), PushedAll(CLEARED, ys)) == PushedAll(CLEARED, xs + ys)
  {
    hide Merged, Batch;
    StreamIsBatch(xs);
    StreamIsBatch(ys);
    StreamIsBatch(xs + ys);
    MergeIsConcatenation(xs, ys);
  }

  lemma MergeOfNothing(xs: seq<real>, ys: seq<real>)
    ensures Batch(xs).Moments? && Batch(xs).n == |xs|
    ensures |xs| + |ys| == 0 ==> Merged(Batch(xs), Batch(ys)) == Undefined(0)
  {}

  /** Merging is commutative on the states that streams reach. */
  lemma MergeCommutes(xs: seq<real>, ys: seq<real>)
    ensures Merged(Batch(xs), Batch(ys)) == Merged(Batch(ys), Batch(xs))
  {
    hide Merged, Batch;
    MergeOfNothing(xs, ys);
    MergeOfNothing(ys, xs);
    MergeIsConcatenation(xs, ys);
    MergeIsConcatenation(ys, xs);
    Reordered(xs, ys);
  }

  lemma Reordered(xs: seq<real>, ys: seq<real>)
    ensures Batch(xs + ys) == Batch(ys + xs)
  {
    hide Deviations;
    Concatenates(xs, ys, 0.0, 1);
    Concatenates(ys, xs, 0.0, 1);
    assert Mean(xs + ys) == Mean(ys + xs);
    var m := Mean(xs + ys);
    Concatenates(xs, ys, m, 2);
    Concatenates(ys, xs, m, 2);
    Concatenates(xs, ys, m, 3);
    Concatenates(ys, xs, m, 3);
    Concatenates(xs, ys, m, 4);
    Concatenates(ys, xs, m, 4);
  }

  /**
   Merging is associative on those states, unless exactly one of the two orders begins
   with a merge of two empty states.
   */
  lemma MergeAssociates(xs: seq<real>, ys: seq<real>, zs: seq<real>)
    ensures Merged(Merged(Batch(xs), Batch(ys)), Batch(zs)) == Merged(Batch(xs), Merged(Batch(ys), Batch(zs)))
            <==> (|xs| + |ys| > 0 <==> |ys| + |zs| > 0)
  {
    hide Batch, Merged;
    MergeOfNothing(xs, ys);
    MergeOfNothing(ys, zs);
    MergeOfNothing(zs, xs);
    MergeIsConcatenation(xs, ys);
    MergeIsConcatenation(ys, zs);
    MergeIsConcatenation(xs + ys, zs);
    MergeIsConcatenation(xs, ys + zs);
    MergeOfNothing(xs + ys + zs, []);
    MergeOfNothing(xs + ys, []);
    MergeOfNothing(ys + zs, []);
    assert xs + ys + zs == xs + (ys + zs);
    MergeWithUndefined(Batch(xs), 0);
    MergeWithUndefined(Batch(zs), 0);
  }

  lemma MergeWithUndefined(s: Moments, n: nat)
    ensures Merged(s, Undefined(n)) == Merged(Undefined(n), s) == Undefined(s.n + n)
  {}

  /** The order of the values does not matter. */
  lemma OrderIsIrrelevant(xs: seq<real>, ys: seq<real>)
    requires multiset(xs) == multiset(ys)
    ensures PushedAll(CLEARED, xs) == PushedAll(CLEARED, ys)
  {
    hide Deviations;
    StreamIsBatch(xs);
    StreamIsBatch(ys);
    assert |xs| == |multiset(xs)| == |multiset(ys)| == |ys|;
    Permuted(xs, ys, 0.0, 1);
    Permuted(xs, ys, Mean(xs), 2);
    Permuted(xs, ys, Mean(xs), 3);
    Permuted(xs, ys, Mean(xs), 4);
  }

  lemma {:induction false} Permuted(xs: seq<real>, ys: seq<real>, m: real, k: nat)
    requires multiset(xs) == multiset(ys)
    ensures Deviations(xs, m, k) == Deviations(ys, m, k)
  {
    if ys == [] {
      assert |multiset(xs)| == 0;
    } else {
      var front, y := ys[..|ys| - 1], ys[|ys| - 1];
      assert ys == front + [y];
      assert y in multiset(xs);
      var i :| 0 <= i < |xs| && xs[i] == y;
      assert xs == xs[..i] + ([y] + xs[i + 1..]);
      var rest := xs[..i] + xs[i + 1..];
      assert multiset(rest) == multiset(xs) - multiset{y} by {
        assert multiset([y] + xs[i + 1..]) == multiset{y} + multiset(xs[i + 1..]);
        assert multiset(xs) == multiset(xs[..i]) + multiset([y] + xs[i + 1..]);
      }
      assert multiset(front) == multiset(ys) - multiset{y};
      Permuted(rest, front, m, k);
      Concatenates(xs[..i], [y] + xs[i + 1..], m, k);
      Concatenates([y], xs[i + 1..], m, k);
      Concatenates(xs[..i], xs[i + 1..], m, k);
      Concatenates(front, [y], m, k);
    }
  }
}
