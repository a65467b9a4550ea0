/**
 The streaming accumulator as an object (common/RunningStats.h, common/RunningStats.cpp),
 over reals. Each method is proved to do what `MomentModel` says.
 */
module RunningStatistics {
  import opened MomentModel

  class RunningStats {
    var n: nat
    /** The moments are not numbers, because two empty accumulators were merged. */
    var undefined: bool
    var m1: real
    var m2: real
    var m3: real
    var m4: real

    ghost function Model(): Moments
      reads this
    {
      if undefined then Undefined(n) else Moments(n, m1, m2, m3, m4)
    }

    constructor ()
      ensures Model() == CLEARED
    {
      n, undefined := 0, false;
      m1, m2, m3, m4 := 0.0, 0.0, 0.0, 0.0;
    }

    method Clear()
      modifies this
      ensures Model() == CLEARED
    {
      n, undefined := 0, false;
      m1, m2, m3, m4 := 0.0, 0.0, 0.0, 0.0;
    }

    method Push(x: real)
      modifies this
      ensures Model() == Pushed(old(Model()), x)
    {
      hide Growth3, Growth4;
      var previousCount := n as real;
      n := n + 1;
      var count := n as real;
      var delta := x - m1;
      var deltaN := delta / count;
      var term1 := delta * deltaN * previousCount;
      m1 := m1 + deltaN;
      m4 := m4 + Growth4(term1, deltaN, count, m2, m3);
      m3 := m3 + Growth3(term1, deltaN, count, m2);
      m2 := m2 + term1;
    }

    function NumDataValues(): (count: nat)
      reads this
      ensures count == Model().n
    {
      n
    }

    /** `operator+` */
    static method Plus(a: RunningStats, b: RunningStats) returns (combined: RunningStats)
      ensures fresh(combined) && combined.Model() == Merged(a.Model(), b.Model())
    {
      hide Spread2, Spread3, Spread4, Cross1, Cross2, Crossed, CrossedSquares, WeightedMean;
      combined := new RunningStats();
      combined.n := a.n + b.n;
      if a.undefined || b.undefined || combined.n == 0 {
        combined.undefined := true;
        return;
      }
      var aCount, bCount, combinedCount := a.n as real, b.n as real, combined.n as real;
      var delta := b.m1 - a.m1;
      combined.m1 := WeightedMean(aCount, a.m1, bCount, b.m1, combinedCount);
      combined.m2 := a.m2 + b.m2 + Spread2(delta, aCount, bCount, combinedCount);
      combined.m3 := a.m3 + b.m3 + Spread3(delta, aCount, bCount, combinedCount);
      combined.m3 := combined.m3 + Cross1(3.0, delta, Crossed(aCount, b.m2, bCount, a.m2), combinedCount);
      combined.m4 := a.m4 + b.m4 + Spread4(delta, aCount, bCount, combinedCount);
      combined.m4 := combined.m4
        + (Cross2(6.0, delta, CrossedSquares(aCount, b.m2, bCount, a.m2), combinedCount)
           + Cross1(4.0, delta, Crossed(aCount, b.m3, bCount, a.m3), combinedCount));
    }

    /** `operator+=`, also of an object to itself. */
    method Add(rhs: RunningStats)
      modifies this
      ensures Model() == Merged(old(Model()), old(rhs.Model()))
    {
      hide Merged;
      var combined := Plus(this, rhs);
      n, undefined := combined.n, combined.undefined;
      m1, m2, m3, m4 := combined.m1, combined.m2, combined.m3, combined.m4;
    }
  }
}
