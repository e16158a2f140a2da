/**
 * The allocation step of load balancing (`setSlaveTargetPopulationSizes`) as pure
 * functions over the slaves' last reported performance, and what it guarantees.
 * Arithmetic is exact: Java's doubles become `real`, the `(int)` cast of a
 * non-negative double becomes `.Floor`.
 */
module LoadBalance {
  import opened Wrappers
  import opened Slaves

  /** MAX_MEMORY_USE: above this heap fraction a slave is not given more persons. */
  const MaxMemoryUse: real := 0.5

  /** Slaves whose time per plan is defined and positive. */
  predicate Measurable(ss: seq<Slave>)
  {
    forall i :: 0 <= i < |ss| ==> ss[i].totalIterationTime > 0.0 && ss[i].currentPopulationSize > 0
  }

  function TimePerPlan(s: Slave): (t: real)
    requires s.totalIterationTime > 0.0 && s.currentPopulationSize > 0
    ensures t > 0.0
  {
    s.totalIterationTime / s.currentPopulationSize as real
  }

  /** A slave's speed: plans per unit of time. */
  function Reciprocal(s: Slave): (r: real)
    requires s.totalIterationTime > 0.0 && s.currentPopulationSize > 0
    ensures r > 0.0
  {
    1.0 / TimePerPlan(s)
  }

  /** The sum of `1 / timePerPlan` over the slaves, accumulated in slave order. */
  function SumOfReciprocals(ss: seq<Slave>): (r: real)
    requires Measurable(ss)
    ensures r >= 0.0 && (|ss| > 0 ==> r > 0.0)
  {
    if ss == [] then 0.0 else SumOfReciprocals(ss[..|ss| - 1]) + Reciprocal(ss[|ss| - 1])
  }

  /** A slave's share of `n` persons before clamping: `(int) (n / timePerPlan / sumOfReciprocals)`. */
  function RawOptimum(n: nat, s: Slave, sum: real): int
    requires s.totalIterationTime > 0.0 && s.currentPopulationSize > 0 && sum > 0.0
  {
    ((n as real / TimePerPlan(s)) / sum).Floor
  }

  /** A slave near its memory limit is not grown beyond its current size. */
  predicate Clamped(n: nat, s: Slave, sum: real)
    requires s.totalIterationTime > 0.0 && s.currentPopulationSize > 0 && sum > 0.0
  {
    s.memoryUse > MaxMemoryUse && RawOptimum(n, s, sum) > s.currentPopulationSize
  }

  function Optimum(n: nat, s: Slave, sum: real): int
    requires s.totalIterationTime > 0.0 && s.currentPopulationSize > 0 && sum > 0.0
  {
    if Clamped(n, s, sum) then s.currentPopulationSize else RawOptimum(n, s, sum)
  }

  function Optima(n: nat, ss: seq<Slave>, sum: real): (r: seq<int>)
    requires Measurable(ss) && sum > 0.0
    ensures |r| == |ss|
  {
    seq(|ss|, i requires 0 <= i < |ss| => Optimum(n, ss[i], sum))
  }

  /** The slave numbers `0 .. k-1`. */
  function Indices(k: nat): (r: set<int>)
    ensures forall i :: i in r <==> 0 <= i < k
    ensures |r| == k
  {
    if k == 0 then {} else Indices(k - 1) + {k - 1}
  }

  /** The slaves that share the remainder: every slave that was not clamped. */
  function DistributionSet(n: nat, ss: seq<Slave>, sum: real): set<int>
    requires Measurable(ss) && sum > 0.0
  {
    set i | 0 <= i < |ss| && !Clamped(n, ss[i], sum)
  }

  /**
   * The "all slaves near memory" branch as written: it is taken when the set has
   * `numSlaves` members and then adds every slave index to it.
   */
  function AfterMemoryCheck(d: set<int>, numSlaves: nat): set<int>
  {
    if numSlaves == |d| then d + Indices(numSlaves) else d
  }

  /** The targets after the remainder is spread: `extra` to each set member, `evenMoreExtra` to slave 0. */
  function Distribute(opt: seq<int>, d: set<int>, extra: int, evenMoreExtra: int): (r: seq<int>)
    ensures |r| == |opt|
  {
    seq(|opt|, i requires 0 <= i < |opt| =>
      opt[i] + (if i in d then extra else 0) + (if i == 0 then evenMoreExtra else 0))
  }

  datatype AllocationError = DivisionByZero

  /** The persons left over after flooring and clamping. */
  function Remainder(n: nat, ss: seq<Slave>): int
    requires Measurable(ss) && |ss| >= 1
  {
    n - Sum(Optima(n, ss, SumOfReciprocals(ss)))
  }

  /**
   * The target population of every slave for a total of `n` persons, or the
   * ArithmeticException of `remainder / slavesForLoadDistribution.size()` on an empty set.
   */
  function TargetSizes(n: nat, ss: seq<Slave>): (r: Result<seq<int>, AllocationError>)
    requires Measurable(ss) && |ss| >= 1
    ensures r.Ok? ==> |r.value| == |ss|
  {
    var sum := SumOfReciprocals(ss);
    var opt := Optima(n, ss, sum);
    var d := AfterMemoryCheck(DistributionSet(n, ss, sum), |ss|);
    var remainder := n - Sum(opt);
    if remainder <= 0 then Ok(opt)
    else if |d| == 0 then Err(DivisionByZero)
    else
      var extra := remainder / |d|;
      Ok(Distribute(opt, d, extra, remainder - extra * |d|))
  }

  function Currents(ss: seq<Slave>): (r: seq<int>)
    ensures |r| == |ss|
  {
    seq(|ss|, i requires 0 <= i < |ss| => ss[i].currentPopulationSize)
  }

  /** `TargetSizes` case by case, in the terms of the loop that computes it. */
  lemma TargetSizesCases(n: nat, ss: seq<Slave>, opt: seq<int>, d: set<int>, total: int)
    requires Measurable(ss) && |ss| >= 1
    requires opt == Optima(n, ss, SumOfReciprocals(ss)) && total == Sum(opt)
    requires d == AfterMemoryCheck(DistributionSet(n, ss, SumOfReciprocals(ss)), |ss|)
    ensures n - total <= 0 ==> TargetSizes(n, ss) == Ok(opt)
    ensures n - total > 0 && |d| == 0 ==> TargetSizes(n, ss) == Err(DivisionByZero)
    ensures n - total > 0 && |d| > 0 ==>
              var extra := (n - total) / |d|;
              TargetSizes(n, ss) == Ok(Distribute(opt, d, extra, (n - total) - extra * |d|))
  {
  }

  /** Two slave lists that agree on everything the allocation reads. */
  predicate SamePerformance(ss: seq<Slave>, ts: seq<Slave>)
  {
    |ss| == |ts|
    && forall i :: 0 <= i < |ss| ==>
         ss[i].totalIterationTime == ts[i].totalIterationTime
         && ss[i].currentPopulationSize == ts[i].currentPopulationSize && ss[i].memoryUse == ts[i].memoryUse
  }

  lemma {:induction false} SumOfReciprocalsSamePerformance(ss: seq<Slave>, ts: seq<Slave>)
    requires Measurable(ss) && SamePerformance(ss, ts)
    ensures Measurable(ts) && SumOfReciprocals(ss) == SumOfReciprocals(ts)
    decreases |ss|
  {
    if ss != [] {
      var m := |ss| - 1;
      assert SamePerformance(ss[..m], ts[..m]);
      SumOfReciprocalsSamePerformance(ss[..m], ts[..m]);
    }
  }

  /**
   * The allocation depends only on the measured iteration time, population size and memory
   * use: the targets, the person pools or the modes of the slaves do not change it.
   */
  lemma TargetSizesSamePerformance(n: nat, ss: seq<Slave>, ts: seq<Slave>)
    requires Measurable(ss) && |ss| >= 1 && SamePerformance(ss, ts)
    ensures Measurable(ts) && TargetSizes(n, ss) == TargetSizes(n, ts)
  {
    SumOfReciprocalsSamePerformance(ss, ts);
    var sum := SumOfReciprocals(ss);
    assert Optima(n, ss, sum) == Optima(n, ts, sum);
    assert DistributionSet(n, ss, sum) == DistributionSet(n, ts, sum);
  }

  /** The slaves with their `targetPopulationSize` set, slave by slave. */
  function WithTargets(ss: seq<Slave>, targets: seq<int>): (r: seq<Slave>)
    requires |targets| == |ss|
    ensures |r| == |ss|
    ensures forall i :: 0 <= i < |ss| ==> r[i].targetPopulationSize == targets[i]
  {
    seq(|ss|, i requires 0 <= i < |ss| => ss[i].(targetPopulationSize := targets[i]))
  }

  /** `differences` of `MasterControler.loadBalance`: current size minus target, slave by slave. */
  function Differences(ss: seq<Slave>, targets: seq<int>): (r: seq<int>)
    requires |targets| == |ss|
    ensures |r| == |ss|
  {
    seq(|ss|, i requires 0 <= i < |ss| => ss[i].currentPopulationSize - targets[i])
  }

  // ---------------------------------------------------------------------------
  // Exact arithmetic never over-allocates.

  function RealSum(w: seq<real>): real
  {
    if w == [] then 0.0 else RealSum(w[..|w| - 1]) + w[|w| - 1]
  }

  /** Integers bounded one by one by reals are bounded in sum by the reals' sum. */
  lemma {:induction false} SumBound(xs: seq<int>, ys: seq<real>)
    requires |xs| == |ys|
    requires forall i :: 0 <= i < |xs| ==> xs[i] as real <= ys[i]
    ensures Sum(xs) as real <= RealSum(ys)
  {
    if xs != [] {
      var m := |xs| - 1;
      SumBound(xs[..m], ys[..m]);
    }
  }

  function Times(c: real, x: real): real
  {
    c * x
  }

  function Scaled(c: real, w: seq<real>): (r: seq<real>)
    ensures |r| == |w|
  {
    seq(|w|, i requires 0 <= i < |w| => Times(c, w[i]))
  }

  lemma {:induction false} RealSumScaled(c: real, w: seq<real>)
    ensures RealSum(Scaled(c, w)) == Times(c, RealSum(w))
  {
    if w != [] {
      var m := |w| - 1;
      RealSumScaled(c, w[..m]);
      forall i | 0 <= i < m
        ensures Scaled(c, w)[i] == Scaled(c, w[..m])[i]
      {
        assert w[..m][i] == w[i];
      }
      assert Scaled(c, w)[..m] == Scaled(c, w[..m]);
      assert c * (RealSum(w[..m]) + w[m]) == c * RealSum(w[..m]) + c * w[m];
    }
  }

  function Reciprocals(ss: seq<Slave>): (w: seq<real>)
    requires Measurable(ss)
    ensures |w| == |ss|
  {
    seq(|ss|, i requires 0 <= i < |ss| => Reciprocal(ss[i]))
  }

  lemma {:induction false} SumOfReciprocalsIsRealSum(ss: seq<Slave>)
    requires Measurable(ss)
    ensures SumOfReciprocals(ss) == RealSum(Reciprocals(ss))
  {
    if ss != [] {
      var m := |ss| - 1;
      SumOfReciprocalsIsRealSum(ss[..m]);
      assert Reciprocals(ss)[..m] == Reciprocals(ss[..m]);
    }
  }

  lemma OptimumBound(n: nat, s: Slave, sum: real, c: real)
    requires s.totalIterationTime > 0.0 && s.currentPopulationSize > 0 && sum > 0.0
    requires c == n as real / sum
    ensures Optimum(n, s, sum) as real <= Times(c, Reciprocal(s))
  {
    var a, t := n as real, TimePerPlan(s);
    calc {
      (a / t) / sum;
      a / (t * sum);
      (a / sum) * (1.0 / t);
    }
  }

  lemma OptimaBound(n: nat, ss: seq<Slave>)
    requires Measurable(ss) && |ss| >= 1
    ensures Sum(Optima(n, ss, SumOfReciprocals(ss))) as real
              <= Times(n as real / SumOfReciprocals(ss), SumOfReciprocals(ss))
  {
    var sum := SumOfReciprocals(ss);
    var opt := Optima(n, ss, sum);
    var w := Reciprocals(ss);
    var c := n as real / sum;
    var ys := Scaled(c, w);
    forall i | 0 <= i < |opt|
      ensures opt[i] as real <= ys[i]
    {
      OptimumBound(n, ss[i], sum, c);
    }
    SumBound(opt, ys);
    RealSumScaled(c, w);
    SumOfReciprocalsIsRealSum(ss);
  }

  /** The floored and clamped optima never add up to more than the population. */
  lemma RemainderNonNegative(n: nat, ss: seq<Slave>)
    requires Measurable(ss) && |ss| >= 1
    ensures Remainder(n, ss) >= 0
  {
    var sum := SumOfReciprocals(ss);
    var opt := Optima(n, ss, sum);
    OptimaBound(n, ss);
    assert Sum(opt) as real <= (n as real / sum) * sum;
    assert (n as real / sum) * sum == n as real;
    assert Sum(opt) <= n;
  }

  // ---------------------------------------------------------------------------
  // Spreading the remainder.

  lemma MembersBelowStep(d: set<int>, k: nat)
    ensures |d * Indices(k + 1)| == |d * Indices(k)| + (if k in d then 1 else 0)
  {
    var before := d * Indices(k);
    var after := d * Indices(k + 1);
    assert Indices(k + 1) == Indices(k) + {k};
    if k in d {
      assert after == before + {k};
      assert k !in before;
    } else {
      assert after == before;
    }
  }

  /** Kept apart so that the nonlinear step stays out of the induction's context. */
  lemma MulSucc(e: int, c: int)
    ensures e * (c + 1) == e * c + e
  {
  }

  lemma {:induction false} DistributePrefixSum(opt: seq<int>, d: set<int>, extra: int, em: int, k: nat)
    requires 1 <= k <= |opt|
    ensures Sum(Distribute(opt, d, extra, em)[..k]) == Sum(opt[..k]) + extra * |d * Indices(k)| + em
  {
    var r := Distribute(opt, d, extra, em);
    SumPrefix(r, k - 1);
    SumPrefix(opt, k - 1);
    MembersBelowStep(d, k - 1);
    if k == 1 {
      assert r[..0] == [] && opt[..0] == [];
      assert d * Indices(0) == {};
    } else {
      DistributePrefixSum(opt, d, extra, em, k - 1);
      MulSucc(extra, |d * Indices(k - 1)|);
    }
  }

  /** Spreading adds `extra` once per set member and `evenMoreExtra` once, to slave 0. */
  lemma SumDistribute(opt: seq<int>, d: set<int>, extra: int, em: int)
    requires |opt| >= 1 && d <= Indices(|opt|)
    ensures Sum(Distribute(opt, d, extra, em)) == Sum(opt) + extra * |d| + em
  {
    var r := Distribute(opt, d, extra, em);
    DistributePrefixSum(opt, d, extra, em, |opt|);
    assert r[..|opt|] == r && opt[..|opt|] == opt;
    assert d * Indices(|opt|) == d;
  }

  // ---------------------------------------------------------------------------
  // The "all slaves near memory" branch as written.

  /**
   * The branch is taken exactly when no slave was clamped, and taking it leaves the
   * distribution set as it was.
   */
  lemma AllNearMemoryBranch(n: nat, ss: seq<Slave>)
    requires Measurable(ss) && |ss| >= 1
    ensures var sum := SumOfReciprocals(ss);
            (|ss| == |DistributionSet(n, ss, sum)| <==> forall i :: 0 <= i < |ss| ==> !Clamped(n, ss[i], sum))
    ensures AfterMemoryCheck(DistributionSet(n, ss, SumOfReciprocals(ss)), |ss|)
              == DistributionSet(n, ss, SumOfReciprocals(ss))
  {
    var sum := SumOfReciprocals(ss);
    var d := DistributionSet(n, ss, sum);
    var all := Indices(|ss|);
    assert d <= all;
    assert |all| == |d| + |all - d| by {
      assert all == d + (all - d);
    }
    if forall i :: 0 <= i < |ss| ==> !Clamped(n, ss[i], sum) {
      assert d == all;
    } else {
      var j :| 0 <= j < |ss| && Clamped(n, ss[j], sum);
      assert j in all - d;
      assert |all - d| >= 1;
    }
    if |ss| == |d| {
      assert all - d == {};
      assert d + all == d;
    }
  }

  /** With nobody clamped, every slave shares the remainder. */
  lemma NoClampEveryoneShares(n: nat, ss: seq<Slave>)
    requires Measurable(ss) && |ss| >= 1
    requires forall i :: 0 <= i < |ss| ==> !Clamped(n, ss[i], SumOfReciprocals(ss))
    ensures DistributionSet(n, ss, SumOfReciprocals(ss)) == Indices(|ss|)
  {
  }

  // ---------------------------------------------------------------------------
  // What the allocation guarantees.

  /**
   * `remainder / slavesForLoadDistribution.size()` divides by zero exactly when every
   * slave was clamped and persons are left over.
   */
  lemma DivisionByZeroExactly(n: nat, ss: seq<Slave>)
    requires Measurable(ss) && |ss| >= 1
    ensures TargetSizes(n, ss).Err? <==>
              Remainder(n, ss) > 0 && forall i :: 0 <= i < |ss| ==> Clamped(n, ss[i], SumOfReciprocals(ss))
  {
    var sum := SumOfReciprocals(ss);
    AllNearMemoryBranch(n, ss);
    var d := DistributionSet(n, ss, sum);
    if forall i :: 0 <= i < |ss| ==> Clamped(n, ss[i], sum) {
      assert d == {};
    }
    if d == {} {
      forall i | 0 <= i < |ss| ensures Clamped(n, ss[i], sum) {
        assert i !in d;
      }
    }
  }

  /** Whenever the allocation succeeds, the targets add up to the whole population. */
  lemma TargetsSumToPopulation(n: nat, ss: seq<Slave>)
    requires Measurable(ss) && |ss| >= 1
    requires TargetSizes(n, ss).Ok?
    ensures Sum(TargetSizes(n, ss).value) == n
  {
    var sum := SumOfReciprocals(ss);
    var opt := Optima(n, ss, sum);
    var d := AfterMemoryCheck(DistributionSet(n, ss, sum), |ss|);
    var remainder := n - Sum(opt);
    RemainderNonNegative(n, ss);
    if remainder > 0 {
      AllNearMemoryBranch(n, ss);
      assert d == DistributionSet(n, ss, sum);
      assert d <= Indices(|opt|);
      var extra := remainder / |d|;
      var em := remainder - extra * |d|;
      assert TargetSizes(n, ss) == Ok(Distribute(opt, d, extra, em));
      SumDistribute(opt, d, extra, em);
    }
  }

  /** A clamped slave other than slave 0 keeps exactly its current size. */
  lemma ClampedSlaveKeepsSize(n: nat, ss: seq<Slave>, i: int)
    requires Measurable(ss) && |ss| >= 1 && 0 < i < |ss|
    requires Clamped(n, ss[i], SumOfReciprocals(ss))
    requires TargetSizes(n, ss).Ok?
    ensures TargetSizes(n, ss).value[i] == ss[i].currentPopulationSize
  {
    AllNearMemoryBranch(n, ss);
  }

  lemma {:induction false} SumPointwiseEqual(xs: seq<int>, ys: seq<int>)
    requires |xs| == |ys| && forall i :: 0 <= i < |xs| ==> xs[i] == ys[i]
    ensures Sum(xs) == Sum(ys)
  {
    assert xs == ys;
  }

  /**
   * When the slaves' reported sizes add up to the population, not every slave can have
   * been clamped with persons left over, so the allocation never divides by zero.
   */
  lemma ConservedSizesAllocate(n: nat, ss: seq<Slave>)
    requires Measurable(ss) && |ss| >= 1
    requires Sum(Currents(ss)) == n
    ensures TargetSizes(n, ss).Ok?
  {
    var sum := SumOfReciprocals(ss);
    DivisionByZeroExactly(n, ss);
    if forall i :: 0 <= i < |ss| ==> Clamped(n, ss[i], sum) {
      SumPointwiseEqual(Optima(n, ss, sum), Currents(ss));
      assert Remainder(n, ss) == 0;
    }
  }

  lemma {:induction false} SumDifference(xs: seq<int>, ys: seq<int>, zs: seq<int>)
    requires |xs| == |ys| == |zs| && forall i :: 0 <= i < |xs| ==> zs[i] == xs[i] - ys[i]
    ensures Sum(zs) == Sum(xs) - Sum(ys)
  {
    if xs != [] {
      var k := |xs| - 1;
      SumDifference(xs[..k], ys[..k], zs[..k]);
    }
  }

  /**
   * With sizes that add up to the population, the differences cancel out: the persons the
   * donors put into the pool are exactly the persons the receivers take out of it.
   */
  lemma DifferencesBalance(n: nat, ss: seq<Slave>)
    requires Measurable(ss) && |ss| >= 1
    requires Sum(Currents(ss)) == n
    ensures TargetSizes(n, ss).Ok?
    ensures Sum(Differences(ss, TargetSizes(n, ss).value)) == 0
    ensures Donated(Differences(ss, TargetSizes(n, ss).value)) == Needed(Differences(ss, TargetSizes(n, ss).value))
  {
    ConservedSizesAllocate(n, ss);
    var t := TargetSizes(n, ss).value;
    TargetsSumToPopulation(n, ss);
    SumDifference(Currents(ss), t, Differences(ss, t));
    DonatedMatchesNeeded(Differences(ss, t));
  }

  /** A slave that is faster per plan is never allotted fewer persons before clamping. */
  lemma RawOptimumMonotone(n: nat, a: Slave, b: Slave, sum: real)
    requires a.totalIterationTime > 0.0 && a.currentPopulationSize > 0
    requires b.totalIterationTime > 0.0 && b.currentPopulationSize > 0
    requires sum > 0.0
    requires TimePerPlan(a) <= TimePerPlan(b)
    ensures RawOptimum(n, a, sum) >= RawOptimum(n, b, sum)
  {
    var ta, tb, x := TimePerPlan(a), TimePerPlan(b), n as real;
    assert x / ta >= x / tb by {
      assert x / ta - x / tb == x * (tb - ta) / (ta * tb);
    }
    assert (x / ta) / sum >= (x / tb) / sum;
  }
}
