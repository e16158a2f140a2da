/**
 * What the master's lifecycle achieves over several phases: how often the load is
 * balanced, and that a balancing round whose slaves report sizes adding up to the
 * population and hand in what they are asked for moves every pooled person on.
 */
module Lifecycle {
  import opened Wrappers
  import opened Wire
  import opened Slaves
  import opened LoadBalance
  import opened Rounds
  import opened MasterControl

  /** The number of iterations among `0 .. k-1` after which `notifyAfterMobsim` balances the load. */
  function CountBalances(numSlaves: int, interval: int, k: nat): nat
    requires numSlaves <= 1 || interval != 0
  {
    if k == 0 then 0
    else CountBalances(numSlaves, interval, k - 1) + if BalancesAfter(numSlaves, interval, k - 1) then 1 else 0
  }

  /**
   * With several slaves and a positive interval the load is balanced after iterations
   * 0, interval, 2 * interval, ...: iteration 0 included, so `ceil(k / interval)` times in
   * the first `k` iterations. A single slave is never balanced.
   */
  lemma {:induction false} BalanceCadence(numSlaves: int, interval: int, k: nat)
    requires numSlaves <= 1 || interval > 0
    ensures numSlaves <= 1 ==> CountBalances(numSlaves, interval, k) == 0
    ensures numSlaves > 1 ==> CountBalances(numSlaves, interval, k) == (k + interval - 1) / interval
  {
    if k > 0 {
      BalanceCadence(numSlaves, interval, k - 1);
      if numSlaves > 1 {
        CeilStep(interval, k - 1);
      }
    }
  }

  /** One more iteration adds one to `ceil(j / interval)` exactly when `j` is a multiple of the interval. */
  lemma CeilStep(interval: int, j: nat)
    requires interval > 0
    ensures (j + interval) / interval == (j + interval - 1) / interval + if j % interval == 0 then 1 else 0
  {
    var q, r := j / interval, j % interval;
    if r == 0 {
      DivUnique(j + interval, interval, q + 1, 0);
      DivUnique(j + interval - 1, interval, q, interval - 1);
    } else {
      DivUnique(j + interval, interval, q + 1, r);
      DivUnique(j + interval - 1, interval, q + 1, r - 1);
    }
  }

  /** Euclidean division has one quotient: `q * d + r` with `0 <= r < d` divides to `q`. */
  lemma DivUnique(a: int, d: int, q: int, r: int)
    requires d > 0 && 0 <= r < d && a == q * d + r
    ensures a / d == q
  {
    var k := a / d - q;
    assert k * d == r - a % d;
  }

  /** Each record holds as many persons as a positive diff asks the slave to give up, and none otherwise. */
  predicate PooledHonestly(ss: seq<Slave>)
  {
    forall i :: 0 <= i < |ss| ==> |ss[i].slavePersonPool| == if Diff(ss[i]) > 0 then Diff(ss[i]) else 0
  }

  /** Slaves that pool honestly fill the pool with exactly what their diffs donate. */
  lemma {:induction false} HonestPoolSize(ss: seq<Slave>)
    requires PooledHonestly(ss)
    ensures PooledCount(ss) == Donated(Diffs(ss))
  {
    if ss != [] {
      var init := ss[..|ss| - 1];
      assert PooledHonestly(init) by {
        forall i | 0 <= i < |init| ensures init[i] == ss[i] { }
      }
      HonestPoolSize(init);
      assert Diffs(ss)[..|ss| - 1] == Diffs(init);
    }
  }

  /**
   * The whole rebalancing, end to end: after `loadBalance` has stored the allocation as the
   * targets, with sizes that add up to the population `n`, honestly pooled persons, the
   * merged pool, and every slave started in DISTRIBUTE_PERSONS and answering, the
   * DISTRIBUTE_PERSONS round serves every slave and leaves the pool empty.
   */
  lemma DistributionEmptiesPool(w: World, useTransit: bool, net: (int, Mode) -> Inbound, n: nat)
    requires |w.slaves| == |w.transcripts| && |w.slaves| >= 1 && Measurable(w.slaves)
    requires Sum(Currents(w.slaves)) == n && TargetSizes(n, w.slaves) == Ok(Targets(w.slaves))
    requires PooledHonestly(w.slaves) && w.pool == ConcatPersons(w.slaves)
    requires AllDistributing(w, net, 0)
    ensures Round(w, useTransit, net, 0).pool == []
    ensures Round(w, useTransit, net, 0).failed == w.failed
  {
    var ss := w.slaves;
    DifferencesBalance(n, ss);
    assert Differences(ss, Targets(ss)) == Diffs(ss);
    HonestPoolSize(ss);
    ConcatPersonsContents(ss, Person(""));
    RebalanceEmptiesPool(w.pool, Diffs(ss));
    assert Diffs(ss)[0..] == Diffs(ss);
    RoundDraws(w, useTransit, net, 0);
  }
}
