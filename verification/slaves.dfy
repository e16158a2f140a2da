/**
 * The master's record of each slave and the value-level specifications of the
 * person pool and the plan map that the master rebuilds from the slaves.
 */
module Slaves {
  import opened Wrappers
  import opened Wire

  /** The fields of the master's inner class `Slave` (sockets left out). */
  datatype Slave = Slave(
    myNumber: int,
    totalIterationTime: real,
    currentPopulationSize: int,
    memoryUse: real,
    targetPopulationSize: int,
    slavePersonPool: seq<Person>,
    plans: map<string, Plan>,
    communicationsMode: Mode,
    usedMemory: int,
    maxMemory: int,
    numberOfPlans: int,
    numThreadsOnSlave: int)

  datatype PoolError = IndexOutOfBounds

  /** The list `getPersonsFromPool` returns (or its exception) and the pool it leaves behind. */
  datatype Taken = Taken(out: Result<seq<Person>, PoolError>, rest: seq<Person>)

  /**
   * `getPersonsFromPool(diff)` on a pool value. A non-negative `diff` takes nothing; a
   * negative one takes `-diff` persons off the front. A pool that runs dry first has
   * already been emptied when the exception is thrown.
   */
  function TakeFromPool(pool: seq<Person>, diff: int): (t: Taken)
    ensures diff >= 0 ==> t == Taken(Ok([]), pool)
    ensures diff < 0 && -diff <= |pool| ==>
              t.out.Ok? && |t.out.value| == -diff && t.out.value + t.rest == pool
    ensures diff < 0 && -diff > |pool| ==> t.out.Err? && t.rest == []
  {
    if diff >= 0 then Taken(Ok([]), pool)
    else if -diff <= |pool| then Taken(Ok(pool[..-diff]), pool[-diff..])
    else Taken(Err(IndexOutOfBounds), [])
  }

  /** The pool `mergePersonsFromSlaves` builds: every slave's returned persons, in slave order. */
  function ConcatPersons(ss: seq<Slave>): seq<Person>
  {
    if ss == [] then [] else ConcatPersons(ss[..|ss| - 1]) + ss[|ss| - 1].slavePersonPool
  }

  /** The merged pool depends only on the slaves' returned persons. */
  lemma {:induction false} ConcatPersonsSamePools(ss: seq<Slave>, ts: seq<Slave>)
    requires |ss| == |ts| && forall i :: 0 <= i < |ss| ==> ss[i].slavePersonPool == ts[i].slavePersonPool
    ensures ConcatPersons(ss) == ConcatPersons(ts)
  {
    if ss != [] {
      ConcatPersonsSamePools(ss[..|ss| - 1], ts[..|ts| - 1]);
    }
  }

  /** Total number of persons the slaves returned. */
  function PooledCount(ss: seq<Slave>): nat
  {
    if ss == [] then 0 else PooledCount(ss[..|ss| - 1]) + |ss[|ss| - 1].slavePersonPool|
  }

  /** The merged pool holds exactly the persons some slave returned, and as many as they returned. */
  lemma {:induction false} ConcatPersonsContents(ss: seq<Slave>, p: Person)
    ensures |ConcatPersons(ss)| == PooledCount(ss)
    ensures p in ConcatPersons(ss) <==> exists i :: 0 <= i < |ss| && p in ss[i].slavePersonPool
  {
    if ss != [] {
      var init := ss[..|ss| - 1];
      ConcatPersonsContents(init, p);
      if p in ConcatPersons(ss) && p !in ss[|ss| - 1].slavePersonPool {
        var i :| 0 <= i < |init| && p in init[i].slavePersonPool;
        assert ss[i] == init[i];
      }
      if exists i :: 0 <= i < |ss| && p in ss[i].slavePersonPool {
        var i :| 0 <= i < |ss| && p in ss[i].slavePersonPool;
        if i < |init| { assert init[i] == ss[i]; }
      }
    }
  }

  /** The map `mergePlansFromSlaves` builds: cleared, then each slave's plans put in slave order. */
  function MergedPlans(ss: seq<Slave>): map<string, Plan>
  {
    if ss == [] then map[] else MergedPlans(ss[..|ss| - 1]) + ss[|ss| - 1].plans
  }

  /** The merged map holds exactly the keys some slave reported. */
  lemma {:induction false} MergedPlansKeys(ss: seq<Slave>)
    ensures MergedPlans(ss).Keys == set i, k | 0 <= i < |ss| && k in ss[i].plans :: k
  {
    if ss != [] {
      var init := ss[..|ss| - 1];
      MergedPlansKeys(init);
      assert forall i :: 0 <= i < |init| ==> init[i] == ss[i];
    }
  }

  /** On a key several slaves report, the plan of the last of them wins. */
  lemma {:induction false} MergedPlansLastWins(ss: seq<Slave>, i: int, k: string)
    requires 0 <= i < |ss| && k in ss[i].plans
    requires forall j :: i < j < |ss| ==> k !in ss[j].plans
    ensures k in MergedPlans(ss) && MergedPlans(ss)[k] == ss[i].plans[k]
  {
    if i < |ss| - 1 {
      var init := ss[..|ss| - 1];
      MergedPlansLastWins(init, i, k);
    }
  }

  /** Sum of a sequence of integers, accumulated from the left. */
  function Sum(xs: seq<int>): int
  {
    if xs == [] then 0 else Sum(xs[..|xs| - 1]) + xs[|xs| - 1]
  }

  lemma {:induction false} SumAppend(xs: seq<int>, x: int)
    ensures Sum(xs + [x]) == Sum(xs) + x
  {
    assert (xs + [x])[..|xs|] == xs;
  }

  lemma {:induction false} SumPrefix(xs: seq<int>, i: int)
    requires 0 <= i < |xs|
    ensures Sum(xs[..i + 1]) == Sum(xs[..i]) + xs[i]
  {
    assert xs[..i + 1] == xs[..i] + [xs[i]];
    SumAppend(xs[..i], xs[i]);
  }

  /** Persons a slave hands to the pool (positive diff) and persons it asks for (negative diff). */
  function Donated(diffs: seq<int>): nat
  {
    if diffs == [] then 0 else Donated(diffs[..|diffs| - 1]) + (if diffs[|diffs| - 1] > 0 then diffs[|diffs| - 1] else 0)
  }

  function Needed(diffs: seq<int>): nat
  {
    if diffs == [] then 0 else Needed(diffs[..|diffs| - 1]) + (if diffs[|diffs| - 1] < 0 then -diffs[|diffs| - 1] else 0)
  }

  /** Diffs that cancel out hand the pool exactly what they draw from it. */
  lemma {:induction false} DonatedMatchesNeeded(diffs: seq<int>)
    ensures Donated(diffs) - Needed(diffs) == Sum(diffs)
    ensures Sum(diffs) == 0 ==> Donated(diffs) == Needed(diffs)
  {
    if diffs != [] {
      DonatedMatchesNeeded(diffs[..|diffs| - 1]);
    }
  }

  function Flatten(lists: seq<seq<Person>>): seq<Person>
  {
    if lists == [] then [] else lists[0] + Flatten(lists[1..])
  }

  datatype Drawn = Drawn(lists: seq<seq<Person>>, rest: seq<Person>)

  /**
   * DISTRIBUTE_PERSONS run for the slaves one after the other in ascending order: each
   * slave's diff is taken from the pool in turn; the first underflow aborts the round.
   */
  function DrawInOrder(pool: seq<Person>, diffs: seq<int>): Result<Drawn, PoolError>
  {
    if diffs == [] then Ok(Drawn([], pool))
    else
      var t := TakeFromPool(pool, diffs[0]);
      if t.out.Err? then Err(IndexOutOfBounds)
      else match DrawInOrder(t.rest, diffs[1..])
        case Err(e) => Err(e)
        case Ok(d) => Ok(Drawn([t.out.value] + d.lists, d.rest))
  }

  function NeededFront(diffs: seq<int>): nat
  {
    if diffs == [] then 0 else (if diffs[0] < 0 then -diffs[0] else 0) + NeededFront(diffs[1..])
  }

  lemma {:induction false} NeededFrontIsNeeded(diffs: seq<int>)
    ensures NeededFront(diffs) == Needed(diffs)
  {
    if diffs != [] {
      NeededFrontIsNeeded(diffs[1..]);
      if |diffs| > 1 {
        NeededFrontIsNeeded(diffs[..|diffs| - 1]);
        NeededFrontIsNeeded(diffs[1..][..|diffs| - 2]);
        assert diffs[1..][..|diffs| - 2] == diffs[..|diffs| - 1][1..];
        NeededFrontIsNeeded(diffs[..|diffs| - 1][1..]);
      }
    }
  }

  /**
   * A pool holding at least what the slaves ask for serves every request in order: the
   * lists handed out, followed by what is left, are the pool itself.
   */
  lemma {:induction false} DrawInOrderServesAll(pool: seq<Person>, diffs: seq<int>)
    requires |pool| >= Needed(diffs)
    ensures DrawInOrder(pool, diffs).Ok?
    ensures Flatten(DrawInOrder(pool, diffs).value.lists) + DrawInOrder(pool, diffs).value.rest == pool
    ensures |DrawInOrder(pool, diffs).value.rest| == |pool| - Needed(diffs)
  {
    NeededFrontIsNeeded(diffs);
    DrawFront(pool, diffs);
    DrawInOrderPartitions(pool, diffs);
  }

  lemma {:induction false} DrawFront(pool: seq<Person>, diffs: seq<int>)
    requires |pool| >= NeededFront(diffs)
    ensures DrawInOrder(pool, diffs).Ok?
    ensures |DrawInOrder(pool, diffs).value.rest| == |pool| - NeededFront(diffs)
    decreases |diffs|
  {
    if diffs != [] {
      var t := TakeFromPool(pool, diffs[0]);
      assert t.out.Ok? && |t.rest| >= NeededFront(diffs[1..]) by {
        assert NeededFront(diffs) == (if diffs[0] < 0 then -diffs[0] else 0) + NeededFront(diffs[1..]);
      }
      DrawFront(t.rest, diffs[1..]);
    }
  }

  /** Whatever a successful round hands out, followed by what it leaves, is the pool it started from. */
  lemma {:induction false} DrawInOrderPartitions(pool: seq<Person>, diffs: seq<int>)
    requires DrawInOrder(pool, diffs).Ok?
    ensures Flatten(DrawInOrder(pool, diffs).value.lists) + DrawInOrder(pool, diffs).value.rest == pool
    decreases |diffs|
  {
    if diffs != [] {
      var t := TakeFromPool(pool, diffs[0]);
      assert t.out.Ok? && t.out.value + t.rest == pool by {
        if diffs[0] >= 0 {
          assert [] + pool == pool;
        }
      }
      DrawInOrderPartitions(t.rest, diffs[1..]);
      var d := DrawInOrder(t.rest, diffs[1..]).value;
      assert DrawInOrder(pool, diffs).value == Drawn([t.out.value] + d.lists, d.rest);
      FlattenCons(t.out.value, d.lists);
      var v, f := t.out.value, Flatten(d.lists);
      assert (v + f) + d.rest == v + (f + d.rest);
    }
  }

  lemma FlattenCons(xs: seq<Person>, lists: seq<seq<Person>>)
    ensures Flatten([xs] + lists) == xs + Flatten(lists)
  {
    assert ([xs] + lists)[1..] == lists;
  }

  /**
   * Conservation of one rebalancing round: when the slaves' diffs cancel out and the pool
   * holds exactly what the donors handed in, every request is served and the pool ends empty.
   */
  lemma RebalanceEmptiesPool(pool: seq<Person>, diffs: seq<int>)
    requires Sum(diffs) == 0 && |pool| == Donated(diffs)
    ensures DrawInOrder(pool, diffs).Ok? && DrawInOrder(pool, diffs).value.rest == []
    ensures Flatten(DrawInOrder(pool, diffs).value.lists) == pool
  {
    DonatedMatchesNeeded(diffs);
    DrawInOrderServesAll(pool, diffs);
  }
}
