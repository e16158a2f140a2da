/**
 * One phase of the master: every started slave connection runs its `Slave.run`
 * exchange for the slave's current mode. The threads of `MasterControler` are replaced by
 * running the started slaves one at a time in ascending slave order; the shared
 * person pool (`getPersonsFromPool` is synchronized) is threaded through them.
 */
module Rounds {
  import opened Wrappers
  import opened Wire
  import opened Slaves

  /** `currentPopulationSize - targetPopulationSize`: what POOL_PERSONS sends and DISTRIBUTE_PERSONS asks the pool for. */
  function Diff(s: Slave): int
  {
    s.currentPopulationSize - s.targetPopulationSize
  }

  function Diffs(ss: seq<Slave>): (r: seq<int>)
    ensures |r| == |ss|
  {
    seq(|ss|, i requires 0 <= i < |ss| => Diff(ss[i]))
  }

  /**
   * The master's record of a slave after one exchange in the slave's current mode, given
   * what the slave wrote. Each value is stored as soon as its read went through, so a
   * connection that breaks midway keeps what was read before; the resets that precede the
   * first read (the emptied person list, the cleared plan map) are always made.
   */
  function SlaveAfter(s: Slave, inbound: Inbound): (r: Slave)
    ensures r.myNumber == s.myNumber && r.targetPopulationSize == s.targetPopulationSize
    ensures r.usedMemory == s.usedMemory && r.maxMemory == s.maxMemory
    ensures r.numberOfPlans == s.numberOfPlans && r.numThreadsOnSlave == s.numThreadsOnSlave
    ensures r.communicationsMode ==
              if AnswersWithContinue(s.communicationsMode) && inbound.delivered >= 1 then Continue
              else s.communicationsMode
    ensures var measuring := s.communicationsMode == TransmitPerformance;
      && r.totalIterationTime == (if measuring && inbound.delivered >= 1 then inbound.iterationTime else s.totalIterationTime)
      && r.currentPopulationSize == (if measuring && inbound.delivered >= 2 then inbound.populationSize else s.currentPopulationSize)
      && r.memoryUse == (if measuring && inbound.delivered >= 3 then inbound.memoryUse else s.memoryUse)
  {
    var got := inbound.delivered;
    match s.communicationsMode
    case TransmitTravelTimes =>
      if got >= 1 then s.(communicationsMode := Continue) else s
    case PoolPersons =>
      s.(slavePersonPool := if got >= 1 then inbound.persons else [])
    case TransmitPlansToMaster =>
      s.(plans := if got >= 1 then inbound.plans else map[])
    case TransmitPerformance =>
      var s1 := if got >= 1 then s.(totalIterationTime := inbound.iterationTime) else s;
      var s2 := if got >= 2 then s1.(currentPopulationSize := inbound.populationSize) else s1;
      if got >= 3 then s2.(memoryUse := inbound.memoryUse) else s2
    case TransmitScenario =>
      if got >= 1 then s.(communicationsMode := Continue) else s
    case DistributePersons => s
    case Continue => s
    case Die => s
  }

  /** The pool after the exchange: only DISTRIBUTE_PERSONS draws from it. */
  function PoolAfter(s: Slave, pool: seq<Person>): seq<Person>
  {
    if s.communicationsMode == DistributePersons then TakeFromPool(pool, Diff(s)).rest else pool
  }

  /** DISTRIBUTE_PERSONS finds too few persons in the pool for the slave's diff. */
  predicate RunsDry(s: Slave, pool: seq<Person>)
  {
    s.communicationsMode == DistributePersons && TakeFromPool(pool, Diff(s)).out.Err?
  }

  /**
   * The exchange ends in the catch block: the pool ran dry, or the connection broke before
   * the master's last read.
   */
  predicate ExchangeFails(s: Slave, pool: seq<Person>, inbound: Inbound)
  {
    RunsDry(s, pool) || !Completes(inbound, s.communicationsMode)
  }

  /**
   * The events of the exchange on the wire. It fails exactly when it does not end with the
   * closing acknowledgement.
   */
  function ExchangeTrace(s: Slave, pool: seq<Person>, useTransit: bool, inbound: Inbound): (r: seq<Event>)
    ensures |r| >= 1 && r[0] == Send(ModeMsg(s.communicationsMode))
    ensures ExchangeFails(s, pool, inbound) <==> r[|r| - 1] != Recv(Ack)
  {
    var t := TakeFromPool(pool, Diff(s));
    var drawn := if t.out.Ok? then Some(t.out.value) else None;
    RunTraceEndsWithAck(s.communicationsMode, useTransit, Diff(s), s.slavePersonPool, drawn, inbound);
    RunTrace(s.communicationsMode, useTransit, Diff(s), s.slavePersonPool, drawn, inbound)
  }

  /** The master's state that the exchanges read and write. */
  datatype World = World(slaves: seq<Slave>, pool: seq<Person>, pending: set<int>, failed: bool,
                         transcripts: seq<seq<Event>>)

  /** Slave `i` runs its exchange; `net` says what each slave writes in each mode. */
  function RunOne(w: World, i: int, useTransit: bool, net: (int, Mode) -> Inbound): (r: World)
    requires 0 <= i < |w.slaves| == |w.transcripts|
    ensures |r.slaves| == |w.slaves| && |r.transcripts| == |w.transcripts|
  {
    var s := w.slaves[i];
    var inbound := net(i, s.communicationsMode);
    World(w.slaves[i := SlaveAfter(s, inbound)], PoolAfter(s, w.pool), w.pending - {i},
          w.failed || ExchangeFails(s, w.pool, inbound),
          w.transcripts[i := w.transcripts[i] + ExchangeTrace(s, w.pool, useTransit, inbound)])
  }

  /** The started slaves from number `k` on run, in ascending order. */
  function Round(w: World, useTransit: bool, net: (int, Mode) -> Inbound, k: nat): (r: World)
    requires k <= |w.slaves| == |w.transcripts|
    ensures |r.slaves| == |w.slaves| && |r.transcripts| == |w.transcripts|
    decreases |w.slaves| - k
  {
    if k == |w.slaves| then w
    else Round(if k in w.pending then RunOne(w, k, useTransit, net) else w, useTransit, net, k + 1)
  }

  /** Every started slave from `k` on has finished; a failure is never forgotten. */
  lemma {:induction false} RoundPending(w: World, useTransit: bool, net: (int, Mode) -> Inbound, k: nat)
    requires k <= |w.slaves| == |w.transcripts|
    ensures forall j :: j in Round(w, useTransit, net, k).pending <==> j in w.pending && !(k <= j < |w.slaves|)
    ensures w.failed ==> Round(w, useTransit, net, k).failed
    decreases |w.slaves| - k
  {
    if k < |w.slaves| {
      RoundPending(if k in w.pending then RunOne(w, k, useTransit, net) else w, useTransit, net, k + 1);
    }
  }

  /** A started slave's record is updated by its own exchange and by nothing else. */
  lemma {:induction false} RoundSlaves(w: World, useTransit: bool, net: (int, Mode) -> Inbound, k: nat, i: int)
    requires k <= |w.slaves| == |w.transcripts| && 0 <= i < |w.slaves|
    ensures Round(w, useTransit, net, k).slaves[i] ==
              if k <= i && i in w.pending then SlaveAfter(w.slaves[i], net(i, w.slaves[i].communicationsMode))
              else w.slaves[i]
    decreases |w.slaves| - k
  {
    if k < |w.slaves| {
      RoundSlaves(if k in w.pending then RunOne(w, k, useTransit, net) else w, useTransit, net, k + 1, i);
    }
  }

  /** Nobody draws from the pool. */
  predicate NoDistribution(w: World, k: nat)
    requires k <= |w.slaves|
  {
    forall j :: k <= j < |w.slaves| && j in w.pending ==> w.slaves[j].communicationsMode != DistributePersons
  }

  /** The connection of some started slave from `k` on breaks before the master's last read. */
  predicate SomeBreaks(w: World, net: (int, Mode) -> Inbound, k: nat)
    requires k <= |w.slaves|
  {
    exists j :: k <= j < |w.slaves| && j in w.pending && !Completes(net(j, w.slaves[j].communicationsMode), w.slaves[j].communicationsMode)
  }

  /** The step from `k` to `k + 1` changes nothing the later slaves see. */
  lemma StepKeepsLater(w: World, useTransit: bool, net: (int, Mode) -> Inbound, k: nat)
    requires k < |w.slaves| == |w.transcripts|
    ensures var v := if k in w.pending then RunOne(w, k, useTransit, net) else w;
      forall j :: k + 1 <= j < |w.slaves| ==>
        v.slaves[j] == w.slaves[j] && v.transcripts[j] == w.transcripts[j] && (j in v.pending <==> j in w.pending)
  {
  }

  /** A phase other than DISTRIBUTE_PERSONS leaves the pool alone. */
  lemma {:induction false} RoundKeepsPool(w: World, useTransit: bool, net: (int, Mode) -> Inbound, k: nat)
    requires k <= |w.slaves| == |w.transcripts| && NoDistribution(w, k)
    ensures Round(w, useTransit, net, k).pool == w.pool
    decreases |w.slaves| - k
  {
    if k < |w.slaves| {
      var v := if k in w.pending then RunOne(w, k, useTransit, net) else w;
      StepKeepsLater(w, useTransit, net, k);
      RoundRemainsNoDistribution(w, v, k);
      RoundKeepsPool(v, useTransit, net, k + 1);
    }
  }

  /**
   * A phase other than DISTRIBUTE_PERSONS fails exactly when the connection of some started
   * slave breaks before its exchange's last read.
   */
  lemma {:induction false} RoundFailsOnBreak(w: World, useTransit: bool, net: (int, Mode) -> Inbound, k: nat)
    requires k <= |w.slaves| == |w.transcripts| && NoDistribution(w, k)
    ensures Round(w, useTransit, net, k).failed <==> w.failed || SomeBreaks(w, net, k)
    decreases |w.slaves| - k
  {
    if k < |w.slaves| {
      var v := if k in w.pending then RunOne(w, k, useTransit, net) else w;
      StepKeepsLater(w, useTransit, net, k);
      RoundRemainsNoDistribution(w, v, k);
      RoundFailsOnBreak(v, useTransit, net, k + 1);
      var here := k in w.pending && !Completes(net(k, w.slaves[k].communicationsMode), w.slaves[k].communicationsMode);
      assert v.failed == (w.failed || here);
      if SomeBreaks(v, net, k + 1) {
        var j :| k + 1 <= j < |w.slaves| && j in v.pending && !Completes(net(j, v.slaves[j].communicationsMode), v.slaves[j].communicationsMode);
        assert SomeBreaks(w, net, k);
      }
      if SomeBreaks(w, net, k) && !here {
        var j :| k <= j < |w.slaves| && j in w.pending && !Completes(net(j, w.slaves[j].communicationsMode), w.slaves[j].communicationsMode);
        assert j != k;
        assert SomeBreaks(v, net, k + 1);
      }
    }
  }

  /** A phase other than DISTRIBUTE_PERSONS appends each started slave's exchange to its connection's transcript. */
  lemma {:induction false} RoundTranscripts(w: World, useTransit: bool, net: (int, Mode) -> Inbound, k: nat, i: int)
    requires k <= |w.slaves| == |w.transcripts| && NoDistribution(w, k) && 0 <= i < |w.slaves|
    ensures Round(w, useTransit, net, k).transcripts[i] ==
              if k <= i && i in w.pending
              then w.transcripts[i] + ExchangeTrace(w.slaves[i], w.pool, useTransit, net(i, w.slaves[i].communicationsMode))
              else w.transcripts[i]
    decreases |w.slaves| - k
  {
    if k < |w.slaves| {
      var v := if k in w.pending then RunOne(w, k, useTransit, net) else w;
      StepKeepsLater(w, useTransit, net, k);
      RoundRemainsNoDistribution(w, v, k);
      RoundTranscripts(v, useTransit, net, k + 1, i);
      assert v.pool == w.pool;
    }
  }

  /** Every slave's record after its exchange in `mode`. */
  function PhaseAfter(ss: seq<Slave>, net: (int, Mode) -> Inbound, mode: Mode): (r: seq<Slave>)
    ensures |r| == |ss|
  {
    seq(|ss|, j requires 0 <= j < |ss| => SlaveAfter(ss[j], net(j, mode)))
  }

  /** Each connection's transcript with its slave's exchange in `mode` appended. */
  function PhaseTranscripts(ts: seq<seq<Event>>, ss: seq<Slave>, pool: seq<Person>, useTransit: bool,
                            net: (int, Mode) -> Inbound, mode: Mode): (r: seq<seq<Event>>)
    requires |ts| == |ss|
    ensures |r| == |ts|
  {
    seq(|ts|, i requires 0 <= i < |ts| => ts[i] + ExchangeTrace(ss[i], pool, useTransit, net(i, mode)))
  }

  /** Each of the first `n` slaves answers every read of its exchange in `mode`. */
  predicate AllReply(n: int, net: (int, Mode) -> Inbound, mode: Mode)
  {
    forall j :: 0 <= j < n ==> Completes(net(j, mode), mode)
  }

  /**
   * A whole phase in one `mode` other than DISTRIBUTE_PERSONS, every slave started: each
   * record is updated by its own exchange, each exchange is appended to its own
   * connection's transcript, the pool is untouched, nobody is left pending, and the phase
   * fails exactly when some slave's connection breaks before its last read.
   */
  lemma PhaseRound(w: World, useTransit: bool, net: (int, Mode) -> Inbound, mode: Mode)
    requires |w.slaves| == |w.transcripts| && mode != DistributePersons
    requires forall j :: j in w.pending ==> 0 <= j < |w.slaves|
    requires forall j :: 0 <= j < |w.slaves| ==> j in w.pending && w.slaves[j].communicationsMode == mode
    ensures var r := Round(w, useTransit, net, 0);
      r.pool == w.pool && r.pending == {}
      && (r.failed <==> w.failed || !AllReply(|w.slaves|, net, mode))
      && r.slaves == PhaseAfter(w.slaves, net, mode)
      && r.transcripts == PhaseTranscripts(w.transcripts, w.slaves, w.pool, useTransit, net, mode)
  {
    RoundPending(w, useTransit, net, 0);
    assert forall j :: j !in Round(w, useTransit, net, 0).pending;
    RoundKeepsPool(w, useTransit, net, 0);
    PhaseRoundFails(w, useTransit, net, mode);
    PhaseRoundSlaves(w, useTransit, net, mode);
    PhaseRoundTranscripts(w, useTransit, net, mode);
  }

  lemma PhaseRoundFails(w: World, useTransit: bool, net: (int, Mode) -> Inbound, mode: Mode)
    requires |w.slaves| == |w.transcripts| && mode != DistributePersons
    requires forall j :: j in w.pending ==> 0 <= j < |w.slaves|
    requires forall j :: 0 <= j < |w.slaves| ==> j in w.pending && w.slaves[j].communicationsMode == mode
    ensures Round(w, useTransit, net, 0).failed <==> w.failed || !AllReply(|w.slaves|, net, mode)
  {
    RoundFailsOnBreak(w, useTransit, net, 0);
    BreaksUnlessAllReply(w, net, mode);
  }

  lemma BreaksUnlessAllReply(w: World, net: (int, Mode) -> Inbound, mode: Mode)
    requires forall j :: 0 <= j < |w.slaves| ==> j in w.pending && w.slaves[j].communicationsMode == mode
    ensures SomeBreaks(w, net, 0) <==> !AllReply(|w.slaves|, net, mode)
  {
    if SomeBreaks(w, net, 0) {
      var j :| 0 <= j < |w.slaves| && j in w.pending && !Completes(net(j, w.slaves[j].communicationsMode), w.slaves[j].communicationsMode);
      assert !Completes(net(j, mode), mode);
    }
    if !AllReply(|w.slaves|, net, mode) {
      var j :| 0 <= j < |w.slaves| && !Completes(net(j, mode), mode);
      assert j in w.pending && !Completes(net(j, w.slaves[j].communicationsMode), w.slaves[j].communicationsMode);
    }
  }

  lemma PhaseRoundSlaves(w: World, useTransit: bool, net: (int, Mode) -> Inbound, mode: Mode)
    requires |w.slaves| == |w.transcripts| && mode != DistributePersons
    requires forall j :: j in w.pending ==> 0 <= j < |w.slaves|
    requires forall j :: 0 <= j < |w.slaves| ==> j in w.pending && w.slaves[j].communicationsMode == mode
    ensures Round(w, useTransit, net, 0).slaves == PhaseAfter(w.slaves, net, mode)
  {
    var r := Round(w, useTransit, net, 0);
    forall j | 0 <= j < |w.slaves|
      ensures r.slaves[j] == PhaseAfter(w.slaves, net, mode)[j]
    {
      RoundSlaves(w, useTransit, net, 0, j);
    }
  }

  lemma PhaseRoundTranscripts(w: World, useTransit: bool, net: (int, Mode) -> Inbound, mode: Mode)
    requires |w.slaves| == |w.transcripts| && mode != DistributePersons
    requires forall j :: 0 <= j < |w.slaves| ==> j in w.pending && w.slaves[j].communicationsMode == mode
    ensures Round(w, useTransit, net, 0).transcripts == PhaseTranscripts(w.transcripts, w.slaves, w.pool, useTransit, net, mode)
  {
    var r := Round(w, useTransit, net, 0);
    forall i | 0 <= i < |w.slaves|
      ensures r.transcripts[i] == PhaseTranscripts(w.transcripts, w.slaves, w.pool, useTransit, net, mode)[i]
    {
      RoundTranscripts(w, useTransit, net, 0, i);
    }
  }

  lemma RoundRemainsNoDistribution(w: World, v: World, k: nat)
    requires k < |w.slaves| == |v.slaves| && NoDistribution(w, k)
    requires forall j :: k + 1 <= j < |w.slaves| ==> v.slaves[j] == w.slaves[j] && (j in v.pending <==> j in w.pending)
    ensures NoDistribution(v, k + 1)
  {
  }

  /** The pool a DISTRIBUTE_PERSONS round leaves: what the draws left, or nothing once one ran dry. */
  function DrawnRest(pool: seq<Person>, diffs: seq<int>): seq<Person>
  {
    match DrawInOrder(pool, diffs)
    case Ok(d) => d.rest
    case Err(_) => []
  }

  lemma {:induction false} DrawnRestOfEmpty(diffs: seq<int>)
    ensures DrawnRest([], diffs) == []
    ensures DrawInOrder([], diffs).Ok? ==> DrawInOrder([], diffs).value.rest == []
    decreases |diffs|
  {
    if diffs != [] {
      DrawnRestOfEmpty(diffs[1..]);
    }
  }

  /** Every slave from `k` on was started in DISTRIBUTE_PERSONS and answers. */
  predicate AllDistributing(w: World, net: (int, Mode) -> Inbound, k: nat)
    requires k <= |w.slaves|
  {
    forall j :: k <= j < |w.slaves| ==>
      j in w.pending && w.slaves[j].communicationsMode == DistributePersons && Completes(net(j, DistributePersons), DistributePersons)
  }

  /**
   * A DISTRIBUTE_PERSONS round is the front-first draw of every slave's diff from the pool:
   * it leaves what the draws leave and fails exactly when one of them runs the pool dry.
   */
  lemma {:induction false} RoundDraws(w: World, useTransit: bool, net: (int, Mode) -> Inbound, k: nat)
    requires k <= |w.slaves| == |w.transcripts| && AllDistributing(w, net, k)
    ensures Round(w, useTransit, net, k).pool == DrawnRest(w.pool, Diffs(w.slaves)[k..])
    ensures Round(w, useTransit, net, k).failed == (w.failed || DrawInOrder(w.pool, Diffs(w.slaves)[k..]).Err?)
    decreases |w.slaves| - k
  {
    var ds := Diffs(w.slaves)[k..];
    if k < |w.slaves| {
      var v := RunOne(w, k, useTransit, net);
      var t := TakeFromPool(w.pool, Diff(w.slaves[k]));
      assert v.slaves == w.slaves;
      assert v.pool == t.rest;
      assert ds[0] == Diff(w.slaves[k]);
      assert ds[1..] == Diffs(w.slaves)[k + 1..];
      RoundDraws(v, useTransit, net, k + 1);
      if t.out.Err? {
        DrawnRestOfEmpty(ds[1..]);
        RoundPending(v, useTransit, net, k + 1);
      }
    }
  }
}
