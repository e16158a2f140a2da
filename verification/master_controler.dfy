/**
 * The master of the distributed controller: it registers the slaves, starts every
 * phase by writing a `CommunicationsMode` to each slave connection, waits for the
 * exchanges, and between iterations moves persons between slaves so that each gets a
 * share of the population in proportion to its speed.
 */
module MasterControl {
  import opened Wrappers
  import opened Wire
  import opened Slaves
  import opened LoadBalance
  import opened Rounds

  /** Why a lifecycle hook ends in an exception: a failed exchange, or an integer division by zero. */
  datatype Failure = SlaveFailed | ArithmeticError

  /** The handshake values the master keeps in a slave's record. */
  function Reply(s: Slave): HandshakeReply
  {
    HandshakeReply(s.usedMemory, s.maxMemory, s.numberOfPlans, s.numThreadsOnSlave)
  }

  /** Slave `i`'s connection began with its registration handshake. */
  predicate Registered(i: int, numberOfPSimIterations: int, initialRouting: bool, s: Slave, transcript: seq<Event>)
  {
    RegistrationTrace(i, numberOfPSimIterations, initialRouting, Reply(s)) <= transcript
  }

  /** `Map.get`: the value under `k`, or null. */
  function Lookup(m: map<string, Plan>, k: string): Option<Plan>
  {
    if k in m then Some(m[k]) else None
  }

  /** The modes `loadBalance` starts, in order. */
  const LoadBalanceModes: seq<Mode> := [TransmitPerformance, PoolPersons, DistributePersons]

  /**
   * `numSlaves > 1 && iteration % loadBalanceInterval == 0`. Java evaluates the remainder
   * only when there is more than one slave, and then a zero interval throws.
   */
  predicate BalancesAfter(numSlaves: int, interval: int, iteration: nat)
    requires numSlaves <= 1 || interval != 0
  {
    numSlaves > 1 && iteration % interval == 0
  }

  /** The modes `notifyAfterMobsim` starts when it completes. */
  function AfterMobsimModes(numSlaves: int, interval: int, iteration: nat): (r: seq<Mode>)
    requires numSlaves <= 1 || interval != 0
  {
    TransmitModes(BalancesAfter(numSlaves, interval, iteration))
  }

  /** The modes the end of `notifyAfterMobsim` starts, given whether it balances. */
  function TransmitModes(balances: bool): (r: seq<Mode>)
  {
    (if balances then LoadBalanceModes else []) + [TransmitTravelTimes]
  }

  /** The modes `notifyStartup` starts when it completes. */
  function StartupModes(initialRouting: bool, numSlaves: int): (r: seq<Mode>)
  {
    if initialRouting
    then [TransmitScenario, TransmitPlansToMaster] + (if numSlaves > 1 then LoadBalanceModes else []) + [Continue]
    else [TransmitScenario]
  }

  /** The modes of `notifyStartup` with initial routing: the scenario, then those of the routing. */
  lemma StartupModesRouting(before: seq<Mode>, numSlaves: int)
    ensures before + [TransmitScenario] + [TransmitPlansToMaster] + (if numSlaves > 1 then LoadBalanceModes else [])
              + [Continue] == before + StartupModes(true, numSlaves)
  {
    var routing := [TransmitPlansToMaster] + (if numSlaves > 1 then LoadBalanceModes else []) + [Continue];
    assert StartupModes(true, numSlaves) == [TransmitScenario] + routing;
  }

  /** The slaves with their mode set. */
  function WithMode(ss: seq<Slave>, mode: Mode): (r: seq<Slave>)
    ensures |r| == |ss|
  {
    seq(|ss|, i requires 0 <= i < |ss| => ss[i].(communicationsMode := mode))
  }

  /** Every slave reports a positive iteration time and population size when asked for its performance. */
  predicate MeasurableReplies(n: int, net: (int, Mode) -> Inbound)
  {
    forall i :: 0 <= i < n ==>
      net(i, TransmitPerformance).iterationTime > 0.0 && net(i, TransmitPerformance).populationSize > 0
  }

  /** The records hold what the slaves reported in TRANSMIT_PERFORMANCE. */
  predicate MeasuredBy(ss: seq<Slave>, net: (int, Mode) -> Inbound)
  {
    forall i :: 0 <= i < |ss| ==>
      var m := net(i, TransmitPerformance);
      ss[i].totalIterationTime == m.iterationTime && ss[i].currentPopulationSize == m.populationSize
      && ss[i].memoryUse == m.memoryUse
  }

  /** A TRANSMIT_PERFORMANCE phase in which every slave answers every read records what they reported. */
  lemma PerformancePhase(ss: seq<Slave>, net: (int, Mode) -> Inbound)
    requires AllReply(|ss|, net, TransmitPerformance)
    ensures MeasuredBy(PhaseAfter(WithMode(ss, TransmitPerformance), net, TransmitPerformance), net)
    ensures MeasurableReplies(|ss|, net) ==>
              Measurable(PhaseAfter(WithMode(ss, TransmitPerformance), net, TransmitPerformance))
  {
  }

  /**
   * A POOL_PERSONS phase in which every slave answers every read leaves each record's measurements and
   * target alone and stores the persons the slave gave up.
   */
  lemma PoolPhase(ss: seq<Slave>, net: (int, Mode) -> Inbound)
    requires AllReply(|ss|, net, PoolPersons)
    ensures var after := PhaseAfter(WithMode(ss, PoolPersons), net, PoolPersons);
      SamePerformance(ss, after) && Targets(after) == Targets(ss) && PooledBy(after, net)
  {
  }

  /** Restarting the slaves in DISTRIBUTE_PERSONS keeps what the pooling phase recorded. */
  lemma PoolPhaseRestarted(ss: seq<Slave>, net: (int, Mode) -> Inbound)
    ensures var ts := WithMode(ss, DistributePersons);
      SamePerformance(ss, ts) && Targets(ts) == Targets(ss) && (PooledBy(ss, net) ==> PooledBy(ts, net))
      && InMode(ts, DistributePersons)
  {
  }

  /** The plans `notifyStartup` selects: each person's routed plan, or null. */
  function RoutedPlans(population: seq<Person>, newPlans: map<string, Plan>): (r: map<string, Option<Plan>>)
    ensures forall p :: p in population ==> p.id in r && r[p.id] == Lookup(newPlans, p.id)
    ensures forall k :: k in r ==> exists p :: p in population && p.id == k
  {
    if population == [] then map[]
    else
      var last := population[|population| - 1];
      RoutedPlans(population[..|population| - 1], newPlans)[last.id := Lookup(newPlans, last.id)]
  }

  /** One more person's routed plan, written over a map that already holds the earlier ones. */
  lemma SelectOneMore(selected: map<string, Option<Plan>>, population: seq<Person>, i: nat,
                      newPlans: map<string, Plan>)
    requires i < |population|
    ensures (selected + RoutedPlans(population[..i], newPlans))[population[i].id := Lookup(newPlans, population[i].id)]
            == selected + RoutedPlans(population[..i + 1], newPlans)
  {
    assert population[..i + 1][..i] == population[..i];
  }

  /** Every slave has been started in `mode`. */
  predicate InMode(ss: seq<Slave>, mode: Mode)
  {
    forall i :: 0 <= i < |ss| ==> ss[i].communicationsMode == mode
  }

  /** Each record holds the persons its slave gave up in POOL_PERSONS. */
  predicate PooledBy(ss: seq<Slave>, net: (int, Mode) -> Inbound)
  {
    forall i :: 0 <= i < |ss| ==> ss[i].slavePersonPool == net(i, PoolPersons).persons
  }

  /** Each record holds the plans its slave sent in TRANSMIT_PLANS_TO_MASTER. */
  predicate PlansSentBy(ss: seq<Slave>, net: (int, Mode) -> Inbound)
  {
    forall i :: 0 <= i < |ss| ==> ss[i].plans == net(i, TransmitPlansToMaster).plans
  }

  /** The plans the first `n` slaves send in TRANSMIT_PLANS_TO_MASTER, put into one map in slave order. */
  function SentPlans(n: nat, net: (int, Mode) -> Inbound): map<string, Plan>
  {
    if n == 0 then map[] else SentPlans(n - 1, net) + net(n - 1, TransmitPlansToMaster).plans
  }

  /** A TRANSMIT_PLANS_TO_MASTER phase in which every slave answers every read records the plans they sent. */
  lemma PlansPhase(ss: seq<Slave>, net: (int, Mode) -> Inbound)
    requires InMode(ss, TransmitPlansToMaster) && AllReply(|ss|, net, TransmitPlansToMaster)
    ensures PlansSentBy(PhaseAfter(ss, net, TransmitPlansToMaster), net)
  {
  }

  /** Merging records that hold what the slaves sent merges what the slaves sent. */
  lemma {:induction false} MergedSentPlans(ss: seq<Slave>, net: (int, Mode) -> Inbound)
    requires PlansSentBy(ss, net)
    ensures MergedPlans(ss) == SentPlans(|ss|, net)
  {
    if ss != [] {
      MergedSentPlans(ss[..|ss| - 1], net);
    }
  }

  /**
   * A round in which every slave was started in TRANSMIT_PLANS_TO_MASTER: when nothing
   * failed, each record holds the plans its slave sent, and merging the records merges
   * what the slaves sent.
   */
  lemma PlansRound(w: World, useTransit: bool, net: (int, Mode) -> Inbound)
    requires |w.slaves| == |w.transcripts| && w.pending == Indices(|w.slaves|) && InMode(w.slaves, TransmitPlansToMaster)
    ensures var v := Round(w, useTransit, net, 0);
      !v.failed ==> PlansSentBy(v.slaves, net) && MergedPlans(v.slaves) == SentPlans(|w.slaves|, net)
  {
    PhaseRound(w, useTransit, net, TransmitPlansToMaster);
    var v := Round(w, useTransit, net, 0);
    if !v.failed {
      PlansPhase(w.slaves, net);
      MergedSentPlans(v.slaves, net);
    }
  }

  /**
   * What a successful `loadBalance` leaves behind: nothing failed, every slave is started
   * in DISTRIBUTE_PERSONS, the records hold what the slaves reported and gave up, each
   * target is the slave's allocation, and the pool holds the persons given up.
   */
  predicate Balanced(w: World, n: nat, net: (int, Mode) -> Inbound)
  {
    !w.failed && w.pending == Indices(|w.slaves|) && w.pool == ConcatPersons(w.slaves)
    && |w.slaves| >= 1 && MeasuredBy(w.slaves, net) && Measurable(w.slaves)
    && TargetSizes(n, w.slaves) == Ok(Targets(w.slaves))
    && PooledBy(w.slaves, net) && InMode(w.slaves, DistributePersons)
  }

  /**
   * `now` is what waiting for the exchanges started in `w` leaves, with `mode` started
   * afterwards when `started`: the records, the pool and the transcripts of the round.
   */
  predicate WaitedThenStarted(w: World, now: World, useTransit: bool, net: (int, Mode) -> Inbound, mode: Mode, started: bool)
    requires |w.slaves| == |w.transcripts|
  {
    var v := Round(w, useTransit, net, 0);
    now.pool == v.pool && now.transcripts == v.transcripts
    && now.slaves == (if started then WithMode(v.slaves, mode) else v.slaves)
  }

  /** Writing the allocation into the records makes each record's target its allocation. */
  lemma Targeted(n: nat, measured: seq<Slave>, targeted: seq<Slave>, net: (int, Mode) -> Inbound)
    requires Measurable(measured) && |measured| >= 1 && TargetSizes(n, measured).Ok?
    requires targeted == WithTargets(measured, TargetSizes(n, measured).value)
    ensures Measurable(targeted) && TargetSizes(n, targeted) == Ok(Targets(targeted))
    ensures MeasuredBy(measured, net) ==> MeasuredBy(targeted, net)
  {
    assert SamePerformance(measured, targeted);
    TargetSizesSamePerformance(n, measured, targeted);
    assert Targets(targeted) == TargetSizes(n, measured).value;
  }

  /**
   * Records that keep the measurements and the targets keep the targets the allocation for
   * them: pooling persons and restarting the slaves do not disturb the balance.
   */
  lemma TargetsKept(n: nat, ss: seq<Slave>, ts: seq<Slave>, net: (int, Mode) -> Inbound)
    requires Measurable(ss) && |ss| >= 1 && TargetSizes(n, ss) == Ok(Targets(ss))
    requires SamePerformance(ss, ts) && Targets(ts) == Targets(ss)
    ensures Measurable(ts) && TargetSizes(n, ts) == Ok(Targets(ts))
    ensures MeasuredBy(ss, net) ==> MeasuredBy(ts, net)
  {
    TargetSizesSamePerformance(n, ss, ts);
  }

  /** The target of every slave, as stored in the records. */
  function Targets(ss: seq<Slave>): (r: seq<int>)
    ensures |r| == |ss|
  {
    seq(|ss|, i requires 0 <= i < |ss| => ss[i].targetPopulationSize)
  }

  class MasterControler {
    const numSlaves: nat
    const slaves: array<Slave>
    /** The persons of the scenario's population; its size is the `N` that is shared out. */
    const population: seq<Person>
    const loadBalanceInterval: int
    const numberOfPSimIterations: int
    const initialRoutingOnSlaves: bool
    const useTransit: bool

    var personPool: seq<Person>
    var newPlans: map<string, Plan>
    /** The plan each population member has selected, as far as the master replaced it. */
    var selectedPlans: map<string, Option<Plan>>
    /** Slaves started in a mode whose exchange has not yet been waited for. */
    var pending: set<int>
    var somethingWentWrong: bool
    var isLoadBalanceIteration: bool
    /** What went over each slave's connection so far. */
    var transcripts: seq<seq<Event>>
    /** Every mode started so far, in order. */
    var issued: seq<Mode>

    ghost predicate Valid()
      reads this, slaves
    {
      slaves.Length == numSlaves && |transcripts| == numSlaves
      && (forall j :: j in pending ==> 0 <= j < numSlaves)
      && forall i :: 0 <= i < numSlaves ==>
           slaves[i].myNumber == i && Registered(i, numberOfPSimIterations, initialRoutingOnSlaves, slaves[i], transcripts[i])
    }

    function State(): World
      reads this, slaves
    {
      World(slaves[..], personPool, pending, somethingWentWrong, transcripts)
    }

    /**
     * Registration: each slave in turn is given its number, the PSim iteration count and
     * the initial-routing flag, and reports its memory and thread statistics; then each
     * gets its part of the population.
     */
    constructor (numSlaves: nat, population: seq<Person>, loadBalanceInterval: int, numberOfPSimIterations: int,
                 initialRoutingOnSlaves: bool, useTransit: bool,
                 replies: seq<HandshakeReply>, personSplit: seq<seq<Person>>)
      requires |replies| == numSlaves && |personSplit| == numSlaves
      ensures Valid() && fresh(slaves)
      ensures this.numSlaves == numSlaves && this.population == population
      ensures this.loadBalanceInterval == loadBalanceInterval && this.numberOfPSimIterations == numberOfPSimIterations
      ensures this.initialRoutingOnSlaves == initialRoutingOnSlaves && this.useTransit == useTransit
      ensures forall i :: 0 <= i < numSlaves ==>
                slaves[i] == Slave(i, 0.0, 0, 0.0, 0, personSplit[i], map[], TransmitTravelTimes,
                                   replies[i].usedMemory, replies[i].maxMemory, replies[i].numberOfPlans,
                                   replies[i].numThreads)
      ensures forall i :: 0 <= i < numSlaves ==>
                transcripts[i] == RegistrationTrace(i, numberOfPSimIterations, initialRoutingOnSlaves, replies[i])
      ensures personPool == [] && newPlans == map[] && selectedPlans == map[] && pending == {}
      ensures !somethingWentWrong && !isLoadBalanceIteration && issued == []
    {
      this.numSlaves := numSlaves;
      this.population := population;
      this.loadBalanceInterval := loadBalanceInterval;
      this.numberOfPSimIterations := numberOfPSimIterations;
      this.initialRoutingOnSlaves := initialRoutingOnSlaves;
      this.useTransit := useTransit;
      slaves := new Slave[numSlaves];
      personPool, newPlans, selectedPlans := [], map[], map[];
      pending, somethingWentWrong, isLoadBalanceIteration := {}, false, false;
      transcripts, issued := [], [];
      new;
      var i := 0;
      while i < numSlaves
        modifies this`transcripts, slaves
        invariant 0 <= i <= numSlaves && |transcripts| == i
        invariant forall j :: 0 <= j < i ==>
                    slaves[j] == Slave(j, 0.0, 0, 0.0, 0, [], map[], TransmitTravelTimes,
                                       replies[j].usedMemory, replies[j].maxMemory, replies[j].numberOfPlans,
                                       replies[j].numThreads)
                    && transcripts[j] == RegistrationTrace(j, numberOfPSimIterations, initialRoutingOnSlaves, replies[j])
      {
        var s := Slave(i, 0.0, 0, 0.0, 0, [], map[], TransmitTravelTimes, 0, 0, 0, 0);
        var events := [Send(Int(i)), Send(Int(numberOfPSimIterations)), Send(Bool(initialRoutingOnSlaves))];
        var reply := replies[i];
        s := s.(usedMemory := reply.usedMemory, maxMemory := reply.maxMemory, numberOfPlans := reply.numberOfPlans);
        events := events + [Recv(Long(reply.usedMemory)), Recv(Long(reply.maxMemory)), Recv(Int(reply.numberOfPlans))];
        s := s.(numThreadsOnSlave := reply.numThreads);
        events := events + [Recv(Int(reply.numThreads))];
        slaves[i] := s;
        transcripts := transcripts + [events];
        i := i + 1;
      }
      i := 0;
      while i < numSlaves
        modifies slaves
        invariant 0 <= i <= numSlaves
        invariant forall j :: 0 <= j < numSlaves ==>
                    slaves[j] == Slave(j, 0.0, 0, 0.0, 0, if j < i then personSplit[j] else [], map[],
                                       TransmitTravelTimes, replies[j].usedMemory, replies[j].maxMemory,
                                       replies[j].numberOfPlans, replies[j].numThreads)
      {
        slaves[i] := slaves[i].(slavePersonPool := personSplit[i]);
        i := i + 1;
      }
    }

    /** `getPersonsFromPool`: a negative `diff` moves `-diff` persons off the front of the pool, one by one. */
    method GetPersonsFromPool(diff: int) returns (r: Result<seq<Person>, PoolError>)
      modifies this`personPool
      ensures Taken(r, personPool) == TakeFromPool(old(personPool), diff)
    {
      var outList := [];
      if diff < 0 {
        var i := 0;
        while i > diff
          invariant diff <= i <= 0 && |outList| == -i
          invariant outList + personPool == old(personPool)
        {
          if personPool == [] {
            return Err(IndexOutOfBounds);
          }
          outList := outList + [personPool[0]];
          personPool := personPool[1..];
          i := i - 1;
        }
        assert outList == old(personPool)[..-diff];
      }
      return Ok(outList);
    }

    /** `mergePersonsFromSlaves`: the pool is cleared and refilled with each slave's persons in slave order. */
    method MergePersonsFromSlaves()
      requires Valid()
      modifies this`personPool
      ensures personPool == ConcatPersons(slaves[..])
    {
      personPool := [];
      var i := 0;
      while i < numSlaves
        invariant 0 <= i <= numSlaves
        invariant personPool == ConcatPersons(slaves[..i])
      {
        assert slaves[..i + 1][..i] == slaves[..i];
        personPool := personPool + slaves[i].slavePersonPool;
        i := i + 1;
      }
      assert slaves[..numSlaves] == slaves[..];
    }

    /** `mergePlansFromSlaves`: the map is cleared and each slave's plans are put in slave order. */
    method MergePlansFromSlaves()
      requires Valid()
      modifies this`newPlans
      ensures newPlans == MergedPlans(slaves[..])
    {
      newPlans := map[];
      var i := 0;
      while i < numSlaves
        invariant 0 <= i <= numSlaves
        invariant newPlans == MergedPlans(slaves[..i])
      {
        assert slaves[..i + 1][..i] == slaves[..i];
        newPlans := newPlans + slaves[i].plans;
        i := i + 1;
      }
      assert slaves[..numSlaves] == slaves[..];
    }

    /**
     * `startSlavesInMode`: every slave gets the mode and its exchange is started. The hooks
     * start a mode once the exchanges of the previous one are over; `NotifyShutdown` and
     * `NotifyStartup` first let the ones still running come to an end.
     */
    method StartSlavesInMode(mode: Mode)
      requires Valid() && pending == {}
      modifies this`pending, this`issued, slaves
      ensures Valid()
      ensures pending == Indices(numSlaves) && issued == old(issued) + [mode]
      ensures forall i :: 0 <= i < numSlaves ==> slaves[i] == old(slaves[i]).(communicationsMode := mode)
    {
      var i := 0;
      while i < numSlaves
        modifies slaves
        invariant 0 <= i <= numSlaves
        invariant forall j :: 0 <= j < numSlaves ==>
                    slaves[j] == if j < i then old(slaves[j]).(communicationsMode := mode) else old(slaves[j])
      {
        slaves[i] := slaves[i].(communicationsMode := mode);
        i := i + 1;
      }
      pending := Indices(numSlaves);
      issued := issued + [mode];
    }

    /**
     * What one mode's part of `Slave.run` did, the mode written first and the closing
     * read of the acknowledgement not included: the record afterwards, the events, and
     * whether it threw. It throws when the pool runs dry or a read of its own does not go
     * through.
     */
    ghost predicate Exchanged(s: Slave, pool: seq<Person>, inbound: Inbound, after: Slave, events: seq<Event>, broken: bool)
    {
      var mode := s.communicationsMode;
      after == SlaveAfter(s, inbound)
      && (broken <==> RunsDry(s, pool) || inbound.delivered < ReadsIn(mode) - 1)
      && [Send(ModeMsg(mode))] + events + (if !broken && Completes(inbound, mode) then [Recv(Ack)] else [])
         == ExchangeTrace(s, pool, useTransit, inbound)
    }

    /** `transmitTravelTimes`, then the acknowledgement and the CONTINUE of `run`. */
    method ExchangeTravelTimes(s: Slave, inbound: Inbound) returns (after: Slave, events: seq<Event>, broken: bool)
      requires s.communicationsMode == TransmitTravelTimes
      ensures Exchanged(s, personPool, inbound, after, events, broken)
    {
      after := s;
      events := [Send(LinkTravelTimes)];
      if useTransit {
        events := events + [Send(StopStopTimes), Send(WaitTimes)];
      }
      broken := inbound.delivered < 1;
      if !broken {
        events := events + [Recv(Ack)];
        after := after.(communicationsMode := Continue);
        events := events + [Send(ModeMsg(Continue))];
      }
    }

    /** `poolPersons`: the slave's list is reset, the diff is sent and the slave's persons are read. */
    method ExchangePoolPersons(s: Slave, inbound: Inbound) returns (after: Slave, events: seq<Event>, broken: bool)
      requires s.communicationsMode == PoolPersons
      ensures Exchanged(s, personPool, inbound, after, events, broken)
    {
      after := s.(slavePersonPool := []);
      events := [Send(Int(Diff(after)))];
      broken := inbound.delivered < 1;
      if !broken {
        after := after.(slavePersonPool := inbound.persons);
        events := events + [Recv(Persons(inbound.persons))];
      }
    }

    /** `distributePersons`: the slave's diff is drawn from the pool and the persons drawn are sent. */
    method ExchangeDistributePersons(s: Slave, inbound: Inbound) returns (after: Slave, events: seq<Event>, broken: bool)
      requires s.communicationsMode == DistributePersons
      modifies this`personPool
      ensures Exchanged(s, old(personPool), inbound, after, events, broken)
      ensures personPool == PoolAfter(s, old(personPool))
    {
      after := s;
      events := [];
      var taken := GetPersonsFromPool(Diff(s));
      if taken.Ok? {
        events := events + [Send(Persons(taken.value))];
      }
      broken := taken.Err?;
    }

    /**
     * `writer.reset()` and `transmitPlans`: the slave's plan map is cleared and refilled
     * with the plans it sends.
     */
    method ExchangePlans(s: Slave, inbound: Inbound) returns (after: Slave, events: seq<Event>, broken: bool)
      requires s.communicationsMode == TransmitPlansToMaster
      ensures Exchanged(s, personPool, inbound, after, events, broken)
    {
      events := [Send(Reset)];
      after := s.(plans := map[]);
      broken := inbound.delivered < 1;
      if !broken {
        after := after.(plans := inbound.plans);
        events := events + [Recv(Plans(inbound.plans))];
      }
    }

    /**
     * `transmitPerformance`: iteration time, population size and memory use are read in that
     * order, each stored as soon as it arrives.
     */
    method ExchangePerformance(s: Slave, inbound: Inbound) returns (after: Slave, events: seq<Event>, broken: bool)
      requires s.communicationsMode == TransmitPerformance
      ensures Exchanged(s, personPool, inbound, after, events, broken)
    {
      ghost var ms := Measurements(inbound);
      after := s;
      events := [];
      broken := inbound.delivered < 1;
      if broken {
        return;
      }
      after := after.(totalIterationTime := inbound.iterationTime);
      events := events + [Recv(Double(inbound.iterationTime))];
      broken := inbound.delivered < 2;
      if broken {
        assert events == Received(ms, 1);
        return;
      }
      after := after.(currentPopulationSize := inbound.populationSize);
      events := events + [Recv(Int(inbound.populationSize))];
      broken := inbound.delivered < 3;
      if broken {
        assert events == Received(ms, 2);
        return;
      }
      after := after.(memoryUse := inbound.memoryUse);
      events := events + [Recv(Double(inbound.memoryUse))];
      assert events == Received(ms, inbound.delivered);
    }

    /** `transmitInitialPlans`, then the acknowledgement and the CONTINUE of `run`. */
    method ExchangeInitialPlans(s: Slave, inbound: Inbound) returns (after: Slave, events: seq<Event>, broken: bool)
      requires s.communicationsMode == TransmitScenario
      ensures Exchanged(s, personPool, inbound, after, events, broken)
    {
      after := s;
      events := [Send(Persons(s.slavePersonPool))];
      broken := inbound.delivered < 1;
      if !broken {
        events := events + [Recv(Ack)];
        after := after.(communicationsMode := Continue);
        events := events + [Send(ModeMsg(Continue))];
      }
    }

    /** The body of `Slave.run` between writing the mode and the closing read: the part its mode selects. */
    method ExchangeInMode(s: Slave, inbound: Inbound) returns (after: Slave, events: seq<Event>, broken: bool)
      modifies this`personPool
      ensures Exchanged(s, old(personPool), inbound, after, events, broken)
      ensures personPool == PoolAfter(s, old(personPool))
    {
      match s.communicationsMode {
        case TransmitTravelTimes =>
          after, events, broken := ExchangeTravelTimes(s, inbound);
        case PoolPersons =>
          after, events, broken := ExchangePoolPersons(s, inbound);
        case DistributePersons =>
          after, events, broken := ExchangeDistributePersons(s, inbound);
        case TransmitPlansToMaster =>
          after, events, broken := ExchangePlans(s, inbound);
        case TransmitPerformance =>
          after, events, broken := ExchangePerformance(s, inbound);
        case TransmitScenario =>
          after, events, broken := ExchangeInitialPlans(s, inbound);
        case Continue =>
          after, events, broken := s, [], false;
        case Die =>
          after, events, broken := s, [], false;
      }
    }

    /**
     * `Slave.run` for slave `i`: the mode is written, the mode's part runs, and the closing
     * acknowledgement is read unless the exchange threw already; `net` stands for the slave's
     * side.
     */
    method RunSlave(i: int, net: (int, Mode) -> Inbound)
      requires Valid() && 0 <= i < numSlaves
      modifies this`personPool, this`pending, this`somethingWentWrong, this`transcripts, slaves
      ensures Valid()
      ensures State() == RunOne(old(State()), i, useTransit, net)
    {
      var s := slaves[i];
      var inbound := net(i, s.communicationsMode);
      var events := [Send(ModeMsg(s.communicationsMode))];
      var after, body, broken := ExchangeInMode(s, inbound);
      events := events + body;
      if !broken {
        broken := !Completes(inbound, s.communicationsMode);
        if !broken {
          events := events + [Recv(Ack)];
        }
      }
      assert events == ExchangeTrace(s, old(personPool), useTransit, inbound);
      assert broken == ExchangeFails(s, old(personPool), inbound);
      slaves[i] := after;
      assert slaves[..] == old(slaves[..])[i := SlaveAfter(s, inbound)];
      ghost var head := RegistrationTrace(i, numberOfPSimIterations, initialRoutingOnSlaves, Reply(after));
      assert head <= transcripts[i] + events by {
        assert (transcripts[i] + events)[..|head|] == transcripts[i][..|head|];
      }
      transcripts := transcripts[i := transcripts[i] + events];
      if broken {
        somethingWentWrong := true;
      }
      pending := pending - {i};
      assert State() == RunOne(old(State()), i, useTransit, net);
      forall j | 0 <= j < numSlaves
        ensures slaves[j].myNumber == j
        ensures Registered(j, numberOfPSimIterations, initialRoutingOnSlaves, slaves[j], transcripts[j])
      {
        if j != i {
          assert slaves[j] == old(slaves[j]) && transcripts[j] == old(transcripts[j]);
        }
      }
    }

    /** Last loop of `setSlaveTargetPopulationSizes`: the targets go into the slave records. */
    method WriteTargets(targets: seq<int>) returns (differences: seq<int>)
      requires Valid() && |targets| == numSlaves
      modifies slaves
      ensures Valid()
      ensures differences == Differences(old(slaves[..]), targets)
      ensures slaves[..] == WithTargets(old(slaves[..]), targets)
    {
      ghost var ss := slaves[..];
      differences := [];
      var i := 0;
      while i < numSlaves
        modifies slaves
        invariant 0 <= i <= numSlaves && |differences| == i
        invariant forall j :: 0 <= j < i ==> differences[j] == ss[j].currentPopulationSize - targets[j]
        invariant forall j :: 0 <= j < numSlaves ==>
                    slaves[j] == if j < i then ss[j].(targetPopulationSize := targets[j]) else ss[j]
      {
        differences := differences + [slaves[i].currentPopulationSize - targets[i]];
        slaves[i] := slaves[i].(targetPopulationSize := targets[i]);
        i := i + 1;
      }
    }

    /**
     * `setSlaveTargetPopulationSizes`: each slave's share of the population in proportion to
     * its speed, clamped for slaves near their memory limit, with the remainder spread over
     * the slaves that were not clamped and what is left of it given to slave 0. The targets
     * are written into the slave records; the result carries the per-slave differences.
     * Java's ArithmeticException on an empty distribution set is the `Fail` outcome.
     */
    method SetSlaveTargetPopulationSizes() returns (r: Outcome<AllocationError>, differences: seq<int>)
      requires Valid() && numSlaves >= 1 && Measurable(slaves[..])
      modifies slaves
      ensures Valid()
      ensures TargetSizes(|population|, old(slaves[..])).Err? <==> r.Fail?
      ensures r.Fail? ==> r.error == DivisionByZero && slaves[..] == old(slaves[..])
      ensures r.Pass? ==>
                var t := TargetSizes(|population|, old(slaves[..])).value;
                differences == Differences(old(slaves[..]), t) && slaves[..] == WithTargets(old(slaves[..]), t)
    {
      var targets := AllocateTargets(|population|, slaves[..]);
      if targets.Err? {
        return Fail(targets.error), [];
      }
      differences := WriteTargets(targets.value);
      r := Pass;
    }

    /** `waitForSlaveThreads`: every started exchange runs; the result says whether all of them went through. */
    method WaitForSlaveThreads(net: (int, Mode) -> Inbound) returns (ok: bool)
      requires Valid()
      modifies this`personPool, this`pending, this`somethingWentWrong, this`transcripts, slaves
      ensures Valid()
      ensures State() == Round(old(State()), useTransit, net, 0)
      ensures pending == {} && ok == !somethingWentWrong
    {
      var k := 0;
      while k < numSlaves
        invariant 0 <= k <= numSlaves && Valid()
        invariant Round(State(), useTransit, net, k) == Round(old(State()), useTransit, net, 0)
      {
        if k in pending {
          RunSlave(k, net);
        }
        k := k + 1;
      }
      RoundPending(old(State()), useTransit, net, 0);
      assert forall j :: j !in pending;
      ok := !somethingWentWrong;
    }

    /**
     * A phase other than DISTRIBUTE_PERSONS, started and waited for: every slave's record is
     * updated by its own exchange in `mode`, the pool is untouched, and the wait succeeds
     * exactly when nothing had failed before and every slave replied.
     */
    method StartAndWait(mode: Mode, net: (int, Mode) -> Inbound) returns (ok: bool)
      requires Valid() && pending == {} && mode != DistributePersons
      modifies this`personPool, this`pending, this`somethingWentWrong, this`transcripts, this`issued, slaves
      ensures Valid()
      ensures issued == old(issued) + [mode] && pending == {} && personPool == old(personPool)
      ensures ok == !somethingWentWrong
      ensures ok <==> !old(somethingWentWrong) && AllReply(numSlaves, net, mode)
      ensures slaves[..] == PhaseAfter(WithMode(old(slaves[..]), mode), net, mode)
      ensures transcripts ==
                PhaseTranscripts(old(transcripts), WithMode(old(slaves[..]), mode), old(personPool), useTransit, net, mode)
    {
      StartSlavesInMode(mode);
      assert slaves[..] == WithMode(old(slaves[..]), mode);
      ok := WaitPhase(mode, net);
    }

    /** The wait of `StartAndWait`: every slave runs its exchange in `mode`, which was just started. */
    method WaitPhase(mode: Mode, net: (int, Mode) -> Inbound) returns (ok: bool)
      requires Valid() && pending == Indices(numSlaves) && mode != DistributePersons
      requires InMode(slaves[..], mode)
      modifies this`personPool, this`pending, this`somethingWentWrong, this`transcripts, slaves
      ensures Valid() && pending == {} && personPool == old(personPool)
      ensures ok == !somethingWentWrong
      ensures ok <==> !old(somethingWentWrong) && AllReply(numSlaves, net, mode)
      ensures slaves[..] == PhaseAfter(old(slaves[..]), net, mode)
      ensures transcripts == PhaseTranscripts(old(transcripts), old(slaves[..]), personPool, useTransit, net, mode)
    {
      PhaseRound(State(), useTransit, net, mode);
      ok := WaitForSlaveThreads(net);
    }

    /**
     * The first half of `loadBalance` after its initial wait: TRANSMIT_PERFORMANCE, an
     * emptied pool, and the targets computed from the measurements.
     */
    method MeasureAndTarget(net: (int, Mode) -> Inbound) returns (r: Outcome<Failure>)
      requires Valid() && pending == {} && numSlaves >= 1 && MeasurableReplies(numSlaves, net)
      modifies this`personPool, this`pending, this`somethingWentWrong, this`transcripts, this`issued, slaves
      ensures Valid() && issued == old(issued) + [TransmitPerformance]
      ensures r == Fail(SlaveFailed) ==> somethingWentWrong
      ensures r == Fail(ArithmeticError) ==> Measurable(slaves[..]) && TargetSizes(|population|, slaves[..]).Err?
      ensures r.Pass? ==>
                !somethingWentWrong && pending == {} && personPool == [] && MeasuredBy(slaves[..], net) && Measurable(slaves[..])
                && TargetSizes(|population|, slaves[..]) == Ok(Targets(slaves[..]))
    {
      ghost var before := slaves[..];
      var ok := StartAndWait(TransmitPerformance, net);
      if !ok {
        return Fail(SlaveFailed);
      }
      PerformancePhase(before, net);
      personPool := [];
      ghost var measured := slaves[..];
      var outcome, differences := SetSlaveTargetPopulationSizes();
      if outcome.Fail? {
        return Fail(ArithmeticError);
      }
      Targeted(|population|, measured, slaves[..], net);
      r := Pass;
    }

    /** `mergePersonsFromSlaves` followed by starting DISTRIBUTE_PERSONS. */
    method MergeAndDistribute()
      requires Valid() && pending == {}
      modifies this`personPool, this`pending, this`issued, slaves
      ensures Valid()
      ensures issued == old(issued) + [DistributePersons] && pending == Indices(numSlaves)
      ensures slaves[..] == WithMode(old(slaves[..]), DistributePersons)
      ensures personPool == ConcatPersons(slaves[..])
    {
      MergePersonsFromSlaves();
      ghost var pooled := slaves[..];
      StartSlavesInMode(DistributePersons);
      assert slaves[..] == WithMode(pooled, DistributePersons);
      ConcatPersonsSamePools(pooled, slaves[..]);
    }

    /**
     * The second half of `loadBalance`: POOL_PERSONS, the merged pool, and DISTRIBUTE_PERSONS
     * started. The measurements and targets stay as they were.
     */
    method PoolAndDistribute(net: (int, Mode) -> Inbound) returns (ok: bool)
      requires Valid() && pending == {}
      modifies this`personPool, this`pending, this`somethingWentWrong, this`transcripts, this`issued, slaves
      ensures Valid() && ok == !somethingWentWrong
      ensures !ok ==> issued == old(issued) + [PoolPersons]
      ensures ok ==>
                issued == old(issued) + [PoolPersons, DistributePersons] && pending == Indices(numSlaves)
                && personPool == ConcatPersons(slaves[..]) && PooledBy(slaves[..], net)
                && SamePerformance(old(slaves[..]), slaves[..]) && Targets(slaves[..]) == Targets(old(slaves[..]))
                && InMode(slaves[..], DistributePersons)
    {
      ghost var before := slaves[..];
      ok := StartAndWait(PoolPersons, net);
      if !ok {
        return;
      }
      PoolPhase(before, net);
      ghost var pooled := slaves[..];
      ghost var issued1 := issued;
      MergeAndDistribute();
      PoolPhaseRestarted(pooled, net);
      assert issued1 + [DistributePersons] == old(issued) + [PoolPersons, DistributePersons];
    }

    /**
     * `loadBalance`: measure every slave, compute the targets, collect the surplus persons
     * into the pool and start the distribution. An exchange that failed surfaces as
     * `SlaveFailed` at the next wait; an empty distribution set as `ArithmeticError`.
     */
    method LoadBalance(net: (int, Mode) -> Inbound) returns (r: Outcome<Failure>)
      requires Valid() && numSlaves >= 1 && MeasurableReplies(numSlaves, net)
      modifies this`personPool, this`pending, this`somethingWentWrong, this`transcripts, this`issued, slaves
      ensures Valid()
      ensures r == Fail(SlaveFailed) ==> somethingWentWrong
      ensures r == Fail(ArithmeticError) ==>
                Measurable(slaves[..]) && TargetSizes(|population|, slaves[..]).Err?
      ensures r.Pass? ==>
                issued == old(issued) + LoadBalanceModes && pending == Indices(numSlaves) && !somethingWentWrong
                && personPool == ConcatPersons(slaves[..])
                && MeasuredBy(slaves[..], net) && Measurable(slaves[..])
                && TargetSizes(|population|, slaves[..]) == Ok(Targets(slaves[..]))
      ensures r.Pass? ==> PooledBy(slaves[..], net) && InMode(slaves[..], DistributePersons)
      ensures r.Pass? ==> Balanced(State(), |population|, net)
    {
      var ok := WaitForSlaveThreads(net);
      if !ok {
        return Fail(SlaveFailed);
      }
      r := MeasureAndTarget(net);
      if r.Fail? {
        return;
      }
      ghost var targeted := slaves[..];
      ghost var issued1 := issued;
      ok := PoolAndDistribute(net);
      if !ok {
        return Fail(SlaveFailed);
      }
      TargetsKept(|population|, targeted, slaves[..], net);
      assert issued1 + [PoolPersons, DistributePersons] == old(issued) + LoadBalanceModes;
    }

    /**
     * The replanning step of `notifyStartup`: every person's selected plan is replaced by the
     * plan a slave routed for them, or by null when no slave returned one.
     */
    method ReplaceSelectedPlans()
      modifies this`selectedPlans
      ensures selectedPlans == old(selectedPlans) + RoutedPlans(population, newPlans)
    {
      for i := 0 to |population|
        invariant selectedPlans == old(selectedPlans) + RoutedPlans(population[..i], newPlans)
      {
        var person := population[i];
        SelectOneMore(old(selectedPlans), population, i, newPlans);
        selectedPlans := selectedPlans[person.id := Lookup(newPlans, person.id)];
      }
      assert population[..|population|] == population;
    }

    /**
     * The first part of the initial routing in `notifyStartup`: wait for the scenario, have
     * the slaves send their routed plans, merge them and select them.
     */
    method CollectInitialPlans(net: (int, Mode) -> Inbound) returns (ok: bool)
      requires Valid()
      modifies this`personPool, this`newPlans, this`selectedPlans, this`pending, this`somethingWentWrong,
               this`transcripts, this`issued, slaves
      ensures Valid() && ok == !somethingWentWrong
      ensures ok ==>
                issued == old(issued) + [TransmitPlansToMaster] && pending == {}
                && PlansSentBy(slaves[..], net) && newPlans == SentPlans(numSlaves, net)
                && selectedPlans == old(selectedPlans) + RoutedPlans(population, newPlans)
    {
      ok := WaitThenStart(TransmitPlansToMaster, net);
      if ok {
        PlansRound(State(), useTransit, net);
        ok := SelectRoutedPlans(net);
      }
    }

    /** Once the slaves have sent their routed plans, they are merged and become the selected plans. */
    method SelectRoutedPlans(net: (int, Mode) -> Inbound) returns (ok: bool)
      requires Valid()
      modifies this`personPool, this`newPlans, this`selectedPlans, this`pending, this`somethingWentWrong,
               this`transcripts, slaves
      ensures Valid() && ok == !somethingWentWrong
      ensures State() == Round(old(State()), useTransit, net, 0)
      ensures ok ==>
                pending == {} && newPlans == MergedPlans(slaves[..])
                && selectedPlans == old(selectedPlans) + RoutedPlans(population, newPlans)
      ensures !ok ==> newPlans == old(newPlans) && selectedPlans == old(selectedPlans)
    {
      ok := WaitForSlaveThreads(net);
      if ok {
        MergePlansFromSlaves();
        ReplaceSelectedPlans();
      }
    }

    /**
     * The initial routing of `notifyStartup`: the routed plans are collected and selected,
     * the load is balanced when there is more than one slave, and the slaves continue.
     */
    method InitialRouting(net: (int, Mode) -> Inbound) returns (r: Outcome<Failure>, ghost balanced: World)
      requires Valid() && MeasurableReplies(numSlaves, net)
      modifies this`personPool, this`newPlans, this`selectedPlans, this`pending, this`somethingWentWrong,
               this`transcripts, this`issued, slaves
      ensures Valid() && |balanced.slaves| == |balanced.transcripts| == numSlaves
      ensures r == Fail(SlaveFailed) ==> somethingWentWrong
      ensures r == Fail(ArithmeticError) ==> numSlaves > 1
      ensures r.Pass? ==>
                issued == old(issued) + [TransmitPlansToMaster] + (if numSlaves > 1 then LoadBalanceModes else [])
                          + [Continue]
                && pending == Indices(numSlaves) && !somethingWentWrong && InMode(slaves[..], Continue)
                && newPlans == SentPlans(numSlaves, net)
                && selectedPlans == old(selectedPlans) + RoutedPlans(population, newPlans)
      ensures r.Pass? ==>
                (if numSlaves > 1 then Balanced(balanced, |population|, net)
                 else !balanced.failed && balanced.pending == {} && PlansSentBy(balanced.slaves, net))
                && WaitedThenStarted(balanced, State(), useTransit, net, Continue, true)
    {
      balanced := State();
      var ok := CollectInitialPlans(net);
      if !ok {
        return Fail(SlaveFailed), balanced;
      }
      r, balanced := BalanceThenContinue(net);
    }

    /** The end of the initial routing: balance when there is more than one slave, then continue. */
    method BalanceThenContinue(net: (int, Mode) -> Inbound) returns (r: Outcome<Failure>, ghost balanced: World)
      requires Valid() && MeasurableReplies(numSlaves, net)
      modifies this`personPool, this`pending, this`somethingWentWrong, this`transcripts, this`issued, slaves
      ensures Valid() && |balanced.slaves| == |balanced.transcripts| == numSlaves
      ensures r == Fail(SlaveFailed) ==> somethingWentWrong
      ensures r == Fail(ArithmeticError) ==> numSlaves > 1
      ensures r.Pass? ==>
                issued == old(issued) + (if numSlaves > 1 then LoadBalanceModes else []) + [Continue]
                && pending == Indices(numSlaves) && !somethingWentWrong && InMode(slaves[..], Continue)
      ensures r.Pass? ==>
                (if numSlaves > 1 then Balanced(balanced, |population|, net) else balanced == old(State()))
                && WaitedThenStarted(balanced, State(), useTransit, net, Continue, true)
    {
      if numSlaves > 1 {
        r := LoadBalance(net);
        if r.Fail? {
          return r, State();
        }
      }
      balanced := State();
      var ok := WaitThenStart(Continue, net);
      if !ok {
        return Fail(SlaveFailed), balanced;
      }
      r := Pass;
    }

    /**
     * `notifyStartup`: the scenario goes out; with initial routing on the slaves, their plans
     * come back, replace the selected plans, the load is balanced when there is more than one
     * slave, and the slaves are told to continue. Exchanges still running, if any, come to an
     * end before the scenario is started.
     */
    method NotifyStartup(net: (int, Mode) -> Inbound) returns (r: Outcome<Failure>, ghost balanced: World)
      requires Valid() && MeasurableReplies(numSlaves, net)
      modifies this`personPool, this`newPlans, this`selectedPlans, this`pending, this`somethingWentWrong,
               this`transcripts, this`issued, slaves
      ensures Valid() && |balanced.slaves| == |balanced.transcripts| == numSlaves
      ensures r == Fail(SlaveFailed) ==> somethingWentWrong
      ensures r == Fail(ArithmeticError) ==> initialRoutingOnSlaves && numSlaves > 1
      ensures r.Pass? ==>
                issued == old(issued) + StartupModes(initialRoutingOnSlaves, numSlaves)
                && pending == Indices(numSlaves)
      ensures r.Pass? && !initialRoutingOnSlaves ==>
                WaitedThenStarted(old(State()), State(), useTransit, net, TransmitScenario, true)
                && somethingWentWrong == Round(old(State()), useTransit, net, 0).failed
      ensures r.Pass? && initialRoutingOnSlaves ==>
                !somethingWentWrong && InMode(slaves[..], Continue)
                && newPlans == SentPlans(numSlaves, net)
                && selectedPlans == old(selectedPlans) + RoutedPlans(population, newPlans)
      ensures r.Pass? && initialRoutingOnSlaves ==>
                (if numSlaves > 1 then Balanced(balanced, |population|, net)
                 else !balanced.failed && balanced.pending == {} && PlansSentBy(balanced.slaves, net))
                && WaitedThenStarted(balanced, State(), useTransit, net, Continue, true)
    {
      StartScenario(net);
      balanced := State();
      if !initialRoutingOnSlaves {
        return Pass, balanced;
      }
      r, balanced := InitialRouting(net);
      StartupModesRouting(old(issued), numSlaves);
    }

    /** The start of `notifyStartup`: the exchanges still running come to an end, and TRANSMIT_SCENARIO is started. */
    method StartScenario(net: (int, Mode) -> Inbound)
      requires Valid()
      modifies this`personPool, this`pending, this`somethingWentWrong, this`transcripts, this`issued, slaves
      ensures Valid() && issued == old(issued) + [TransmitScenario] && pending == Indices(numSlaves)
      ensures WaitedThenStarted(old(State()), State(), useTransit, net, TransmitScenario, true)
      ensures somethingWentWrong == Round(old(State()), useTransit, net, 0).failed
    {
      var finished := WaitForSlaveThreads(net);
      ghost var w := slaves[..];
      StartSlavesInMode(TransmitScenario);
      assert slaves[..] == WithMode(w, TransmitScenario);
    }

    /** The recurring "wait for the previous exchanges, then start `mode`" of the hooks. */
    method WaitThenStart(mode: Mode, net: (int, Mode) -> Inbound) returns (ok: bool)
      requires Valid()
      modifies this`personPool, this`pending, this`somethingWentWrong, this`transcripts, this`issued, slaves
      ensures Valid() && ok == !somethingWentWrong
      ensures !ok ==> issued == old(issued)
      ensures ok ==> issued == old(issued) + [mode] && pending == Indices(numSlaves) && InMode(slaves[..], mode)
      ensures WaitedThenStarted(old(State()), State(), useTransit, net, mode, ok)
      ensures somethingWentWrong == Round(old(State()), useTransit, net, 0).failed
    {
      ok := WaitForSlaveThreads(net);
      if ok {
        ghost var w := slaves[..];
        StartSlavesInMode(mode);
        assert slaves[..] == WithMode(w, mode);
      }
    }

    /** `notifyIterationStarts`: once the previous exchanges are done, plans start flowing back. */
    method NotifyIterationStarts(net: (int, Mode) -> Inbound) returns (r: Outcome<Failure>)
      requires Valid()
      modifies this`personPool, this`pending, this`somethingWentWrong, this`transcripts, this`issued, slaves
      ensures Valid()
      ensures r.Pass? <==> !somethingWentWrong
      ensures r.Fail? ==> r.error == SlaveFailed && issued == old(issued)
      ensures r.Pass? ==>
                issued == old(issued) + [TransmitPlansToMaster] && pending == Indices(numSlaves)
                && InMode(slaves[..], TransmitPlansToMaster)
      ensures WaitedThenStarted(old(State()), State(), useTransit, net, TransmitPlansToMaster, r.Pass?)
      ensures somethingWentWrong == Round(old(State()), useTransit, net, 0).failed
    {
      var ok := WaitThenStart(TransmitPlansToMaster, net);
      r := if ok then Pass else Fail(SlaveFailed);
    }

    /**
     * The decision of `notifyAfterMobsim`: `isLoadBalanceIteration` is set for the iterations on
     * which the load is balanced. A zero interval with several slaves is Java's division by zero.
     */
    method DecideBalance(iteration: nat) returns (r: Outcome<Failure>)
      modifies this`isLoadBalanceIteration
      ensures r.Fail? <==> numSlaves > 1 && loadBalanceInterval == 0
      ensures r.Fail? ==> r == Fail(ArithmeticError) && isLoadBalanceIteration == old(isLoadBalanceIteration)
      ensures r.Pass? ==> isLoadBalanceIteration == BalancesAfter(numSlaves, loadBalanceInterval, iteration)
    {
      if numSlaves > 1 && loadBalanceInterval == 0 {
        return Fail(ArithmeticError);
      }
      isLoadBalanceIteration := numSlaves > 1 && iteration % loadBalanceInterval == 0;
      r := Pass;
    }

    /**
     * The balancing step of `notifyAfterMobsim`: the load is balanced when
     * `isLoadBalanceIteration` is set, and the flag is reset once it has been. The flag is
     * only ever set with more than one slave.
     */
    method BalanceIfDue(net: (int, Mode) -> Inbound) returns (r: Outcome<Failure>)
      requires Valid() && MeasurableReplies(numSlaves, net)
      requires isLoadBalanceIteration ==> numSlaves > 1
      modifies this`personPool, this`pending, this`somethingWentWrong, this`isLoadBalanceIteration,
               this`transcripts, this`issued, slaves
      ensures Valid()
      ensures r == Fail(SlaveFailed) ==> somethingWentWrong
      ensures r.Fail? ==> old(isLoadBalanceIteration)
      ensures r.Pass? ==>
                !isLoadBalanceIteration
                && issued == old(issued) + if old(isLoadBalanceIteration) then LoadBalanceModes else []
      ensures r.Pass? ==>
                if old(isLoadBalanceIteration) then Balanced(State(), |population|, net) else State() == old(State())
    {
      if isLoadBalanceIteration {
        r := LoadBalance(net);
        if r.Fail? {
          return;
        }
      }
      isLoadBalanceIteration := false;
      r := Pass;
    }

    /**
     * `notifyAfterMobsim`: collect the plans, balance the load on every
     * `loadBalanceInterval`-th iteration when there is more than one slave, and start the
     * travel-time transmission. A zero interval with several slaves is Java's division by zero.
     */
    method NotifyAfterMobsim(iteration: nat, net: (int, Mode) -> Inbound) returns (r: Outcome<Failure>, ghost balanced: World)
      requires Valid() && MeasurableReplies(numSlaves, net)
      modifies this`personPool, this`newPlans, this`pending, this`somethingWentWrong, this`isLoadBalanceIteration,
               this`transcripts, this`issued, slaves
      ensures Valid() && |balanced.slaves| == |balanced.transcripts| == numSlaves
      ensures r == Fail(SlaveFailed) ==> somethingWentWrong
      ensures r == Fail(ArithmeticError) ==>
                numSlaves > 1 && (loadBalanceInterval == 0 || iteration % loadBalanceInterval == 0)
      ensures r.Pass? ==> numSlaves <= 1 || loadBalanceInterval != 0
      ensures r.Pass? ==>
                issued == old(issued) + AfterMobsimModes(numSlaves, loadBalanceInterval, iteration)
                && pending == Indices(numSlaves) && !somethingWentWrong && !isLoadBalanceIteration
                && InMode(slaves[..], TransmitTravelTimes)
      ensures r.Pass? ==> newPlans == MergedPlans(Round(old(State()), useTransit, net, 0).slaves)
      ensures r.Pass? && old(InMode(slaves[..], TransmitPlansToMaster) && pending == Indices(numSlaves)) ==>
                newPlans == SentPlans(numSlaves, net)
      ensures r.Pass? ==>
                (numSlaves <= 1 || loadBalanceInterval != 0)
                && (if BalancesAfter(numSlaves, loadBalanceInterval, iteration)
                    then Balanced(balanced, |population|, net) else balanced == Round(old(State()), useTransit, net, 0))
                && WaitedThenStarted(balanced, State(), useTransit, net, TransmitTravelTimes, true)
    {
      var ok := CollectPlans(net);
      if !ok {
        return Fail(SlaveFailed), State();
      }
      r := DecideBalance(iteration);
      if r.Fail? {
        return r, State();
      }
      r, balanced := BalanceThenTransmit(net);
    }

    /** The start of `notifyAfterMobsim`: the plans the slaves sent are waited for and merged. */
    method CollectPlans(net: (int, Mode) -> Inbound) returns (ok: bool)
      requires Valid()
      modifies this`personPool, this`newPlans, this`pending, this`somethingWentWrong, this`transcripts, slaves
      ensures Valid() && ok == !somethingWentWrong
      ensures State() == Round(old(State()), useTransit, net, 0)
      ensures ok ==> newPlans == MergedPlans(Round(old(State()), useTransit, net, 0).slaves)
      ensures ok && old(InMode(slaves[..], TransmitPlansToMaster) && pending == Indices(numSlaves)) ==>
                newPlans == SentPlans(numSlaves, net)
    {
      if InMode(slaves[..], TransmitPlansToMaster) && pending == Indices(numSlaves) {
        PlansRound(State(), useTransit, net);
      }
      ok := WaitForSlaveThreads(net);
      if ok {
        MergePlansFromSlaves();
      }
    }

    /** The end of `notifyAfterMobsim`: balance if due, then start the travel-time transmission. */
    method BalanceThenTransmit(net: (int, Mode) -> Inbound) returns (r: Outcome<Failure>, ghost balanced: World)
      requires Valid() && MeasurableReplies(numSlaves, net)
      requires isLoadBalanceIteration ==> numSlaves > 1
      modifies this`personPool, this`pending, this`somethingWentWrong, this`isLoadBalanceIteration,
               this`transcripts, this`issued, slaves
      ensures Valid()
      ensures r == Fail(SlaveFailed) ==> somethingWentWrong
      ensures r == Fail(ArithmeticError) ==> old(isLoadBalanceIteration)
      ensures r.Pass? ==>
                issued == old(issued) + TransmitModes(old(isLoadBalanceIteration))
                && pending == Indices(numSlaves) && !somethingWentWrong && !isLoadBalanceIteration
                && InMode(slaves[..], TransmitTravelTimes)
      ensures |balanced.slaves| == |balanced.transcripts| == numSlaves
      ensures r.Pass? ==>
                (if old(isLoadBalanceIteration) then Balanced(balanced, |population|, net) else balanced == old(State()))
                && WaitedThenStarted(balanced, State(), useTransit, net, TransmitTravelTimes, true)
    {
      r := BalanceIfDue(net);
      balanced := State();
      if r.Fail? {
        return;
      }
      var ok := WaitThenStart(TransmitTravelTimes, net);
      if !ok {
        return Fail(SlaveFailed), balanced;
      }
      r := Pass;
    }

    /**
     * `notifyShutdown`: every slave is told to exit. It does not wait for the travel-time
     * exchanges `notifyAfterMobsim` started; here they come to an end first, and their
     * outcome is recorded but looked at by nobody.
     */
    method NotifyShutdown(net: (int, Mode) -> Inbound)
      requires Valid()
      modifies this`personPool, this`pending, this`somethingWentWrong, this`transcripts, this`issued, slaves
      ensures Valid()
      ensures var w := Round(old(State()), useTransit, net, 0);
        personPool == w.pool && somethingWentWrong == w.failed && transcripts == w.transcripts
        && slaves[..] == WithMode(w.slaves, Die)
      ensures issued == old(issued) + [Die] && pending == Indices(numSlaves) && InMode(slaves[..], Die)
    {
      var finished := WaitForSlaveThreads(net);
      ghost var w := slaves[..];
      StartSlavesInMode(Die);
      assert slaves[..] == WithMode(w, Die);
    }
  }

  /**
   * The branch of `setSlaveTargetPopulationSizes` that puts all slaves into the
   * distribution set. It is taken when no slave was clamped, and then changes nothing.
   */
  method MemoryCheck(slavesForLoadDistribution: set<int>, numSlaves: nat) returns (r: set<int>)
    ensures r == AfterMemoryCheck(slavesForLoadDistribution, numSlaves)
  {
    r := slavesForLoadDistribution;
    if numSlaves == |r| {
      // taken when no slave was clamped: every slave is in the set already
      var i := 0;
      while i < numSlaves
        invariant 0 <= i <= numSlaves
        invariant r == slavesForLoadDistribution + Indices(i)
      {
        assert Indices(i + 1) == Indices(i) + {i};
        r := r + {i};
        i := i + 1;
      }
    }
  }

  /**
   * The `extra` share for every member of the distribution set, and `evenMoreExtra` for slave 0.
   * The members are visited in ascending order, the order in which a `HashSet` of small
   * `Integer`s yields them; the result does not depend on the order.
   */
  method SpreadRemainder(optimalNumberPerSlave: array<int>, slavesForLoadDistribution: set<int>,
                         extra: int, evenMoreExtra: int)
    requires optimalNumberPerSlave.Length >= 1
    modifies optimalNumberPerSlave
    ensures optimalNumberPerSlave[..] ==
              Distribute(old(optimalNumberPerSlave[..]), slavesForLoadDistribution, extra, evenMoreExtra)
  {
    ghost var opt := optimalNumberPerSlave[..];
    for i := 0 to optimalNumberPerSlave.Length
      invariant forall j :: 0 <= j < optimalNumberPerSlave.Length ==>
                  optimalNumberPerSlave[j] == opt[j] + if j in slavesForLoadDistribution && j < i then extra else 0
    {
      if i in slavesForLoadDistribution {
        optimalNumberPerSlave[i] := optimalNumberPerSlave[i] + extra;
      }
    }
    optimalNumberPerSlave[0] := optimalNumberPerSlave[0] + evenMoreExtra;
  }

  /** First loop of `setSlaveTargetPopulationSizes`: time per plan, size and the sum of reciprocals. */
  method MeasureSlaves(ss: seq<Slave>) returns (timesPerPlan: array<real>, personsPerSlave: array<int>, sumOfReciprocals: real)
    requires Measurable(ss)
    ensures fresh(timesPerPlan) && fresh(personsPerSlave)
    ensures timesPerPlan.Length == |ss| && personsPerSlave.Length == |ss|
    ensures forall j :: 0 <= j < |ss| ==>
              timesPerPlan[j] == TimePerPlan(ss[j]) && personsPerSlave[j] == ss[j].currentPopulationSize
    ensures sumOfReciprocals == SumOfReciprocals(ss)
  {
    timesPerPlan := new real[|ss|];
    personsPerSlave := new int[|ss|];
    sumOfReciprocals := 0.0;
    for i := 0 to |ss|
      invariant forall j :: 0 <= j < i ==>
                  timesPerPlan[j] == TimePerPlan(ss[j]) && personsPerSlave[j] == ss[j].currentPopulationSize
      invariant sumOfReciprocals == SumOfReciprocals(ss[..i])
    {
      timesPerPlan[i] := ss[i].totalIterationTime / ss[i].currentPopulationSize as real;
      personsPerSlave[i] := ss[i].currentPopulationSize;
      assert ss[..i + 1][..i] == ss[..i];
      sumOfReciprocals := sumOfReciprocals + 1.0 / (ss[i].totalIterationTime / ss[i].currentPopulationSize as real);
    }
    assert ss[..|ss|] == ss;
  }

  /**
   * Second loop of `setSlaveTargetPopulationSizes`: every slave's floored share, clamped to
   * its current size when it is near its memory limit; the clamped ones leave the
   * distribution set.
   */
  method OptimalNumbers(n: nat, ss: seq<Slave>, timesPerPlan: array<real>, sumOfReciprocals: real)
    returns (optimalNumberPerSlave: array<int>, totalAllocated: int, slavesForLoadDistribution: set<int>)
    requires |ss| >= 1 && Measurable(ss) && sumOfReciprocals == SumOfReciprocals(ss)
    requires timesPerPlan.Length == |ss|
    requires forall j :: 0 <= j < |ss| ==> timesPerPlan[j] == TimePerPlan(ss[j])
    ensures fresh(optimalNumberPerSlave)
    ensures optimalNumberPerSlave[..] == Optima(n, ss, sumOfReciprocals)
    ensures totalAllocated == Sum(optimalNumberPerSlave[..])
    ensures slavesForLoadDistribution == DistributionSet(n, ss, sumOfReciprocals)
  {
    ghost var opt := Optima(n, ss, sumOfReciprocals);
    ghost var clamped := seq(|ss|, j requires 0 <= j < |ss| => Clamped(n, ss[j], sumOfReciprocals));
    optimalNumberPerSlave := new int[|ss|];
    totalAllocated := 0;
    slavesForLoadDistribution := {};
    for i := 0 to |ss|
      invariant forall j :: 0 <= j < i ==> optimalNumberPerSlave[j] == opt[j]
      invariant totalAllocated == Sum(opt[..i])
      invariant forall j :: j in slavesForLoadDistribution <==> 0 <= j < i && !clamped[j]
    {
      slavesForLoadDistribution := slavesForLoadDistribution + {i};
      optimalNumberPerSlave[i] := ((n as real / timesPerPlan[i]) / sumOfReciprocals).Floor;
      assert optimalNumberPerSlave[i] == RawOptimum(n, ss[i], sumOfReciprocals);
      totalAllocated := totalAllocated + optimalNumberPerSlave[i];
      if ss[i].memoryUse > MaxMemoryUse && optimalNumberPerSlave[i] > ss[i].currentPopulationSize {
        totalAllocated := totalAllocated - (optimalNumberPerSlave[i] - ss[i].currentPopulationSize);
        optimalNumberPerSlave[i] := ss[i].currentPopulationSize;
        slavesForLoadDistribution := slavesForLoadDistribution - {i};
      }
      assert clamped[i] == (i !in slavesForLoadDistribution);
      assert optimalNumberPerSlave[i] == opt[i];
      SumPrefix(opt, i);
    }
    assert opt[..|ss|] == opt;
    assert optimalNumberPerSlave[..] == opt;
  }

  /**
   * The allocation loops of `setSlaveTargetPopulationSizes` on the slaves' reported
   * performance: the targets, or the division by an empty distribution set.
   */
  method AllocateTargets(n: nat, ss: seq<Slave>) returns (r: Result<seq<int>, AllocationError>)
    requires |ss| >= 1 && Measurable(ss)
    ensures r == TargetSizes(n, ss)
  {
    var timesPerPlan, personsPerSlave, sumOfReciprocals := MeasureSlaves(ss);
    var optimalNumberPerSlave, totalAllocated, slavesForLoadDistribution :=
      OptimalNumbers(n, ss, timesPerPlan, sumOfReciprocals);
    slavesForLoadDistribution := MemoryCheck(slavesForLoadDistribution, |ss|);
    TargetSizesCases(n, ss, optimalNumberPerSlave[..], slavesForLoadDistribution, totalAllocated);
    var remainder := n - totalAllocated;
    if remainder > 0 {
      if |slavesForLoadDistribution| == 0 {
        return Err(DivisionByZero);
      }
      var extra := remainder / |slavesForLoadDistribution|;
      var evenMoreExtra := remainder - extra * |slavesForLoadDistribution|;
      SpreadRemainder(optimalNumberPerSlave, slavesForLoadDistribution, extra, evenMoreExtra);
    }
    r := Ok(optimalNumberPerSlave[..]);
  }
}
