/**
 * The master/slave wire protocol of the distributed controller, as an abstract
 * trace of Send/Recv events seen from the master's end of one slave connection.
 */
module Wire {
  import opened Wrappers

  /** An agent shipped between processes; the master only moves it around. */
  datatype Person = Person(id: string)

  /** A plan computed by a slave; opaque to the master. */
  datatype Plan = Plan(personId: string, payload: nat)

  /** The phase commands of `CommunicationsMode`. */
  datatype Mode =
    | TransmitTravelTimes
    | PoolPersons
    | DistributePersons
    | TransmitPlansToMaster
    | TransmitPerformance
    | TransmitScenario
    | Continue
    | Die

  /** One object or primitive written to, or read from, an object stream. */
  datatype Msg =
    | ModeMsg(mode: Mode)
    | Int(i: int)
    | Long(l: int)
    | Double(d: real)
    | Bool(b: bool)
    | Ack                                  // a boolean whose value the master discards
    | Persons(persons: seq<Person>)
    | Plans(plans: map<string, Plan>)
    | LinkTravelTimes
    | StopStopTimes
    | WaitTimes
    | Reset                                // the reset marker `ObjectOutputStream.reset` writes

  datatype Event = Send(msg: Msg) | Recv(msg: Msg)

  /**
   * What a slave process writes during one exchange: the network is a parameter of the
   * model. `delivered` is how many of the master's reads in the exchange go through before the
   * connection breaks; the read after them throws. Writes are taken to go through: a
   * broken connection shows at the next read.
   */
  datatype Inbound = Inbound(delivered: nat, iterationTime: real, populationSize: int, memoryUse: real,
                             persons: seq<Person>, plans: map<string, Plan>)

  /** What a slave process writes during registration. */
  datatype HandshakeReply = HandshakeReply(usedMemory: int, maxMemory: int, numberOfPlans: int, numThreads: int)

  /** Modes after which the master hands the slave back a CONTINUE of its own. */
  predicate AnswersWithContinue(mode: Mode)
  {
    mode == TransmitTravelTimes || mode == TransmitScenario
  }

  /**
   * How many reads the master makes in a complete exchange for `mode`: those of the mode's
   * own part of `Slave.run`, and the closing read of the acknowledgement.
   */
  function ReadsIn(mode: Mode): (n: nat)
    ensures n >= 1
    ensures mode == TransmitPerformance ==> n == 4
    ensures (mode == DistributePersons || mode == Continue || mode == Die) ==> n == 1
  {
    match mode
    case TransmitPerformance => 4
    case DistributePersons => 1
    case Continue => 1
    case Die => 1
    case _ => 2
  }

  /** Every read of an exchange for `mode` goes through. */
  predicate Completes(inbound: Inbound, mode: Mode)
  {
    inbound.delivered >= ReadsIn(mode)
  }

  /** The number of reads in a trace. */
  function Reads(t: seq<Event>): nat
  {
    if t == [] then 0 else (if t[0].Recv? then 1 else 0) + Reads(t[1..])
  }

  /** The first `k` of `msgs` as reads, or all of them when there are fewer. */
  function Received(msgs: seq<Msg>, k: nat): seq<Event>
  {
    seq(if k < |msgs| then k else |msgs|, j requires 0 <= j < |msgs| => Recv(msgs[j]))
  }

  /** What TRANSMIT_PERFORMANCE reads, in order: iteration time, population size, memory use. */
  function Measurements(inbound: Inbound): seq<Msg>
  {
    [Double(inbound.iterationTime), Int(inbound.populationSize), Double(inbound.memoryUse)]
  }

  /**
   * The events of one `Slave.run` exchange for `mode`, cut where the connection breaks.
   * `diff` is the count sent with POOL_PERSONS, `outbound` the initial partition sent with
   * TRANSMIT_SCENARIO, and `drawn` the persons taken from the pool for DISTRIBUTE_PERSONS
   * (None when taking them threw, which ends the exchange right after the mode was
   * written). The writes between two reads go out once the first of them went through.
   */
  function RunTrace(mode: Mode, useTransit: bool, diff: int, outbound: seq<Person>,
                    drawn: Option<seq<Person>>, inbound: Inbound): (r: seq<Event>)
    ensures |r| >= 1 && r[0] == Send(ModeMsg(mode))
    ensures mode == DistributePersons && drawn.None? ==> r == [Send(ModeMsg(mode))]
    ensures !(mode == DistributePersons && drawn.None?) && Completes(inbound, mode) ==>
              |r| >= 2 && r[|r| - 1] == Recv(Ack)
  {
    var k := inbound.delivered;
    var head := [Send(ModeMsg(mode))];
    var closing := if k >= ReadsIn(mode) then [Recv(Ack)] else [];
    var r := match mode
      case TransmitTravelTimes =>
        head + [Send(LinkTravelTimes)] + (if useTransit then [Send(StopStopTimes), Send(WaitTimes)] else [])
        + (if k >= 1 then [Recv(Ack), Send(ModeMsg(Continue))] else []) + closing
      case PoolPersons =>
        head + [Send(Int(diff))] + (if k >= 1 then [Recv(Persons(inbound.persons))] else []) + closing
      case DistributePersons =>
        if drawn.Some? then head + [Send(Persons(drawn.value))] + closing else head
      case TransmitPlansToMaster =>
        head + [Send(Reset)] + (if k >= 1 then [Recv(Plans(inbound.plans))] else []) + closing
      case TransmitPerformance =>
        head + Received(Measurements(inbound), k) + closing
      case TransmitScenario =>
        head + [Send(Persons(outbound))] + (if k >= 1 then [Recv(Ack), Send(ModeMsg(Continue))] else []) + closing
      case Continue => head + closing
      case Die => head + closing;
    r
  }

  /**
   * The master writes CONTINUE back after the mode exactly in the two modes that answer
   * with it, and only once the slave's acknowledgement went through.
   */
  lemma ContinueWrittenBack(mode: Mode, useTransit: bool, diff: int, outbound: seq<Person>,
                            drawn: Option<seq<Person>>, inbound: Inbound)
    ensures Send(ModeMsg(Continue)) in RunTrace(mode, useTransit, diff, outbound, drawn, inbound)[1..]
            <==> AnswersWithContinue(mode) && inbound.delivered >= 1
  {
    var r := RunTrace(mode, useTransit, diff, outbound, drawn, inbound);
    if AnswersWithContinue(mode) && inbound.delivered >= 1 {
      assert r[|r| - 1] == Send(ModeMsg(Continue)) || r[|r| - 2] == Send(ModeMsg(Continue));
    } else if mode == TransmitPerformance {
      forall j | 1 <= j < |r| ensures r[j] != Send(ModeMsg(Continue)) {
        assert r[j].Recv?;
      }
    }
  }

  /**
   * An exchange ends with the closing acknowledgement exactly when it ran and every one of
   * its reads went through.
   */
  lemma RunTraceEndsWithAck(mode: Mode, useTransit: bool, diff: int, outbound: seq<Person>,
                            drawn: Option<seq<Person>>, inbound: Inbound)
    ensures var r := RunTrace(mode, useTransit, diff, outbound, drawn, inbound);
            r[|r| - 1] == Recv(Ack) <==> !(mode == DistributePersons && drawn.None?) && Completes(inbound, mode)
  {
    var k := inbound.delivered;
    if mode == TransmitPerformance && k < 4 {
      var r := RunTrace(mode, useTransit, diff, outbound, drawn, inbound);
      var ms := Measurements(inbound);
      assert r == [Send(ModeMsg(mode))] + Received(ms, k);
      assert k == 0 ==> |r| == 1;
      assert k > 0 ==> r[|r| - 1] == Recv(ms[(if k < 3 then k else 3) - 1]);
    }
  }

  /**
   * What gets through of a trace when the connection breaks after `k` reads: everything up
   * to the read that throws.
   */
  function UpToRead(t: seq<Event>, k: nat): seq<Event>
  {
    if t == [] || (t[0].Recv? && k == 0) then []
    else [t[0]] + UpToRead(t[1..], if t[0].Recv? then k - 1 else k)
  }

  /**
   * The cut is a prefix of the trace; when something is cut off, it starts with a read and
   * exactly `k` reads came before it.
   */
  lemma {:induction false} UpToReadIsPrefix(t: seq<Event>, k: nat)
    ensures UpToRead(t, k) <= t
    ensures |UpToRead(t, k)| < |t| ==> t[|UpToRead(t, k)|].Recv? && Reads(UpToRead(t, k)) == k
  {
    if !(t == [] || (t[0].Recv? && k == 0)) {
      var k' := if t[0].Recv? then k - 1 else k;
      UpToReadIsPrefix(t[1..], k');
      assert UpToRead(t, k)[1..] == UpToRead(t[1..], k');
    }
  }

  /** Writes pass through the cut untouched. */
  lemma {:induction false} UpToReadSends(sends: seq<Event>, t: seq<Event>, k: nat)
    requires forall j :: 0 <= j < |sends| ==> sends[j].Send?
    ensures UpToRead(sends + t, k) == sends + UpToRead(t, k)
  {
    if sends != [] {
      assert (sends + t)[1..] == sends[1..] + t;
      UpToReadSends(sends[1..], t, k);
      assert sends + UpToRead(t, k) == [sends[0]] + (sends[1..] + UpToRead(t, k));
    } else {
      assert sends + t == t;
    }
  }

  /** A read is the one that throws when no more reads go through, and is kept otherwise. */
  lemma UpToReadRecv(m: Msg, t: seq<Event>, k: nat)
    ensures UpToRead([Recv(m)] + t, k) == if k == 0 then [] else [Recv(m)] + UpToRead(t, k - 1)
  {
    assert ([Recv(m)] + t)[1..] == t;
  }

  /** The last read of a trace: kept exactly when one more read goes through. */
  lemma UpToReadLast(m: Msg, k: nat)
    ensures UpToRead([Recv(m)], k) == if k == 0 then [] else [Recv(m)]
  {
    UpToReadRecv(m, [], k);
  }

  /**
   * An exchange whose connection breaks after `delivered` reads puts on the wire exactly
   * the complete exchange, cut right before its read that throws.
   */
  lemma RunTraceIsCut(mode: Mode, useTransit: bool, diff: int, outbound: seq<Person>,
                      drawn: Option<seq<Person>>, inbound: Inbound)
    ensures RunTrace(mode, useTransit, diff, outbound, drawn, inbound)
            == UpToRead(RunTrace(mode, useTransit, diff, outbound, drawn, inbound.(delivered := ReadsIn(mode))),
                        inbound.delivered)
  {
    var k := inbound.delivered;
    var head := [Send(ModeMsg(mode))];
    match mode
    case TransmitTravelTimes =>
      var sends := head + [Send(LinkTravelTimes)] + (if useTransit then [Send(StopStopTimes), Send(WaitTimes)] else []);
      ReadThenContinue(sends, k);
      assert RunTrace(mode, useTransit, diff, outbound, drawn, inbound.(delivered := ReadsIn(mode)))
          == sends + [Recv(Ack), Send(ModeMsg(Continue)), Recv(Ack)];
    case TransmitScenario =>
      ReadThenContinue(head + [Send(Persons(outbound))], k);
      assert RunTrace(mode, useTransit, diff, outbound, drawn, inbound.(delivered := ReadsIn(mode)))
          == head + [Send(Persons(outbound))] + [Recv(Ack), Send(ModeMsg(Continue)), Recv(Ack)];
    case PoolPersons =>
      PoolPersonsCut(useTransit, diff, outbound, drawn, inbound);
    case TransmitPlansToMaster =>
      PlansCut(useTransit, diff, outbound, drawn, inbound);
    case TransmitPerformance =>
      PerformanceCut(useTransit, diff, outbound, drawn, inbound);
    case DistributePersons =>
      if drawn.Some? {
        UpToReadSends(head + [Send(Persons(drawn.value))], [Recv(Ack)], k);
        UpToReadLast(Ack, k);
      }
    case Continue =>
      UpToReadSends(head, [Recv(Ack)], k);
      UpToReadLast(Ack, k);
    case Die =>
      UpToReadSends(head, [Recv(Ack)], k);
      UpToReadLast(Ack, k);
  }

  lemma PoolPersonsCut(useTransit: bool, diff: int, outbound: seq<Person>, drawn: Option<seq<Person>>, inbound: Inbound)
    ensures RunTrace(PoolPersons, useTransit, diff, outbound, drawn, inbound)
            == UpToRead(RunTrace(PoolPersons, useTransit, diff, outbound, drawn, inbound.(delivered := 2)), inbound.delivered)
  {
    var sends := [Send(ModeMsg(PoolPersons)), Send(Int(diff))];
    assert RunTrace(PoolPersons, useTransit, diff, outbound, drawn, inbound.(delivered := 2))
        == sends + [Recv(Persons(inbound.persons)), Recv(Ack)];
    OneRead(sends, Persons(inbound.persons), inbound.delivered);
  }

  lemma PlansCut(useTransit: bool, diff: int, outbound: seq<Person>, drawn: Option<seq<Person>>, inbound: Inbound)
    ensures RunTrace(TransmitPlansToMaster, useTransit, diff, outbound, drawn, inbound)
            == UpToRead(RunTrace(TransmitPlansToMaster, useTransit, diff, outbound, drawn, inbound.(delivered := 2)),
                        inbound.delivered)
  {
    var sends := [Send(ModeMsg(TransmitPlansToMaster)), Send(Reset)];
    assert RunTrace(TransmitPlansToMaster, useTransit, diff, outbound, drawn, inbound.(delivered := 2))
        == sends + [Recv(Plans(inbound.plans)), Recv(Ack)];
    OneRead(sends, Plans(inbound.plans), inbound.delivered);
  }

  lemma PerformanceCut(useTransit: bool, diff: int, outbound: seq<Person>, drawn: Option<seq<Person>>, inbound: Inbound)
    ensures RunTrace(TransmitPerformance, useTransit, diff, outbound, drawn, inbound)
            == UpToRead(RunTrace(TransmitPerformance, useTransit, diff, outbound, drawn, inbound.(delivered := 4)),
                        inbound.delivered)
  {
    var k := inbound.delivered;
    var head := [Send(ModeMsg(TransmitPerformance))];
    var ms := Measurements(inbound);
    var tail := [Recv(ms[0]), Recv(ms[1]), Recv(ms[2]), Recv(Ack)];
    assert Received(ms, 4) == tail[..3];
    assert RunTrace(TransmitPerformance, useTransit, diff, outbound, drawn, inbound.(delivered := 4)) == head + tail;
    UpToReadSends(head, tail, k);
    MeasurementsCut(ms, k);
  }

  /** The three measurements and the closing acknowledgement, cut after `k` reads. */
  lemma MeasurementsCut(ms: seq<Msg>, k: nat)
    requires |ms| == 3
    ensures UpToRead([Recv(ms[0]), Recv(ms[1]), Recv(ms[2]), Recv(Ack)], k)
            == Received(ms, k) + (if k >= 4 then [Recv(Ack)] else [])
  {
    UpToReadRecv(ms[0], [Recv(ms[1]), Recv(ms[2]), Recv(Ack)], k);
    if k >= 1 {
      UpToReadRecv(ms[1], [Recv(ms[2]), Recv(Ack)], k - 1);
      if k >= 2 {
        UpToReadRecv(ms[2], [Recv(Ack)], k - 2);
        if k >= 3 {
          UpToReadLast(Ack, k - 3);
          assert Received(ms, k) == [Recv(ms[0]), Recv(ms[1]), Recv(ms[2])];
        } else {
          assert Received(ms, k) == [Recv(ms[0]), Recv(ms[1])];
        }
      } else {
        assert Received(ms, k) == [Recv(ms[0])];
      }
    } else {
      assert Received(ms, k) == [];
    }
  }

  /** The cut of writes, one read, and the closing acknowledgement. */
  lemma OneRead(sends: seq<Event>, m: Msg, k: nat)
    requires forall j :: 0 <= j < |sends| ==> sends[j].Send?
    ensures UpToRead(sends + [Recv(m), Recv(Ack)], k)
            == sends + (if k >= 1 then [Recv(m)] else []) + (if k >= 2 then [Recv(Ack)] else [])
  {
    UpToReadSends(sends, [Recv(m), Recv(Ack)], k);
    UpToReadRecv(m, [Recv(Ack)], k);
    if k >= 1 {
      UpToReadLast(Ack, k - 1);
    }
  }

  /** The cut of writes, an acknowledgement answered with CONTINUE, and the closing acknowledgement. */
  lemma ReadThenContinue(sends: seq<Event>, k: nat)
    requires forall j :: 0 <= j < |sends| ==> sends[j].Send?
    ensures UpToRead(sends + [Recv(Ack), Send(ModeMsg(Continue)), Recv(Ack)], k)
            == sends + (if k >= 1 then [Recv(Ack), Send(ModeMsg(Continue))] else [])
               + (if k >= 2 then [Recv(Ack)] else [])
  {
    UpToReadSends(sends, [Recv(Ack), Send(ModeMsg(Continue)), Recv(Ack)], k);
    UpToReadRecv(Ack, [Send(ModeMsg(Continue)), Recv(Ack)], k);
    if k >= 1 {
      UpToReadSends([Send(ModeMsg(Continue))], [Recv(Ack)], k - 1);
      UpToReadLast(Ack, k - 1);
    }
  }

  /**
   * The registration handshake with slave `i`: its number, the PSim iteration count and
   * the initial-routing flag go out, then memory statistics and the thread count come in.
   */
  function RegistrationTrace(i: int, numberOfPSimIterations: int, initialRouting: bool,
                             reply: HandshakeReply): (r: seq<Event>)
    ensures |r| == 7 && r[0] == Send(Int(i))
    ensures forall a, b :: 0 <= a < b < |r| && r[b].Send? ==> r[a].Send?
    ensures |set k | 0 <= k < |r| && r[k].Send?| == 3
  {
    var r := [Send(Int(i)), Send(Int(numberOfPSimIterations)), Send(Bool(initialRouting)),
              Recv(Long(reply.usedMemory)), Recv(Long(reply.maxMemory)),
              Recv(Int(reply.numberOfPlans)), Recv(Int(reply.numThreads))];
    assert (set k | 0 <= k < |r| && r[k].Send?) == {0, 1, 2};
    r
  }
}
