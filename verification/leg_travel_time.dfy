/**
 * Planomat's fixed-route leg travel time estimator. A car leg is timed along a fixed
 * route: the route stored for the leg by the plan, or else a free-speed route computed
 * once and memoised under the leg's index. Any other leg is timed by the router and the
 * result memoised under the leg index and mode. The car time is a left fold of link
 * travel times after the departure delay, in one of two orders of the leg's parts.
 */
module LegTravelTime {
  import opened Wrappers

  /** A network link: its id and the nodes it runs between. */
  datatype Link = Link(id: string, fromNode: string, toNode: string)

  datatype TransportMode = Car | NonCar(name: string)

  /** How a simulated leg is interpreted: which links of the leg take time. */
  datatype SimLegInterpretation = CetinCompatible | CharyparEtAlCompatible | OtherInterpretation

  /** A network route runs from a start link over `links` to an end link; any other route has no links. */
  datatype Route = NetworkRoute(startLink: Link, links: seq<Link>, endLink: Link) | GenericRoute

  datatype Activity = Activity(link: Link)

  /** A leg; its route is replaced in place when the estimate is asked to modify the leg. */
  class Leg {
    const mode: TransportMode
    var route: Route

    constructor (mode: TransportMode, route: Route)
      ensures this.mode == mode && this.route == route
    {
      this.mode := mode;
      this.route := route;
    }
  }

  datatype PlanElement = Act(activity: Activity) | LegElement(leg: Leg)

  /** The plan's legs, the objects whose routes `initPlanSpecificInformation` reads. */
  function Legs(plan: seq<PlanElement>): set<Leg>
  {
    set i | 0 <= i < |plan| && plan[i].LegElement? :: plan[i].leg
  }

  /** The links of every leg among the first `n` elements that has a network route, keyed by its position. */
  function NetworkRoutes(plan: seq<PlanElement>, n: nat): map<int, seq<Link>>
    requires n <= |plan|
    reads Legs(plan)
  {
    map i | 0 <= i < n && plan[i].LegElement? && plan[i].leg.route.NetworkRoute? :: plan[i].leg.route.links
  }

  /** `m` with `v` stored under `k` unless `k` is already there: a memo's lookup-or-insert. */
  function Memo<K, V>(m: map<K, V>, k: K, v: V): (r: map<K, V>)
    ensures k in r && r[k] == if k in m then m[k] else v
    ensures r.Keys == m.Keys + {k}
    ensures forall j :: j in m ==> r[j] == m[j]
  {
    if k in m then m else m[k := v]
  }

  /** A second lookup of the same key returns what the first stored and changes nothing, whatever it would compute. */
  lemma MemoIdempotent<K, V>(m: map<K, V>, k: K, v: V, w: V)
    ensures Memo(Memo(m, k, v), k, w) == Memo(m, k, v)
    ensures Memo(Memo(m, k, v), k, w)[k] == Memo(m, k, v)[k]
  {
  }

  /** The links that take time after the departure delay, for each interpretation of a car leg. */
  function CarLinks(interpretation: SimLegInterpretation, origin: Link, route: seq<Link>, destination: Link): seq<Link>
  {
    match interpretation
    case CetinCompatible => route + [destination]
    case CharyparEtAlCompatible => [origin] + route
    case OtherInterpretation => []
  }

  class FixedRouteLegTravelTimeEstimator {
    /** The link travel time at a given entry time. */
    const linkTravelTime: (Link, real) -> real
    /** The average departure delay on a link at a given time. */
    const departureDelay: (Link, real) -> real
    /** The free-speed least-cost path between two nodes, as the router computes it. */
    const freeSpeedPath: (string, string) -> seq<Link>
    /** The router's own estimate for a leg of the given mode between two links. */
    const handleLeg: (TransportMode, Link, Link, real) -> real
    const simLegInterpretation: SimLegInterpretation

    var travelTimeCache: map<int, map<TransportMode, real>>
    var fixedRoutes: map<int, seq<Link>>
    var currentPlan: Option<seq<PlanElement>>

    constructor (linkTravelTime: (Link, real) -> real, departureDelay: (Link, real) -> real,
                 freeSpeedPath: (string, string) -> seq<Link>, handleLeg: (TransportMode, Link, Link, real) -> real,
                 simLegInterpretation: SimLegInterpretation)
      ensures this.linkTravelTime == linkTravelTime && this.departureDelay == departureDelay
      ensures this.freeSpeedPath == freeSpeedPath && this.handleLeg == handleLeg
      ensures this.simLegInterpretation == simLegInterpretation
      ensures travelTimeCache == map[] && fixedRoutes == map[] && currentPlan == None
    {
      this.linkTravelTime := linkTravelTime;
      this.departureDelay := departureDelay;
      this.freeSpeedPath := freeSpeedPath;
      this.handleLeg := handleLeg;
      this.simLegInterpretation := simLegInterpretation;
      travelTimeCache := map[];
      fixedRoutes := map[];
      currentPlan := None;
    }

    /** `processDeparture`: the time the departure delay on `link` ends; never before `start` when the delay is not negative. */
    function ProcessDeparture(link: Link, start: real): (r: real)
      ensures departureDelay(link, start) >= 0.0 ==> r >= start
    {
      start + departureDelay(link, start)
    }

    /** `processLink`: the time `link` is left when it is entered at `start`; never earlier when its time is not negative. */
    function ProcessLink(link: Link, start: real): (r: real)
      ensures linkTravelTime(link, start) >= 0.0 ==> r >= start
    {
      start + linkTravelTime(link, start)
    }

    /**
     * The left fold of `ProcessLink` over a route: each link is entered when the previous one
     * is left. With non-negative link times a route is never left before it is entered.
     */
    function RouteTravelTime(route: seq<Link>, start: real): (r: real)
      ensures NonNegativeLinkTimes() ==> r >= start
    {
      if route == [] then start else RouteTravelTime(route[1..], ProcessLink(route[0], start))
    }

    /** Every link takes a non-negative time, whenever it is entered. */
    ghost predicate NonNegativeLinkTimes()
    {
      forall l, t :: linkTravelTime(l, t) >= 0.0
    }

    /** Timing two routes one after the other is timing their concatenation. */
    lemma {:induction false} RouteTravelTimeAppend(a: seq<Link>, b: seq<Link>, start: real)
      ensures RouteTravelTime(a + b, start) == RouteTravelTime(b, RouteTravelTime(a, start))
    {
      if a == [] {
        assert a + b == b;
      } else {
        assert (a + b)[0] == a[0] && (a + b)[1..] == a[1..] + b;
        RouteTravelTimeAppend(a[1..], b, ProcessLink(a[0], start));
      }
    }

    /**
     * The car estimate: from the end of the departure delay on the origin link, the fold
     * over the links the interpretation charges, minus the departure time. Under any other
     * interpretation a car leg takes exactly its departure delay; under the other two, with
     * non-negative link times, at least that delay.
     */
    function CarTravelTime(origin: Link, route: seq<Link>, destination: Link, departureTime: real): (r: real)
      ensures simLegInterpretation.OtherInterpretation? ==> r == departureDelay(origin, departureTime)
      ensures NonNegativeLinkTimes() ==> r >= departureDelay(origin, departureTime)
    {
      RouteTravelTime(CarLinks(simLegInterpretation, origin, route, destination), ProcessDeparture(origin, departureTime))
      - departureTime
    }

    /** `processRouteTravelTime`: the loop over the route. */
    method ProcessRouteTravelTime(route: seq<Link>, start: real) returns (now: real)
      ensures now == RouteTravelTime(route, start)
    {
      now := start;
      for i := 0 to |route|
        invariant RouteTravelTime(route[i..], now) == RouteTravelTime(route, start)
      {
        assert route[i..][1..] == route[i + 1..];
        now := ProcessLink(route[i], now);
      }
      assert route[|route|..] == [];
    }

    /** The car branch's timing, in the order the interpretation prescribes. */
    method CarEstimate(origin: Link, route: seq<Link>, destination: Link, departureTime: real) returns (r: real)
      ensures r == CarTravelTime(origin, route, destination, departureTime)
    {
      var now := departureTime;
      now := ProcessDeparture(origin, now);
      var start := now;
      if simLegInterpretation.CetinCompatible? {
        now := ProcessRouteTravelTime(route, now);
        now := ProcessLink(destination, now);
        RouteTravelTimeAppend(route, [destination], start);
      } else if simLegInterpretation.CharyparEtAlCompatible? {
        now := ProcessLink(origin, now);
        now := ProcessRouteTravelTime(route, now);
        RouteTravelTimeAppend([origin], route, start);
      }
      r := now - departureTime;
    }

    /**
     * `getLegTravelTimeEstimation` for the leg at `legIndex` of the current plan. A car leg
     * gets a free-speed route memoised under its index unless one is stored, is timed
     * along that route, and has its route replaced when `doModifyLeg` holds. Any other leg
     * is timed by the router once per index and mode and answered from the memo after that.
     */
    method GetLegTravelTimeEstimation(departureTime: real, actOrigin: Activity, actDestination: Activity,
                                      leg: Leg, legIndex: int, doModifyLeg: bool) returns (r: real)
      modifies this`fixedRoutes, this`travelTimeCache, leg`route
      ensures leg.mode.Car? ==>
                && fixedRoutes == Memo(old(fixedRoutes), legIndex,
                                       freeSpeedPath(actOrigin.link.toNode, actDestination.link.fromNode))
                && travelTimeCache == old(travelTimeCache)
                && r == CarTravelTime(actOrigin.link, fixedRoutes[legIndex], actDestination.link, departureTime)
                && leg.route == if doModifyLeg
                                then NetworkRoute(actOrigin.link, fixedRoutes[legIndex], actDestination.link)
                                else old(leg.route)
      ensures !leg.mode.Car? ==>
                var legInformation := if legIndex in old(travelTimeCache) then old(travelTimeCache)[legIndex] else map[];
                && fixedRoutes == old(fixedRoutes) && leg.route == old(leg.route)
                && travelTimeCache == old(travelTimeCache)[legIndex :=
                     Memo(legInformation, leg.mode, handleLeg(leg.mode, actOrigin.link, actDestination.link, departureTime))]
                && r == travelTimeCache[legIndex][leg.mode]
                && (leg.mode in legInformation ==> r == legInformation[leg.mode])
    {
      if leg.mode.Car? {
        if legIndex !in fixedRoutes {
          var path := freeSpeedPath(actOrigin.link.toNode, actDestination.link.fromNode);
          fixedRoutes := fixedRoutes[legIndex := path];
        }
        r := CarEstimate(actOrigin.link, fixedRoutes[legIndex], actDestination.link, departureTime);
        if doModifyLeg {
          leg.route := NetworkRoute(actOrigin.link, fixedRoutes[legIndex], actDestination.link);
        }
      } else {
        var legInformation: map<TransportMode, real>;
        if legIndex in travelTimeCache {
          legInformation := travelTimeCache[legIndex];
        } else {
          legInformation := map[];
        }
        if leg.mode in legInformation {
          r := legInformation[leg.mode];
        } else {
          r := handleLeg(leg.mode, actOrigin.link, actDestination.link, departureTime);
          legInformation := legInformation[leg.mode := r];
        }
        travelTimeCache := travelTimeCache[legIndex := legInformation];
      }
    }

    /** `resetPlanSpecificInformation`: both memos emptied and the current plan forgotten. */
    method ResetPlanSpecificInformation()
      modifies this`travelTimeCache, this`fixedRoutes, this`currentPlan
      ensures travelTimeCache == map[] && fixedRoutes == map[] && currentPlan == None
    {
      travelTimeCache := map[];
      fixedRoutes := map[];
      currentPlan := None;
    }

    /**
     * `initPlanSpecificInformation`: the plan becomes current and the links of each of its
     * legs with a network route are stored under the leg's index; other entries stay.
     */
    method InitPlanSpecificInformation(plan: seq<PlanElement>)
      modifies this`currentPlan, this`fixedRoutes
      ensures currentPlan == Some(plan)
      ensures fixedRoutes == old(fixedRoutes) + NetworkRoutes(plan, |plan|)
    {
      currentPlan := Some(plan);
      for i := 0 to |plan|
        invariant currentPlan == Some(plan)
        invariant fixedRoutes == Stored(old(fixedRoutes), plan, i)
      {
        var element := plan[i];
        assert Stored(old(fixedRoutes), plan, i + 1)
               == if element.LegElement? && element.leg.route.NetworkRoute?
                  then Stored(old(fixedRoutes), plan, i)[i := element.leg.route.links]
                  else Stored(old(fixedRoutes), plan, i);
        if element.LegElement? {
          var leg := element.leg;
          if leg.route.NetworkRoute? {
            fixedRoutes := fixedRoutes[i := leg.route.links];
          }
        }
        assert forall o :: o in Legs(plan) ==> o.route == old(o.route);
      }
      StoredIsUnion(old(fixedRoutes), plan, |plan|);
    }
  }

  /** `base` after the puts of the loop over the first `n` elements, one at a time. */
  function Stored(base: map<int, seq<Link>>, plan: seq<PlanElement>, n: nat): map<int, seq<Link>>
    requires n <= |plan|
    reads Legs(plan)
  {
    if n == 0 then base
    else if plan[n - 1].LegElement? && plan[n - 1].leg.route.NetworkRoute?
    then Stored(base, plan, n - 1)[n - 1 := plan[n - 1].leg.route.links]
    else Stored(base, plan, n - 1)
  }

  /** The puts one at a time amount to overlaying the network routes on what was stored. */
  lemma {:induction false} StoredIsUnion(base: map<int, seq<Link>>, plan: seq<PlanElement>, n: nat)
    requires n <= |plan|
    ensures Stored(base, plan, n) == base + NetworkRoutes(plan, n)
  {
    if n == 0 {
      assert NetworkRoutes(plan, 0) == map[];
    } else {
      StoredIsUnion(base, plan, n - 1);
      NetworkRoutesStep(plan, n - 1);
      if plan[n - 1].LegElement? && plan[n - 1].leg.route.NetworkRoute? {
        var b := NetworkRoutes(plan, n - 1);
        assert (base + b)[n - 1 := plan[n - 1].leg.route.links] == base + b[n - 1 := plan[n - 1].leg.route.links];
      }
    }
  }

  /** One more element adds its network route, if it has one, under its own position. */
  lemma NetworkRoutesStep(plan: seq<PlanElement>, i: nat)
    requires i < |plan|
    ensures plan[i].LegElement? && plan[i].leg.route.NetworkRoute? ==>
              NetworkRoutes(plan, i + 1) == NetworkRoutes(plan, i)[i := plan[i].leg.route.links]
    ensures !(plan[i].LegElement? && plan[i].leg.route.NetworkRoute?) ==>
              NetworkRoutes(plan, i + 1) == NetworkRoutes(plan, i)
  {
    var before, after := NetworkRoutes(plan, i), NetworkRoutes(plan, i + 1);
    if plan[i].LegElement? && plan[i].leg.route.NetworkRoute? {
      assert after.Keys == before.Keys + {i};
    } else {
      assert after.Keys == before.Keys;
    }
  }
}
