/**
 * The tour-end handler of a transshipment hub: it remembers which carrier services feed
 * the hub for which shipment, and when a carrier tour ends at the hub it logs the start of
 * the handling of each delivered shipment, once per shipment log, and emits an event.
 *
 * `Id`s, chain elements, services and shipments are objects; comparing them with `==`
 * compares references, as the Java `==` on them does.
 */
module TransshipmentHub {
  import opened Wrappers

  /** An `Id` object: its text is only used to build log keys. */
  class Id {
    const text: string
    constructor (text: string)
      ensures this.text == text
    {
      this.text := text;
    }
  }

  class CarrierService {
    const id: string
    constructor (id: string)
      ensures this.id == id
    {
      this.id := id;
    }
  }

  /** An element of a logistic chain and the element after it. */
  class LogisticChainElement {
    const id: Id
    var nextElement: LogisticChainElement?
    constructor (id: Id, next: LogisticChainElement?)
      ensures this.id == id && nextElement == next
    {
      this.id := id;
      nextElement := next;
    }
  }

  /** A handling entry of a shipment log. */
  datatype Handle = Handle(linkId: Id, resourceId: Id, startTime: real, endTime: real, element: LogisticChainElement)

  /** A shipment of the logistics service provider with its log of plan elements, keyed by id text. */
  class LSPShipment {
    const id: Id
    const size: int
    var log: map<string, Handle>
    constructor (id: Id, size: int)
      ensures this.id == id && this.size == size && log == map[]
    {
      this.id := id;
      this.size := size;
      log := map[];
    }
  }

  /** The value `servicesWaitedFor` keeps for a service: the shipment and the hub's chain element. */
  datatype Pair = Pair(shipment: LSPShipment, element: LogisticChainElement)

  /** The elements of a shipment plan: transport legs carry the service and their chain element. */
  datatype PlanElement = ShipmentLeg(chainElement: LogisticChainElement, service: CarrierService) | OtherPlanElement

  datatype TourElement = ServiceActivity(service: CarrierService, location: Id, duration: real) | OtherTourElement

  datatype Tour = Tour(id: Id, startLinkId: Id, endLinkId: Id, elements: seq<TourElement>)

  /** A carrier tour ending: the carrier's scheduled tours stand for the carrier lookup. */
  datatype TourEndEvent = TourEndEvent(scheduledTours: seq<Tour>, tourId: Id, linkId: Id, time: real)

  /** `HandlingInHubStartsEvent(time, link, shipment, hub)`. */
  datatype HubEvent = HandlingInHubStarts(time: real, linkId: Id, shipmentId: Id, hubId: Id)

  /** Java's NullPointerException when the ending tour is not among the carrier's scheduled tours. */
  datatype HandlerError = NullPointer

  /** The services of the legs whose chain element is followed by `element`. */
  ghost function AwaitedServices(planElements: seq<PlanElement>, element: LogisticChainElement): set<CarrierService>
    reads set p | p in planElements && p.ShipmentLeg? :: p.chainElement
  {
    set p | p in planElements && p.ShipmentLeg? && p.chainElement.nextElement == element :: p.service
  }

  /** Every service activity of the tour is awaited by the hub. */
  predicate AllAwaited(elements: seq<TourElement>, awaited: set<CarrierService>)
  {
    forall k :: 0 <= k < |elements| && elements[k].ServiceActivity? ==> elements[k].service in awaited
  }

  /** Every service activity of the tour takes place on the tour's end link. */
  predicate AllAt(elements: seq<TourElement>, link: Id)
  {
    forall k :: 0 <= k < |elements| && elements[k].ServiceActivity? ==> elements[k].location == link
  }

  /** The summed durations of the tour's service activities. */
  function UnloadTime(elements: seq<TourElement>): real
  {
    if elements == [] then 0.0
    else UnloadTime(elements[..|elements| - 1])
         + var e := elements[|elements| - 1]; if e.ServiceActivity? then e.duration else 0.0
  }

  /** The unload time of two pieces of a tour is the sum of theirs. */
  lemma {:induction false} UnloadTimeAppend(xs: seq<TourElement>, ys: seq<TourElement>)
    ensures UnloadTime(xs + ys) == UnloadTime(xs) + UnloadTime(ys)
    decreases |ys|
  {
    if ys == [] {
      assert xs + ys == xs;
    } else {
      var m := |ys| - 1;
      assert (xs + ys)[..|xs + ys| - 1] == xs + ys[..m];
      assert (xs + ys)[|xs + ys| - 1] == ys[m];
      UnloadTimeAppend(xs, ys[..m]);
    }
  }

  /** Only service activities count, and none of them with a negative duration makes the total negative. */
  lemma {:induction false} UnloadTimeNonNegative(elements: seq<TourElement>)
    requires forall k :: 0 <= k < |elements| && elements[k].ServiceActivity? ==> elements[k].duration >= 0.0
    ensures UnloadTime(elements) >= 0.0
  {
    if elements != [] {
      UnloadTimeNonNegative(elements[..|elements| - 1]);
    }
  }

  /** The first scheduled tour with the event's tour id (compared by reference). */
  function FirstTour(tours: seq<Tour>, tourId: Id): (r: Option<nat>)
    ensures r.Some? ==> r.value < |tours| && tours[r.value].id == tourId
                        && forall k :: 0 <= k < r.value ==> tours[k].id != tourId
    ensures r.None? ==> forall k :: 0 <= k < |tours| ==> tours[k].id != tourId
  {
    if tours == [] then None
    else if tours[0].id == tourId then Some(0)
    else match FirstTour(tours[1..], tourId)
      case None => None
      case Some(k) => Some(k + 1)
  }

  /** A log after an entry is offered to it: an entry already under the key stays. */
  function LoggedOnce(log: map<string, Handle>, key: string, handle: Handle): (r: map<string, Handle>)
    ensures key in r && r.Keys == log.Keys + {key}
    ensures key in log ==> r[key] == log[key]
    ensures key !in log ==> r[key] == handle
    ensures forall k :: k in log ==> r[k] == log[k]
  {
    if key in log then log else log[key := handle]
  }

  /** Every entry of `before` is still in `after`, unchanged. */
  predicate Extends(after: map<string, Handle>, before: map<string, Handle>)
  {
    forall k :: k in before ==> k in after && after[k] == before[k]
  }

  /** Offering the same entry again changes nothing. */
  lemma LoggedOnceIdempotent(log: map<string, Handle>, key: string, handle: Handle, other: Handle)
    ensures LoggedOnce(LoggedOnce(log, key, handle), key, other) == LoggedOnce(log, key, handle)
  {
  }

  class TransshipmentHubTourEndEventHandler {
    /** The hub's end link, where tours delivering to it end. */
    const linkId: Id
    /** The hub's start link, where the delivered services take place. */
    const hubStartLinkId: Id
    const resourceId: Id
    const capacityNeedFixed: real
    const capacityNeedLinear: real
    /** What `getElementType()` of a logged handle returns; part of every log key. */
    const handleType: string
    var servicesWaitedFor: map<CarrierService, Pair>
    /** The events handed to the events manager, in order. */
    var events: seq<HubEvent>

    constructor (linkId: Id, hubStartLinkId: Id, resourceId: Id, capacityNeedFixed: real, capacityNeedLinear: real,
                 handleType: string)
      ensures this.linkId == linkId && this.hubStartLinkId == hubStartLinkId && this.resourceId == resourceId
      ensures this.capacityNeedFixed == capacityNeedFixed && this.capacityNeedLinear == capacityNeedLinear
      ensures this.handleType == handleType
      ensures servicesWaitedFor == map[] && events == []
    {
      this.linkId := linkId;
      this.hubStartLinkId := hubStartLinkId;
      this.resourceId := resourceId;
      this.capacityNeedFixed := capacityNeedFixed;
      this.capacityNeedLinear := capacityNeedLinear;
      this.handleType := handleType;
      servicesWaitedFor := map[];
      events := [];
    }

    /** The shipments the hub is waiting for. */
    ghost function Shipments(): set<LSPShipment>
      reads this`servicesWaitedFor
    {
      set s | s in servicesWaitedFor :: servicesWaitedFor[s].shipment
    }

    /** The key under which the handling of `pair` is logged. */
    function LogKey(pair: Pair): string
    {
      resourceId.text + pair.element.id.text + handleType
    }

    /**
     * The entry logged for a handling that starts at `startTime`: it lasts the fixed capacity
     * need plus the linear one per unit of shipment size.
     */
    function HandleFor(pair: Pair, startTime: real): Handle
    {
      Handle(linkId, resourceId, startTime, startTime + (capacityNeedFixed + capacityNeedLinear * pair.shipment.size as real),
             pair.element)
    }

    /** The service activity is delivered at the hub by a tour that ends there and comes from elsewhere. */
    predicate Qualifies(e: TourElement, tour: Tour)
    {
      e.ServiceActivity? && e.location == hubStartLinkId && AllAt(tour.elements, tour.endLinkId)
      && tour.startLinkId != hubStartLinkId
    }

    /** The events a tour end at the hub emits, one per qualifying service activity, in tour order. */
    function HubEvents(elements: seq<TourElement>, tour: Tour, time: real, waited: map<CarrierService, Pair>): (r: seq<HubEvent>)
      requires AllAwaited(elements, waited.Keys)
      ensures |r| <= |elements|
    {
      if elements == [] then []
      else
        var init := elements[..|elements| - 1];
        var e := elements[|elements| - 1];
        assert AllAwaited(init, waited.Keys) by {
          forall k | 0 <= k < |init| ensures init[k] == elements[k] { }
        }
        HubEvents(init, tour, time, waited) + ElementEvents(e, tour, time, waited)
    }

    /**
     * The log of shipment `sh` after one tour element, `waited` being what the hub awaits: a
     * qualifying service of `sh` offers its handling to the log; anything else leaves it as
     * it was.
     */
    function ElementLog(sh: LSPShipment, e: TourElement, tour: Tour, time: real, waited: map<CarrierService, Pair>,
                        log: map<string, Handle>): map<string, Handle>
      requires e.ServiceActivity? ==> e.service in waited
    {
      if Qualifies(e, tour) && waited[e.service].shipment == sh
      then LoggedOnce(log, LogKey(waited[e.service]), HandleFor(waited[e.service], time))
      else log
    }

    /** The log of shipment `sh` after a tour end at the hub: its elements, in tour order. */
    function ShipmentLog(sh: LSPShipment, elements: seq<TourElement>, tour: Tour, time: real,
                         waited: map<CarrierService, Pair>, log: map<string, Handle>): map<string, Handle>
      requires AllAwaited(elements, waited.Keys)
    {
      if elements == [] then log
      else
        var init := elements[..|elements| - 1];
        assert AllAwaited(init, waited.Keys) by {
          forall k | 0 <= k < |init| ensures init[k] == elements[k] { }
        }
        ElementLog(sh, elements[|elements| - 1], tour, time, waited, ShipmentLog(sh, init, tour, time, waited, log))
    }

    /** A tour end never overwrites nor removes a log entry: it only adds. */
    lemma {:induction false} ShipmentLogExtends(sh: LSPShipment, elements: seq<TourElement>, tour: Tour, time: real,
                                                waited: map<CarrierService, Pair>, log: map<string, Handle>)
      requires AllAwaited(elements, waited.Keys)
      ensures Extends(ShipmentLog(sh, elements, tour, time, waited, log), log)
    {
      if elements != [] {
        var init := elements[..|elements| - 1];
        assert AllAwaited(init, waited.Keys) by {
          forall k | 0 <= k < |init| ensures init[k] == elements[k] { }
        }
        ShipmentLogExtends(sh, init, tour, time, waited, log);
      }
    }

    /** The event one tour element emits: one if it qualifies, none otherwise. */
    function ElementEvents(e: TourElement, tour: Tour, time: real, waited: map<CarrierService, Pair>): (r: seq<HubEvent>)
      requires e.ServiceActivity? ==> e.service in waited
      ensures |r| == if Qualifies(e, tour) then 1 else 0
    {
      if Qualifies(e, tour)
      then [HandlingInHubStarts(time, linkId, waited[e.service].shipment.id, resourceId)]
      else []
    }

    /** `notifyAfterMobsim`: the awaited services are forgotten after every mobsim. */
    method NotifyAfterMobsim()
      modifies this`servicesWaitedFor
      ensures servicesWaitedFor == map[]
    {
      servicesWaitedFor := map[];
    }

    /** `reset` does nothing: the cleanup happens after the mobsim instead. */
    method Reset(iteration: int)
      ensures servicesWaitedFor == old(servicesWaitedFor) && events == old(events)
    {
    }

    /**
     * `addShipment`: every service of a leg whose chain element is followed by `element` now
     * awaits (shipment, element); other services keep what they awaited.
     */
    method AddShipment(shipment: LSPShipment, element: LogisticChainElement, planElements: seq<PlanElement>)
      modifies this`servicesWaitedFor
      ensures servicesWaitedFor.Keys == old(servicesWaitedFor).Keys + AwaitedServices(planElements, element)
      ensures forall s :: s in AwaitedServices(planElements, element) ==> servicesWaitedFor[s] == Pair(shipment, element)
      ensures forall s :: s in old(servicesWaitedFor) && s !in AwaitedServices(planElements, element) ==>
                servicesWaitedFor[s] == old(servicesWaitedFor)[s]
    {
      var pair := Pair(shipment, element);
      for i := 0 to |planElements|
        invariant servicesWaitedFor.Keys == old(servicesWaitedFor).Keys + AwaitedServices(planElements[..i], element)
        invariant forall s :: s in AwaitedServices(planElements[..i], element) ==> servicesWaitedFor[s] == pair
        invariant forall s :: s in old(servicesWaitedFor) && s !in AwaitedServices(planElements[..i], element) ==>
                    servicesWaitedFor[s] == old(servicesWaitedFor)[s]
      {
        var p := planElements[i];
        assert planElements[..i + 1] == planElements[..i] + [p];
        if p.ShipmentLeg? && p.chainElement.nextElement == element {
          servicesWaitedFor := servicesWaitedFor[p.service := pair];
        }
      }
      assert planElements[..|planElements|] == planElements;
    }

    /** `allShipmentsOfTourEndInOnePoint`: are all of the tour's services awaited here? */
    method AllShipmentsOfTourEndInOnePoint(tour: Tour) returns (r: bool)
      ensures r <==> AllAwaited(tour.elements, servicesWaitedFor.Keys)
    {
      for i := 0 to |tour.elements|
        invariant AllAwaited(tour.elements[..i], servicesWaitedFor.Keys)
      {
        var e := tour.elements[i];
        if e.ServiceActivity? && e.service !in servicesWaitedFor {
          return false;
        }
      }
      assert tour.elements[..|tour.elements|] == tour.elements;
      return true;
    }

    /** `allServicesAreInOnePoint`: do all of the tour's services take place at its end link? */
    method AllServicesAreInOnePoint(tour: Tour) returns (r: bool)
      ensures r <==> AllAt(tour.elements, tour.endLinkId)
    {
      for i := 0 to |tour.elements|
        invariant AllAt(tour.elements[..i], tour.endLinkId)
      {
        var e := tour.elements[i];
        if e.ServiceActivity? && e.location != tour.endLinkId {
          return false;
        }
      }
      assert tour.elements[..|tour.elements|] == tour.elements;
      return true;
    }

    /** `getUnloadEndTime`: the durations of the tour's service activities, added up in tour order. */
    method GetUnloadEndTime(tour: Tour) returns (unloadEndTime: real)
      ensures unloadEndTime == UnloadTime(tour.elements)
    {
      unloadEndTime := 0.0;
      for i := 0 to |tour.elements|
        invariant unloadEndTime == UnloadTime(tour.elements[..i])
      {
        var e := tour.elements[i];
        assert tour.elements[..i + 1][..i] == tour.elements[..i];
        if e.ServiceActivity? {
          unloadEndTime := unloadEndTime + e.duration;
        }
      }
      assert tour.elements[..|tour.elements|] == tour.elements;
    }

    /**
     * `logHandlingInHub`: the handling starts at `startTime` and lasts the fixed capacity need
     * plus the linear one per unit of shipment size. It is written to the shipment's log only
     * if nothing is logged under its key yet; the event is emitted every time.
     */
    method LogHandlingInHub(service: CarrierService, startTime: real)
      requires service in servicesWaitedFor
      modifies servicesWaitedFor[service].shipment, this`events
      ensures var pair := servicesWaitedFor[service];
        pair.shipment.log == LoggedOnce(old(pair.shipment.log), LogKey(pair), HandleFor(pair, startTime))
      ensures events == old(events) + [HandlingInHubStarts(startTime, linkId, servicesWaitedFor[service].shipment.id, resourceId)]
    {
      var pair := servicesWaitedFor[service];
      var shipment := pair.shipment;
      var handlingTime := capacityNeedFixed + capacityNeedLinear * shipment.size as real;
      var endTime := startTime + handlingTime;
      var handle := Handle(linkId, resourceId, startTime, endTime, pair.element);
      var loadId := resourceId.text + pair.element.id.text + handleType;
      if loadId !in shipment.log {
        shipment.log := shipment.log[loadId := handle];
      }
      events := events + [HandlingInHubStarts(startTime, linkId, shipment.id, resourceId)];
      assert shipment.log == LoggedOnce(old(shipment.log), loadId, handle);
      assert handle == HandleFor(pair, startTime);
    }

    /**
     * `handleEvent`: a tour that ends at the hub, all of whose services the hub awaits, logs
     * the handling of each service delivered at the hub, and emits one event for each.
     * An ending tour missing from the carrier's plan is Java's NullPointerException.
     */
    method HandleEvent(event: TourEndEvent) returns (r: Outcome<HandlerError>)
      modifies Shipments(), this`events
      ensures r.Fail? <==> event.linkId == linkId && FirstTour(event.scheduledTours, event.tourId).None?
      ensures event.linkId != linkId || r.Fail? ==> events == old(events) && unchanged(Shipments())
      ensures r.Pass? && event.linkId == linkId ==>
                var tour := event.scheduledTours[FirstTour(event.scheduledTours, event.tourId).value];
                if AllAwaited(tour.elements, servicesWaitedFor.Keys)
                then events == old(events) + HubEvents(tour.elements, tour, event.time, servicesWaitedFor)
                     && forall sh :: sh in Shipments() ==>
                          sh.log == ShipmentLog(sh, tour.elements, tour, event.time, servicesWaitedFor, old(sh.log))
                else events == old(events) && unchanged(Shipments())
    {
      var found := FindTour(event.scheduledTours, event.tourId);
      if event.linkId != linkId {
        return Pass;
      }
      if found.None? {
        return Fail(NullPointer);
      }
      var tour := event.scheduledTours[found.value];
      var all := AllShipmentsOfTourEndInOnePoint(tour);
      if all {
        LogTour(tour, event.time);
      }
      r := Pass;
    }

    /** The loop of `handleEvent` over a tour whose services are all awaited. */
    method LogTour(tour: Tour, time: real)
      requires AllAwaited(tour.elements, servicesWaitedFor.Keys)
      modifies Shipments(), this`events
      ensures events == old(events) + HubEvents(tour.elements, tour, time, servicesWaitedFor)
      ensures forall sh :: sh in Shipments() ==> sh.log == ShipmentLog(sh, tour.elements, tour, time, servicesWaitedFor, old(sh.log))
    {
      ghost var start := map sh | sh in Shipments() :: sh.log;
      ghost var w := servicesWaitedFor;
      for i := 0 to |tour.elements|
        invariant servicesWaitedFor == w && AllAwaited(tour.elements[..i], w.Keys)
        invariant events == old(events) + HubEvents(tour.elements[..i], tour, time, w)
        invariant start.Keys == Shipments() && LoggedSoFar(tour.elements[..i], tour, time, w, start)
      {
        LogStep(tour.elements, i, tour, time, start, old(events));
      }
      assert tour.elements[..|tour.elements|] == tour.elements;
    }

    /** Every shipment's log is its log at `start` after `elements`. */
    ghost predicate LoggedSoFar(elements: seq<TourElement>, tour: Tour, time: real, waited: map<CarrierService, Pair>,
                                start: map<LSPShipment, map<string, Handle>>)
      requires AllAwaited(elements, waited.Keys)
      reads start.Keys
    {
      forall sh :: sh in start ==> sh.log == ShipmentLog(sh, elements, tour, time, waited, start[sh])
    }

    /**
     * One pass of the loop of `handleEvent`: the element's event goes out after those of
     * the elements before it, and its handling is logged after theirs.
     */
    method LogStep(elements: seq<TourElement>, i: nat, tour: Tour, time: real,
                   ghost start: map<LSPShipment, map<string, Handle>>, ghost before: seq<HubEvent>)
      requires i < |elements| && AllAwaited(elements, servicesWaitedFor.Keys)
      requires AllAwaited(elements[..i], servicesWaitedFor.Keys)
      requires events == before + HubEvents(elements[..i], tour, time, servicesWaitedFor)
      requires start.Keys == Shipments() && LoggedSoFar(elements[..i], tour, time, servicesWaitedFor, start)
      modifies Shipments(), this`events
      ensures AllAwaited(elements[..i + 1], servicesWaitedFor.Keys)
      ensures events == before + HubEvents(elements[..i + 1], tour, time, servicesWaitedFor)
      ensures LoggedSoFar(elements[..i + 1], tour, time, servicesWaitedFor, start)
    {
      ghost var w := servicesWaitedFor;
      HubEventsStep(before, elements, i, tour, time, w);
      LogElement(elements[i], tour, time);
      forall sh | sh in start
        ensures sh.log == ShipmentLog(sh, elements[..i + 1], tour, time, w, start[sh])
      {
        ShipmentLogStep(sh, elements, i, tour, time, w, start[sh]);
      }
    }

    /** The events of one more element follow those of the elements before it. */
    lemma HubEventsStep(before: seq<HubEvent>, elements: seq<TourElement>, i: nat, tour: Tour, time: real,
                        waited: map<CarrierService, Pair>)
      requires i < |elements| && AllAwaited(elements, waited.Keys)
      ensures AllAwaited(elements[..i], waited.Keys) && AllAwaited(elements[..i + 1], waited.Keys)
      ensures before + HubEvents(elements[..i], tour, time, waited) + ElementEvents(elements[i], tour, time, waited)
              == before + HubEvents(elements[..i + 1], tour, time, waited)
    {
      assert elements[..i + 1][..i] == elements[..i];
      var done := HubEvents(elements[..i], tour, time, waited);
      var next := ElementEvents(elements[i], tour, time, waited);
      assert before + done + next == before + (done + next);
    }

    /** The log of one more element follows those of the elements before it. */
    lemma ShipmentLogStep(sh: LSPShipment, elements: seq<TourElement>, i: nat, tour: Tour, time: real,
                          waited: map<CarrierService, Pair>, log: map<string, Handle>)
      requires i < |elements| && AllAwaited(elements[..i], waited.Keys) && AllAwaited(elements[..i + 1], waited.Keys)
      requires elements[i].ServiceActivity? ==> elements[i].service in waited
      ensures ShipmentLog(sh, elements[..i + 1], tour, time, waited, log)
              == ElementLog(sh, elements[i], tour, time, waited, ShipmentLog(sh, elements[..i], tour, time, waited, log))
    {
      assert elements[..i + 1][..i] == elements[..i];
    }

    /** One element of that loop: a qualifying service activity has its handling logged. */
    method LogElement(e: TourElement, tour: Tour, time: real)
      requires e.ServiceActivity? ==> e.service in servicesWaitedFor
      modifies Shipments(), this`events
      ensures events == old(events) + ElementEvents(e, tour, time, servicesWaitedFor)
      ensures forall sh :: sh in Shipments() ==> sh.log == ElementLog(sh, e, tour, time, servicesWaitedFor, old(sh.log))
    {
      if e.ServiceActivity? && e.location == hubStartLinkId {
        var onePoint := AllServicesAreInOnePoint(tour);
        if onePoint && tour.startLinkId != hubStartLinkId {
          LogHandlingInHub(e.service, time);
        }
      }
    }
  }

  /** The `for` loop with `break` of `handleEvent` that looks the ending tour up by reference. */
  method FindTour(tours: seq<Tour>, tourId: Id) returns (r: Option<nat>)
    ensures r == FirstTour(tours, tourId)
  {
    var i := 0;
    while i < |tours|
      invariant 0 <= i <= |tours|
      invariant forall k :: 0 <= k < i ==> tours[k].id != tourId
    {
      if tours[i].id == tourId {
        return Some(i);
      }
      i := i + 1;
    }
    return None;
  }
}
