/**
 * The example carrier scorer: a factory that gives each carrier two event-driven scoring
 * functions. One charges fixed, per-second and per-metre vehicle costs from tour start,
 * tour end and link-enter events; the other charges a cordon toll for entering tolled
 * links with a tolled vehicle type, at most as often as the carrier's plan has tours
 * with that vehicle type.
 */
module CarrierScoring {
  import opened Wrappers

  datatype CostInformation = CostInformation(fixedCosts: real, costsPerSecond: real, costsPerMeter: real)

  datatype VehicleType = VehicleType(id: string, costInformation: CostInformation)

  datatype ScheduledTour = ScheduledTour(tourId: string, vehicleType: VehicleType)

  /** A carrier: the vehicle types of its vehicles by vehicle id, and the tours of its selected plan. */
  datatype Carrier = Carrier(vehicles: map<string, VehicleType>, scheduledTours: seq<ScheduledTour>)

  /** The events a scoring function is handed; every other kind of event is `OtherEvent`. */
  datatype Event =
    | FreightTourStart(time: real, tourId: string)
    | FreightTourEnd(time: real, tourId: string, vehicleId: string)
    | LinkEnter(time: real, linkId: string, vehicleId: string)
    | OtherEvent(time: real)

  /** A lookup that finds nothing and is dereferenced anyway. */
  datatype ScoringError = NullPointer

  /** The vehicle types whose vehicles pay the toll. */
  const VehicleTypesToBeTolled: seq<string> := ["large50"]

  /** The links of the toll cordon. */
  const TolledLinkList: seq<string> := ["i(3,4)", "i(3,6)", "i(7,5)R", "i(7,7)R", "j(4,8)R", "j(6,8)R", "j(3,4)", "j(5,4)"]

  /** The number of tours, among `tours`, driven by a vehicle of a tolled type. */
  function CountTolled(tours: seq<ScheduledTour>): nat
  {
    if tours == [] then 0
    else CountTolled(tours[..|tours| - 1]) + if tours[|tours| - 1].vehicleType.id in VehicleTypesToBeTolled then 1 else 0
  }

  /** Counting over two runs of tours adds up, and never exceeds the number of tours. */
  lemma {:induction false} CountTolledAppend(a: seq<ScheduledTour>, b: seq<ScheduledTour>)
    ensures CountTolled(a + b) == CountTolled(a) + CountTolled(b)
    ensures CountTolled(b) <= |b|
  {
    if b == [] {
      assert a + b == a;
    } else {
      var init := b[..|b| - 1];
      assert (a + b)[..|a + b| - 1] == a + init;
      CountTolledAppend(a, init);
    }
  }

  /** The tolled tours are exactly the tours with a tolled vehicle type: all of them when every type is tolled, none when none is. */
  lemma {:induction false} CountTolledExtremes(tours: seq<ScheduledTour>)
    ensures (forall i :: 0 <= i < |tours| ==> tours[i].vehicleType.id in VehicleTypesToBeTolled) ==> CountTolled(tours) == |tours|
    ensures (forall i :: 0 <= i < |tours| ==> tours[i].vehicleType.id !in VehicleTypesToBeTolled) ==> CountTolled(tours) == 0
  {
    if tours != [] {
      var init := tours[..|tours| - 1];
      assert forall i :: 0 <= i < |init| ==> init[i] == tours[i];
      CountTolledExtremes(init);
    }
  }

  /**
   * `EventBasedScoring`: fixed costs and time costs per tour from its start and end events,
   * distance costs per entered link; the start time of each tour is remembered by tour id.
   */
  class EventBasedScoring {
    const carrier: Carrier
    /** The scenario's vehicles by id, where a tour end's vehicle type is looked up. */
    const scenarioVehicles: map<string, VehicleType>
    /** The network's link lengths by link id. */
    const linkLengths: map<string, real>
    var score: real
    var tourStartTime: map<string, real>

    constructor (carrier: Carrier, scenarioVehicles: map<string, VehicleType>, linkLengths: map<string, real>)
      ensures this.carrier == carrier && this.scenarioVehicles == scenarioVehicles && this.linkLengths == linkLengths
      ensures score == 0.0 && tourStartTime == map[]
    {
      this.carrier := carrier;
      this.scenarioVehicles := scenarioVehicles;
      this.linkLengths := linkLengths;
      score := 0.0;
      tourStartTime := map[];
    }

    /** No cost is ever negative. */
    predicate NonNegativeCosts()
    {
      && (forall v :: v in scenarioVehicles ==>
            scenarioVehicles[v].costInformation.fixedCosts >= 0.0 && scenarioVehicles[v].costInformation.costsPerSecond >= 0.0)
      && (forall v :: v in carrier.vehicles ==> carrier.vehicles[v].costInformation.costsPerMeter >= 0.0)
      && (forall l :: l in linkLengths ==> linkLengths[l] >= 0.0)
    }

    /**
     * `handleEvent`: a tour start records (or overwrites) its start time; a tour end
     * charges the fixed costs and then the tour's duration times the cost per second,
     * failing in between when its start was never recorded; a link enter charges the
     * link's length times the vehicle's cost per metre. Anything else changes nothing.
     */
    method HandleEvent(event: Event) returns (r: Outcome<ScoringError>)
      modifies this`score, this`tourStartTime
      ensures event.FreightTourStart? ==>
                r.Pass? && score == old(score) && tourStartTime == old(tourStartTime)[event.tourId := event.time]
      ensures !event.FreightTourStart? ==> tourStartTime == old(tourStartTime)
      ensures event.FreightTourEnd? ==>
                if event.vehicleId !in scenarioVehicles then r == Fail(NullPointer) && score == old(score)
                else
                  var costs := scenarioVehicles[event.vehicleId].costInformation;
                  if event.tourId !in tourStartTime then r == Fail(NullPointer) && score == old(score) - costs.fixedCosts
                  else r.Pass?
                       && score == old(score) - costs.fixedCosts
                                  - (event.time - tourStartTime[event.tourId]) * costs.costsPerSecond
      ensures event.LinkEnter? ==>
                if event.linkId !in linkLengths || event.vehicleId !in carrier.vehicles
                then r == Fail(NullPointer) && score == old(score)
                else r.Pass?
                     && score == old(score) - linkLengths[event.linkId] * carrier.vehicles[event.vehicleId].costInformation.costsPerMeter
      ensures event.OtherEvent? ==> r.Pass? && score == old(score)
      ensures NonNegativeCosts()
              && (event.FreightTourEnd? && event.tourId in tourStartTime ==> event.time >= tourStartTime[event.tourId])
              ==> score <= old(score)
    {
      match event
      case FreightTourStart(time, tourId) =>
        tourStartTime := tourStartTime[tourId := time];
        r := Pass;
      case FreightTourEnd(time, tourId, vehicleId) =>
        r := HandleTourEnd(time, tourId, vehicleId);
      case LinkEnter(_, linkId, vehicleId) =>
        if linkId !in linkLengths || vehicleId !in carrier.vehicles {
          return Fail(NullPointer);
        }
        var distance := linkLengths[linkId];
        var costPerMeter := carrier.vehicles[vehicleId].costInformation.costsPerMeter;
        score := score - distance * costPerMeter;
        r := Pass;
      case OtherEvent(_) =>
        r := Pass;
    }

    /** The tour-end handler: the fixed costs are charged before the start time is looked up. */
    method HandleTourEnd(time: real, tourId: string, vehicleId: string) returns (r: Outcome<ScoringError>)
      modifies this`score
      ensures vehicleId !in scenarioVehicles ==> r == Fail(NullPointer) && score == old(score)
      ensures vehicleId in scenarioVehicles ==>
                var costs := scenarioVehicles[vehicleId].costInformation;
                if tourId !in tourStartTime then r == Fail(NullPointer) && score == old(score) - costs.fixedCosts
                else r.Pass? && score == old(score) - costs.fixedCosts - (time - tourStartTime[tourId]) * costs.costsPerSecond
    {
      if vehicleId !in scenarioVehicles {
        return Fail(NullPointer);
      }
      var costs := scenarioVehicles[vehicleId].costInformation;
      score := score - costs.fixedCosts;
      if tourId !in tourStartTime {
        return Fail(NullPointer);
      }
      var tourDuration := time - tourStartTime[tourId];
      score := score - tourDuration * costs.costsPerSecond;
      r := Pass;
    }
  }

  /**
   * `LinkBasedTollScoring`: each entry of a tolled link by a vehicle of a tolled type costs
   * `toll`, until the cap of one tolling per tolled tour of the carrier's plan is reached.
   */
  class LinkBasedTollScoring {
    const carrier: Carrier
    const toll: real
    var score: real
    var tollingCounter: nat
    var maxNumberOfTollings: nat

    /** The counter stays within the cap, and the score is the toll times the counter, negated. */
    ghost predicate Valid()
      reads this
    {
      tollingCounter <= maxNumberOfTollings && score == -toll * tollingCounter as real
    }

    /** The cap counts the carrier's planned tours with a tolled vehicle type. */
    constructor (carrier: Carrier, toll: real)
      ensures Valid()
      ensures this.carrier == carrier && this.toll == toll
      ensures score == 0.0 && tollingCounter == 0
      ensures maxNumberOfTollings == CountTolled(carrier.scheduledTours)
    {
      this.carrier := carrier;
      this.toll := toll;
      score := 0.0;
      tollingCounter := 0;
      maxNumberOfTollings := 0;
      new;
      var tours := carrier.scheduledTours;
      for i := 0 to |tours|
        invariant maxNumberOfTollings == CountTolled(tours[..i])
        invariant score == 0.0 && tollingCounter == 0
      {
        assert tours[..i + 1][..i] == tours[..i];
        if tours[i].vehicleType.id in VehicleTypesToBeTolled {
          maxNumberOfTollings := maxNumberOfTollings + 1;
        }
      }
      assert tours[..|tours|] == tours;
    }

    /** Whether entering `linkId` with a vehicle of type `typeId` is tolled now. */
    predicate Tolls(typeId: string, linkId: string)
      reads this
    {
      tollingCounter < maxNumberOfTollings && typeId in VehicleTypesToBeTolled && linkId in TolledLinkList
    }

    /**
     * `handleEvent`: only link-enter events count; the vehicle's type is looked up first
     * (failing for an unknown vehicle), and a tolled entry raises the counter by one and
     * lowers the score by the toll.
     */
    method HandleEvent(event: Event) returns (r: Outcome<ScoringError>)
      requires Valid()
      modifies this`score, this`tollingCounter
      ensures Valid()
      ensures !event.LinkEnter? ==> r.Pass? && score == old(score) && tollingCounter == old(tollingCounter)
      ensures event.LinkEnter? && event.vehicleId !in carrier.vehicles ==>
                r == Fail(NullPointer) && score == old(score) && tollingCounter == old(tollingCounter)
      ensures event.LinkEnter? && event.vehicleId in carrier.vehicles ==>
                && r.Pass?
                && if old(Tolls(carrier.vehicles[event.vehicleId].id, event.linkId))
                   then tollingCounter == old(tollingCounter) + 1 && score == old(score) - toll
                   else tollingCounter == old(tollingCounter) && score == old(score)
    {
      if !event.LinkEnter? {
        return Pass;
      }
      if event.vehicleId !in carrier.vehicles {
        return Fail(NullPointer);
      }
      var vehicleTypeId := carrier.vehicles[event.vehicleId].id;
      if tollingCounter < maxNumberOfTollings {
        if vehicleTypeId in VehicleTypesToBeTolled {
          if event.linkId in TolledLinkList {
            tollingCounter := tollingCounter + 1;
            score := score - toll;
          }
        }
      }
      r := Pass;
    }

    /** With a non-negative toll the score never drops below the toll times the cap, negated. */
    lemma TollIsCapped()
      requires Valid() && toll >= 0.0
      ensures -toll * maxNumberOfTollings as real <= score <= 0.0
    {
      assert toll * (maxNumberOfTollings - tollingCounter) as real >= 0.0;
    }
  }

  /** The two scoring functions the factory sums for a carrier. */
  datatype SumScoringFunction = SumScoringFunction(eventBased: EventBasedScoring, tollBased: LinkBasedTollScoring)

  /** The scorer factory, with the network and scenario it is given and the toll it is set to. */
  class MyEventBasedCarrierScorer {
    const linkLengths: map<string, real>
    const scenarioVehicles: map<string, VehicleType>
    var toll: real

    constructor (linkLengths: map<string, real>, scenarioVehicles: map<string, VehicleType>)
      ensures this.linkLengths == linkLengths && this.scenarioVehicles == scenarioVehicles && toll == 0.0
    {
      this.linkLengths := linkLengths;
      this.scenarioVehicles := scenarioVehicles;
      toll := 0.0;
    }

    method SetToll(toll: real)
      modifies this`toll
      ensures this.toll == toll
    {
      this.toll := toll;
    }

    /** `createScoringFunction`: both scoring functions, new and at zero, the toll one with the current toll. */
    method CreateScoringFunction(carrier: Carrier) returns (sf: SumScoringFunction)
      ensures fresh(sf.eventBased) && fresh(sf.tollBased)
      ensures sf.eventBased.carrier == carrier && sf.eventBased.score == 0.0 && sf.eventBased.tourStartTime == map[]
      ensures sf.eventBased.scenarioVehicles == scenarioVehicles && sf.eventBased.linkLengths == linkLengths
      ensures sf.tollBased.Valid() && sf.tollBased.carrier == carrier && sf.tollBased.toll == toll
      ensures sf.tollBased.tollingCounter == 0 && sf.tollBased.maxNumberOfTollings == CountTolled(carrier.scheduledTours)
    {
      var eventBased := new EventBasedScoring(carrier, scenarioVehicles, linkLengths);
      var tollBased := new LinkBasedTollScoring(carrier, toll);
      sf := SumScoringFunction(eventBased, tollBased);
    }
  }
}
