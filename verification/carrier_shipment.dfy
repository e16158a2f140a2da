/**
 * A freight shipment from a pickup link to a delivery link, with a demand, a start
 * time window and a duration for each end, built through a builder. Identity is by id:
 * two shipments are equal when their ids are, and hash accordingly.
 */
module Shipments {
  import opened Wrappers

  /** Java's `int`: the range the hash code lives in. */
  newtype Int32 = x: int | -0x8000_0000 <= x < 0x8000_0000

  /** Two's-complement wrap-around of a Java `int` expression. */
  function Wrap32(x: int): (r: Int32)
    ensures -0x8000_0000 <= x < 0x8000_0000 ==> r as int == x
    ensures (r as int - x) % 0x1_0000_0000 == 0
  {
    var m := (x + 0x8000_0000) % 0x1_0000_0000;
    (m - 0x8000_0000) as Int32
  }

  /** A time window `[start, end]`; `double` bounds become exact reals. */
  datatype TimeWindow = TimeWindow(start: real, end: real)

  /** `Integer.MAX_VALUE`, the open end of a default time window. */
  const IntegerMaxValue: real := 2147483647.0

  /** The window a builder starts with at either end: `[0.0, Integer.MAX_VALUE]`. */
  const DefaultWindow: TimeWindow := TimeWindow(0.0, IntegerMaxValue)

  /**
   * The shipment's `Builder`: id, links and demand are fixed when it is created; the
   * windows and durations start at their defaults and each setter replaces one of them.
   */
  class Builder {
    const id: Option<string>
    const demand: int
    const pickupLinkId: Option<string>
    const deliveryLinkId: Option<string>
    var pickupStartsTimeWindow: TimeWindow
    var pickupDuration: real
    var deliveryStartsTimeWindow: TimeWindow
    var deliveryDuration: real

    /** `Builder.newInstance(id, from, to, demand)`. */
    constructor (id: Option<string>, from: Option<string>, to: Option<string>, demand: int)
      ensures this.id == id && pickupLinkId == from && deliveryLinkId == to && this.demand == demand
      ensures pickupStartsTimeWindow == DefaultWindow && deliveryStartsTimeWindow == DefaultWindow
      ensures pickupDuration == 0.0 && deliveryDuration == 0.0
    {
      this.id := id;
      this.pickupLinkId := from;
      this.deliveryLinkId := to;
      this.demand := demand;
      pickupStartsTimeWindow := DefaultWindow;
      pickupDuration := 0.0;
      deliveryStartsTimeWindow := DefaultWindow;
      deliveryDuration := 0.0;
    }

    method SetPickupStartsTimeWindow(tw: TimeWindow) returns (b: Builder)
      modifies this`pickupStartsTimeWindow
      ensures b == this && pickupStartsTimeWindow == tw
    {
      pickupStartsTimeWindow := tw;
      return this;
    }

    method SetPickupDuration(d: real) returns (b: Builder)
      modifies this`pickupDuration
      ensures b == this && pickupDuration == d
    {
      pickupDuration := d;
      return this;
    }

    method SetDeliveryStartsTimeWindow(tw: TimeWindow) returns (b: Builder)
      modifies this`deliveryStartsTimeWindow
      ensures b == this && deliveryStartsTimeWindow == tw
    {
      deliveryStartsTimeWindow := tw;
      return this;
    }

    method SetDeliveryDuration(d: real) returns (b: Builder)
      modifies this`deliveryDuration
      ensures b == this && deliveryDuration == d
    {
      deliveryDuration := d;
      return this;
    }

    /** Deprecated alias of `setPickupStartsTimeWindow`. */
    method SetPickupTimeWindow(tw: TimeWindow) returns (b: Builder)
      modifies this`pickupStartsTimeWindow
      ensures b == this && pickupStartsTimeWindow == tw
    {
      b := SetPickupStartsTimeWindow(tw);
    }

    /** Deprecated alias of `setPickupDuration`. */
    method SetPickupServiceTime(d: real) returns (b: Builder)
      modifies this`pickupDuration
      ensures b == this && pickupDuration == d
    {
      b := SetPickupDuration(d);
    }

    /** Deprecated alias of `setDeliveryStartsTimeWindow`. */
    method SetDeliveryTimeWindow(tw: TimeWindow) returns (b: Builder)
      modifies this`deliveryStartsTimeWindow
      ensures b == this && deliveryStartsTimeWindow == tw
    {
      b := SetDeliveryStartsTimeWindow(tw);
    }

    /** Deprecated alias of `setDeliveryDuration`. */
    method SetDeliveryServiceTime(d: real) returns (b: Builder)
      modifies this`deliveryDuration
      ensures b == this && deliveryDuration == d
    {
      b := SetDeliveryDuration(d);
    }

    /** `build()`: a new shipment carrying every field of the builder. */
    method Build() returns (s: CarrierShipment)
      ensures fresh(s)
      ensures s.id == id && s.demand == demand && s.pickupLinkId == pickupLinkId && s.deliveryLinkId == deliveryLinkId
      ensures s.pickupStartsTimeWindow == pickupStartsTimeWindow && s.deliveryStartsTimeWindow == deliveryStartsTimeWindow
      ensures s.pickupDuration == pickupDuration && s.deliveryDuration == deliveryDuration
    {
      s := new CarrierShipment(this);
    }
  }

  /** What `equals` may be handed: null, a shipment, or an object of another class. */
  datatype Candidate = NullRef | AShipment(shipment: CarrierShipment) | OtherClass

  class CarrierShipment {
    const id: Option<string>
    const demand: int
    const pickupLinkId: Option<string>
    const deliveryLinkId: Option<string>
    const pickupStartsTimeWindow: TimeWindow
    const deliveryStartsTimeWindow: TimeWindow
    /** The only fields that change after construction, through the deprecated setters. */
    var pickupDuration: real
    var deliveryDuration: real

    /** The private constructor: every field is copied from the builder. */
    constructor (b: Builder)
      ensures id == b.id && demand == b.demand && pickupLinkId == b.pickupLinkId && deliveryLinkId == b.deliveryLinkId
      ensures pickupStartsTimeWindow == b.pickupStartsTimeWindow && deliveryStartsTimeWindow == b.deliveryStartsTimeWindow
      ensures pickupDuration == b.pickupDuration && deliveryDuration == b.deliveryDuration
    {
      id := b.id;
      pickupLinkId := b.pickupLinkId;
      deliveryLinkId := b.deliveryLinkId;
      demand := b.demand;
      pickupDuration := b.pickupDuration;
      deliveryDuration := b.deliveryDuration;
      pickupStartsTimeWindow := b.pickupStartsTimeWindow;
      deliveryStartsTimeWindow := b.deliveryStartsTimeWindow;
    }

    method SetPickupDuration(d: real)
      modifies this`pickupDuration
      ensures pickupDuration == d
    {
      pickupDuration := d;
    }

    method SetDeliveryDuration(d: real)
      modifies this`deliveryDuration
      ensures deliveryDuration == d
    {
      deliveryDuration := d;
    }

    /** Deprecated alias of `setPickupDuration`. */
    method SetPickupServiceTime(d: real)
      modifies this`pickupDuration
      ensures pickupDuration == d
    {
      SetPickupDuration(d);
    }

    /** Deprecated alias of `setDeliveryDuration`. */
    method SetDeliveryServiceTime(d: real)
      modifies this`deliveryDuration
      ensures deliveryDuration == d
    {
      SetDeliveryDuration(d);
    }

    function GetCapacityDemand(): int
    {
      demand
    }

    function GetPickupDuration(): real
      reads this
    {
      pickupDuration
    }

    function GetDeliveryDuration(): real
      reads this
    {
      deliveryDuration
    }

    /** Deprecated `getSize`: the capacity demand. */
    function GetSize(): (r: int)
      ensures r == GetCapacityDemand()
    {
      GetCapacityDemand()
    }

    /** Deprecated `getFrom`: the pickup link. */
    function GetFrom(): (r: Option<string>)
      ensures r == pickupLinkId
    {
      pickupLinkId
    }

    /** Deprecated `getTo`: the delivery link. */
    function GetTo(): (r: Option<string>)
      ensures r == deliveryLinkId
    {
      deliveryLinkId
    }

    /** Deprecated `getPickupTimeWindow`: the pickup start window. */
    function GetPickupTimeWindow(): (r: TimeWindow)
      ensures r == pickupStartsTimeWindow
    {
      pickupStartsTimeWindow
    }

    /** Deprecated `getDeliveryTimeWindow`: the delivery start window. */
    function GetDeliveryTimeWindow(): (r: TimeWindow)
      ensures r == deliveryStartsTimeWindow
    {
      deliveryStartsTimeWindow
    }

    /** Deprecated `getPickupServiceTime`: the pickup duration. */
    function GetPickupServiceTime(): (r: real)
      reads this
      ensures r == GetPickupDuration()
    {
      GetPickupDuration()
    }

    /** Deprecated `getDeliveryServiceTime`: the delivery duration. */
    function GetDeliveryServiceTime(): (r: real)
      reads this
      ensures r == GetDeliveryDuration()
    {
      GetDeliveryDuration()
    }

    /**
     * `hashCode`: `31 * 1 + id.hashCode()` in `int` arithmetic, 31 for a null id;
     * `idHash` is the id's own hash code.
     */
    function HashCode(idHash: string -> Int32): (r: Int32)
      ensures id.None? ==> r == 31
      ensures id.Some? ==> (r as int - 31 - idHash(id.value) as int) % 0x1_0000_0000 == 0
    {
      Wrap32(31 * 1 + if id.None? then 0 else idHash(id.value) as int)
    }

    /**
     * `equals`: the same object, or a shipment with an equal (or equally null) id. The
     * reference check only shortcuts: what decides is the id.
     */
    predicate Equals(obj: Candidate)
      ensures obj.NullRef? || obj.OtherClass? ==> !Equals(obj)
      ensures obj.AShipment? ==> (Equals(obj) <==> id == obj.shipment.id)
    {
      match obj
      case NullRef => false
      case OtherClass => false
      case AShipment(other) => other == this || id == other.id
    }
  }

  /** `equals` is reflexive, rejects null and other classes, and compares ids and nothing else. */
  lemma EqualsById(a: CarrierShipment, b: CarrierShipment)
    ensures a.Equals(AShipment(a))
    ensures !a.Equals(NullRef) && !a.Equals(OtherClass)
    ensures a.Equals(AShipment(b)) <==> a.id == b.id
    ensures a.Equals(AShipment(b)) <==> b.Equals(AShipment(a))
  {
  }

  /** Equal shipments have equal hash codes, whatever the ids hash to. */
  lemma EqualsHashCode(a: CarrierShipment, b: CarrierShipment, idHash: string -> Int32)
    requires a.Equals(AShipment(b))
    ensures a.HashCode(idHash) == b.HashCode(idHash)
  {
  }

  /** A builder used as is builds a shipment with both windows `[0, Integer.MAX_VALUE]` and zero durations. */
  method DefaultShipment(id: Option<string>, from: Option<string>, to: Option<string>, demand: int)
    returns (s: CarrierShipment)
    ensures s.id == id && s.pickupLinkId == from && s.deliveryLinkId == to && s.demand == demand
    ensures s.pickupStartsTimeWindow == DefaultWindow && s.deliveryStartsTimeWindow == DefaultWindow
    ensures s.pickupDuration == 0.0 && s.deliveryDuration == 0.0
  {
    var b := new Builder(id, from, to, demand);
    s := b.Build();
  }
}
