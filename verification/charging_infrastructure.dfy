/**
 * The electric-vehicle charging infrastructure: the chargers by id, in the order their
 * ids were first added, with a read-only view of all of them, the ones on a given link,
 * and the step that gives every charger its charging logic.
 */
module ChargingInfrastructure {
  import opened Wrappers

  /** A charging logic made by a factory for one charger, with its event handling set up on an events manager. */
  datatype ChargingLogic = ChargingLogic(factory: string, chargerId: string, eventsManager: string)

  /** A charger: its id and link never change; its logic is set once the infrastructure is initialised. */
  class Charger {
    const id: string
    const linkId: string
    var logic: Option<ChargingLogic>

    constructor (id: string, linkId: string)
      ensures this.id == id && this.linkId == linkId && logic == None
    {
      this.id := id;
      this.linkId := linkId;
      logic := None;
    }
  }

  class ChargingInfrastructureImpl {
    /** The ids in insertion order, the order a linked hash map iterates in. */
    var order: seq<string>
    var chargers: map<string, Charger>

    /** Every id is listed once, in insertion order, and keys the charger that has it. */
    ghost predicate Valid()
      reads this
    {
      && (forall i, j :: 0 <= i < j < |order| ==> order[i] != order[j])
      && (forall k :: k in chargers <==> k in order)
      && (forall k :: k in chargers ==> chargers[k].id == k)
    }

    constructor ()
      ensures Valid() && order == [] && chargers == map[]
    {
      order := [];
      chargers := map[];
    }

    /** The stored chargers, the objects `initChargingLogics` updates. */
    function Chargers(): set<Charger>
      reads this
    {
      chargers.Values
    }

    /** `getChargers`: the stored entries, as an unmodifiable view, in insertion order. */
    function GetChargers(): (r: seq<(string, Charger)>)
      requires Valid()
      reads this
      ensures |r| == |order|
      ensures forall i :: 0 <= i < |r| ==> r[i].0 == order[i] && r[i].0 in chargers && r[i].1 == chargers[r[i].0]
    {
      seq(|order|, i requires 0 <= i < |order| && order[i] in chargers reads this => (order[i], chargers[order[i]]))
    }

    /** The view holds every stored charger once, under its own id, and nothing else. */
    lemma GetChargersExactlyStored()
      requires Valid()
      ensures |GetChargers()| == |chargers|
      ensures forall i :: 0 <= i < |GetChargers()| ==> GetChargers()[i].1.id == GetChargers()[i].0
      ensures forall k :: k in chargers ==> exists i :: 0 <= i < |GetChargers()| && GetChargers()[i].0 == k
      ensures forall i, j :: 0 <= i < j < |GetChargers()| ==> GetChargers()[i].0 != GetChargers()[j].0
    {
      DistinctCardinality(order, chargers.Keys);
      var r := GetChargers();
      assert forall k :: k in chargers ==> exists i :: 0 <= i < |order| && order[i] == k && r[i].0 == k;
    }

    /** `getChargersAtLink`: the stored chargers on `linkId`, each under its own id. */
    function GetChargersAtLink(linkId: string): (r: map<string, Charger>)
      requires Valid()
      reads this
      ensures forall k :: k in r <==> k in chargers && chargers[k].linkId == linkId
      ensures forall k :: k in r ==> r[k] == chargers[k] && r[k].id == k
    {
      map c | c in chargers.Values && c.linkId == linkId :: c.id := c
    }

    /**
     * `addCharger`: the charger is stored under its id, replacing any charger with that
     * id in place; a new id goes to the end of the order.
     */
    method AddCharger(charger: Charger)
      requires Valid()
      modifies this
      ensures Valid()
      ensures chargers == old(chargers)[charger.id := charger]
      ensures order == if charger.id in old(chargers) then old(order) else old(order) + [charger.id]
    {
      if charger.id !in chargers {
        order := order + [charger.id];
      }
      chargers := chargers[charger.id := charger];
    }

    /** `initChargingLogics`: every stored charger gets a logic the factory makes for it; nothing else changes. */
    method InitChargingLogics(factory: string, eventsManager: string)
      requires Valid()
      modifies Chargers()
      ensures forall k :: k in chargers ==> chargers[k].logic == Some(ChargingLogic(factory, k, eventsManager))
    {
      for i := 0 to |order|
        invariant forall j :: 0 <= j < i ==> chargers[order[j]].logic == Some(ChargingLogic(factory, order[j], eventsManager))
      {
        var c := chargers[order[i]];
        var logic := ChargingLogic(factory, c.id, eventsManager);
        c.logic := Some(logic);
      }
    }
  }

  /** A duplicate-free list of the elements of a set is as long as the set is large. */
  lemma {:induction false} DistinctCardinality(xs: seq<string>, s: set<string>)
    requires forall i, j :: 0 <= i < j < |xs| ==> xs[i] != xs[j]
    requires forall x :: x in s <==> x in xs
    ensures |xs| == |s|
  {
    if xs != [] {
      var last := xs[|xs| - 1];
      var init := xs[..|xs| - 1];
      assert forall x :: x in s - {last} <==> x in init;
      DistinctCardinality(init, s - {last});
    }
  }
}
