/**
 * `CSFFromJSONFile`: a finder over carriers loaded once, at construction,
 * from a JSON document (the loading itself is not modelled: the object is
 * built from the already-decoded carriers). A lookup flattens the carriers,
 * their services and each service's vehicle list, and emits one entry for
 * every vehicle entry equal to the query.
 */
module JSONFileFinder {
  import opened CarrierServiceFinder

  /** A decoded `service` record. */
  datatype Service = Service(deliveryTime: int, markup: int, vehicles: seq<string>)

  /** A decoded `carrier` record. */
  datatype Carrier = Carrier(name: string, basePrice: int, services: seq<Service>)

  /** The entry a matching vehicle entry of service s of carrier c emits. */
  function Emit(c: Carrier, s: Service): CarrierService {
    CarrierService(c.name, c.basePrice + s.markup, s.deliveryTime)
  }

  /** Entries emitted by the vehicle entries `vehicles` of service s. */
  function VehicleEntries(c: Carrier, s: Service, vehicles: seq<string>, vehicleType: string): seq<CarrierService> {
    if vehicles == [] then []
    else VehicleEntries(c, s, vehicles[..|vehicles| - 1], vehicleType) +
         (if vehicles[|vehicles| - 1] == vehicleType then [Emit(c, s)] else [])
  }

  /** Entries emitted by the services `services` of carrier c. */
  function ServiceEntries(c: Carrier, services: seq<Service>, vehicleType: string): seq<CarrierService> {
    if services == [] then []
    else
      var s := services[|services| - 1];
      ServiceEntries(c, services[..|services| - 1], vehicleType) + VehicleEntries(c, s, s.vehicles, vehicleType)
  }

  /** Entries emitted by the carriers `carriers`, carrier by carrier. */
  function Matching(carriers: seq<Carrier>, vehicleType: string): seq<CarrierService> {
    if carriers == [] then []
    else
      var c := carriers[|carriers| - 1];
      Matching(carriers[..|carriers| - 1], vehicleType) + ServiceEntries(c, c.services, vehicleType)
  }

  /** Service j of carrier i lists vehicleType at least once. */
  predicate ServiceLists(carriers: seq<Carrier>, i: nat, j: nat, vehicleType: string)
    requires i < |carriers| && j < |carriers[i].services|
  {
    vehicleType in carriers[i].services[j].vehicles
  }

  /** Independent count of the matching (carrier, service, vehicle entry)
      triples: how often vehicleType occurs in each vehicle list. */
  function ServicesMatchCount(services: seq<Service>, vehicleType: string): nat {
    if services == [] then 0
    else multiset(services[0].vehicles)[vehicleType] + ServicesMatchCount(services[1..], vehicleType)
  }

  function MatchCount(carriers: seq<Carrier>, vehicleType: string): nat {
    if carriers == [] then 0
    else ServicesMatchCount(carriers[0].services, vehicleType) + MatchCount(carriers[1..], vehicleType)
  }

  class CSFFromJSONFile {
    /** Set once by the constructor and never changed by a lookup. */
    const carriers: seq<Carrier>

    /** `NewCSFFromJSONFile` after a successful read and decode. */
    constructor (carriers: seq<Carrier>)
      ensures this.carriers == carriers
    {
      this.carriers := carriers;
    }

    /** `FindCarrierServicesForVehicle`: three nested loops appending every
        match. The result depends on the vehicle type and the loaded carriers
        only, so repeated lookups return equal sequences. */
    method FindCarrierServicesForVehicle(vehicleType: string) returns (carrierServices: seq<CarrierService>)
      ensures carrierServices == Matching(carriers, vehicleType)
    {
      carrierServices := [];
      for i := 0 to |carriers|
        invariant carrierServices == Matching(carriers[..i], vehicleType)
      {
        var carrier := carriers[i];
        ghost var before := carrierServices;
        for j := 0 to |carrier.services|
          invariant carrierServices == before + ServiceEntries(carrier, carrier.services[..j], vehicleType)
        {
          var service := carrier.services[j];
          ghost var beforeService := carrierServices;
          for k := 0 to |service.vehicles|
            invariant carrierServices == beforeService + VehicleEntries(carrier, service, service.vehicles[..k], vehicleType)
          {
            if vehicleType == service.vehicles[k] {
              carrierServices := carrierServices + [CarrierService(carrier.name, carrier.basePrice + service.markup,
                                                                   service.deliveryTime)];
            }
            assert service.vehicles[..k + 1][..k] == service.vehicles[..k];
          }
          assert service.vehicles[..|service.vehicles|] == service.vehicles;
          assert carrier.services[..j + 1][..j] == carrier.services[..j];
        }
        assert carrier.services[..|carrier.services|] == carrier.services;
        assert carriers[..i + 1][..i] == carriers[..i];
      }
      assert carriers[..|carriers|] == carriers;
    }
  }

  // ---------------------------------------------------------------------------
  // Properties of a lookup

  /** A service emits one copy of its entry per vehicle entry equal to the
      query: duplicates give duplicates, and matching is plain equality. */
  lemma {:induction false} VehicleEntriesSpec(c: Carrier, s: Service, vehicles: seq<string>, vehicleType: string)
    ensures |VehicleEntries(c, s, vehicles, vehicleType)| == multiset(vehicles)[vehicleType]
    ensures forall e :: e in VehicleEntries(c, s, vehicles, vehicleType) ==> e == Emit(c, s)
  {
    if vehicles != [] {
      var n := |vehicles| - 1;
      VehicleEntriesSpec(c, s, vehicles[..n], vehicleType);
      assert vehicles == vehicles[..n] + [vehicles[n]];
    }
  }

  /** Order of a lookup, innermost level: earlier vehicle entries first. */
  lemma {:induction false} VehicleEntriesAppend(c: Carrier, s: Service, v1: seq<string>, v2: seq<string>, vehicleType: string)
    ensures VehicleEntries(c, s, v1 + v2, vehicleType) ==
      VehicleEntries(c, s, v1, vehicleType) + VehicleEntries(c, s, v2, vehicleType)
    decreases |v2|
  {
    if v2 != [] {
      var n := |v2| - 1;
      assert (v1 + v2)[..|v1 + v2| - 1] == v1 + v2[..n];
      VehicleEntriesAppend(c, s, v1, v2[..n], vehicleType);
    } else {
      assert v1 + v2 == v1;
    }
  }

  /** Order of a lookup, middle level: earlier services first. */
  lemma {:induction false} ServiceEntriesAppend(c: Carrier, s1: seq<Service>, s2: seq<Service>, vehicleType: string)
    ensures ServiceEntries(c, s1 + s2, vehicleType) ==
      ServiceEntries(c, s1, vehicleType) + ServiceEntries(c, s2, vehicleType)
    decreases |s2|
  {
    if s2 != [] {
      var n := |s2| - 1;
      assert (s1 + s2)[..|s1 + s2| - 1] == s1 + s2[..n];
      ServiceEntriesAppend(c, s1, s2[..n], vehicleType);
    } else {
      assert s1 + s2 == s1;
    }
  }

  /** Order of a lookup, outer level: the entries of earlier carriers come
      before those of later carriers. */
  lemma {:induction false} MatchingAppend(c1: seq<Carrier>, c2: seq<Carrier>, vehicleType: string)
    ensures Matching(c1 + c2, vehicleType) == Matching(c1, vehicleType) + Matching(c2, vehicleType)
    decreases |c2|
  {
    if c2 != [] {
      var n := |c2| - 1;
      assert (c1 + c2)[..|c1 + c2| - 1] == c1 + c2[..n];
      MatchingAppend(c1, c2[..n], vehicleType);
    } else {
      assert c1 + c2 == c1;
    }
  }

  lemma {:induction false} ServiceEntriesCount(c: Carrier, services: seq<Service>, vehicleType: string)
    ensures |ServiceEntries(c, services, vehicleType)| == ServicesMatchCount(services, vehicleType)
  {
    if services != [] {
      ServiceEntriesAppend(c, [services[0]], services[1..], vehicleType);
      assert [services[0]] + services[1..] == services;
      ServiceEntriesCount(c, services[1..], vehicleType);
      assert [services[0]][..0] == [];
      VehicleEntriesSpec(c, services[0], services[0].vehicles, vehicleType);
    }
  }

  /** A lookup returns exactly one entry per matching (carrier, service,
      vehicle entry) triple. */
  lemma {:induction false} MatchingCountSpec(carriers: seq<Carrier>, vehicleType: string)
    ensures |Matching(carriers, vehicleType)| == MatchCount(carriers, vehicleType)
  {
    if carriers != [] {
      MatchingAppend([carriers[0]], carriers[1..], vehicleType);
      assert [carriers[0]] + carriers[1..] == carriers;
      MatchingCountSpec(carriers[1..], vehicleType);
      assert [carriers[0]][..0] == [];
      ServiceEntriesCount(carriers[0], carriers[0].services, vehicleType);
    }
  }

  lemma {:induction false} ServiceEntriesMembers(c: Carrier, services: seq<Service>, vehicleType: string, e: CarrierService)
    ensures e in ServiceEntries(c, services, vehicleType) <==>
      exists j :: 0 <= j < |services| && vehicleType in services[j].vehicles && e == Emit(c, services[j])
  {
    if services != [] {
      var n := |services| - 1;
      var s := services[n];
      ServiceEntriesMembers(c, services[..n], vehicleType, e);
      VehicleEntriesSpec(c, s, s.vehicles, vehicleType);
      assert vehicleType in s.vehicles <==> multiset(s.vehicles)[vehicleType] > 0;
      if exists j :: 0 <= j < |services| && vehicleType in services[j].vehicles && e == Emit(c, services[j]) {
        var j :| 0 <= j < |services| && vehicleType in services[j].vehicles && e == Emit(c, services[j]);
        if j < n {
          assert services[..n][j] == services[j];
        } else {
          var ve := VehicleEntries(c, s, s.vehicles, vehicleType);
          assert e == Emit(c, s) && |ve| > 0;
          assert ve[0] in ve;
          assert ve[0] == e;
        }
      }
    }
  }

  /** e is what service j of carrier i emits, and that service lists
      vehicleType. */
  predicate EmitsAt(carriers: seq<Carrier>, i: int, j: int, vehicleType: string, e: CarrierService) {
    0 <= i < |carriers| && 0 <= j < |carriers[i].services| &&
    ServiceLists(carriers, i, j, vehicleType) && e == Emit(carriers[i], carriers[i].services[j])
  }

  lemma {:induction false} MatchingSound(carriers: seq<Carrier>, vehicleType: string, e: CarrierService)
    requires e in Matching(carriers, vehicleType)
    ensures exists i, j :: EmitsAt(carriers, i, j, vehicleType, e)
  {
    var n := |carriers| - 1;
    var c := carriers[n];
    if e in Matching(carriers[..n], vehicleType) {
      MatchingSound(carriers[..n], vehicleType, e);
      var i, j :| EmitsAt(carriers[..n], i, j, vehicleType, e);
      assert carriers[..n][i] == carriers[i];
      assert EmitsAt(carriers, i, j, vehicleType, e);
    } else {
      ServiceEntriesMembers(c, c.services, vehicleType, e);
      var j :| 0 <= j < |c.services| && vehicleType in c.services[j].vehicles && e == Emit(c, c.services[j]);
      assert EmitsAt(carriers, n, j, vehicleType, e);
    }
  }

  lemma {:induction false} MatchingComplete(carriers: seq<Carrier>, vehicleType: string, i: int, j: int, e: CarrierService)
    requires EmitsAt(carriers, i, j, vehicleType, e)
    ensures e in Matching(carriers, vehicleType)
  {
    var n := |carriers| - 1;
    var c := carriers[n];
    if i < n {
      assert carriers[..n][i] == carriers[i];
      assert EmitsAt(carriers[..n], i, j, vehicleType, e);
      MatchingComplete(carriers[..n], vehicleType, i, j, e);
    } else {
      ServiceEntriesMembers(c, c.services, vehicleType, e);
    }
  }

  /** An entry is returned exactly when some service of some carrier lists
      the queried vehicle type, and it is that carrier's name, the carrier's
      base price plus the service's markup, and the service's delivery time. */
  lemma MatchingMembers(carriers: seq<Carrier>, vehicleType: string, e: CarrierService)
    ensures e in Matching(carriers, vehicleType) <==> exists i, j :: EmitsAt(carriers, i, j, vehicleType, e)
  {
    if e in Matching(carriers, vehicleType) {
      MatchingSound(carriers, vehicleType, e);
    }
    if exists i, j :: EmitsAt(carriers, i, j, vehicleType, e) {
      var i, j :| EmitsAt(carriers, i, j, vehicleType, e);
      MatchingComplete(carriers, vehicleType, i, j, e);
    }
  }

  /** A vehicle type that no service lists yields an empty lookup, and only
      such a vehicle type does. */
  lemma MatchingEmpty(carriers: seq<Carrier>, vehicleType: string)
    ensures Matching(carriers, vehicleType) == [] <==>
      forall i, j :: 0 <= i < |carriers| && 0 <= j < |carriers[i].services| ==> !ServiceLists(carriers, i, j, vehicleType)
  {
    if Matching(carriers, vehicleType) != [] {
      MatchingMembers(carriers, vehicleType, Matching(carriers, vehicleType)[0]);
    }
    forall i, j | 0 <= i < |carriers| && 0 <= j < |carriers[i].services| && ServiceLists(carriers, i, j, vehicleType)
      ensures Matching(carriers, vehicleType) != []
    {
      MatchingComplete(carriers, vehicleType, i, j, Emit(carriers[i], carriers[i].services[j]));
    }
  }
}
