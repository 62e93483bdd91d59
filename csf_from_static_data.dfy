/**
 * `CSFFromStaticData`: a stateless finder that answers from a fixed table.
 * Only the small van has carrier services; every other string, including
 * the other four valid vehicle types, gets an empty list.
 */
module StaticDataFinder {
  import opened CarrierServiceFinder
  import CarrierPricing

  /** The three carrier services offered for a small van, in table order. */
  const SmallVanServices: seq<CarrierService> := [
    CarrierService("RoyalPackages", 80, 1),
    CarrierService("Hercules", 35, 5),
    CarrierService("CollectTimes", 70, 1)
  ]

  /** `FindCarrierServicesForVehicle`: a switch on the vehicle type. Only the
      small van gets services, and no two of them share a name or a markup. */
  function FindCarrierServicesForVehicle(vehicleType: string): (r: seq<CarrierService>)
    ensures r != [] <==> vehicleType == CarrierPricing.VehicleTypeSmallVan
    ensures forall i, j :: 0 <= i < j < |r| ==> r[i].markup != r[j].markup && r[i].name != r[j].name
    ensures forall e :: e in r ==> e.markup > 0 && e.deliveryTime > 0
  {
    if vehicleType == CarrierPricing.VehicleTypeSmallVan then SmallVanServices else []
  }

  /** The table answers for the small van and for nothing else, and the
      answer for the small van is exactly the three services in order. */
  lemma StaticTable(vehicleType: string)
    ensures FindCarrierServicesForVehicle(vehicleType) != [] <==> vehicleType == "small_van"
    ensures vehicleType == "small_van" ==> FindCarrierServicesForVehicle(vehicleType) == [
      CarrierService("RoyalPackages", 80, 1),
      CarrierService("Hercules", 35, 5),
      CarrierService("CollectTimes", 70, 1)
    ]
  {
  }

  /** Every valid vehicle type other than the small van gets no services. */
  lemma OtherValidVehiclesEmpty(vehicleType: string)
    requires vehicleType in CarrierPricing.ValidVehicleTypes && vehicleType != CarrierPricing.VehicleTypeSmallVan
    ensures FindCarrierServicesForVehicle(vehicleType) == []
  {
  }
}
