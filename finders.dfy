/**
 * The `CarrierServiceFinder` interface: from a vehicle-type string to a
 * possibly empty sequence of carrier services, total and without an error
 * result. Its two implementations are alternatives of `Finder`; `Other`
 * stands for any further implementation, given by what it returns.
 */
module Finders {
  import opened CarrierServiceFinder
  import StaticDataFinder
  import JSONFileFinder

  datatype Finder =
    | StaticData
    | JSONFile(csf: JSONFileFinder.CSFFromJSONFile)
    | Other(find: string -> seq<CarrierService>)

  /** What the finder returns for a vehicle type. */
  function Offers(finder: Finder, vehicleType: string): seq<CarrierService> {
    match finder
    case StaticData => StaticDataFinder.FindCarrierServicesForVehicle(vehicleType)
    case JSONFile(csf) => JSONFileFinder.Matching(csf.carriers, vehicleType)
    case Other(find) => find(vehicleType)
  }

  /** `FindCarrierServicesForVehicle` called through the interface. */
  method FindCarrierServicesForVehicle(finder: Finder, vehicleType: string) returns (carrierServices: seq<CarrierService>)
    ensures carrierServices == Offers(finder, vehicleType)
  {
    match finder
    case StaticData =>
      carrierServices := StaticDataFinder.FindCarrierServicesForVehicle(vehicleType);
    case JSONFile(csf) =>
      carrierServices := csf.FindCarrierServicesForVehicle(vehicleType);
    case Other(find) =>
      carrierServices := find(vehicleType);
  }
}
