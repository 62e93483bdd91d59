/**
 * The record a carrier-service finder hands to the quote service. A finder is
 * a total lookup from a vehicle-type string to a possibly empty sequence of
 * these records, with no error result; the closed set of finders this model
 * knows is `Finders.Finder`.
 */
module CarrierServiceFinder {

  /** One way a carrier can deliver with a given vehicle. `markup` is already
      the carrier's combined markup (base markup plus service markup), and
      `deliveryTime` is in minutes. */
  datatype CarrierService = CarrierService(name: string, markup: int, deliveryTime: int)
}
