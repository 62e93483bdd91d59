/**
 * `Service`: the quote service. It holds the carrier-service finder chosen at
 * start-up and offers the three quote operations. Each operation checks in a
 * fixed order (vehicle, then the pickup and delivery postcodes, then an empty
 * finder result) and the first failing check decides the error; a successful
 * response echoes the request's arguments.
 */
module QuoteService {
  import opened Wrappers
  import opened CarrierPricing
  import Finders

  class Service {
    /** Set by `NewService` and never changed. */
    const carrierServiceFinder: Finders.Finder

    /** `NewService`; the logger is not modelled. */
    constructor (carrierServiceFinder: Finders.Finder)
      ensures this.carrierServiceFinder == carrierServiceFinder
    {
      this.carrierServiceFinder := carrierServiceFinder;
    }

    /** `GetBasicQuote`: the base price between the two postcodes. */
    function GetBasicQuote(args: GetBasicQuoteArgs): (r: Result<GetBasicQuoteResponse, Error>)
      ensures r.Ok? <==> CalculateBasePrice(args.pickupPostcode, args.deliveryPostcode).Ok?
      ensures r.Err? ==> r.error == CalculateBasePrice(args.pickupPostcode, args.deliveryPostcode).error
      ensures r.Ok? ==>
        (r.value.args == args &&
         r.value.price == CalculateBasePrice(args.pickupPostcode, args.deliveryPostcode).value)
    {
      match CalculateBasePrice(args.pickupPostcode, args.deliveryPostcode)
      case Err(e) => Err(e)
      case Ok(basePrice) =>
        Ok(GetBasicQuoteResponse(GetBasicQuoteArgs(args.pickupPostcode, args.deliveryPostcode), basePrice))
    }

    /** `GetQuotesByVehicle`: the base price with the vehicle's markup. */
    method GetQuotesByVehicle(args: GetQuotesByVehicleArgs) returns (r: Result<GetQuotesByVehicleResponse, Error>)
      ensures args.vehicle !in ValidVehicleTypes ==> r == Err(InvalidVehicle)
      ensures args.vehicle in ValidVehicleTypes && CalculateBasePrice(args.pickupPostcode, args.deliveryPostcode).Err? ==>
        r == Err(CalculateBasePrice(args.pickupPostcode, args.deliveryPostcode).error)
      ensures args.vehicle in ValidVehicleTypes && CalculateBasePrice(args.pickupPostcode, args.deliveryPostcode).Ok? ==>
        r.Ok? && r.value.args == args &&
        r.value.price == ApplyVehicleMarkup(CalculateBasePrice(args.pickupPostcode, args.deliveryPostcode).value, args.vehicle)
    {
      var valid := IsVehicleValid(args.vehicle);
      if !valid {
        return Err(InvalidVehicle);
      }
      var basePrice := CalculateBasePrice(args.pickupPostcode, args.deliveryPostcode);
      if basePrice.Err? {
        return Err(basePrice.error);
      }
      var priceByVehicle := ApplyVehicleMarkup(basePrice.value, args.vehicle);
      r := Ok(GetQuotesByVehicleResponse(
        GetQuotesByVehicleArgs(args.pickupPostcode, args.deliveryPostcode, args.vehicle), priceByVehicle));
    }

    /** `GetQuotesByCarrier`: one price per carrier service the finder offers
        for the vehicle, sorted by amount. */
    method GetQuotesByCarrier(args: GetQuotesByCarrierArgs) returns (r: Result<GetQuotesByCarrierResponse, Error>)
      ensures args.vehicle !in ValidVehicleTypes ==> r == Err(InvalidVehicle)
      ensures args.vehicle in ValidVehicleTypes && CalculateBasePrice(args.pickupPostcode, args.deliveryPostcode).Err? ==>
        r == Err(CalculateBasePrice(args.pickupPostcode, args.deliveryPostcode).error)
      ensures (args.vehicle in ValidVehicleTypes && CalculateBasePrice(args.pickupPostcode, args.deliveryPostcode).Ok? &&
               Finders.Offers(carrierServiceFinder, args.vehicle) == []) ==>
        r == Err(NoAvailableCarrierServicesForVehicle)
      ensures (args.vehicle in ValidVehicleTypes && CalculateBasePrice(args.pickupPostcode, args.deliveryPostcode).Ok? &&
               Finders.Offers(carrierServiceFinder, args.vehicle) != []) ==>
        (r.Ok? && r.value.args == args &&
         IsPriceList(r.value.priceList,
                     ApplyVehicleMarkup(CalculateBasePrice(args.pickupPostcode, args.deliveryPostcode).value, args.vehicle),
                     Finders.Offers(carrierServiceFinder, args.vehicle)))
      ensures r.Ok? ==> r.value.priceList != []
    {
      var valid := IsVehicleValid(args.vehicle);
      if !valid {
        return Err(InvalidVehicle);
      }
      var basePrice := CalculateBasePrice(args.pickupPostcode, args.deliveryPostcode);
      if basePrice.Err? {
        return Err(basePrice.error);
      }
      var priceByVehicle := ApplyVehicleMarkup(basePrice.value, args.vehicle);
      var availableCarrierServices := Finders.FindCarrierServicesForVehicle(carrierServiceFinder, args.vehicle);
      if |availableCarrierServices| == 0 {
        return Err(NoAvailableCarrierServicesForVehicle);
      }
      var priceList := GetPriceListFromPriceAndCarrierServices(priceByVehicle, availableCarrierServices);
      PriceListEntries(priceList, priceByVehicle, availableCarrierServices);
      r := Ok(GetQuotesByCarrierResponse(
        GetQuotesByVehicleArgs(args.pickupPostcode, args.deliveryPostcode, args.vehicle), priceList));
    }
  }
}
