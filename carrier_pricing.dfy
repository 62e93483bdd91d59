/**
 * The computations of the quote service (package carrierpricing): the vehicle
 * constants, the base price derived from two postcodes, the vehicle markup
 * and the by-carrier price list. The `Service` object that puts them together
 * with a carrier-service finder is in module `QuoteService`.
 *
 * Float arithmetic is idealised: the base price is the exact integer
 * |pickup - delivery| div 100000000, and a vehicle factor is an integer
 * percentage applied to the exact rational and rounded half to even.
 */
module CarrierPricing {
  import opened Wrappers
  import opened Strconv
  import opened CarrierServiceFinder
  import opened PriceLists

  const VehicleTypeBicycle: string := "bicycle"
  const VehicleTypeMotorbike: string := "motorbike"
  const VehicleTypeParcelCar: string := "parcel_car"
  const VehicleTypeSmallVan: string := "small_van"
  const VehicleTypeLargeVan: string := "large_van"

  /** All the available vehicles. */
  const ValidVehicleTypes: seq<string> := [
    VehicleTypeBicycle,
    VehicleTypeMotorbike,
    VehicleTypeParcelCar,
    VehicleTypeSmallVan,
    VehicleTypeLargeVan
  ]

  /** The factor applied to the base price for each vehicle, in percent
      (1.1, 1.15, 1.2, 1.3 and 1.4 in the float table). */
  const VehiclesMarkupTable: map<string, nat> := map[
    VehicleTypeBicycle := 110,
    VehicleTypeMotorbike := 115,
    VehicleTypeParcelCar := 120,
    VehicleTypeSmallVan := 130,
    VehicleTypeLargeVan := 140
  ]

  /** The denominator of the percentages in `VehiclesMarkupTable`. */
  const PercentScale: nat := 100

  /** `someLargeNumber`: the postcode distance per unit of base price. */
  const SomeLargeNumber: nat := 100000000

  /** `errInvalidVehicle`, `errNoAvailableCarrierServicesForVehicle` and the
      `*strconv.NumError` a postcode that does not parse produces. */
  datatype Error =
    | InvalidVehicle
    | NoAvailableCarrierServicesForVehicle
    | ParseIntError(cause: NumError)

  datatype GetBasicQuoteArgs = GetBasicQuoteArgs(pickupPostcode: string, deliveryPostcode: string)

  datatype GetBasicQuoteResponse = GetBasicQuoteResponse(args: GetBasicQuoteArgs, price: int)

  /** The embedded `GetBasicQuoteArgs` is flattened into its two fields. */
  datatype GetQuotesByVehicleArgs =
    GetQuotesByVehicleArgs(pickupPostcode: string, deliveryPostcode: string, vehicle: string)

  datatype GetQuotesByVehicleResponse = GetQuotesByVehicleResponse(args: GetQuotesByVehicleArgs, price: int)

  type GetQuotesByCarrierArgs = GetQuotesByVehicleArgs

  datatype GetQuotesByCarrierResponse =
    GetQuotesByCarrierResponse(args: GetQuotesByCarrierArgs, priceList: seq<PriceByCarrier>)

  function Abs(x: int): nat {
    if x < 0 then -x else x
  }

  // ---------------------------------------------------------------------------
  // Base price

  /** price is |pickup - delivery| divided by `SomeLargeNumber`, rounded down. */
  predicate IsBasePrice(pickup: int, delivery: int, price: int) {
    0 <= price && price * SomeLargeNumber <= Abs(pickup - delivery) < (price + 1) * SomeLargeNumber
  }

  /** `calculateBasePrice`: the pickup postcode is parsed first, so when both
      are malformed it is the pickup that is reported. */
  function CalculateBasePrice(pickupPostcode: string, deliveryPostcode: string): (r: Result<int, Error>)
    ensures ParseInt(pickupPostcode).Err? ==> r == Err(ParseIntError(ParseInt(pickupPostcode).error))
    ensures ParseInt(pickupPostcode).Ok? && ParseInt(deliveryPostcode).Err? ==>
      r == Err(ParseIntError(ParseInt(deliveryPostcode).error))
    ensures ParseInt(pickupPostcode).Ok? && ParseInt(deliveryPostcode).Ok? ==>
      r.Ok? && IsBasePrice(ParseInt(pickupPostcode).value, ParseInt(deliveryPostcode).value, r.value)
  {
    match ParseInt(pickupPostcode)
    case Err(e) => Err(ParseIntError(e))
    case Ok(pickup) =>
      match ParseInt(deliveryPostcode)
      case Err(e) => Err(ParseIntError(e))
      case Ok(delivery) => Ok(Abs(pickup - delivery) / SomeLargeNumber)
  }

  /** At most one price satisfies `IsBasePrice`. */
  lemma BasePriceUnique(pickup: int, delivery: int, p1: int, p2: int)
    requires IsBasePrice(pickup, delivery, p1) && IsBasePrice(pickup, delivery, p2)
    ensures p1 == p2
  {
  }

  /** The base price does not depend on the direction of travel. */
  lemma BasePriceSymmetric(pickupPostcode: string, deliveryPostcode: string)
    requires CalculateBasePrice(pickupPostcode, deliveryPostcode).Ok?
    ensures CalculateBasePrice(deliveryPostcode, pickupPostcode) == CalculateBasePrice(pickupPostcode, deliveryPostcode)
  {
  }

  // ---------------------------------------------------------------------------
  // Vehicles

  /** `isVehicleValid`: a linear search of `ValidVehicleTypes`. */
  method IsVehicleValid(vehicleLabelToVerify: string) returns (valid: bool)
    ensures valid <==> vehicleLabelToVerify in ValidVehicleTypes
  {
    for i := 0 to |ValidVehicleTypes|
      invariant vehicleLabelToVerify !in ValidVehicleTypes[..i]
    {
      if ValidVehicleTypes[i] == vehicleLabelToVerify {
        return true;
      }
    }
    return false;
  }

  /** Exactly the five vehicle constants are valid, and the markup table has
      an entry for each of them and for nothing else. */
  lemma ValidVehicles(vehicle: string)
    ensures vehicle in ValidVehicleTypes <==>
      vehicle == "bicycle" || vehicle == "motorbike" || vehicle == "parcel_car" ||
      vehicle == "small_van" || vehicle == "large_van"
    ensures vehicle in ValidVehicleTypes <==> vehicle in VehiclesMarkupTable
  {
  }

  /** r is num / den rounded to the nearest integer, ties to the even one. */
  predicate IsRoundHalfEven(num: int, den: nat, r: int)
    requires den > 0
  {
    2 * Abs(num - r * den) < den || (2 * Abs(num - r * den) == den && r % 2 == 0)
  }

  /** `math.RoundToEven` of the exact quotient num / den. */
  function RoundHalfEven(num: int, den: nat): (r: int)
    requires den > 0
    ensures IsRoundHalfEven(num, den, r)
  {
    var q, rem := num / den, num % den;
    assert num - q * den == rem && num - (q + 1) * den == rem - den;
    if 2 * rem < den then q
    else if 2 * rem > den then q + 1
    else if q % 2 == 0 then q
    else q + 1
  }

  /** Round-half-to-even has exactly one answer. */
  lemma RoundHalfEvenUnique(num: int, den: nat, r1: int, r2: int)
    requires den > 0
    requires IsRoundHalfEven(num, den, r1) && IsRoundHalfEven(num, den, r2)
    ensures r1 == r2
  {
    var e1, e2 := num - r1 * den, num - r2 * den;
    var k := Abs(r1 - r2);
    assert e2 - e1 == (r1 - r2) * den by {
      assert (r1 - r2) * den == r1 * den - r2 * den;
    }
    AbsMul(r1 - r2, den);
    if k >= 2 {
      // |e2 - e1| <= |e1| + |e2| <= den < 2 * den <= k * den
      MulAtLeast(k, 2, den);
      assert false;
    } else if k == 1 {
      // both errors are exactly half of den, so r1 and r2 would both be even
      // while differing by one
      assert false;
    }
  }

  lemma AbsMul(a: int, den: nat)
    ensures Abs(a * den) == Abs(a) * den
  {
    if a < 0 {
      assert a * den == -((-a) * den);
    }
  }

  lemma MulAtLeast(k: int, m: int, den: nat)
    requires k >= m
    ensures k * den >= m * den
  {
    assert k * den - m * den == (k - m) * den;
  }

  /** `applyVehicleMarkup`: the base price times the vehicle's factor,
      rounded half to even; a vehicle without a factor keeps the base price. */
  function ApplyVehicleMarkup(basePrice: int, vehicleType: string): (r: int)
    ensures vehicleType !in VehiclesMarkupTable ==> r == basePrice
    ensures vehicleType in VehiclesMarkupTable ==>
      IsRoundHalfEven(basePrice * VehiclesMarkupTable[vehicleType], PercentScale, r)
  {
    if vehicleType !in VehiclesMarkupTable then basePrice
    else RoundHalfEven(basePrice * VehiclesMarkupTable[vehicleType], PercentScale)
  }

  // ---------------------------------------------------------------------------
  // Price list

  /** The entry one carrier service contributes: the carrier's markup is added
      once to the vehicle price, name and delivery time are copied. */
  function PriceEntry(priceByVehicle: int, carrierService: CarrierService): PriceByCarrier {
    PriceByCarrier(carrierService.name, priceByVehicle + carrierService.markup, carrierService.deliveryTime)
  }

  /** One entry per carrier service, in the finder's order. */
  function PriceEntries(priceByVehicle: int, carrierServices: seq<CarrierService>): seq<PriceByCarrier> {
    seq(|carrierServices|, i requires 0 <= i < |carrierServices| => PriceEntry(priceByVehicle, carrierServices[i]))
  }

  /** priceList is the entries for carrierServices, sorted by amount. */
  predicate IsPriceList(priceList: seq<PriceByCarrier>, priceByVehicle: int, carrierServices: seq<CarrierService>) {
    SortedByAmount(priceList) && multiset(priceList) == multiset(PriceEntries(priceByVehicle, carrierServices))
  }

  /** `getPriceListFromPriceAndCarrierServices`: appends one entry per
      carrier service, then sorts the list by amount. */
  method GetPriceListFromPriceAndCarrierServices(priceByVehicle: int, availableCarrierServices: seq<CarrierService>)
    returns (priceList: seq<PriceByCarrier>)
    ensures IsPriceList(priceList, priceByVehicle, availableCarrierServices)
  {
    var entries: seq<PriceByCarrier> := [];
    for i := 0 to |availableCarrierServices|
      invariant entries == PriceEntries(priceByVehicle, availableCarrierServices[..i])
    {
      var carrierService := availableCarrierServices[i];
      entries := entries + [PriceByCarrier(carrierService.name, priceByVehicle + carrierService.markup,
                                           carrierService.deliveryTime)];
    }
    assert availableCarrierServices[..|availableCarrierServices|] == availableCarrierServices;
    var a := new PriceByCarrier[|entries|](i requires 0 <= i < |entries| => entries[i]);
    assert a[..] == entries;
    SortByAmount(a);
    priceList := a[..];
  }

  /** e carries the carrier service's name and delivery time, and the vehicle
      price plus the service's markup as amount. */
  predicate FromService(e: PriceByCarrier, priceByVehicle: int, carrierService: CarrierService) {
    e.carrierName == carrierService.name &&
    e.amount == priceByVehicle + carrierService.markup &&
    e.deliveryTime == carrierService.deliveryTime
  }

  /** A price list has exactly one entry per carrier service (no
      deduplication), every entry comes from one of them, and every one of
      them is present. */
  lemma PriceListEntries(priceList: seq<PriceByCarrier>, priceByVehicle: int, carrierServices: seq<CarrierService>)
    requires IsPriceList(priceList, priceByVehicle, carrierServices)
    ensures |priceList| == |carrierServices|
    ensures forall e :: e in priceList ==> exists j :: 0 <= j < |carrierServices| && FromService(e, priceByVehicle, carrierServices[j])
    ensures forall j :: 0 <= j < |carrierServices| ==> PriceEntry(priceByVehicle, carrierServices[j]) in priceList
  {
    var entries := PriceEntries(priceByVehicle, carrierServices);
    assert |priceList| == |multiset(priceList)| == |multiset(entries)| == |entries|;
    forall e | e in priceList
      ensures exists j :: 0 <= j < |carrierServices| && FromService(e, priceByVehicle, carrierServices[j])
    {
      assert e in multiset(entries);
      var j :| 0 <= j < |entries| && entries[j] == e;
    }
    forall j | 0 <= j < |carrierServices|
      ensures PriceEntry(priceByVehicle, carrierServices[j]) in priceList
    {
      assert entries[j] in multiset(entries);
      assert entries[j] in multiset(priceList);
    }
  }

  /** When no two carrier services end up with the same amount, the price
      list is fully determined: it is the one sorted arrangement of the
      entries. */
  lemma PriceListDetermined(priceList: seq<PriceByCarrier>, expected: seq<PriceByCarrier>,
                            priceByVehicle: int, carrierServices: seq<CarrierService>)
    requires IsPriceList(priceList, priceByVehicle, carrierServices)
    requires SortedByAmount(expected) && DistinctAmounts(expected)
    requires multiset(expected) == multiset(PriceEntries(priceByVehicle, carrierServices))
    ensures priceList == expected
  {
    SortedPermutationUnique(expected, priceList);
  }
}
