/**
 * The cases the repository's tests exercise, and the end-to-end behaviour of
 * the service with the static finder, stated about the model.
 */
module Scenarios {
  import opened Wrappers
  import opened Strconv
  import opened CarrierServiceFinder
  import opened PriceLists
  import opened CarrierPricing
  import StaticDataFinder
  import JSONFileFinder
  import Finders
  import QuoteService

  /** The finder the service tests use: two services for the small van. */
  function MockFind(vehicleType: string): seq<CarrierService> {
    if vehicleType == VehicleTypeSmallVan then
      [CarrierService("MockService1", 20, 1), CarrierService("MockService2", 10, 5)]
    else []
  }

  /** The two postcodes of the tests, read in base 36. */
  lemma PostcodeValues()
    ensures ParseInt("SW1A1AA") == Ok(62886970882)
    ensures ParseInt("EC2A3LT") == Ok(31204377281)
  {
    assert ParseUintFrom("SW1A1AA", 0) == ParseUintFrom("W1A1AA", 28) by { assert "SW1A1AA"[1..] == "W1A1AA"; }
    assert ParseUintFrom("W1A1AA", 28) == ParseUintFrom("1A1AA", 1040) by { assert "W1A1AA"[1..] == "1A1AA"; }
    assert ParseUintFrom("1A1AA", 1040) == ParseUintFrom("A1AA", 37441) by { assert "1A1AA"[1..] == "A1AA"; }
    assert ParseUintFrom("A1AA", 37441) == ParseUintFrom("1AA", 1347886) by { assert "A1AA"[1..] == "1AA"; }
    assert ParseUintFrom("1AA", 1347886) == ParseUintFrom("AA", 48523897) by { assert "1AA"[1..] == "AA"; }
    assert ParseUintFrom("AA", 48523897) == ParseUintFrom("A", 1746860302) by { assert "AA"[1..] == "A"; }
    assert ParseUintFrom("A", 1746860302) == ParseUintFrom("", 62886970882) by { assert "A"[1..] == ""; }
    assert ParseUintFrom("EC2A3LT", 0) == ParseUintFrom("C2A3LT", 14) by { assert "EC2A3LT"[1..] == "C2A3LT"; }
    assert ParseUintFrom("C2A3LT", 14) == ParseUintFrom("2A3LT", 516) by { assert "C2A3LT"[1..] == "2A3LT"; }
    assert ParseUintFrom("2A3LT", 516) == ParseUintFrom("A3LT", 18578) by { assert "2A3LT"[1..] == "A3LT"; }
    assert ParseUintFrom("A3LT", 18578) == ParseUintFrom("3LT", 668818) by { assert "A3LT"[1..] == "3LT"; }
    assert ParseUintFrom("3LT", 668818) == ParseUintFrom("LT", 24077451) by { assert "3LT"[1..] == "LT"; }
    assert ParseUintFrom("LT", 24077451) == ParseUintFrom("T", 866788257) by { assert "LT"[1..] == "T"; }
    assert ParseUintFrom("T", 866788257) == ParseUintFrom("", 31204377281) by { assert "T"[1..] == ""; }
  }

  /** "_" and "" are not numbers; the error reports the string given. */
  lemma MalformedPostcodes()
    ensures ParseInt("_") == Err(NumError("_", ErrSyntax))
    ensures ParseInt("") == Err(NumError("", ErrSyntax))
    ensures CalculateBasePrice("_", "EC2A3LT") == Err(ParseIntError(NumError("_", ErrSyntax)))
    ensures CalculateBasePrice("SW1A1AA", "") == Err(ParseIntError(NumError("", ErrSyntax)))
    ensures CalculateBasePrice("_", "") == Err(ParseIntError(NumError("_", ErrSyntax)))
  {
    PostcodeValues();
  }

  /** From SW1A1AA to EC2A3LT, in either direction, the base price is 316. */
  lemma BasePriceExample()
    ensures CalculateBasePrice("SW1A1AA", "EC2A3LT") == Ok(316)
    ensures CalculateBasePrice("EC2A3LT", "SW1A1AA") == Ok(316)
  {
    PostcodeValues();
    BasePriceSymmetric("SW1A1AA", "EC2A3LT");
  }

  /** Vehicle prices: 316 by bicycle is 347.6, so 348; 100 by bicycle is
      110; 316 by small van is 410.8, so 411; an unknown vehicle keeps the
      base price. */
  lemma VehiclePriceExamples()
    ensures ApplyVehicleMarkup(316, "bicycle") == 348
    ensures ApplyVehicleMarkup(100, "bicycle") == 110
    ensures ApplyVehicleMarkup(316, "small_van") == 411
    ensures ApplyVehicleMarkup(316, "scooter") == 316
  {
  }

  /** Rounding ties go to the even neighbour: 2.5 rounds to 2, 3.5 to 4. */
  lemma RoundHalfEvenTies()
    ensures RoundHalfEven(250, 100) == 2 && RoundHalfEven(350, 100) == 4
    ensures RoundHalfEven(-250, 100) == -2
  {
  }

  /** With the static finder, a small van at any vehicle price `v` gets
      Hercules, CollectTimes and RoyalPackages, in that order: the three
      markups are distinct, so the sorted order is fixed. */
  lemma StaticSmallVanPriceList(priceList: seq<PriceByCarrier>, v: int)
    requires IsPriceList(priceList, v, StaticDataFinder.FindCarrierServicesForVehicle("small_van"))
    ensures priceList == StaticSmallVanPrices(v)
  {
    var services := StaticDataFinder.FindCarrierServicesForVehicle("small_van");
    var expected := StaticSmallVanPrices(v);
    var entries := PriceEntries(v, services);
    assert entries == [expected[2], expected[0], expected[1]];
    assert multiset(expected) == multiset(entries);
    PriceListDetermined(priceList, expected, v, services);
  }

  /** The static finder's small-van price list at vehicle price `v`, cheapest first. */
  function StaticSmallVanPrices(v: int): seq<PriceByCarrier> {
    [
      PriceByCarrier("Hercules", v + 35, 5),
      PriceByCarrier("CollectTimes", v + 70, 1),
      PriceByCarrier("RoyalPackages", v + 80, 1)
    ]
  }

  /** Quotes by carrier with the static finder, for every request: an
      invalid vehicle and a postcode error are reported as usual; a small
      van gets the three static services in a fixed order; every other
      valid vehicle gets the no-carrier-services error. */
  method QuotesByCarrierWithStaticData(args: GetQuotesByCarrierArgs) returns (r: Result<GetQuotesByCarrierResponse, Error>)
    ensures args.vehicle !in ValidVehicleTypes ==> r == Err(InvalidVehicle)
    ensures args.vehicle in ValidVehicleTypes && CalculateBasePrice(args.pickupPostcode, args.deliveryPostcode).Err? ==>
      r == Err(CalculateBasePrice(args.pickupPostcode, args.deliveryPostcode).error)
    ensures (args.vehicle == VehicleTypeSmallVan && CalculateBasePrice(args.pickupPostcode, args.deliveryPostcode).Ok?) ==>
      r == Ok(GetQuotesByCarrierResponse(args, StaticSmallVanPrices(
        ApplyVehicleMarkup(CalculateBasePrice(args.pickupPostcode, args.deliveryPostcode).value, VehicleTypeSmallVan))))
    ensures (args.vehicle in ValidVehicleTypes && args.vehicle != VehicleTypeSmallVan &&
             CalculateBasePrice(args.pickupPostcode, args.deliveryPostcode).Ok?) ==>
      r == Err(NoAvailableCarrierServicesForVehicle)
  {
    if args.vehicle in ValidVehicleTypes && args.vehicle != VehicleTypeSmallVan {
      StaticDataFinder.OtherValidVehiclesEmpty(args.vehicle);
    }
    var service := new QuoteService.Service(Finders.StaticData);
    r := service.GetQuotesByCarrier(args);
    if r.Ok? && args.vehicle == VehicleTypeSmallVan {
      StaticSmallVanPriceList(r.value.priceList,
        ApplyVehicleMarkup(CalculateBasePrice(args.pickupPostcode, args.deliveryPostcode).value, VehicleTypeSmallVan));
    }
  }

  /** With the tests' finder, a small van at vehicle price 411 gets
      MockService2 at 421 before MockService1 at 431. */
  lemma MockSmallVanPriceList(priceList: seq<PriceByCarrier>)
    requires IsPriceList(priceList, 411, MockFind("small_van"))
    ensures priceList == [PriceByCarrier("MockService2", 421, 5), PriceByCarrier("MockService1", 431, 1)]
  {
    var expected := [PriceByCarrier("MockService2", 421, 5), PriceByCarrier("MockService1", 431, 1)];
    var entries := PriceEntries(411, MockFind("small_van"));
    assert entries == [expected[1], expected[0]];
    assert multiset(expected) == multiset(entries);
    PriceListDetermined(priceList, expected, 411, MockFind("small_van"));
  }

  /** Basic quotes through the service (service_test.go's cases). */
  lemma BasicQuoteCases(service: QuoteService.Service)
    ensures service.GetBasicQuote(GetBasicQuoteArgs("_", "EC2A3LT")) ==
      Err(ParseIntError(NumError("_", ErrSyntax)))
    ensures service.GetBasicQuote(GetBasicQuoteArgs("SW1A1AA", "")) ==
      Err(ParseIntError(NumError("", ErrSyntax)))
    ensures service.GetBasicQuote(GetBasicQuoteArgs("SW1A1AA", "EC2A3LT")) ==
      Ok(GetBasicQuoteResponse(GetBasicQuoteArgs("SW1A1AA", "EC2A3LT"), 316))
  {
    MalformedPostcodes();
    BasePriceExample();
  }

  /** Quotes by vehicle through the service: an unknown vehicle is rejected
      before the postcodes are looked at. */
  method QuotesByVehicleCases() returns (
    badPickup: Result<GetQuotesByVehicleResponse, Error>,
    badDelivery: Result<GetQuotesByVehicleResponse, Error>,
    badVehicle: Result<GetQuotesByVehicleResponse, Error>,
    badEverything: Result<GetQuotesByVehicleResponse, Error>,
    bicycle: Result<GetQuotesByVehicleResponse, Error>)
    ensures badPickup == Err(ParseIntError(NumError("_", ErrSyntax)))
    ensures badDelivery == Err(ParseIntError(NumError("", ErrSyntax)))
    ensures badVehicle == Err(InvalidVehicle)
    ensures badEverything == Err(InvalidVehicle)
    ensures bicycle == Ok(GetQuotesByVehicleResponse(GetQuotesByVehicleArgs("SW1A1AA", "EC2A3LT", "bicycle"), 348))
  {
    MalformedPostcodes();
    BasePriceExample();
    VehiclePriceExamples();
    var service := new QuoteService.Service(Finders.Other(MockFind));
    badPickup := service.GetQuotesByVehicle(GetQuotesByVehicleArgs("_", "EC2A3LT", "bicycle"));
    badDelivery := service.GetQuotesByVehicle(GetQuotesByVehicleArgs("SW1A1AA", "", "bicycle"));
    badVehicle := service.GetQuotesByVehicle(GetQuotesByVehicleArgs("SW1A1AA", "EC2A3LT", "scooter"));
    badEverything := service.GetQuotesByVehicle(GetQuotesByVehicleArgs("_", "", "scooter"));
    bicycle := service.GetQuotesByVehicle(GetQuotesByVehicleArgs("SW1A1AA", "EC2A3LT", "bicycle"));
  }

  /** Quotes by carrier with the static finder: only the small van has
      carrier services; another valid vehicle is an error, not an empty list. */
  method QuotesByCarrierFromStaticData() returns (
    smallVan: Result<GetQuotesByCarrierResponse, Error>,
    largeVan: Result<GetQuotesByCarrierResponse, Error>,
    scooter: Result<GetQuotesByCarrierResponse, Error>)
    ensures smallVan == Ok(GetQuotesByCarrierResponse(
      GetQuotesByVehicleArgs("SW1A1AA", "EC2A3LT", "small_van"),
      [PriceByCarrier("Hercules", 446, 5), PriceByCarrier("CollectTimes", 481, 1), PriceByCarrier("RoyalPackages", 491, 1)]))
    ensures largeVan == Err(NoAvailableCarrierServicesForVehicle)
    ensures scooter == Err(InvalidVehicle)
  {
    BasePriceExample();
    VehiclePriceExamples();
    var service := new QuoteService.Service(Finders.StaticData);
    smallVan := service.GetQuotesByCarrier(GetQuotesByVehicleArgs("SW1A1AA", "EC2A3LT", "small_van"));
    StaticSmallVanPriceList(smallVan.value.priceList, 411);
    largeVan := service.GetQuotesByCarrier(GetQuotesByVehicleArgs("SW1A1AA", "EC2A3LT", "large_van"));
    scooter := service.GetQuotesByCarrier(GetQuotesByVehicleArgs("SW1A1AA", "EC2A3LT", "scooter"));
  }

  /** Quotes by carrier with the tests' finder: the cheaper service first. */
  method QuotesByCarrierFromMock() returns (smallVan: Result<GetQuotesByCarrierResponse, Error>)
    ensures smallVan == Ok(GetQuotesByCarrierResponse(
      GetQuotesByVehicleArgs("SW1A1AA", "EC2A3LT", "small_van"),
      [PriceByCarrier("MockService2", 421, 5), PriceByCarrier("MockService1", 431, 1)]))
  {
    BasePriceExample();
    VehiclePriceExamples();
    var service := new QuoteService.Service(Finders.Other(MockFind));
    smallVan := service.GetQuotesByCarrier(GetQuotesByVehicleArgs("SW1A1AA", "EC2A3LT", "small_van"));
    MockSmallVanPriceList(smallVan.value.priceList);
  }

  /** A decoded catalogue: one service listing the bicycle twice, and a
      carrier whose first service spells the small van differently. */
  function SampleCarriers(): seq<JSONFileFinder.Carrier> {
    [
      JSONFileFinder.Carrier("RoyalPackages", 10, [JSONFileFinder.Service(60, 5, ["bicycle", "small_van", "bicycle"])]),
      JSONFileFinder.Carrier("Hercules", 20, [
        JSONFileFinder.Service(30, 7, ["Small_Van"]),
        JSONFileFinder.Service(120, 1, ["small_van"])
      ])
    ]
  }

  /** What one vehicle entry contributes to a lookup. */
  function EntryIf(c: JSONFileFinder.Carrier, s: JSONFileFinder.Service, vehicle: string, vehicleType: string): seq<CarrierService> {
    if vehicle == vehicleType then [JSONFileFinder.Emit(c, s)] else []
  }

  lemma OneVehicle(c: JSONFileFinder.Carrier, s: JSONFileFinder.Service, a: string, vehicleType: string)
    ensures JSONFileFinder.VehicleEntries(c, s, [a], vehicleType) == EntryIf(c, s, a, vehicleType)
  {
    assert [a][..0] == [];
  }

  lemma ThreeVehicles(c: JSONFileFinder.Carrier, s: JSONFileFinder.Service, a: string, b: string, d: string, vehicleType: string)
    ensures JSONFileFinder.VehicleEntries(c, s, [a, b, d], vehicleType) ==
      EntryIf(c, s, a, vehicleType) + EntryIf(c, s, b, vehicleType) + EntryIf(c, s, d, vehicleType)
  {
    assert [a, b, d][..2] == [a, b] && [a, b][..1] == [a];
    OneVehicle(c, s, a, vehicleType);
  }

  lemma OneService(c: JSONFileFinder.Carrier, s: JSONFileFinder.Service, vehicleType: string)
    ensures JSONFileFinder.ServiceEntries(c, [s], vehicleType) == JSONFileFinder.VehicleEntries(c, s, s.vehicles, vehicleType)
  {
    assert [s][..0] == [];
  }

  lemma TwoServices(c: JSONFileFinder.Carrier, s1: JSONFileFinder.Service, s2: JSONFileFinder.Service, vehicleType: string)
    ensures JSONFileFinder.ServiceEntries(c, [s1, s2], vehicleType) ==
      JSONFileFinder.VehicleEntries(c, s1, s1.vehicles, vehicleType) + JSONFileFinder.VehicleEntries(c, s2, s2.vehicles, vehicleType)
  {
    assert [s1, s2][..1] == [s1];
    OneService(c, s1, vehicleType);
  }

  lemma TwoCarriers(c1: JSONFileFinder.Carrier, c2: JSONFileFinder.Carrier, vehicleType: string)
    ensures JSONFileFinder.Matching([c1, c2], vehicleType) ==
      JSONFileFinder.ServiceEntries(c1, c1.services, vehicleType) + JSONFileFinder.ServiceEntries(c2, c2.services, vehicleType)
  {
    assert [c1, c2][..1] == [c1] && [c1][..0] == [];
    assert JSONFileFinder.Matching([c1], vehicleType) == JSONFileFinder.ServiceEntries(c1, c1.services, vehicleType);
  }

  /** The sample's lookup for any vehicle type, entry by entry. */
  lemma SampleLookup(vehicleType: string)
    ensures
      var cs := SampleCarriers();
      var rp, s0 := cs[0], cs[0].services[0];
      var he, s1, s2 := cs[1], cs[1].services[0], cs[1].services[1];
      JSONFileFinder.Matching(cs, vehicleType) ==
        EntryIf(rp, s0, "bicycle", vehicleType) + EntryIf(rp, s0, "small_van", vehicleType) +
        EntryIf(rp, s0, "bicycle", vehicleType) + EntryIf(he, s1, "Small_Van", vehicleType) +
        EntryIf(he, s2, "small_van", vehicleType)
  {
    var cs := SampleCarriers();
    var rp, s0 := cs[0], cs[0].services[0];
    var he, s1, s2 := cs[1], cs[1].services[0], cs[1].services[1];
    TwoCarriers(rp, he, vehicleType);
    OneService(rp, s0, vehicleType);
    ThreeVehicles(rp, s0, "bicycle", "small_van", "bicycle", vehicleType);
    TwoServices(he, s1, s2, vehicleType);
    OneVehicle(he, s1, "Small_Van", vehicleType);
    OneVehicle(he, s2, "small_van", vehicleType);
  }

  /** Lookups over the sample: carrier order, one entry per matching vehicle
      entry (the bicycle twice), markup = base price + service markup, and
      case-sensitive matching. */
  lemma SampleLookups()
    ensures JSONFileFinder.Matching(SampleCarriers(), "small_van") ==
      [CarrierService("RoyalPackages", 15, 60), CarrierService("Hercules", 21, 120)]
    ensures JSONFileFinder.Matching(SampleCarriers(), "bicycle") ==
      [CarrierService("RoyalPackages", 15, 60), CarrierService("RoyalPackages", 15, 60)]
    ensures JSONFileFinder.Matching(SampleCarriers(), "Small_Van") == [CarrierService("Hercules", 27, 30)]
    ensures JSONFileFinder.Matching(SampleCarriers(), "scooter") == []
  {
    SampleLookup("small_van");
    SampleLookup("bicycle");
    SampleLookup("Small_Van");
    SampleLookup("scooter");
  }

  /** A lookup leaves the loaded carriers as they are: asking twice gives
      the same answer. */
  method RepeatedLookup(csf: JSONFileFinder.CSFFromJSONFile, vehicleType: string)
    returns (first: seq<CarrierService>, second: seq<CarrierService>)
    ensures first == second
  {
    first := csf.FindCarrierServicesForVehicle(vehicleType);
    second := csf.FindCarrierServicesForVehicle(vehicleType);
  }

  /** Quotes by carrier with the file-backed finder over the sample. */
  method QuotesByCarrierFromSample() returns (smallVan: Result<GetQuotesByCarrierResponse, Error>)
    ensures smallVan == Ok(GetQuotesByCarrierResponse(
      GetQuotesByVehicleArgs("SW1A1AA", "EC2A3LT", "small_van"),
      [PriceByCarrier("RoyalPackages", 426, 60), PriceByCarrier("Hercules", 432, 120)]))
  {
    BasePriceExample();
    VehiclePriceExamples();
    SampleLookups();
    var csf := new JSONFileFinder.CSFFromJSONFile(SampleCarriers());
    var service := new QuoteService.Service(Finders.JSONFile(csf));
    smallVan := service.GetQuotesByCarrier(GetQuotesByVehicleArgs("SW1A1AA", "EC2A3LT", "small_van"));
    SampleSmallVanPriceList(smallVan.value.priceList);
  }

  /** With the sample, a small van at vehicle price 411 gets RoyalPackages
      at 426 before Hercules at 432. */
  lemma SampleSmallVanPriceList(priceList: seq<PriceByCarrier>)
    requires IsPriceList(priceList, 411, JSONFileFinder.Matching(SampleCarriers(), "small_van"))
    ensures priceList == [PriceByCarrier("RoyalPackages", 426, 60), PriceByCarrier("Hercules", 432, 120)]
  {
    var expected := [PriceByCarrier("RoyalPackages", 426, 60), PriceByCarrier("Hercules", 432, 120)];
    var services := [CarrierService("RoyalPackages", 15, 60), CarrierService("Hercules", 21, 120)];
    assert JSONFileFinder.Matching(SampleCarriers(), "small_van") == services by { SampleLookups(); }
    assert PriceEntries(411, services) == expected;
    PriceListDetermined(priceList, expected, 411, services);
  }
}
