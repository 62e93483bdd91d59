# carrier-pricing in Dafny

A model of the quote-calculation core of carrier-pricing: a Go service that
gives shipping quotes between two postcodes. The model covers three operations.

- **Basic quote.** Each postcode is read as a base-36 integer. The base price is
  the distance between the two numbers divided by 100000000, rounded down.
- **Quote by vehicle.** The base price is multiplied by the vehicle's factor
  and rounded half to even.
- **Quote by carrier.** The finder returns the carrier services for the
  vehicle. Each one becomes an entry priced at vehicle price plus carrier
  markup, and the entries are sorted by amount.

A *carrier-service finder* returns the carrier services for a vehicle. The
model has both finders from the repository:

- a static table that answers only for `small_van`;
- a finder over carriers loaded from a JSON file. For each carrier, each of its
  services, and each vehicle entry of that service, it emits one record when
  the entry equals the query.

Modules, one per source file or component:

| module | file | models |
|---|---|---|
| `Wrappers` | wrappers.dfy | `Result`, for Go's `(value, error)` returns |
| `Strconv` | strconv.dfy | `strconv.ParseInt(s, 36, 64)`, which reads postcodes, and its inverse `FormatInt` |
| `CarrierServiceFinder` | carrier_service_finder.dfy | the `CarrierService` record |
| `PriceLists` | price_list.dfy | `PriceByCarrier`, `PriceByCarrierList` and its sort |
| `CarrierPricing` | carrier_pricing.dfy | the constants, errors, request and response types, and the private helpers of service.go |
| `StaticDataFinder` | csf_from_static_data.dfy | `CSFFromStaticData` |
| `JSONFileFinder` | csf_from_json_file.dfy | `CSFFromJSONFile` over decoded carriers: a class with the loaded carriers as a constant field, and a lookup made of three nested loops |
| `Finders` | finders.dfy | the `CarrierServiceFinder` interface |
| `QuoteService` | quote_service.dfy | `Service`: a finder, `NewService` and the three public operations |
| `Scenarios` | scenarios.dfy | the repository's test cases and end-to-end cases with each finder |

Dafny traits are not used. The interface therefore becomes a datatype
`Finders.Finder` with one alternative per implementation (`StaticData`,
`JSONFile`), plus `Other(find)` for any other implementation, given by its
lookup function. The test double in service_test.go is `Other(MockFind)`. The
properties of `GetQuotesByCarrier` hold for every `Finder`.

The Go service logs and does arithmetic in `float64`. The model is exact:

- The base price is `|pickup - delivery| div 100000000` on mathematical
  integers.
- A vehicle factor is an integer percentage (110, 115, 120, 130, 140). It is
  applied to the exact rational, and the result is rounded half to even.

Notes on behaviour:

- The price list comes from Go's `sort.Sort`, which is not stable. The model
  promises only that the list is non-decreasing by amount and is a
  permutation of the entries. It promises no order for tied amounts.
- `ParseInt` accepts one leading `+` or `-`. A leading `-` yields a negative
  number. The base price is still non-negative because it uses the absolute
  difference.
- `applyVehicleMarkup` never fails. An unknown vehicle keeps the base price. The
  public operations reject an invalid vehicle before they call it.

## Model

| member | source | states |
|---|---|---|
| `Strconv.ParseInt` | service.go:209-217 | A parsed value lies in the int64 range, and every error carries the whole input string. |
| `Strconv.ParseUintFrom` | service.go:209 | The digit loop of `strconv.ParseUint` (called by `ParseInt`) from an accumulated value n: a successful result is at least n and fits in 64 bits. |
| `Strconv.ParseUint` | service.go:209 | `strconv.ParseUint(s, 36, 64)` as `ParseInt` calls it: a success comes from a non-empty string and fits in 64 bits. |
| `Strconv.ParseUintFromSpec` | service.go:209 | Digit loop from any accumulated value. It gives a range error if the value of the leading digits exceeds 64 bits, else a syntax error if a non-digit follows, else the exact value. |
| `Strconv.ParseUintSpec` | service.go:209 | ParseUint against the mathematical base-36 value. Letters are case-insensitive. An empty string is a syntax error. The first failure decides between a range error and a syntax error. |
| `Strconv.ParseIntSpec` | service.go:209-217 | ParseInt succeeds exactly on an optional sign followed by one or more base-36 digits whose signed value fits in int64. It then returns that value. Otherwise it reports the input. |
| `Strconv.ParseFormatUint` | service.go:209 | Reading back the base-36 text of any 64-bit unsigned number gives that number. |
| `Strconv.FormatParseInt` | service.go:209-217 | Round trip: `ParseInt(FormatInt(n)) == Ok(n)` for every int64 n. |
| `CarrierPricing.CalculateBasePrice` | service.go:208-223 | A bad pickup is reported first, and a bad delivery only when the pickup parses. Otherwise the price p satisfies p·100000000 ≤ \|pickup − delivery\| < (p+1)·100000000. |
| `CarrierPricing.BasePriceUnique` | service.go:219-220 | At most one price satisfies the base-price relation. |
| `CarrierPricing.BasePriceSymmetric` | service.go:219-220 | When the base price exists, swapping pickup and delivery gives the same base price. |
| `CarrierPricing.IsVehicleValid` | service.go:225-232 | The linear search returns true exactly when the label is in `ValidVehicleTypes`. |
| `CarrierPricing.ValidVehicles` | service.go:29-44 | Exactly the five vehicle constants are valid, and the markup table has a key for each of them and no other key. |
| `CarrierPricing.RoundHalfEven` | service.go:240 | The result is within half a unit of num/den, and on an exact tie it is even. |
| `CarrierPricing.RoundHalfEvenUnique` | service.go:240 | Round-half-to-even has exactly one answer, so the rounding law determines the vehicle price. |
| `CarrierPricing.ApplyVehicleMarkup` | service.go:234-241 | A vehicle missing from the table returns the base price unchanged. Otherwise the result is base × percent / 100, rounded half to even. |
| `CarrierPricing.GetPriceListFromPriceAndCarrierServices` | service.go:243-256 | The returned list is sorted by amount. It is a permutation of the entries, one per carrier service in finder order, with amount priceByVehicle + Markup and name and delivery time copied. |
| `CarrierPricing.PriceListEntries` | service.go:243-251 | A price list has exactly one entry per carrier service, with no deduplication. Every entry comes from one service: its name, vehicle price + markup (added once), and its delivery time. Every service's entry is present. |
| `CarrierPricing.PriceListDetermined` | service.go:253 | When no two entries share an amount, the price list equals the unique sorted arrangement of the entries. |
| `PriceLists.Swap` | service.go:99 | Exchanges two entries and leaves the multiset of entries unchanged. |
| `PriceLists.SortByAmount` | service.go:98-100 | After the in-place sort the array is non-decreasing by `Amount` and is a permutation of its old contents. |
| `PriceLists.SortedPermutationUnique` | service.go:100 | Two sorted permutations of each other with distinct amounts are equal. |
| `StaticDataFinder.FindCarrierServicesForVehicle` | carrierservicefinders/csffromstaticdata.go:17-40 | The answer is non-empty exactly for `small_van`. Its entries have pairwise distinct names and markups, and positive markups and delivery times. |
| `StaticDataFinder.StaticTable` | carrierservicefinders/csffromstaticdata.go:16-40 | Only `small_van` gets a non-empty answer. That answer is exactly RoyalPackages(80, 1), Hercules(35, 5), CollectTimes(70, 1), in that order. |
| `StaticDataFinder.OtherValidVehiclesEmpty` | carrierservicefinders/csffromstaticdata.go:17-19 | Each of the other four valid vehicle types gets an empty list. |
| `JSONFileFinder.CSFFromJSONFile.constructor` | carrierservicefinders/csffromjsonfile.go:31-33 | The finder holds exactly the decoded carriers. |
| `JSONFileFinder.CSFFromJSONFile.FindCarrierServicesForVehicle` | carrierservicefinders/csffromjsonfile.go:37-57 | The triple loop returns exactly `Matching(carriers, vehicleType)`. That value depends only on the constant carriers and the argument, so repeated lookups are equal. |
| `JSONFileFinder.Matching` | carrierservicefinders/csffromjsonfile.go:42-53 | Reference definition of the lookup: the entries carrier by carrier, service by service, vehicle entry by vehicle entry. It has no contract of its own; the lemmas below state its count, membership, order and emptiness. |
| `JSONFileFinder.VehicleEntriesSpec` | carrierservicefinders/csffromjsonfile.go:44-51 | A service emits one copy of its entry per vehicle entry equal to the query, so duplicates give duplicates. Matching is plain string equality. |
| `JSONFileFinder.VehicleEntriesAppend` | carrierservicefinders/csffromjsonfile.go:44 | Within a service, entries follow the order of the vehicle list. |
| `JSONFileFinder.ServiceEntriesAppend` | carrierservicefinders/csffromjsonfile.go:43 | Within a carrier, entries follow the order of the services. |
| `JSONFileFinder.MatchingAppend` | carrierservicefinders/csffromjsonfile.go:42 | All entries of earlier carriers come before those of later carriers. |
| `JSONFileFinder.ServiceEntriesCount` | carrierservicefinders/csffromjsonfile.go:43-52 | A carrier's entry count equals the number of its (service, vehicle entry) pairs that match. |
| `JSONFileFinder.MatchingCountSpec` | carrierservicefinders/csffromjsonfile.go:42-53 | The result length equals the number of matching (carrier, service, vehicle entry) triples. |
| `JSONFileFinder.ServiceEntriesMembers` | carrierservicefinders/csffromjsonfile.go:43-52 | A carrier emits e exactly when one of its services lists the vehicle and e is that service's entry. |
| `JSONFileFinder.MatchingSound` | carrierservicefinders/csffromjsonfile.go:45-50 | Every returned entry has the form (carrier.Name, carrier.BasePrice + service.Markup, service.DeliveryTime) for a service that lists the query. |
| `JSONFileFinder.MatchingComplete` | carrierservicefinders/csffromjsonfile.go:42-53 | Every service that lists the query contributes its entry. |
| `JSONFileFinder.MatchingMembers` | carrierservicefinders/csffromjsonfile.go:42-53 | An entry is returned if and only if it is emitted by some (carrier, service) whose vehicle list contains the query. |
| `JSONFileFinder.MatchingEmpty` | carrierservicefinders/csffromjsonfile.go:38-56 | The result is empty exactly when no service lists the vehicle type. |
| `Finders.FindCarrierServicesForVehicle` | carrierservicefinder.go:5-7 | A call through the interface returns the chosen implementation's answer. The call is total and has no error result. |
| `QuoteService.Service.constructor` | service.go:117-122 | The service holds the given finder. |
| `QuoteService.Service.GetBasicQuote` | service.go:126-141 | Succeeds exactly when the base price exists. On success it echoes both postcodes and returns the base price. On failure it returns the base-price error. |
| `QuoteService.Service.GetQuotesByVehicle` | service.go:146-170 | Checks run in a fixed order. An invalid vehicle gives `InvalidVehicle` whatever the postcodes. Next, a postcode error is returned. Otherwise the response echoes the arguments and returns the marked-up base price. |
| `QuoteService.Service.GetQuotesByCarrier` | service.go:175-206 | An invalid vehicle fails first, then a postcode error. An empty finder result gives `NoAvailableCarrierServicesForVehicle`, never an empty success. Otherwise the response echoes the arguments, and its non-empty price list is a sorted permutation of the entries for the finder's services. |
| `Scenarios.PostcodeValues` | service_test.go:77-91 | SW1A1AA reads as 62886970882 and EC2A3LT as 31204377281. |
| `Scenarios.MalformedPostcodes` | service_test.go:59-76 | "_" and "" are syntax errors that name the offending string. The pickup is reported when both are bad. |
| `Scenarios.BasePriceExample` | service_test.go:77-91 | SW1A1AA to EC2A3LT has base price 316 in both directions. |
| `Scenarios.VehiclePriceExamples` | service_test.go:187-206 | The bicycle on 316 costs 348, the bicycle on 100 costs 110, and the small van on 316 costs 411. An unknown vehicle keeps 316. |
| `Scenarios.RoundHalfEvenTies` | service.go:240 | 2.5 rounds to 2, 3.5 to 4 and −2.5 to −2. |
| `Scenarios.StaticSmallVanPriceList` | carrierservicefinders/csffromstaticdata.go:18-36 | At every vehicle price v the static small-van list is Hercules v+35, then CollectTimes v+70, then RoyalPackages v+80: the distinct markups fix the order. |
| `Scenarios.QuotesByCarrierWithStaticData` | service.go:175-206 | For every request with the static finder: an invalid vehicle and then a postcode error are reported as usual; otherwise a small van gets exactly the three static services in that fixed order at its marked-up price, and every other valid vehicle gets `NoAvailableCarrierServicesForVehicle`. |
| `Scenarios.MockSmallVanPriceList` | service_test.go:237-256 | At vehicle price 411 the mock finder's list is MockService2 421 (time 5), then MockService1 431 (time 1). |
| `Scenarios.BasicQuoteCases` | service_test.go:53-118 | Results of the three basic-quote test cases: two parse errors and the 316 response. |
| `Scenarios.QuotesByVehicleCases` | service_test.go:145-234 | Results of the vehicle-quote test cases: the bad pickup, the bad delivery and the scooter fail, and the bicycle costs 348. A scooter with bad postcodes is still `InvalidVehicle`. |
| `Scenarios.QuotesByCarrierFromStaticData` | service.go:189-194 | End to end with the static finder: the small van gets its three carriers in a fixed order. The large van gets the no-carrier-services error. The scooter is invalid. |
| `Scenarios.QuotesByCarrierFromMock` | service_test.go:237-256 | End to end with the mock finder: MockService2 comes before MockService1. |
| `Scenarios.SampleLookups` | carrierservicefinders/csffromjsonfile.go:42-53 | Results of file-finder lookups on a sample catalogue. They follow carrier order. A duplicated vehicle entry gives two entries. Markup is base price + service markup. Matching is case-sensitive. An unlisted vehicle gets an empty list. |
| `Scenarios.RepeatedLookup` | carrierservicefinders/csffromjsonfile.go:12-13 | Two lookups with the same vehicle on one file finder return equal sequences. |
| `Scenarios.SampleSmallVanPriceList` | service.go:253 | The sample's small-van price list at 411 is RoyalPackages 426, then Hercules 432. |
| `Scenarios.QuotesByCarrierFromSample` | service.go:189-194 | End-to-end result with the file-backed finder over the sample catalogue. |

## Left out

- `CarrierPricing.CalculateBasePrice`: computes `|pickup − delivery|` exactly instead of through `float64`. Go converts each value to `float64` (exact only up to 2^53), takes `math.Abs`, and truncates back to int64. A difference of 2^63 or more does not fit that conversion. The model gives the mathematically exact quotient instead.
- `CarrierPricing.ApplyVehicleMarkup`: uses exact percentages instead of the `float64` factors 1.1 … 1.4 with `math.RoundToEven`. The results agree except near ties: for example 1.15 is not exactly representable in `float64`, so Go can round a near-tie the other way.
- `CarrierPricing.GetPriceListFromPriceAndCarrierServices`: the amount `priceByVehicle + Markup` is a mathematical integer. The int64 wrap-around on overflow, which Go does not guard, is not modelled.
- `JSONFileFinder.CSFFromJSONFile.FindCarrierServicesForVehicle`: the entry's markup `carrier.BasePrice + service.Markup` is a mathematical integer. The int64 wrap-around on overflow at carrierservicefinders/csffromjsonfile.go:48, which Go does not guard, is not modelled.
- `PriceLists.SortByAmount`: it is an insertion sort. It does not reproduce the order in which Go's pattern-defeating quicksort leaves tied amounts. Only sortedness and permutation are promised, as for `sort.Sort`.
- Error values keep the kind and the offending string, not the rendered message text (e.g. `strconv.ParseInt: parsing "_": invalid syntax`).
- `NewCSFFromJSONFile`: reading the file and `json.Unmarshal` are I/O and a foreign decoder. The finder is built from already-decoded carriers, and a load error is not modelled.
- Logging (`s.logger.Printf`) and the logger field of `Service`: side effects with no bearing on results.
- `ServiceInterface`, which exists only to mock the service, and `errMarkupNotPresent`, which is declared but never used.
- internal/httpserver/httpserver.go (HTTP routing, JSON request and response handling, status codes; the by-carrier handler is an empty stub) and cmd/main/main.go (start-up, environment variables, logger construction) are not part of this model.
