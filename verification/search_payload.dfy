/** The caller's simplified flight-search request and the upstream
    flight-offer search body built from it (index.ts, lines 50-97).
    JavaScript truthiness is written out: an optional text field is
    "given" when it is present and not empty. */
module SearchPayload {
  import opened Wrappers
  import opened Decimal

  /** The fields the handler destructures from the request body. A field
      absent from the body is `None`; `nonStop` is `Some` only when the body
      holds a real boolean there. */
  datatype SearchRequest = SearchRequest(
    originLocationCode: Option<string>,
    destinationLocationCode: Option<string>,
    departureDate: Option<string>,
    returnDate: Option<string>,
    adults: Option<int>,
    currencyCode: Option<string>,
    max: Option<int>,
    nonStop: Option<bool>,
    travelClass: Option<string>)

  datatype DateTimeRange = DateTimeRange(date: Option<string>)

  datatype OriginDestination = OriginDestination(
    id: string,
    originLocationCode: Option<string>,
    destinationLocationCode: Option<string>,
    departureDateTimeRange: DateTimeRange)

  datatype Traveler = Traveler(id: string, travelerType: string)

  datatype ConnectionRestriction = ConnectionRestriction(maxNumberOfConnections: nat)

  datatype FlightFilters = FlightFilters(connectionRestriction: Option<ConnectionRestriction>)

  datatype CabinRestriction = CabinRestriction(
    cabin: string,
    coverage: string,
    originDestinationIds: seq<string>)

  datatype SearchCriteria = SearchCriteria(
    maxFlightOffers: int,
    flightFilters: FlightFilters,
    cabinRestrictions: Option<seq<CabinRestriction>>)

  datatype Payload = Payload(
    currencyCode: string,
    originDestinations: seq<OriginDestination>,
    travelers: seq<Traveler>,
    sources: seq<string>,
    searchCriteria: SearchCriteria)

  const DefaultCurrency := "THB"
  const DefaultMaxOffers := 50
  const MaxOffersCap := 250
  /** The longest array JavaScript can create: 2^32 - 1 elements. */
  const MaxArrayLength := 0xFFFF_FFFF

  /** The only way building the body can fail: `Array.from` throws a
      RangeError when asked for more than `MaxArrayLength` travellers. */
  datatype BuildError = InvalidArrayLength

  /** JavaScript truthiness of an optional string field. */
  predicate Given(field: Option<string>) {
    field.Some? && field.value != ""
  }

  predicate HasReturn(q: SearchRequest) {
    Given(q.returnDate)
  }

  /** `Math.min(Number(max) || 50, 250)`: a missing or zero `max` means 50,
      and nothing above 250 is ever asked for. */
  function MaxFlightOffers(max: Option<int>): (r: int)
    ensures r <= MaxOffersCap
    ensures (max.None? || max.value == 0) ==> r == DefaultMaxOffers
    ensures max.Some? && max.value != 0 && max.value <= MaxOffersCap ==> r == max.value
    ensures max.Some? && max.value > MaxOffersCap ==> r == MaxOffersCap
  {
    var requested := if max.Some? && max.value != 0 then max.value else DefaultMaxOffers;
    if requested < MaxOffersCap then requested else MaxOffersCap
  }

  /** The array length `Array.from({ length: adults })` uses: `adults`
      defaults to 1, and a negative length counts as 0. */
  function TravelerCount(adults: Option<int>): (n: nat)
    ensures adults.None? ==> n == 1
    ensures adults.Some? && adults.value >= 0 ==> n == adults.value
    ensures adults.Some? && adults.value < 0 ==> n == 0
  {
    var a := adults.GetOr(1);
    if a < 0 then 0 else a
  }

  /** `n` adult travellers, numbered "1" to "n" in order. */
  function Travelers(n: nat): (ts: seq<Traveler>)
    ensures |ts| == n
    ensures forall i :: 0 <= i < n ==> ts[i] == Traveler(DecimalString(i + 1), "ADULT")
    decreases n
  {
    if n == 0 then [] else Travelers(n - 1) + [Traveler(DecimalString(n), "ADULT")]
  }

  /** The ids of a list of itineraries, in order. */
  function Ids(ods: seq<OriginDestination>): (ids: seq<string>)
    ensures |ids| == |ods|
    ensures forall i :: 0 <= i < |ods| ==> ids[i] == ods[i].id
    decreases |ods|
  {
    if ods == [] then [] else Ids(ods[..|ods| - 1]) + [ods[|ods| - 1].id]
  }

  /** The traveller array of `q` can be created. */
  predicate TravelersFit(q: SearchRequest) {
    TravelerCount(q.adults) <= MaxArrayLength
  }

  /** The body as first built (lines 62-78): the outbound leg only and an
      empty set of flight filters. */
  function BasePayload(q: SearchRequest): Payload
    requires TravelersFit(q)
  {
    Payload(
      q.currencyCode.GetOr(DefaultCurrency),
      [OriginDestination("1", q.originLocationCode, q.destinationLocationCode,
                         DateTimeRange(q.departureDate))],
      Travelers(TravelerCount(q.adults)),
      ["GDS"],
      SearchCriteria(MaxFlightOffers(q.max), FlightFilters(None), None))
  }

  /** Lines 80-87: a return date appends the reversed leg, id "2". */
  function AddReturnLeg(p: Payload, q: SearchRequest): Payload {
    if HasReturn(q) then
      p.(originDestinations := p.originDestinations +
           [OriginDestination("2", q.destinationLocationCode, q.originLocationCode,
                              DateTimeRange(q.returnDate))])
    else p
  }

  /** Lines 88-92: a boolean `nonStop` sets the connection limit. */
  function AddConnectionRestriction(p: Payload, q: SearchRequest): Payload {
    match q.nonStop
    case Some(nonStop) =>
      p.(searchCriteria := p.searchCriteria.(flightFilters :=
           FlightFilters(Some(ConnectionRestriction(if nonStop then 0 else 3)))))
    case None => p
  }

  /** Lines 93-96: a travel class restricts the cabin on "1", and on "2"
      when there is a return date. */
  function AddCabinRestriction(p: Payload, q: SearchRequest): Payload {
    if Given(q.travelClass) then
      p.(searchCriteria := p.searchCriteria.(cabinRestrictions :=
           Some([CabinRestriction(q.travelClass.value, "MOST_SEGMENTS",
                                  ["1"] + (if HasReturn(q) then ["2"] else []))])))
    else p
  }

  /** The upstream search body for a request whose traveller array can be
      created. */
  function SearchBody(q: SearchRequest): (p: Payload)
    requires TravelersFit(q)
    ensures p.currencyCode == q.currencyCode.GetOr(DefaultCurrency)
    ensures p.sources == ["GDS"]
    ensures p.searchCriteria.maxFlightOffers <= MaxOffersCap
    ensures p.searchCriteria.maxFlightOffers == MaxFlightOffers(q.max)
    // one leg out; a second one back, with the ends swapped, iff a return date is given
    ensures |p.originDestinations| == if HasReturn(q) then 2 else 1
    ensures p.originDestinations[0] ==
              OriginDestination("1", q.originLocationCode, q.destinationLocationCode,
                                DateTimeRange(q.departureDate))
    ensures HasReturn(q) ==>
              p.originDestinations[1] ==
                OriginDestination("2", p.originDestinations[0].destinationLocationCode,
                                  p.originDestinations[0].originLocationCode,
                                  DateTimeRange(q.returnDate))
    // one adult per traveller, numbered from 1
    ensures |p.travelers| == TravelerCount(q.adults)
    ensures forall i :: 0 <= i < |p.travelers| ==>
              p.travelers[i] == Traveler(DecimalString(i + 1), "ADULT")
    // a connection limit iff nonStop is a boolean: 0 when true, 3 when false
    ensures p.searchCriteria.flightFilters.connectionRestriction.Some? <==> q.nonStop.Some?
    ensures q.nonStop == Some(true) ==>
              p.searchCriteria.flightFilters.connectionRestriction == Some(ConnectionRestriction(0))
    ensures q.nonStop == Some(false) ==>
              p.searchCriteria.flightFilters.connectionRestriction == Some(ConnectionRestriction(3))
    // a cabin restriction iff a travel class is given, over exactly the legs built
    ensures p.searchCriteria.cabinRestrictions.Some? <==> Given(q.travelClass)
    ensures Given(q.travelClass) ==>
              p.searchCriteria.cabinRestrictions ==
                Some([CabinRestriction(q.travelClass.value, "MOST_SEGMENTS", Ids(p.originDestinations))])
  {
    var p := AddCabinRestriction(AddConnectionRestriction(AddReturnLeg(BasePayload(q), q), q), q);
    assert Ids(p.originDestinations) == ["1"] + (if HasReturn(q) then ["2"] else []);
    p
  }

  /** Lines 50-97 as a whole: the body is built unless `Array.from` throws
      first, which it does exactly when there are too many travellers. */
  function BuildPayload(q: SearchRequest): (r: Result<Payload, BuildError>)
    ensures r.Err? <==> TravelerCount(q.adults) > MaxArrayLength
    ensures r.Ok? ==> TravelersFit(q) && r.value == SearchBody(q)
  {
    if TravelerCount(q.adults) > MaxArrayLength then Err(InvalidArrayLength) else Ok(SearchBody(q))
  }

  /** Itinerary id "2" is present iff a return date is given, and so the
      cabin restriction names "2" only when that leg exists. */
  lemma ReturnLegIdIffReturnDate(q: SearchRequest)
    requires TravelersFit(q)
    ensures "2" in Ids(SearchBody(q).originDestinations) <==> HasReturn(q)
    ensures Given(q.travelClass) ==>
              ("2" in SearchBody(q).searchCriteria.cabinRestrictions.value[0].originDestinationIds
               <==> HasReturn(q))
  {
  }

  /** No two travellers share an id. */
  lemma TravelerIdsDistinct(q: SearchRequest, i: nat, j: nat)
    requires TravelersFit(q) && i < j < |SearchBody(q).travelers|
    ensures SearchBody(q).travelers[i].id != SearchBody(q).travelers[j].id
  {
    DecimalStringInjective(i + 1, j + 1);
  }

  /** The example request of a Bangkok-Tokyo one-way search for two adults. */
  lemma OneWayTwoAdults()
    ensures var q := SearchRequest(Some("BKK"), Some("NRT"), Some("2025-06-01"), None,
                                   Some(2), None, None, None, None);
            BuildPayload(q).Ok? &&
            var p := BuildPayload(q).value;
            |p.originDestinations| == 1 &&
            p.travelers == [Traveler("1", "ADULT"), Traveler("2", "ADULT")] &&
            p.currencyCode == "THB" &&
            p.searchCriteria.maxFlightOffers == 50 &&
            p.searchCriteria.flightFilters.connectionRestriction.None? &&
            p.searchCriteria.cabinRestrictions.None?
  {
  }

  /** A request for 2^32 adults builds no body. */
  lemma TooManyAdults()
    ensures BuildPayload(SearchRequest(Some("BKK"), Some("NRT"), Some("2025-06-01"), None,
                                       Some(0x1_0000_0000), None, None, None, None))
            == Err(InvalidArrayLength)
  {
  }
}
