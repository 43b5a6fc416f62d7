/** `QueryVehiclesRequest`: the bound query-string parameters of a vehicle
    search, their validation, and their translation into a VehicleQuery. */
module Requests {
  import opened Domain
  import opened Ranges
  import opened Paging
  import opened Queries
  import opened Validation

  const REQUEST_DEFAULT_PAGE_SIZE: Int32 := 10

  const MILEAGE_MESSAGE := "MaxMileage must be greater than MinMileage."
  const PRICE_MESSAGE := "MaxPrice must be greater than MinPrice."
  const DATE_MESSAGE := "MaxDateFirstRegistered must be greater than MinDateFirstRegistered."

  class QueryVehiclesRequest {
    var pageNumber: Int32
    var pageSize: Int32
    var minPrice: Option<Decimal>
    var maxPrice: Option<Decimal>
    var make: Option<string>
    var model: Option<string>
    var trim: Option<string>
    var colour: Option<string>
    var minCo2Level: Option<Int32>
    var maxCo2Level: Option<Int32>
    var transmission: Option<string>
    var fuelType: Option<string>
    var minEngineSize: Option<Int32>
    var maxEngineSize: Option<Int32>
    var minDateFirstRegistered: Option<Date>
    var maxDateFirstRegistered: Option<Date>
    var minMileage: Option<Int32>
    var maxMileage: Option<Int32>

    /** A request with nothing bound: page 1, page size 10, no filter. */
    constructor ()
      ensures pageNumber == 1 && pageSize == REQUEST_DEFAULT_PAGE_SIZE
      ensures minPrice.None? && maxPrice.None? && make.None? && model.None?
      ensures trim.None? && colour.None? && minCo2Level.None? && maxCo2Level.None?
      ensures transmission.None? && fuelType.None? && minEngineSize.None? && maxEngineSize.None?
      ensures minDateFirstRegistered.None? && maxDateFirstRegistered.None?
      ensures minMileage.None? && maxMileage.None?
    {
      pageNumber, pageSize := 1, REQUEST_DEFAULT_PAGE_SIZE;
      minPrice, maxPrice, make, model := None, None, None, None;
      trim, colour, minCo2Level, maxCo2Level := None, None, None, None;
      transmission, fuelType, minEngineSize, maxEngineSize := None, None, None, None;
      minDateFirstRegistered, maxDateFirstRegistered := None, None;
      minMileage, maxMileage := None, None;
    }

    /** Both mileage bounds given and the maximum below the minimum. */
    predicate MileageInverted()
      reads this
    {
      maxMileage.Some? && minMileage.Some? && maxMileage.value < minMileage.value
    }

    predicate PriceInverted()
      reads this
    {
      maxPrice.Some? && minPrice.Some? && maxPrice.value < minPrice.value
    }

    predicate DateInverted()
      reads this
    {
      maxDateFirstRegistered.Some? && minDateFirstRegistered.Some?
      && maxDateFirstRegistered.value < minDateFirstRegistered.value
    }

    /** The error dictionary Validate builds: one entry per inverted pair
        of bounds, keyed by the name of the maximum. */
    function ValidationErrors(): map<string, seq<string>>
      reads this
    {
      var afterMileage: map<string, seq<string>> :=
        if MileageInverted() then map["MaxMileage" := [MILEAGE_MESSAGE]] else map[];
      var afterPrice :=
        if PriceInverted() then afterMileage["MaxPrice" := [PRICE_MESSAGE]] else afterMileage;
      if DateInverted() then afterPrice["MaxDateFirstRegistered" := [DATE_MESSAGE]] else afterPrice
    }

    /** Checks the three min/max pairs in the order mileage, price, date;
        CO2, engine size and paging are not checked. */
    method Validate() returns (result: RequestValidationResult)
      ensures fresh(result) && result.Valid()
      ensures result.errors == old(ValidationErrors())
    {
      result := new RequestValidationResult();
      if MileageInverted() {
        result.AddError("MaxMileage", MILEAGE_MESSAGE);
      }
      assert "MaxPrice" !in result.errors && "MaxDateFirstRegistered" !in result.errors;
      if PriceInverted() {
        result.AddError("MaxPrice", PRICE_MESSAGE);
      }
      assert "MaxDateFirstRegistered" !in result.errors;
      if DateInverted() {
        result.AddError("MaxDateFirstRegistered", DATE_MESSAGE);
      }
    }

    /** The criteria a request stands for: its page number, its page size
        capped at 100, its bounds with each missing one replaced by the
        default, and the CO2 bounds in place of the engine-size bounds. */
    function QueryCriteria(): Criteria
      reads this
    {
      Criteria(
        pageNumber, Min(pageSize, MAX_PAGE_SIZE),
        ValueOr(minPrice, 0.0), ValueOr(maxPrice, DECIMAL_MAX_VALUE),
        make, model, trim, colour,
        ValueOr(minCo2Level, 0), ValueOr(maxCo2Level, INT32_MAX),
        transmission, fuelType,
        ValueOr(minCo2Level, 0), ValueOr(maxCo2Level, INT32_MAX),
        ValueOr(minDateFirstRegistered, DATE_MIN_VALUE), ValueOr(maxDateFirstRegistered, DATE_MAX_VALUE),
        ValueOr(minMileage, 0), ValueOr(maxMileage, INT32_MAX))
    }

    /** Drives the builder from a fresh VehicleQuery. Every criterion is
        passed through, the page size is capped at 100, and the engine-size
        range receives the CO2 bounds (the engine-size fields are unused). */
    method ToQuery() returns (query: VehicleQuery)
      ensures fresh(query.Repr()) && query.Valid()
      ensures query.Current() == old(QueryCriteria())
    {
      // The request's properties, read once before the builder chain.
      var pn, ps := pageNumber, pageSize;
      var minP, maxP, mk, md, tr, cl := minPrice, maxPrice, make, model, trim, colour;
      var minC, maxC, tm, ft := minCo2Level, maxCo2Level, transmission, fuelType;
      var minD, maxD, minM, maxM := minDateFirstRegistered, maxDateFirstRegistered, minMileage, maxMileage;
      query := new VehicleQuery();
      query := query.WithPageNumber(Some(pn));
      query := query.WithPageSize(Some(ps));
      query := query.WithPrice(minP, maxP);
      query := query.WithMake(mk);
      query := query.WithModel(md);
      query := query.WithTrim(tr);
      query := query.WithColour(cl);
      query := query.WithCo2Level(minC, maxC);
      query := query.WithTransmission(tm);
      query := query.WithFuelType(ft);
      query := query.WithEngineSize(minC, maxC);
      query := query.WithDateFirstRegistered(minD, maxD);
      query := query.WithMileage(minM, maxM);
    }
  }

  /** Validate reports exactly the inverted pairs, one message each, under
      the name of the maximum; a request is valid exactly when no pair is
      inverted. */
  lemma ValidationErrorsExactly(r: QueryVehiclesRequest)
    ensures var e := r.ValidationErrors();
      && ("MaxMileage" in e <==> r.MileageInverted())
      && ("MaxPrice" in e <==> r.PriceInverted())
      && ("MaxDateFirstRegistered" in e <==> r.DateInverted())
      && e.Keys <= {"MaxMileage", "MaxPrice", "MaxDateFirstRegistered"}
      && (r.MileageInverted() ==> e["MaxMileage"] == [MILEAGE_MESSAGE])
      && (r.PriceInverted() ==> e["MaxPrice"] == [PRICE_MESSAGE])
      && (r.DateInverted() ==> e["MaxDateFirstRegistered"] == [DATE_MESSAGE])
      && (|e| == 0 <==> !r.MileageInverted() && !r.PriceInverted() && !r.DateInverted())
  {
    assert |"MaxPrice"| < |"MaxMileage"| < |"MaxDateFirstRegistered"|;
  }

  /** When both bounds of a pair are given and the request passed
      validation, the query's range for that pair is not inverted. A single
      bound is not checked against the default of the other. */
  lemma ValidatedRangesAreOrdered(r: QueryVehiclesRequest)
    requires |r.ValidationErrors()| == 0
    ensures var c := r.QueryCriteria();
      && (r.minMileage.Some? && r.maxMileage.Some? ==> c.mileageMin <= c.mileageMax)
      && (r.minPrice.Some? && r.maxPrice.Some? ==> c.priceMin <= c.priceMax)
      && (r.minDateFirstRegistered.Some? && r.maxDateFirstRegistered.Some? ==> c.dateMin <= c.dateMax)
  {
    ValidationErrorsExactly(r);
  }

  /** The query handed over never asks for more than 100 items per page,
      keeps a page size up to 100 as given, and searches engine size with
      the CO2 bounds. */
  lemma QueryCriteriaShape(r: QueryVehiclesRequest)
    ensures var c := r.QueryCriteria();
      && c.pageSize <= MAX_PAGE_SIZE
      && (r.pageSize <= MAX_PAGE_SIZE ==> c.pageSize == r.pageSize)
      && c.pageNumber == r.pageNumber
      && c.engineMin == c.co2Min && c.engineMax == c.co2Max
  {
  }

  /** A request with nothing bound becomes the default query except for its
      page size of 10. */
  method DefaultRequestQuery() returns (query: VehicleQuery)
    ensures query.Valid()
    ensures query.Current() == DEFAULT_CRITERIA.(pageSize := REQUEST_DEFAULT_PAGE_SIZE)
  {
    var request := new QueryVehiclesRequest();
    query := request.ToQuery();
  }
}
