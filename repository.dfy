/** `JsonVehiclesRepository`: the read-only record list and its direct query
    methods. The list is loaded once and never changed, so the repository is
    a value and its queries are functions of it. */
module Repository {
  import opened Domain
  import opened Linq
  import opened Paging

  datatype JsonVehiclesRepository = JsonVehiclesRepository(vehicles: seq<Vehicle>) {

    /** `GetAll`: the stored records, unchanged. */
    function GetAll(): (r: seq<Vehicle>)
      ensures r == vehicles
    {
      vehicles
    }

    /** `Get(pageNumber, pageSize)`: skip `(pageNumber - 1) * pageSize` records
        (unchecked 32-bit arithmetic) and take at most `pageSize`. */
    function Get(pageNumber: Int32, pageSize: Int32): (r: seq<Vehicle>)
      ensures |r| <= if pageSize <= 0 then 0 else pageSize
    {
      Take(Skip(vehicles, Offset(pageNumber, pageSize)), pageSize)
    }

    /** `GetByMake`: the records whose Make equals `make` ignoring case. */
    function GetByMake(make: string, culture: Culture): (r: seq<Vehicle>)
      ensures forall i :: 0 <= i < |r| ==> EqualsIgnoreCase(culture, r[i].make, make)
    {
      Filter(vehicles, MakeEquals(culture, make))
    }

    /** `GetByModel`: the records whose Model equals `model` ignoring case. */
    function GetByModel(model: string, culture: Culture): (r: seq<Vehicle>)
      ensures forall i :: 0 <= i < |r| ==> EqualsIgnoreCase(culture, r[i].model, model)
    {
      Filter(vehicles, ModelEquals(culture, model))
    }

    /** `UnifiedSearch`: with a null or empty term, every record; otherwise
        the records where at least one of the six text fields contains the
        term ignoring case. */
    function UnifiedSearch(term: Option<string>, culture: Culture): (r: seq<Vehicle>)
      ensures term.None? || term.value == "" ==> r == vehicles
      ensures term.Some? && term.value != "" ==>
        forall i :: 0 <= i < |r| ==> AnyFieldContains(culture, r[i], term.value)
    {
      if term.None? || term.value == "" then vehicles
      else Filter(vehicles, SearchMatches(culture, term.value))
    }
  }

  /** The GetByMake test. */
  function MakeEquals(culture: Culture, make: string): Vehicle -> bool {
    (v: Vehicle) => EqualsIgnoreCase(culture, v.make, make)
  }

  /** The GetByModel test. */
  function ModelEquals(culture: Culture, model: string): Vehicle -> bool {
    (v: Vehicle) => EqualsIgnoreCase(culture, v.model, model)
  }

  /** The UnifiedSearch test for a non-empty term. */
  function SearchMatches(culture: Culture, term: string): Vehicle -> bool {
    (v: Vehicle) => AnyFieldContains(culture, v, term)
  }

  /** The unified-search test on one record. */
  predicate AnyFieldContains(culture: Culture, v: Vehicle, term: string) {
    || ContainsIgnoreCase(culture, v.make, term)
    || ContainsIgnoreCase(culture, v.model, term)
    || ContainsIgnoreCase(culture, v.trim, term)
    || ContainsIgnoreCase(culture, v.colour, term)
    || ContainsIgnoreCase(culture, v.transmission, term)
    || ContainsIgnoreCase(culture, v.fuelType, term)
  }

  /** Get returns a contiguous, order-preserving slice of the stored records
      starting at the page offset, which is `(pageNumber - 1) * pageSize`
      whenever that product fits in an int. */
  lemma GetIsSlice(repo: JsonVehiclesRepository, pageNumber: Int32, pageSize: Int32)
    ensures
      var offset := Offset(pageNumber, pageSize);
      var start := if offset <= 0 then 0 else Min(offset, |repo.vehicles|);
      var len := if pageSize <= 0 then 0 else Min(pageSize, |repo.vehicles| - start);
      && (INT32_MIN <= (pageNumber - 1) * pageSize <= INT32_MAX ==> offset == (pageNumber - 1) * pageSize)
      && repo.Get(pageNumber, pageSize) == repo.vehicles[start..start + len]
  {
    PageIsSlice(repo.vehicles, Offset(pageNumber, pageSize), pageSize);
  }

  /** GetByMake keeps exactly the records whose Make equals `make` ignoring case. */
  lemma GetByMakeExactly(repo: JsonVehiclesRepository, make: string, culture: Culture, v: Vehicle)
    ensures v in repo.GetByMake(make, culture) <==> v in repo.vehicles && EqualsIgnoreCase(culture, v.make, make)
  {
    FilterMembership(repo.vehicles, MakeEquals(culture, make), v);
  }

  /** GetByModel keeps exactly the records whose Model equals `model` ignoring case. */
  lemma GetByModelExactly(repo: JsonVehiclesRepository, model: string, culture: Culture, v: Vehicle)
    ensures v in repo.GetByModel(model, culture) <==> v in repo.vehicles && EqualsIgnoreCase(culture, v.model, model)
  {
    FilterMembership(repo.vehicles, ModelEquals(culture, model), v);
  }

  /** UnifiedSearch with a non-empty term keeps exactly the records where one
      of make, model, trim, colour, transmission or fuel type contains it
      ignoring case. */
  lemma UnifiedSearchExactly(repo: JsonVehiclesRepository, term: string, culture: Culture, v: Vehicle)
    requires term != ""
    ensures v in repo.UnifiedSearch(Some(term), culture) <==> v in repo.vehicles && AnyFieldContains(culture, v, term)
  {
    FilterMembership(repo.vehicles, SearchMatches(culture, term), v);
  }

  /** Each direct query lists the records in stored order: splitting the
      stored list splits each answer the same way. */
  lemma QueriesKeepStoredOrder(a: seq<Vehicle>, b: seq<Vehicle>, make: string, model: string, term: string, culture: Culture)
    requires term != ""
    ensures JsonVehiclesRepository(a + b).GetByMake(make, culture)
      == JsonVehiclesRepository(a).GetByMake(make, culture) + JsonVehiclesRepository(b).GetByMake(make, culture)
    ensures JsonVehiclesRepository(a + b).GetByModel(model, culture)
      == JsonVehiclesRepository(a).GetByModel(model, culture) + JsonVehiclesRepository(b).GetByModel(model, culture)
    ensures JsonVehiclesRepository(a + b).UnifiedSearch(Some(term), culture)
      == JsonVehiclesRepository(a).UnifiedSearch(Some(term), culture) + JsonVehiclesRepository(b).UnifiedSearch(Some(term), culture)
  {
    FilterAppend(a, b, MakeEquals(culture, make));
    FilterAppend(a, b, ModelEquals(culture, model));
    FilterAppend(a, b, SearchMatches(culture, term));
  }
}
