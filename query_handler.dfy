/** `VehicleQueryHandler.Handle`: evaluates a VehicleQuery against the stored
    records as a chain of filters, then pages and projects the survivors. */
module Handler {
  import opened Domain
  import opened Ranges
  import opened Paging
  import opened Queries
  import opened Linq
  import opened Dto

  /** A text criterion: none imposes nothing, otherwise the field must equal
      it ignoring case. */
  predicate TextMatches(culture: Culture, field: string, criterion: Option<string>) {
    criterion.None? || EqualsIgnoreCase(culture, field, criterion.value)
  }

  /** The date filter: the stored text must parse, and the parsed date must
      lie in the query's date range. A record whose date does not parse is
      dropped whatever the range. */
  predicate DateMatches(query: VehicleQuery, culture: Culture, x: Vehicle)
    reads query, query.dateFirstRegistered
  {
    match culture.parseDate(x.dateFirstReg)
    case None => false
    case Some(date) => query.dateFirstRegistered.IsInRange(date)
  }

  /** The conjunction of every Where in the handler's chain, in source order.
      The trim criterion is compared with the record's Model, as the source does. */
  predicate Matches(query: VehicleQuery, culture: Culture, x: Vehicle)
    reads query, query.price, query.co2Level, query.engineSize, query.mileage, query.dateFirstRegistered
    ensures Matches(query, culture, x) ==> culture.parseDate(x.dateFirstReg).Some?
    ensures Matches(query, culture, x) && query.make.Some? ==> EqualsIgnoreCase(culture, x.make, query.make.value)
    ensures Matches(query, culture, x) && query.trim.Some? ==> EqualsIgnoreCase(culture, x.model, query.trim.value)
    ensures Matches(query, culture, x) && query.colour.Some? ==> EqualsIgnoreCase(culture, x.colour, query.colour.value)
    ensures Matches(query, culture, x) && query.model.Some? ==> EqualsIgnoreCase(culture, x.model, query.model.value)
    ensures Matches(query, culture, x) && query.transmission.Some? ==> EqualsIgnoreCase(culture, x.transmission, query.transmission.value)
    ensures Matches(query, culture, x) && query.fuelType.Some? ==> EqualsIgnoreCase(culture, x.fuelType, query.fuelType.value)
  {
    && query.price.IsInRange(x.price)
    && TextMatches(culture, x.make, query.make)
    && TextMatches(culture, x.model, query.model)
    && TextMatches(culture, x.model, query.trim)
    && TextMatches(culture, x.colour, query.colour)
    && query.co2Level.IsInRange(x.co2Level)
    && TextMatches(culture, x.transmission, query.transmission)
    && TextMatches(culture, x.fuelType, query.fuelType)
    && query.engineSize.IsInRange(x.engineSize)
    && query.mileage.IsInRange(x.mileage)
    && DateMatches(query, culture, x)
  }

  /** The filtered sequence: the records that pass every filter, in stored order.
      This is `Linq.Filter` specialised to `Matches`: the chain's test reads
      the query's objects, which a total arrow such as Filter's may not, so
      the recursion and its two lemmas are repeated here over the query. */
  function Where(vehicles: seq<Vehicle>, query: VehicleQuery, culture: Culture): (r: seq<Vehicle>)
    reads query, query.price, query.co2Level, query.engineSize, query.mileage, query.dateFirstRegistered
    ensures |r| <= |vehicles|
    ensures forall i :: 0 <= i < |r| ==> Matches(query, culture, r[i])
  {
    if vehicles == [] then []
    else (if Matches(query, culture, vehicles[0]) then [vehicles[0]] else []) + Where(vehicles[1..], query, culture)
  }

  /** The page offset `(PageNumber - 1) * PageSize` of the query. */
  function PageOffset(query: VehicleQuery): Int32
    reads query, query.pageQuery
  {
    Offset(query.pageQuery.pageNumber, query.pageQuery.pageSize)
  }

  /** The page: skip the page offset of the filtered records, then take the
      page size. */
  function Page(vehicles: seq<Vehicle>, query: VehicleQuery, culture: Culture): (r: seq<Vehicle>)
    reads query, query.price, query.co2Level, query.engineSize, query.mileage, query.dateFirstRegistered, query.pageQuery
    ensures |r| <= if query.pageQuery.pageSize <= 0 then 0 else query.pageQuery.pageSize
    ensures forall i :: 0 <= i < |r| ==> Matches(query, culture, r[i])
  {
    Take(Skip(Where(vehicles, query, culture), PageOffset(query)), query.pageQuery.pageSize)
  }

  /** `Handle(query)`: filter, page and project. The projection never fails,
      because the date filter already dropped every record whose date does
      not parse. */
  function Handle(vehicles: seq<Vehicle>, query: VehicleQuery, culture: Culture): (r: Result<seq<VehicleDto>, DomainMappingError>)
    reads query, query.price, query.co2Level, query.engineSize, query.mileage, query.dateFirstRegistered, query.pageQuery
    ensures r.Success?
    ensures |r.value| <= if query.pageQuery.pageSize <= 0 then 0 else query.pageQuery.pageSize
  {
    SelectAll(Page(vehicles, query, culture), culture)
  }

  /** The filter keeps exactly the records that pass every criterion. */
  lemma {:induction false} WhereMembership(vehicles: seq<Vehicle>, query: VehicleQuery, culture: Culture, x: Vehicle)
    ensures x in Where(vehicles, query, culture) <==> x in vehicles && Matches(query, culture, x)
  {
    if vehicles != [] {
      WhereMembership(vehicles[1..], query, culture, x);
      assert vehicles == [vehicles[0]] + vehicles[1..];
    }
  }

  /** The filter distributes over concatenation: it keeps stored order. */
  lemma {:induction false} WhereAppend(a: seq<Vehicle>, b: seq<Vehicle>, query: VehicleQuery, culture: Culture)
    ensures Where(a + b, query, culture) == Where(a, query, culture) + Where(b, query, culture)
  {
    if a == [] {
      assert a + b == b;
    } else {
      var head := if Matches(query, culture, a[0]) then [a[0]] else [];
      calc {
        Where(a + b, query, culture);
        { assert (a + b)[0] == a[0] && (a + b)[1..] == a[1..] + b; }
        head + Where(a[1..] + b, query, culture);
        { WhereAppend(a[1..], b, query, culture); }
        head + (Where(a[1..], query, culture) + Where(b, query, culture));
        (head + Where(a[1..], query, culture)) + Where(b, query, culture);
      }
    }
  }

  /** With the standard comparers, a record passes the chain exactly when
      each numeric field lies between its inclusive bounds, each given text
      criterion equals its field ignoring case (trim against Model), and the
      date parses to a value between the date bounds. */
  lemma MatchesExactly(query: VehicleQuery, culture: Culture, x: Vehicle)
    requires query.Valid()
    ensures Matches(query, culture, x) <==>
      && query.price.min <= x.price <= query.price.max
      && query.co2Level.min <= x.co2Level <= query.co2Level.max
      && query.engineSize.min <= x.engineSize <= query.engineSize.max
      && query.mileage.min <= x.mileage <= query.mileage.max
      && (query.make.Some? ==> EqualsIgnoreCase(culture, x.make, query.make.value))
      && (query.model.Some? ==> EqualsIgnoreCase(culture, x.model, query.model.value))
      && (query.trim.Some? ==> EqualsIgnoreCase(culture, x.model, query.trim.value))
      && (query.colour.Some? ==> EqualsIgnoreCase(culture, x.colour, query.colour.value))
      && (query.transmission.Some? ==> EqualsIgnoreCase(culture, x.transmission, query.transmission.value))
      && (query.fuelType.Some? ==> EqualsIgnoreCase(culture, x.fuelType, query.fuelType.value))
      && culture.parseDate(x.dateFirstReg).Some?
      && query.dateFirstRegistered.min <= culture.parseDate(x.dateFirstReg).value <= query.dateFirstRegistered.max
  {
    assert query.price.IsInRange(x.price) <==> query.price.min <= x.price <= query.price.max;
    assert query.co2Level.IsInRange(x.co2Level) <==> query.co2Level.min <= x.co2Level <= query.co2Level.max;
    assert query.engineSize.IsInRange(x.engineSize) <==> query.engineSize.min <= x.engineSize <= query.engineSize.max;
    assert query.mileage.IsInRange(x.mileage) <==> query.mileage.min <= x.mileage <= query.mileage.max;
    match culture.parseDate(x.dateFirstReg)
    case None =>
    case Some(date) =>
      assert query.dateFirstRegistered.IsInRange(date) <==>
        query.dateFirstRegistered.min <= date <= query.dateFirstRegistered.max;
  }

  /** On a fresh query's criteria (full ranges, no text criterion) the chain
      keeps exactly the records with non-negative numbers whose date parses:
      the date filter runs even when no date bound was given. */
  lemma DefaultCriteriaKeepParsableRecords(query: VehicleQuery, culture: Culture, x: Vehicle)
    requires query.Valid()
    requires query.price.min == 0.0 && query.price.max == DECIMAL_MAX_VALUE
    requires query.co2Level.min == 0 && query.co2Level.max == INT32_MAX
    requires query.engineSize.min == 0 && query.engineSize.max == INT32_MAX
    requires query.mileage.min == 0 && query.mileage.max == INT32_MAX
    requires query.dateFirstRegistered.min == DATE_MIN_VALUE && query.dateFirstRegistered.max == DATE_MAX_VALUE
    requires query.make.None? && query.model.None? && query.trim.None?
    requires query.colour.None? && query.transmission.None? && query.fuelType.None?
    ensures Matches(query, culture, x) <==>
      x.price >= 0.0 && x.co2Level >= 0 && x.engineSize >= 0 && x.mileage >= 0
      && culture.parseDate(x.dateFirstReg).Some?
  {
    MatchesExactly(query, culture, x);
  }

  /** The page is a contiguous slice of the filtered records: it starts at
      the page offset (a negative offset skipping nothing, one past the end
      leaving nothing) and holds at most PageSize records. */
  lemma PageIsSliceOfMatches(vehicles: seq<Vehicle>, query: VehicleQuery, culture: Culture)
    ensures
      var matching := Where(vehicles, query, culture);
      var offset := PageOffset(query);
      var size := query.pageQuery.pageSize;
      var start := if offset <= 0 then 0 else if offset >= |matching| then |matching| else offset;
      var len := if size <= 0 then 0 else if size >= |matching| - start then |matching| - start else size;
      Page(vehicles, query, culture) == matching[start..start + len]
  {
    PageIsSlice(Where(vehicles, query, culture), PageOffset(query), query.pageQuery.pageSize);
  }

  /** The result projects the page item by item, in order. */
  lemma HandleProjectsPage(vehicles: seq<Vehicle>, query: VehicleQuery, culture: Culture)
    ensures
      var page := Page(vehicles, query, culture);
      var r := Handle(vehicles, query, culture).value;
      && |r| == |page|
      && forall k :: 0 <= k < |r| ==> FromDomainModel(page[k], culture) == Success(r[k])
  {
  }

  /** Every result is the projection of a stored record that passes every
      filter; so a record whose date does not parse never contributes. */
  lemma HandleResultsMatch(vehicles: seq<Vehicle>, query: VehicleQuery, culture: Culture, k: int)
    requires 0 <= k < |Handle(vehicles, query, culture).value|
    ensures exists x :: (x in vehicles && Matches(query, culture, x)
      && culture.parseDate(x.dateFirstReg).Some?
      && FromDomainModel(x, culture) == Success(Handle(vehicles, query, culture).value[k]))
  {
    HandleProjectsPage(vehicles, query, culture);
    PageIsSliceOfMatches(vehicles, query, culture);
    var x := Page(vehicles, query, culture)[k];
    assert x in Where(vehicles, query, culture);
    WhereMembership(vehicles, query, culture, x);
  }

  /** Every returned item satisfies the query: numeric fields within their
      inclusive ranges, given text criteria equal ignoring case (the trim
      criterion against Model), and the date within the date range. */
  lemma HandleResultsSatisfyQuery(vehicles: seq<Vehicle>, query: VehicleQuery, culture: Culture, k: int)
    requires query.Valid()
    requires 0 <= k < |Handle(vehicles, query, culture).value|
    ensures var d := Handle(vehicles, query, culture).value[k];
      && query.price.min <= d.price <= query.price.max
      && query.co2Level.min <= d.co2Level <= query.co2Level.max
      && query.engineSize.min <= d.engineSize <= query.engineSize.max
      && query.mileage.min <= d.mileage <= query.mileage.max
      && (query.make.Some? ==> EqualsIgnoreCase(culture, d.make, query.make.value))
      && (query.model.Some? ==> EqualsIgnoreCase(culture, d.model, query.model.value))
      && (query.trim.Some? ==> EqualsIgnoreCase(culture, d.model, query.trim.value))
      && (query.colour.Some? ==> EqualsIgnoreCase(culture, d.colour, query.colour.value))
      && (query.transmission.Some? ==> EqualsIgnoreCase(culture, d.transmission, query.transmission.value))
      && (query.fuelType.Some? ==> EqualsIgnoreCase(culture, d.fuelType, query.fuelType.value))
      && query.dateFirstRegistered.min <= d.dateFirstReg <= query.dateFirstRegistered.max
  {
    HandleResultsMatch(vehicles, query, culture, k);
    var x :| x in vehicles && Matches(query, culture, x)
      && culture.parseDate(x.dateFirstReg).Some?
      && FromDomainModel(x, culture) == Success(Handle(vehicles, query, culture).value[k]);
    MatchesExactly(query, culture, x);
  }

  /** A record whose date text does not parse is never returned, whatever
      the query's date bounds. */
  lemma UnparsableDateExcluded(vehicles: seq<Vehicle>, query: VehicleQuery, culture: Culture, x: Vehicle)
    requires culture.parseDate(x.dateFirstReg).None?
    ensures x !in Where(vehicles, query, culture)
    ensures x !in Page(vehicles, query, culture)
  {
    WhereMembership(vehicles, query, culture, x);
    PageIsSliceOfMatches(vehicles, query, culture);
  }
}
