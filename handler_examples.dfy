/** The three handler scenarios of the unit tests, run against their four
    stored records: no filter, a colour-and-make filter, and the second page
    of size two. */
module HandlerExamples {
  import opened Domain
  import opened Queries
  import opened Linq
  import opened Dto
  import opened Handler

  const TOYOTA := Vehicle(15000.0, "Toyota", "Corolla", "", "Red", 120, "Automatic", "Petrol", 1800, "15/10/2020", 50000)
  const HONDA := Vehicle(18000.0, "Honda", "Civic", "", "Blue", 110, "Manual", "Diesel", 2000, "10/06/2021", 30000)
  const FORD := Vehicle(17000.0, "Ford", "Focus", "", "Black", 100, "Automatic", "Hybrid", 1000, "20/05/2023", 20000)
  const MAZDA := Vehicle(15500.0, "Mazda", "5", "", "Red", 100, "Manual", "Hybrid", 1600, "19/04/2022", 50231)

  /** The stored records, in stored order. */
  const STORED := [TOYOTA, HONDA, FORD, MAZDA]

  /** The culture parses every stored registration date. */
  predicate ParsesStoredDates(culture: Culture) {
    && culture.parseDate(TOYOTA.dateFirstReg).Some?
    && culture.parseDate(HONDA.dateFirstReg).Some?
    && culture.parseDate(FORD.dateFirstReg).Some?
    && culture.parseDate(MAZDA.dateFirstReg).Some?
  }

  /** A filter every record passes returns all of them, in stored order. */
  lemma {:induction false} WhereAllMatch(vehicles: seq<Vehicle>, query: VehicleQuery, culture: Culture)
    requires forall i :: 0 <= i < |vehicles| ==> Matches(query, culture, vehicles[i])
    ensures Where(vehicles, query, culture) == vehicles
  {
    if vehicles != [] {
      WhereAllMatch(vehicles[1..], query, culture);
    }
  }

  /** The filter keeps or drops the first record, then filters the rest. */
  lemma WhereCons(x: Vehicle, rest: seq<Vehicle>, query: VehicleQuery, culture: Culture)
    ensures Where([x] + rest, query, culture) == (if Matches(query, culture, x) then [x] else []) + Where(rest, query, culture)
  {
    assert ([x] + rest)[1..] == rest;
  }

  /** A fresh query returns every stored record. */
  method NoFilterReturnsAll(culture: Culture) returns (count: int)
    requires ParsesStoredDates(culture)
    ensures count == |STORED|
  {
    var query := new VehicleQuery();
    forall i | 0 <= i < |STORED|
      ensures Matches(query, culture, STORED[i])
    {
      DefaultCriteriaKeepParsableRecords(query, culture, STORED[i]);
    }
    WhereAllMatch(STORED, query, culture);
    count := |Handle(STORED, query, culture).value|;
  }

  /** Of the stored records, only the Mazda is a red Mazda. */
  lemma OnlyRedMazdaMatches(query: VehicleQuery, culture: Culture)
    requires ParsesStoredDates(culture)
    requires culture.fold("Mazda") != culture.fold("Toyota")
    requires culture.fold("Mazda") != culture.fold("Honda")
    requires culture.fold("Mazda") != culture.fold("Ford")
    requires query.Valid()
    requires query.Current() == DEFAULT_CRITERIA.(colour := Some("Red"), make := Some("Mazda"))
    ensures Where(STORED, query, culture) == [MAZDA]
  {
    MatchesExactly(query, culture, TOYOTA);
    MatchesExactly(query, culture, HONDA);
    MatchesExactly(query, culture, FORD);
    MatchesExactly(query, culture, MAZDA);
    WhereCons(MAZDA, [], query, culture);
    WhereCons(FORD, [MAZDA], query, culture);
    WhereCons(HONDA, [FORD, MAZDA], query, culture);
    WhereCons(TOYOTA, [HONDA, FORD, MAZDA], query, culture);
  }

  /** Colour "Red" and make "Mazda" leave the one red Mazda, when the culture
      tells the Mazda apart from the other makes. */
  method ColourAndMakeFilter(culture: Culture) returns (count: int, first: VehicleDto)
    requires ParsesStoredDates(culture)
    requires culture.fold("Mazda") != culture.fold("Toyota")
    requires culture.fold("Mazda") != culture.fold("Honda")
    requires culture.fold("Mazda") != culture.fold("Ford")
    ensures count == 1
    ensures first.colour == "Red" && first.make == "Mazda"
  {
    var query := new VehicleQuery();
    query := query.WithColour(Some("Red"));
    query := query.WithMake(Some("Mazda"));
    OnlyRedMazdaMatches(query, culture);
    var result := Handle(STORED, query, culture).value;
    HandleProjectsPage(STORED, query, culture);
    count := |result|;
    first := result[0];
  }

  /** Page 2 of size 2 holds the third and fourth records, Ford Focus first. */
  method SecondPageOfTwo(culture: Culture) returns (count: int, first: VehicleDto)
    requires ParsesStoredDates(culture)
    ensures count == 2
    ensures first.make == "Ford" && first.model == "Focus"
  {
    var query := new VehicleQuery();
    query := query.WithPageNumber(Some(2));
    query := query.WithPageSize(Some(2));
    forall i | 0 <= i < |STORED|
      ensures Matches(query, culture, STORED[i])
    {
      MatchesExactly(query, culture, STORED[i]);
    }
    WhereAllMatch(STORED, query, culture);
    var result := Handle(STORED, query, culture).value;
    HandleProjectsPage(STORED, query, culture);
    count := |result|;
    first := result[0];
  }
}
