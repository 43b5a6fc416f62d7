/** `VehicleQuery`: the mutable fluent builder that accumulates the criteria of
    one vehicle search. Every `With*` method changes only its own criterion and
    returns the builder itself. */
module Queries {
  import opened Domain
  import opened Ranges
  import opened Paging

  const DEFAULT_PAGE_SIZE: Int32 := 50
  const MAX_PAGE_SIZE: Int32 := 100

  /** Every criterion value a VehicleQuery holds, read through its page and
      range objects. */
  datatype Criteria = Criteria(
    pageNumber: Int32, pageSize: Int32,
    priceMin: Decimal, priceMax: Decimal,
    make: Option<string>, model: Option<string>, trim: Option<string>, colour: Option<string>,
    co2Min: Int32, co2Max: Int32,
    transmission: Option<string>, fuelType: Option<string>,
    engineMin: Int32, engineMax: Int32,
    dateMin: Date, dateMax: Date,
    mileageMin: Int32, mileageMax: Int32)

  /** The criteria of a fresh query: page 1 of size 50, every range spanning
      its whole domain, and no text criterion. */
  const DEFAULT_CRITERIA := Criteria(
    1, DEFAULT_PAGE_SIZE,
    0.0, DECIMAL_MAX_VALUE,
    None, None, None, None,
    0, INT32_MAX,
    None, None,
    0, INT32_MAX,
    DATE_MIN_VALUE, DATE_MAX_VALUE,
    0, INT32_MAX)

  class VehicleQuery {
    /** The page and range objects are created with the query and never
        replaced: their `With*` methods update them in place and return them. */
    const pageQuery: PageQuery
    const price: RangeQuery<Decimal>
    /** A text criterion; None stands for the source's null, meaning "no constraint". */
    var make: Option<string>
    var model: Option<string>
    var trim: Option<string>
    var colour: Option<string>
    const co2Level: RangeQuery<Int32>
    var transmission: Option<string>
    var fuelType: Option<string>
    const engineSize: RangeQuery<Int32>
    const dateFirstRegistered: RangeQuery<Date>
    const mileage: RangeQuery<Int32>

    /** The objects this builder owns. */
    ghost function Repr(): set<object> {
      {this, pageQuery, price, co2Level, engineSize, dateFirstRegistered, mileage}
    }

    /** No two of the builder's ranges are the same object, each range
        compares with its type's CompareTo, the page falls back to page 1 and
        size 50, and the page size never exceeds the cap. */
    ghost predicate Valid()
      reads pageQuery
    {
      && co2Level != engineSize && co2Level != mileage && engineSize != mileage
      && price.compare == CompareDecimal
      && co2Level.compare == CompareInt32 && engineSize.compare == CompareInt32
      && dateFirstRegistered.compare == CompareDate && mileage.compare == CompareInt32
      && pageQuery.initialPageNumber == 1
      && pageQuery.initialPageSize == DEFAULT_PAGE_SIZE
      && pageQuery.pageSize <= MAX_PAGE_SIZE
    }

    /** The current value of every criterion. */
    ghost function Current(): Criteria
      reads this, pageQuery, price, co2Level, engineSize, dateFirstRegistered, mileage
    {
      Criteria(
        pageQuery.pageNumber, pageQuery.pageSize,
        price.min, price.max,
        make, model, trim, colour,
        co2Level.min, co2Level.max,
        transmission, fuelType,
        engineSize.min, engineSize.max,
        dateFirstRegistered.min, dateFirstRegistered.max,
        mileage.min, mileage.max)
    }

    /** A fresh query: page 1 of size 50, every range spanning its whole
        domain, and no text criterion. */
    constructor ()
      ensures Valid() && fresh(Repr())
      ensures Current() == DEFAULT_CRITERIA
    {
      pageQuery := new PageQuery(1, DEFAULT_PAGE_SIZE);
      price := new RangeQuery(CompareDecimal, 0.0, DECIMAL_MAX_VALUE);
      make, model, trim, colour := None, None, None, None;
      co2Level := new RangeQuery(CompareInt32, 0, INT32_MAX);
      transmission, fuelType := None, None;
      engineSize := new RangeQuery(CompareInt32, 0, INT32_MAX);
      dateFirstRegistered := new RangeQuery(CompareDate, DATE_MIN_VALUE, DATE_MAX_VALUE);
      mileage := new RangeQuery(CompareInt32, 0, INT32_MAX);
    }

    /** A missing page number resets to page 1. */
    method WithPageNumber(page: Option<Int32>) returns (r: VehicleQuery)
      requires Valid()
      modifies pageQuery`pageNumber
      ensures Valid() && r == this
      ensures Current() == old(Current()).(pageNumber := ValueOr(page, 1))
    {
      var updated := pageQuery.WithPageNumber(page);
      r := this;
    }

    /** A given size is capped at 100; no size resets to the default 50. */
    method WithPageSize(pageSize: Option<Int32>) returns (r: VehicleQuery)
      requires Valid()
      modifies pageQuery`pageSize
      ensures Valid() && r == this
      ensures Current() == old(Current()).(pageSize := if pageSize.Some? then Min(pageSize.value, MAX_PAGE_SIZE) else DEFAULT_PAGE_SIZE)
    {
      var updated := pageQuery.WithPageSize(if pageSize.Some? then Some(Min(pageSize.value, MAX_PAGE_SIZE) as Int32) else None);
      r := this;
    }

    method WithMake(make: Option<string>) returns (r: VehicleQuery)
      requires Valid()
      modifies this`make
      ensures Valid() && r == this
      ensures Current() == old(Current()).(make := make)
    {
      this.make := make;
      r := this;
    }

    method WithModel(model: Option<string>) returns (r: VehicleQuery)
      requires Valid()
      modifies this`model
      ensures Valid() && r == this
      ensures Current() == old(Current()).(model := model)
    {
      this.model := model;
      r := this;
    }

    method WithTrim(trim: Option<string>) returns (r: VehicleQuery)
      requires Valid()
      modifies this`trim
      ensures Valid() && r == this
      ensures Current() == old(Current()).(trim := trim)
    {
      this.trim := trim;
      r := this;
    }

    method WithColour(colour: Option<string>) returns (r: VehicleQuery)
      requires Valid()
      modifies this`colour
      ensures Valid() && r == this
      ensures Current() == old(Current()).(colour := colour)
    {
      this.colour := colour;
      r := this;
    }

    /** Replaces only the bounds that are given. */
    method WithCo2Level(min: Option<Int32>, max: Option<Int32>) returns (r: VehicleQuery)
      requires Valid()
      modifies co2Level`min, co2Level`max
      ensures Valid() && r == this
      ensures Current() == old(Current()).(co2Min := ValueOr(min, old(Current()).co2Min), co2Max := ValueOr(max, old(Current()).co2Max))
    {
      if min.Some? {
        var updated := co2Level.WithMin(min.value);
      }
      if max.Some? {
        var updated := co2Level.WithMax(max.value);
      }
      r := this;
    }

    method WithTransmission(transmission: Option<string>) returns (r: VehicleQuery)
      requires Valid()
      modifies this`transmission
      ensures Valid() && r == this
      ensures Current() == old(Current()).(transmission := transmission)
    {
      this.transmission := transmission;
      r := this;
    }

    method WithFuelType(fuelType: Option<string>) returns (r: VehicleQuery)
      requires Valid()
      modifies this`fuelType
      ensures Valid() && r == this
      ensures Current() == old(Current()).(fuelType := fuelType)
    {
      this.fuelType := fuelType;
      r := this;
    }

    /** Replaces only the bounds that are given. */
    method WithEngineSize(min: Option<Int32>, max: Option<Int32>) returns (r: VehicleQuery)
      requires Valid()
      modifies engineSize`min, engineSize`max
      ensures Valid() && r == this
      ensures Current() == old(Current()).(engineMin := ValueOr(min, old(Current()).engineMin), engineMax := ValueOr(max, old(Current()).engineMax))
    {
      if min.Some? {
        var updated := engineSize.WithMin(min.value);
      }
      if max.Some? {
        var updated := engineSize.WithMax(max.value);
      }
      r := this;
    }

    /** Replaces only the bounds that are given. */
    method WithDateFirstRegistered(min: Option<Date>, max: Option<Date>) returns (r: VehicleQuery)
      requires Valid()
      modifies dateFirstRegistered`min, dateFirstRegistered`max
      ensures Valid() && r == this
      ensures Current() == old(Current()).(dateMin := ValueOr(min, old(Current()).dateMin), dateMax := ValueOr(max, old(Current()).dateMax))
    {
      if min.Some? {
        var updated := dateFirstRegistered.WithMin(min.value);
      }
      if max.Some? {
        var updated := dateFirstRegistered.WithMax(max.value);
      }
      r := this;
    }

    /** Replaces only the bounds that are given. */
    method WithPrice(min: Option<Decimal>, max: Option<Decimal>) returns (r: VehicleQuery)
      requires Valid()
      modifies price`min, price`max
      ensures Valid() && r == this
      ensures Current() == old(Current()).(priceMin := ValueOr(min, old(Current()).priceMin), priceMax := ValueOr(max, old(Current()).priceMax))
    {
      if min.Some? {
        var updated := price.WithMin(min.value);
      }
      if max.Some? {
        var updated := price.WithMax(max.value);
      }
      r := this;
    }

    /** Replaces only the bounds that are given. */
    method WithMileage(min: Option<Int32>, max: Option<Int32>) returns (r: VehicleQuery)
      requires Valid()
      modifies mileage`min, mileage`max
      ensures Valid() && r == this
      ensures Current() == old(Current()).(mileageMin := ValueOr(min, old(Current()).mileageMin), mileageMax := ValueOr(max, old(Current()).mileageMax))
    {
      if min.Some? {
        var updated := mileage.WithMin(min.value);
      }
      if max.Some? {
        var updated := mileage.WithMax(max.value);
      }
      r := this;
    }
  }
}
