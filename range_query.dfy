/** `RangeQuery<T>`: an inclusive min/max test whose bounds are replaced in
    place. T's `CompareTo` is carried by the object as `compare`. */
module Ranges {
  import opened Domain

  class RangeQuery<T> {
    /** T's CompareTo: negative, zero or positive as a < b, a == b, a > b. */
    const compare: (T, T) -> int
    var min: T
    var max: T

    constructor (compare: (T, T) -> int, min: T, max: T)
      ensures this.compare == compare && this.min == min && this.max == max
    {
      this.compare := compare;
      this.min := min;
      this.max := max;
    }

    method WithMin(value: T) returns (r: RangeQuery<T>)
      modifies this`min
      ensures r == this && min == value
    {
      min := value;
      r := this;
    }

    method WithMax(value: T) returns (r: RangeQuery<T>)
      modifies this`max
      ensures r == this && max == value
    {
      max := value;
      r := this;
    }

    /** Both ends are inclusive. */
    predicate IsInRange(value: T)
      reads this
    {
      compare(value, min) >= 0 && compare(value, max) <= 0
    }
  }

  /** A comparer that orders T consistently: the sign flips when the arguments
      are swapped, and "at most" is transitive. */
  ghost predicate IsOrdering<T(!new)>(compare: (T, T) -> int) {
    && (forall a, b :: compare(a, b) <= 0 <==> compare(b, a) >= 0)
    && (forall a, b, c :: compare(a, b) <= 0 && compare(b, c) <= 0 ==> compare(a, c) <= 0)
  }

  /** int's, DateTime's and decimal's CompareTo are orderings. */
  lemma StandardComparersAreOrderings()
    ensures IsOrdering(CompareInt32)
    ensures IsOrdering(CompareDate)
    ensures IsOrdering(CompareDecimal)
  {
  }

  /** An inverted range (min after max) contains no value at all. */
  lemma InvertedRangeIsEmpty<T(!new)>(r: RangeQuery<T>, value: T)
    requires IsOrdering(r.compare)
    requires r.compare(r.min, r.max) > 0
    ensures !r.IsInRange(value)
  {
  }

  /** With int's, DateTime's and decimal's CompareTo, a range holds exactly
      the values between its bounds, both ends included. */
  lemma StandardRangesAreInclusive(ints: RangeQuery<Int32>, i: Int32, dates: RangeQuery<Date>, d: Date,
                                   decimals: RangeQuery<Decimal>, m: Decimal)
    requires ints.compare == CompareInt32
    requires dates.compare == CompareDate
    requires decimals.compare == CompareDecimal
    ensures ints.IsInRange(i) <==> ints.min <= i <= ints.max
    ensures dates.IsInRange(d) <==> dates.min <= d <= dates.max
    ensures decimals.IsInRange(m) <==> decimals.min <= m <= decimals.max
  {
  }
}
