/** Shared vocabulary of the vehicle query pipeline: the C# primitive types the
    core relies on, the stored vehicle record, and the two culture-dependent
    services (case-insensitive comparison and date parsing) that the core uses
    but does not define. */
module Domain {

  datatype Option<+T> = None | Some(value: T)

  /** The carried value, or `default` when there is none (`x ?? default`). */
  function ValueOr<T>(o: Option<T>, default: T): (r: T)
    ensures o.Some? ==> r == o.value
    ensures o.None? ==> r == default
  {
    if o.Some? then o.value else default
  }

  /** Failure outcome of a call that throws in the source. */
  datatype Result<+R, +E> = Success(value: R) | Failure(error: E)

  /** C#'s `int`. */
  const INT32_MIN: int := -0x8000_0000
  const INT32_MAX: int := 0x7fff_ffff
  type Int32 = x: int | INT32_MIN <= x <= INT32_MAX

  /** C#'s `decimal`, modelled as an exact rational number bounded by
      decimal.MinValue and decimal.MaxValue. */
  const DECIMAL_MAX_VALUE: real := 79228162514264337593543950335.0
  type Decimal = r: real | -DECIMAL_MAX_VALUE <= r <= DECIMAL_MAX_VALUE

  /** C#'s `DateTime`, modelled by its tick count: DateTime.MinValue has 0
      ticks and DateTime.MaxValue the largest count a DateTime can hold. */
  const DATE_MIN_VALUE: int := 0
  const DATE_MAX_VALUE: int := 3155378975999999999
  type Date = t: int | DATE_MIN_VALUE <= t <= DATE_MAX_VALUE

  /** C#'s `Math.Min` on `int`. */
  function Min(a: int, b: int): (r: int)
    ensures r <= a && r <= b && (r == a || r == b)
  {
    if a <= b then a else b
  }

  /** `int.CompareTo`: -1, 0 or 1. */
  function CompareInt32(a: Int32, b: Int32): (r: int)
    ensures r <= 0 <==> a <= b
    ensures r >= 0 <==> a >= b
  {
    if a < b then -1 else if a > b then 1 else 0
  }

  /** `DateTime.CompareTo`, which compares tick counts: -1, 0 or 1. */
  function CompareDate(a: Date, b: Date): (r: int)
    ensures r <= 0 <==> a <= b
    ensures r >= 0 <==> a >= b
  {
    if a < b then -1 else if a > b then 1 else 0
  }

  /** `decimal.CompareTo`: -1, 0 or 1. */
  function CompareDecimal(a: Decimal, b: Decimal): (r: int)
    ensures r <= 0 <==> a <= b
    ensures r >= 0 <==> a >= b
  {
    if a < b then -1 else if a > b then 1 else 0
  }

  /** A stored vehicle record. Text fields default to the empty string and
      numeric fields to zero; the registration date is kept as raw text. */
  datatype Vehicle = Vehicle(
    price: Decimal,
    make: string,
    model: string,
    trim: string,
    colour: string,
    co2Level: Int32,
    transmission: string,
    fuelType: string,
    engineSize: Int32,
    dateFirstReg: string,
    mileage: Int32)

  /** The record `new Vehicle()` builds before any property is set. */
  const DEFAULT_VEHICLE: Vehicle := Vehicle(0.0, "", "", "", "", 0, "", "", 0, "", 0)

  /** The culture services the core calls into:
      `fold` is the case folding behind StringComparison.InvariantCultureIgnoreCase,
      `parseDate` is DateTime.TryParse (None when the text is not a date). */
  datatype Culture = Culture(fold: string -> string, parseDate: string -> Option<Date>)

  /** `string.Equals(a, b, StringComparison.InvariantCultureIgnoreCase)`. */
  predicate EqualsIgnoreCase(culture: Culture, a: string, b: string) {
    culture.fold(a) == culture.fold(b)
  }

  /** `t` occurs as a contiguous block inside `s`: it is a prefix of `s` or
      of some suffix of `s`. */
  predicate IsInfix(t: string, s: string) {
    t <= s || (s != [] && IsInfix(t, s[1..]))
  }

  /** `s.Contains(t, StringComparison.InvariantCultureIgnoreCase)`. */
  predicate ContainsIgnoreCase(culture: Culture, s: string, t: string) {
    IsInfix(culture.fold(t), culture.fold(s))
  }
}
